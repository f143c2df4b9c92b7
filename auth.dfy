/**
 * The PIN / biometric gate (src/features/auth/hooks/useAuth.ts) over the
 * device's secure store (src/services/authentication.ts).
 *
 * `Gate` is the hook's state and `Vault` what the secure store holds under
 * the PIN key and the biometric-preference key. The handlers are
 * transitions on the pair; `AuthGate` and `CredentialStore` hold the same
 * fields and their methods are proved to end in the states the
 * transitions give. Whether a store read or write fails, whether the device
 * has biometric hardware with an enrolment, and how a biometric prompt
 * ends are parameters.
 */
module Auth {

  import opened Types
  import Text

  const PinTooShort: string := "PIN must be at least 4 digits"
  const IncorrectPin: string := "Incorrect PIN. Please try again."
  const AuthFailed: string := "Authentication failed. Please try again."
  const BiometricFailed: string := "Biometric authentication failed. Please enter your PIN."
  const BiometricError: string := "Biometric authentication error. Please enter your PIN."
  const PreferenceFailed: string := "Failed to update biometric preference"

  // ------------------------------------------------------------ the store

  /** The two secure-store entries; None when nothing was written. */
  datatype Vault = Vault(pin: Option<string>, biometric: Option<string>)

  /** `getPin`: the stored PIN, or null when absent or when the read fails. */
  function ReadPin(v: Vault, readFails: bool): (r: Option<string>)
    ensures readFails ==> r == None
    ensures !readFails ==> r == v.pin
  {
    if readFails then None else v.pin
  }

  /** `JSON.stringify` of a boolean. */
  function PreferenceText(enabled: bool): (t: string)
    ensures t == "true" <==> enabled
  {
    if enabled then "true" else "false"
  }

  /** `getBiometricPreference`: on exactly when the entry reads "true". */
  function ReadBiometric(v: Vault, readFails: bool): (on: bool)
    ensures on <==> !readFails && v.biometric == Some("true")
  {
    !readFails && v.biometric == Some("true")
  }

  /** A preference written is the preference read back. */
  lemma {:induction false} PreferenceRoundTrip(v: Vault, enabled: bool)
    ensures ReadBiometric(v.(biometric := Some(PreferenceText(enabled))), false) == enabled
  {
  }

  // ------------------------------------------------------------- the gate

  datatype Gate = Gate(
    pin: string,
    isLoading: bool,
    isBiometricLoading: bool,
    error: string,
    authSuccess: bool,
    biometricEnabled: bool,
    biometricAvailable: bool,
    showBiometricPrompt: bool)

  /** A gate and the store after one handler. */
  datatype Step = Step(gate: Gate, vault: Vault)

  /** The `useState` initial values. */
  function InitialGate(): (g: Gate)
    ensures g.pin == [] && g.error == [] && !g.authSuccess && !g.isLoading && g.isBiometricLoading
    ensures !g.biometricEnabled && !g.biometricAvailable && !g.showBiometricPrompt
  {
    Gate([], false, true, [], false, false, false, false)
  }

  /** `!storedPin`: no PIN, or the empty one. */
  predicate NoPin(stored: Option<string>) {
    stored == None || stored == Some([])
  }

  /**
   * `handlePinSubmit`. A PIN shorter than four UTF-16 code units (the
   * string's `length`) only sets the length error and never touches the
   * store. Otherwise, with no PIN stored (or none readable) the candidate
   * is saved and the gate opens,
   * and a failed save gives the generic failure without opening it; a
   * stored PIN equal to the candidate opens the gate with no write; a
   * different one sets the mismatch error and clears the field. Only the
   * set-up branch writes, and `isLoading` ends false.
   */
  function Submit(g: Gate, v: Vault, readFails: bool, writeFails: bool): (r: Step)
    ensures Text.Utf16Length(g.pin) < 4 ==> r == Step(g.(error := PinTooShort), v)
    ensures Text.Utf16Length(g.pin) >= 4 ==> !r.gate.isLoading
    ensures g.authSuccess ==> r.gate.authSuccess
    ensures r.vault != v ==> Text.Utf16Length(g.pin) >= 4 && NoPin(ReadPin(v, readFails)) && r.vault == v.(pin := Some(g.pin))
    ensures r.gate.authSuccess && !g.authSuccess ==>
      Text.Utf16Length(g.pin) >= 4 && (ReadPin(v, readFails) == Some(g.pin) || r.vault.pin == Some(g.pin))
    ensures Text.Utf16Length(g.pin) >= 4 && NoPin(ReadPin(v, readFails)) ==>
      if writeFails then r == Step(g.(error := AuthFailed, isLoading := false), v)
      else r == Step(g.(error := [], authSuccess := true, isLoading := false), v.(pin := Some(g.pin)))
    ensures Text.Utf16Length(g.pin) >= 4 && !NoPin(ReadPin(v, readFails)) ==>
      r.vault == v &&
      if ReadPin(v, readFails) == Some(g.pin) then r.gate == g.(error := [], authSuccess := true, isLoading := false)
      else r.gate == g.(error := IncorrectPin, pin := [], isLoading := false)
  {
    if Text.Utf16Length(g.pin) < 4 then Step(g.(error := PinTooShort), v)
    else
      var started := g.(isLoading := true, error := []);
      var storedPin := ReadPin(v, readFails);
      var done :=
        if NoPin(storedPin) then
          if writeFails then Step(started.(error := AuthFailed), v)
          else Step(started.(authSuccess := true), v.(pin := Some(g.pin)))
        else if storedPin.value == g.pin then Step(started.(authSuccess := true), v)
        else Step(started.(error := IncorrectPin, pin := []), v);
      Step(done.gate.(isLoading := false), done.vault)
  }

  /** `handlePinChange`: the field takes the text and any error is cleared. */
  function ChangePin(g: Gate, text: string): (r: Gate)
    ensures r.pin == text && r.error == []
    ensures r.(pin := g.pin, error := g.error) == g
  {
    var typed := g.(pin := text);
    if typed.error != [] then typed.(error := []) else typed
  }

  /** How `authenticateWithBiometrics` settles. */
  datatype BiometricOutcome = Succeeded | Declined | Threw

  /**
   * `handleBiometricAuth`: success opens the gate; a declined prompt or a
   * thrown error hides the prompt and asks for the PIN with its own
   * message. The spinner ends off.
   */
  function BiometricAuth(g: Gate, outcome: BiometricOutcome): (r: Gate)
    ensures !r.isBiometricLoading
    ensures r.authSuccess <==> g.authSuccess || outcome == Succeeded
    ensures outcome == Succeeded ==> r.error == g.error && r.showBiometricPrompt == g.showBiometricPrompt
    ensures outcome == Declined ==> r.error == BiometricFailed && !r.showBiometricPrompt
    ensures outcome == Threw ==> r.error == BiometricError && !r.showBiometricPrompt
    ensures r.pin == g.pin && r.biometricEnabled == g.biometricEnabled && r.isLoading == g.isLoading
  {
    var started := g.(isBiometricLoading := true);
    var done :=
      match outcome
      case Succeeded => started.(authSuccess := true)
      case Declined => started.(showBiometricPrompt := false, error := BiometricFailed)
      case Threw => started.(showBiometricPrompt := false, error := BiometricError);
    done.(isBiometricLoading := false)
  }

  /**
   * `toggleBiometric`: the flipped preference is saved first and the gate
   * follows only when the save succeeds; a failed save leaves the
   * preference as it was, in the gate and in the store, and sets the error.
   */
  function TogglePreference(g: Gate, v: Vault, writeFails: bool): (r: Step)
    ensures writeFails ==> r == Step(g.(error := PreferenceFailed), v)
    ensures !writeFails ==> r.gate == g.(biometricEnabled := !g.biometricEnabled)
    ensures !writeFails ==> r.vault.pin == v.pin && ReadBiometric(r.vault, false) == r.gate.biometricEnabled
  {
    var newValue := !g.biometricEnabled;
    if writeFails then Step(g.(error := PreferenceFailed), v)
    else Step(g.(biometricEnabled := newValue), v.(biometric := Some(PreferenceText(newValue))))
  }

  /** Toggling twice with both saves succeeding restores the preference. */
  lemma {:induction false} ToggleTwiceRestores(g: Gate, v: Vault)
    ensures var once := TogglePreference(g, v, false);
      var twice := TogglePreference(once.gate, once.vault, false);
      twice.gate == g && ReadBiometric(twice.vault, false) == g.biometricEnabled
  {
    var once := TogglePreference(g, v, false);
    assert once.gate.biometricEnabled == !g.biometricEnabled;
  }

  /** `skipBiometric`: hides the prompt and stops the spinner. */
  function SkipPrompt(g: Gate): (r: Gate)
    ensures !r.showBiometricPrompt && !r.isBiometricLoading
    ensures r.(showBiometricPrompt := g.showBiometricPrompt, isBiometricLoading := g.isBiometricLoading) == g
  {
    g.(showBiometricPrompt := false, isBiometricLoading := false)
  }

  /**
   * `checkBiometricAvailability` on mount: biometrics are available when
   * the device has the hardware and an enrolment, the preference is read
   * from the store, and when both hold and a PIN is stored the prompt is
   * shown and a biometric authentication runs. The spinner ends off.
   */
  function CheckAvailability(g: Gate, v: Vault, hasHardware: bool, isEnrolled: bool,
                             readFails: bool, outcome: BiometricOutcome): (r: Gate)
    ensures r.biometricAvailable == (hasHardware && isEnrolled)
    ensures r.biometricEnabled == ReadBiometric(v, readFails)
    ensures !r.isBiometricLoading
    ensures g.authSuccess ==> r.authSuccess
    ensures !(hasHardware && isEnrolled && ReadBiometric(v, readFails) && !NoPin(ReadPin(v, readFails))) ==>
      r == g.(biometricAvailable := hasHardware && isEnrolled, biometricEnabled := ReadBiometric(v, readFails),
              isBiometricLoading := false)
    ensures r.authSuccess && !g.authSuccess ==>
      hasHardware && isEnrolled && ReadBiometric(v, readFails) && !NoPin(ReadPin(v, readFails)) && outcome == Succeeded
  {
    var available := hasHardware && isEnrolled;
    var pref := ReadBiometric(v, readFails);
    var known := g.(biometricAvailable := available, biometricEnabled := pref);
    var prompted :=
      if available && pref && !NoPin(ReadPin(v, readFails)) then
        BiometricAuth(known.(showBiometricPrompt := true), outcome)
      else known;
    prompted.(isBiometricLoading := false)
  }

  // -------------------------------------------------------------- lemmas

  /**
   * First use and repeat: with nothing stored, submitting a PIN of four or
   * more code units saves it and opens the gate; a later session that
   * submits the same PIN opens with no further write, and one that submits
   * a different PIN is refused with the field cleared.
   */
  lemma {:induction false} FirstUseThenRepeat(g: Gate, later: Gate, v: Vault, other: string)
    requires Text.Utf16Length(g.pin) >= 4 && v.pin == None
    requires later.pin == g.pin && Text.Utf16Length(other) >= 4 && other != g.pin
    ensures var first := Submit(g, v, false, false);
      && first.gate.authSuccess && first.vault.pin == Some(g.pin)
      && Submit(later, first.vault, false, false)
         == Step(later.(error := [], authSuccess := true, isLoading := false), first.vault)
      && var wrong := Submit(later.(pin := other), first.vault, false, false);
      && wrong.vault == first.vault && wrong.gate.error == IncorrectPin && wrong.gate.pin == []
      && wrong.gate.authSuccess == later.authSuccess
  {
  }

  /**
   * An unreadable PIN entry is taken for a missing one: any candidate of
   * four or more code units is then saved over the stored PIN and opens
   * the gate.
   */
  lemma {:induction false} UnreadablePinIsReplaced(g: Gate, v: Vault)
    requires Text.Utf16Length(g.pin) >= 4
    ensures var r := Submit(g, v, true, false);
      r.gate.authSuccess && r.vault.pin == Some(g.pin)
  {
  }

  /**
   * The length guard counts code units, not characters: a PIN of two
   * characters beyond U+FFFF passes it and, with nothing stored, is saved.
   */
  lemma {:induction false} AstralPairPassesLengthGuard(g: Gate, v: Vault, c: char, d: char)
    requires g.pin == [c, d] && c as int >= 0x10000 && d as int >= 0x10000 && v.pin == None
    ensures var r := Submit(g, v, false, false);
      r.gate.error != PinTooShort && r.gate.authSuccess && r.vault.pin == Some([c, d])
  {
    Text.Utf16LengthOfAstralPair(c, d);
  }

  // ------------------------------------------------------------- classes

  /** The secure store's two entries. */
  class CredentialStore {
    var pin: Option<string>
    var biometric: Option<string>

    function Contents(): Vault
      reads this
    {
      Vault(pin, biometric)
    }

    constructor (v: Vault)
      ensures Contents() == v
    {
      pin := v.pin;
      biometric := v.biometric;
    }

    method GetPin(readFails: bool) returns (stored: Option<string>)
      ensures stored == ReadPin(Contents(), readFails)
    {
      if readFails {
        stored := None;
      } else {
        stored := pin;
      }
    }

    /** `savePin`; a failed write is reported by `ok` and changes nothing. */
    method SavePin(candidate: string, writeFails: bool) returns (ok: bool)
      modifies this
      ensures ok == !writeFails
      ensures Contents() == if ok then old(Contents()).(pin := Some(candidate)) else old(Contents())
    {
      if writeFails {
        ok := false;
      } else {
        pin := Some(candidate);
        ok := true;
      }
    }

    method GetBiometricPreference(readFails: bool) returns (enabled: bool)
      ensures enabled == ReadBiometric(Contents(), readFails)
    {
      if readFails {
        enabled := false;
      } else {
        enabled := biometric == Some("true");
      }
    }

    method SaveBiometricPreference(enabled: bool, writeFails: bool) returns (ok: bool)
      modifies this
      ensures ok == !writeFails
      ensures Contents() == if ok then old(Contents()).(biometric := Some(PreferenceText(enabled))) else old(Contents())
    {
      if writeFails {
        ok := false;
      } else {
        biometric := Some(PreferenceText(enabled));
        ok := true;
      }
    }
  }

  /** The state of one `useAuth` hook. */
  class AuthGate {
    var pin: string
    var isLoading: bool
    var isBiometricLoading: bool
    var error: string
    var authSuccess: bool
    var biometricEnabled: bool
    var biometricAvailable: bool
    var showBiometricPrompt: bool

    function State(): Gate
      reads this
    {
      Gate(pin, isLoading, isBiometricLoading, error, authSuccess, biometricEnabled, biometricAvailable,
           showBiometricPrompt)
    }

    constructor ()
      ensures State() == InitialGate()
    {
      pin := [];
      isLoading := false;
      isBiometricLoading := true;
      error := [];
      authSuccess := false;
      biometricEnabled := false;
      biometricAvailable := false;
      showBiometricPrompt := false;
    }

    method HandlePinSubmit(store: CredentialStore, readFails: bool, writeFails: bool)
      modifies this, store
      ensures Step(State(), store.Contents()) == Submit(old(State()), old(store.Contents()), readFails, writeFails)
    {
      if Text.Utf16Length(pin) < 4 {
        error := PinTooShort;
        return;
      }
      isLoading := true;
      error := [];
      var storedPin := store.GetPin(readFails);
      if storedPin == None || storedPin == Some([]) {
        var saved := store.SavePin(pin, writeFails);
        if saved {
          authSuccess := true;
        } else {
          error := AuthFailed;
        }
      } else if storedPin.value == pin {
        authSuccess := true;
      } else {
        error := IncorrectPin;
        pin := [];
      }
      isLoading := false;
    }

    method HandlePinChange(text: string)
      modifies this
      ensures State() == ChangePin(old(State()), text)
    {
      pin := text;
      if error != [] {
        error := [];
      }
    }

    method HandleBiometricAuth(outcome: BiometricOutcome)
      modifies this
      ensures State() == BiometricAuth(old(State()), outcome)
    {
      isBiometricLoading := true;
      match outcome {
        case Succeeded =>
          authSuccess := true;
        case Declined =>
          showBiometricPrompt := false;
          error := BiometricFailed;
        case Threw =>
          showBiometricPrompt := false;
          error := BiometricError;
      }
      isBiometricLoading := false;
    }

    method ToggleBiometric(store: CredentialStore, writeFails: bool)
      modifies this, store
      ensures Step(State(), store.Contents()) == TogglePreference(old(State()), old(store.Contents()), writeFails)
    {
      var newValue := !biometricEnabled;
      var saved := store.SaveBiometricPreference(newValue, writeFails);
      if saved {
        biometricEnabled := newValue;
      } else {
        error := PreferenceFailed;
      }
    }

    method SkipBiometric()
      modifies this
      ensures State() == SkipPrompt(old(State()))
    {
      showBiometricPrompt := false;
      isBiometricLoading := false;
    }

    method CheckBiometricAvailability(store: CredentialStore, hasHardware: bool, isEnrolled: bool,
                                      readFails: bool, outcome: BiometricOutcome)
      modifies this
      ensures State() == CheckAvailability(old(State()), store.Contents(), hasHardware, isEnrolled, readFails, outcome)
    {
      var biometricPref := store.GetBiometricPreference(readFails);
      biometricAvailable := hasHardware && isEnrolled;
      biometricEnabled := biometricPref;
      if hasHardware && isEnrolled && biometricPref {
        var storedPin := store.GetPin(readFails);
        if !(storedPin == None || storedPin == Some([])) {
          showBiometricPrompt := true;
          HandleBiometricAuth(outcome);
        }
      }
      isBiometricLoading := false;
    }
  }
}
