/**
 * Input validation and text clean-up helpers (src/shared/validation/validation.ts).
 *
 * Each regular expression of the source is modelled by a small recursive
 * matcher; the contracts state, independently of the matcher, which
 * strings the expression accepts or what the replacement leaves.
 * Parameters are typed strings, so the source's `typeof` guards reduce to
 * the empty-string check.
 */
module Validation {

  import opened Text

  /** First index of `c` in `s`, or -1 (`String.prototype.indexOf`). */
  function IndexOf(s: string, c: char): (i: int)
    ensures -1 <= i < |s|
    ensures i >= 0 ==> s[i] == c && forall k :: 0 <= k < i ==> s[k] != c
    ensures i == -1 <==> c !in s
  {
    if s == [] then -1
    else if s[0] == c then 0
    else var j := IndexOf(s[1..], c); if j < 0 then -1 else j + 1
  }

  // ---------------------------------------------------------------- PIN

  /** Matcher for `^\d+$`: one or more ASCII digits and nothing else. */
  predicate DigitRun(s: string)
    ensures DigitRun(s) <==> s != [] && AllDigits(s)
  {
    s != [] && IsDigit(s[0]) && (|s| == 1 || DigitRun(s[1..]))
  }

  /** A PIN is four to eight decimal digits. */
  function IsValidPin(pin: string): (ok: bool)
    ensures ok <==> 4 <= |pin| <= 8 && forall i :: 0 <= i < |pin| ==> '0' <= pin[i] <= '9'
  {
    if pin == [] then false
    else 4 <= |pin| <= 8 && DigitRun(pin)
  }

  // -------------------------------------------------------------- e-mail

  /** The class `[^\s@]`. */
  predicate IsAddressChar(c: char) {
    !IsWhitespace(c) && c != '@'
  }

  predicate AddressRun(s: string) {
    forall k :: 0 <= k < |s| ==> IsAddressChar(s[k])
  }

  /** Matcher for the domain part `[^\s@]+\.[^\s@]+`. */
  predicate DomainMatches(d: string) {
    |d| >= 3 && AddressRun(d) && '.' in d[1..|d| - 1]
  }

  /**
   * `email` splits as local part, '@' at `i`, domain head, '.' at `j`, domain
   * tail, each part non-empty and every other character in `[^\s@]`.
   */
  predicate SplitsAt(email: string, i: int, j: int) {
    0 < i && i + 1 < j < |email| - 1 && email[i] == '@' && email[j] == '.'
    && forall k :: 0 <= k < |email| && k != i ==> IsAddressChar(email[k])
  }

  /**
   * `^[^\s@]+@[^\s@]+\.[^\s@]+$`: exactly one '@' with text before it, no
   * white space anywhere, and after the '@' a '.' with text on both sides.
   */
  function IsValidEmail(email: string): (ok: bool)
    ensures ok <==> exists i, j :: SplitsAt(email, i, j)
  {
    if email == [] then false
    else
      var at := IndexOf(email, '@');
      var r := at > 0 && AddressRun(email[..at]) && DomainMatches(email[at + 1..]);
      EmailSplitMatches(email, at);
      if r then EmailMatchSplits(email, at); r else r
  }

  lemma {:induction false} EmailMatchSplits(email: string, at: int)
    requires 0 < at < |email| && email[at] == '@'
    requires AddressRun(email[..at]) && DomainMatches(email[at + 1..])
    ensures exists i, j :: SplitsAt(email, i, j)
  {
    var d := email[at + 1..];
    var m := d[1..|d| - 1];
    var p :| 0 <= p < |m| && m[p] == '.';
    var j := at + 2 + p;
    assert email[j] == d[p + 1] == '.';
    forall k | 0 <= k < |email| && k != at ensures IsAddressChar(email[k]) {
      if k < at { assert email[k] == email[..at][k]; } else { assert email[k] == d[k - at - 1]; }
    }
    assert SplitsAt(email, at, j);
  }

  lemma {:induction false} EmailSplitMatches(email: string, at: int)
    requires at == IndexOf(email, '@')
    ensures (exists i, j :: SplitsAt(email, i, j)) ==>
      at > 0 && AddressRun(email[..at]) && DomainMatches(email[at + 1..])
  {
    if !exists i, j :: SplitsAt(email, i, j) { return; }
    var i, j :| SplitsAt(email, i, j);
    assert at <= i;
    assert at == i;
    var d := email[at + 1..];
    assert d[1..|d| - 1][j - at - 2] == '.';
    assert AddressRun(email[..at]) by {
      forall k | 0 <= k < at ensures IsAddressChar(email[..at][k]) { assert email[..at][k] == email[k]; }
    }
    assert AddressRun(d) by {
      forall k | 0 <= k < |d| ensures IsAddressChar(d[k]) { assert d[k] == email[at + 1 + k]; }
    }
  }

  // ------------------------------------------------------------- markup

  /** No '<' is followed, anywhere later, by a '>': nothing left for `<[^>]*>` to match. */
  predicate NoTag(s: string) {
    forall i, j :: 0 <= i < j < |s| && s[i] == '<' ==> s[j] != '>'
  }

  /**
   * The global replacement of `<[^>]*>` by the empty string: scanning left
   * to right, a '<' that has a '>' somewhere after it starts a match that
   * ends at the first such '>', and the whole span is dropped; every other
   * character is kept in order.
   */
  function StripTags(s: string): (r: string)
    ensures |r| <= |s|
  {
    if s == [] then []
    else
      var close := IndexOf(s[1..], '>');
      if s[0] == '<' && close >= 0 then StripTags(s[close + 2..])
      else [s[0]] + StripTags(s[1..])
  }

  /** Stripping adds no character that was not in the input. */
  lemma {:induction false} StripTagsAddsNothing(s: string, c: char)
    requires c in StripTags(s)
    ensures c in s
  {
    assert s != [];
    var close := IndexOf(s[1..], '>');
    if s[0] == '<' && close >= 0 {
      var rest := s[close + 2..];
      StripTagsAddsNothing(rest, c);
      var k :| 0 <= k < |rest| && rest[k] == c;
      assert s[close + 2 + k] == c;
    } else if c != s[0] {
      var tail := s[1..];
      assert c in StripTags(tail);
      StripTagsAddsNothing(tail, c);
      var k :| 0 <= k < |tail| && tail[k] == c;
      assert s[k + 1] == c;
    }
  }

  /** Stripping leaves nothing for `<[^>]*>` to match. */
  lemma {:induction false} StripTagsLeavesNoTag(s: string)
    ensures NoTag(StripTags(s))
  {
    if s != [] {
      var close := IndexOf(s[1..], '>');
      if s[0] == '<' && close >= 0 {
        StripTagsLeavesNoTag(s[close + 2..]);
      } else {
        var tail := StripTags(s[1..]);
        StripTagsLeavesNoTag(s[1..]);
        if '>' in tail {
          StripTagsAddsNothing(s[1..], '>');
        }
        var r := [s[0]] + tail;
        assert StripTags(s) == r;
        assert s[0] == '<' ==> '>' !in tail;
        forall i, j | 0 <= i < j < |r| && r[i] == '<' ensures r[j] != '>' {
          assert r[j] == tail[j - 1];
          if i > 0 { assert r[i] == tail[i - 1]; }
        }
      }
    }
  }

  /** `sanitizeHtml`: the empty string stays empty, anything else loses its tags. */
  function SanitizeHtml(html: string): (r: string)
    ensures |r| <= |html|
    ensures NoTag(r)
    ensures '<' !in html ==> r == html
  {
    if html == [] then []
    else
      StripTagsLeavesNoTag(html);
      if '<' in html then StripTags(html)
      else StripTagsKeepsPlainText(html); StripTags(html)
  }

  /** Text with nothing tag-like in it passes through unchanged. */
  lemma {:induction false} StripTagsKeepsPlainText(s: string)
    requires NoTag(s)
    ensures StripTags(s) == s
  {
    if s != [] {
      var close := IndexOf(s[1..], '>');
      assert !(s[0] == '<' && close >= 0) by {
        if close >= 0 { assert s[close + 1] == s[1..][close]; }
      }
      assert NoTag(s[1..]) by {
        forall i, j | 0 <= i < j < |s[1..]| && s[1..][i] == '<' ensures s[1..][j] != '>' {
          assert s[i + 1] == '<';
        }
      }
      StripTagsKeepsPlainText(s[1..]);
    }
  }

  /** Text before the first '<' is kept as it is. */
  lemma {:induction false} StripTagsKeepsPlainPrefix(a: string, b: string)
    requires '<' !in a
    ensures StripTags(a + b) == a + StripTags(b)
  {
    if a == [] {
      assert a + b == b;
    } else {
      var t := a[1..] + b;
      assert StripTags(a + b) == [a[0]] + StripTags(t) by {
        assert a + b == [a[0]] + t;
        StripTagsCons(a[0], t);
      }
      assert StripTags(t) == a[1..] + StripTags(b) by {
        assert '<' !in a[1..];
        StripTagsKeepsPlainPrefix(a[1..], b);
      }
      assert [a[0]] + (a[1..] + StripTags(b)) == a + StripTags(b);
    }
  }

  /** A first character other than '<' is kept. */
  lemma StripTagsCons(c: char, t: string)
    requires c != '<'
    ensures StripTags([c] + t) == [c] + StripTags(t)
  {
    assert ([c] + t)[1..] == t;
  }

  /** A '<' with a '>' after it is dropped together with that '>' and all between. */
  lemma {:induction false} StripTagsDropsTag(m: string, b: string)
    requires '>' !in m
    ensures StripTags(['<'] + m + ['>'] + b) == StripTags(b)
  {
    var s := ['<'] + m + ['>'] + b;
    assert s[1..] == m + ['>'] + b;
    assert s[1..][|m|] == '>';
    var close := IndexOf(s[1..], '>');
    assert forall k :: 0 <= k < |m| ==> s[1..][k] == m[k];
    assert close == |m|;
    assert s[close + 2..] == b;
  }

  /** Text with no '>' at all has nothing to strip. */
  lemma {:induction false} StripTagsWithoutClose(s: string)
    requires '>' !in s
    ensures StripTags(s) == s
  {
    if s != [] {
      assert IndexOf(s[1..], '>') == -1;
      StripTagsWithoutClose(s[1..]);
    }
  }

  // The literal facts the two test cases below need, each in a context of its own.

  lemma MixedContentParts()
    ensures "Plain text with <b>bold</b> text"
         == "Plain text with " + (['<'] + "b" + ['>'] + ("bold" + (['<'] + "/b" + ['>'] + " text")))
    ensures '<' !in "Plain text with " && '<' !in "bold"
    ensures '>' !in "b" && '>' !in "/b" && '>' !in " text"
    ensures "Plain text with " + ("bold" + " text") == "Plain text with bold text"
  {
  }

  lemma ParagraphParts()
    ensures "<p>Hello world</p>" == ['<'] + "p" + ['>'] + ("Hello world" + (['<'] + "/p" + ['>'] + ""))
    ensures "<>" == ['<'] + "" + ['>'] + ""
    ensures '<' !in "Hello world" && '>' !in "p" && '>' !in "/p"
    ensures "Hello world" + "" == "Hello world"
  {
  }

  /** A tag pair around a word, inside plain text, leaves the word (a unit-test case of the source). */
  lemma {:induction false} SanitizeMixedContent()
    ensures SanitizeHtml("Plain text with <b>bold</b> text") == "Plain text with bold text"
  {
    MixedContentParts();
    StripTagsKeepsPlainPrefix("Plain text with ", ['<'] + "b" + ['>'] + ("bold" + (['<'] + "/b" + ['>'] + " text")));
    StripTagsDropsTag("b", "bold" + (['<'] + "/b" + ['>'] + " text"));
    StripTagsKeepsPlainPrefix("bold", ['<'] + "/b" + ['>'] + " text");
    StripTagsDropsTag("/b", " text");
    StripTagsWithoutClose(" text");
  }

  /** A paragraph loses its tags, and "<>" is removed whole (unit-test cases of the source). */
  lemma {:induction false} SanitizeParagraph()
    ensures SanitizeHtml("<p>Hello world</p>") == "Hello world"
    ensures SanitizeHtml("<>") == ""
  {
    ParagraphParts();
    StripTagsDropsTag("p", "Hello world" + (['<'] + "/p" + ['>'] + ""));
    StripTagsKeepsPlainPrefix("Hello world", ['<'] + "/p" + ['>'] + "");
    StripTagsDropsTag("/p", "");
    StripTagsDropsTag("", "");
  }

  /** Sanitising twice is the same as sanitising once. */
  lemma {:induction false} SanitizeHtmlIdempotent(html: string)
    ensures SanitizeHtml(SanitizeHtml(html)) == SanitizeHtml(html)
  {
    var once := SanitizeHtml(html);
    if once != [] {
      StripTagsKeepsPlainText(once);
    }
  }

  // ---------------------------------------------------------- truncation

  /**
   * `truncateText`: text that fits is returned as is; otherwise the first
   * `maxLength - 3` characters, trimmed, followed by "...", or nothing at all
   * when `maxLength` leaves no room for the ellipsis.
   */
  function TruncateText(text: string, maxLength: int): (r: string)
    ensures |text| <= maxLength ==> r == text
    ensures |text| > maxLength && maxLength <= 3 ==> r == []
    ensures |text| > maxLength > 3 ==>
      |r| <= maxLength && |r| >= 3 && r[|r| - 3..] == "..."
      && r[..|r| - 3] == Trim(text[..maxLength - 3])
  {
    if text == [] then []
    else if |text| <= maxLength then text
    else if maxLength <= 3 then []
    else Trim(text[..maxLength - 3]) + "..."
  }
}
