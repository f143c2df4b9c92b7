/**
 * Helpers for a person card (src/features/people/utils/personUtils.ts):
 * the age line and the parameters handed to the person route.
 *
 * Dates arrive already parsed: each is the triple the source reads with
 * `getFullYear`, `getMonth` (0-based) and `getDate`.
 */
module PersonUtils {

  import opened Types
  import opened Text

  datatype Date = Date(year: int, month: int, day: int)

  /** A birthday or deathday field: null or '' , a string `Date` cannot read, or a date. */
  datatype DateInput = Missing | Unparseable | Parsed(date: Date)

  /** Calendar order on (year, month, day). */
  predicate OnOrBefore(a: Date, b: Date) {
    a.year < b.year
    || (a.year == b.year && (a.month < b.month || (a.month == b.month && a.day <= b.day)))
  }

  /** The year difference, one less when the end's (month, day) comes before the birth's. */
  function AgeInYears(birth: Date, end: Date): (age: int)
    ensures age == end.year - birth.year || age == end.year - birth.year - 1
    ensures age == end.year - birth.year - 1 <==>
      end.month < birth.month || (end.month == birth.month && end.day < birth.day)
  {
    var age := end.year - birth.year;
    var monthDiff := end.month - birth.month;
    if monthDiff < 0 || (monthDiff == 0 && end.day < birth.day) then age - 1 else age
  }

  /** The age is the number of whole years: the last anniversary on or before `end`. */
  lemma {:induction false} AgeIsCompletedYears(birth: Date, end: Date)
    ensures OnOrBefore(Date(birth.year + AgeInYears(birth, end), birth.month, birth.day), end)
    ensures !OnOrBefore(Date(birth.year + AgeInYears(birth, end) + 1, birth.month, birth.day), end)
  {
  }

  /**
   * `formatAge`: no text without a readable birthday or with an unreadable
   * deathday; "<age> (<born>-<died>)" for someone with a deathday, and
   * "<age> years old" measured against `now` otherwise.
   */
  function FormatAge(birthday: DateInput, deathday: DateInput, now: Date): (r: Option<string>)
    ensures !birthday.Parsed? || deathday.Unparseable? <==> r == None
    ensures birthday.Parsed? && deathday.Parsed? ==>
      r == Some(IntToString(AgeInYears(birthday.date, deathday.date)) + " ("
        + IntToString(birthday.date.year) + "-" + IntToString(deathday.date.year) + ")")
    ensures birthday.Parsed? && deathday.Missing? ==>
      r == Some(IntToString(AgeInYears(birthday.date, now)) + " years old")
  {
    match birthday
    case Missing => None
    case Unparseable => None
    case Parsed(born) =>
      match deathday
      case Unparseable => None
      case Parsed(died) =>
        Some(IntToString(AgeInYears(born, died)) + " (" + IntToString(born.year) + "-" + IntToString(died.year) + ")")
      case Missing => Some(IntToString(AgeInYears(born, now)) + " years old")
  }

  datatype RouterParams = RouterParams(
    id: string, name: string, image: string, country: string,
    birthday: string, deathday: string, gender: string)

  /** `value || ''` for an optional string. */
  function OrEmpty(s: Option<string>): (r: string)
    ensures s.Some? ==> r == s.value
    ensures s.None? ==> r == []
  {
    s.GetOr([])
  }

  /**
   * `createPersonRouterParams`: the id in decimal, the name, and for each
   * optional field (medium image, country name, birthday, deathday,
   * gender) its text or ''.
   */
  function CreatePersonRouterParams(p: Person): (r: RouterParams)
    ensures ParseInt(r.id) == Some(p.id)
    ensures r.name == p.name
    ensures r.image == (if p.image.Some? && p.image.value.medium.Some? then p.image.value.medium.value else [])
    ensures r.country == (if p.country.Some? && p.country.value.name.Some? then p.country.value.name.value else [])
    ensures r.birthday == OrEmpty(p.birthday) && r.deathday == OrEmpty(p.deathday) && r.gender == OrEmpty(p.gender)
  {
    IntToStringRoundTrip(p.id);
    RouterParams(
      IntToString(p.id),
      p.name,
      match p.image case Some(img) => OrEmpty(img.medium) case None => [],
      match p.country case Some(c) => OrEmpty(c.name) case None => [],
      OrEmpty(p.birthday),
      OrEmpty(p.deathday),
      OrEmpty(p.gender))
  }
}
