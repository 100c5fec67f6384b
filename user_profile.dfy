/**
 * The user's profile as read from the identity provider, with the age worked out from the
 * `birthdate` attribute. The clock and date parsing are parameters: `today` is the current local
 * date and `parse` stands for `new Date(text)` read back as a local calendar date, None when the
 * text is not a date.
 */
module UserProfileService {
  import opened Wrappers

  /** A local calendar date: full year, month and day of month, compared component-wise. */
  datatype CalendarDate = CalendarDate(year: int, month: int, day: int)

  /** Whether `a` falls on or before `b`. */
  predicate OnOrBefore(a: CalendarDate, b: CalendarDate) {
    a.year < b.year || (a.year == b.year && (a.month < b.month || (a.month == b.month && a.day <= b.day)))
  }

  /** Whether the `n`-th anniversary of `birth` has come by `today`. */
  predicate AnniversaryReached(birth: CalendarDate, today: CalendarDate, n: int) {
    OnOrBefore(CalendarDate(birth.year + n, birth.month, birth.day), today)
  }

  /** Completed years: the anniversary of this many years has come, the next one has not. */
  function AgeOn(birth: CalendarDate, today: CalendarDate): (age: int)
    ensures AnniversaryReached(birth, today, age) && !AnniversaryReached(birth, today, age + 1)
  {
    var beforeBirthday := today.month < birth.month || (today.month == birth.month && today.day < birth.day);
    today.year - birth.year - (if beforeBirthday then 1 else 0)
  }

  /** Completed years are unique: no other count satisfies the defining property. */
  lemma AgeIsTheOnlyCount(birth: CalendarDate, today: CalendarDate, n: int)
    requires AnniversaryReached(birth, today, n) && !AnniversaryReached(birth, today, n + 1)
    ensures n == AgeOn(birth, today)
  {
  }

  /** On the birthday itself the age is the plain year difference. */
  lemma BirthdayGivesYearDifference(birth: CalendarDate, year: int)
    ensures AgeOn(birth, CalendarDate(year, birth.month, birth.day)) == year - birth.year
  {
  }

  /** A year later, one year older. */
  lemma OneYearLater(birth: CalendarDate, today: CalendarDate)
    ensures AgeOn(birth, CalendarDate(today.year + 1, today.month, today.day)) == AgeOn(birth, today) + 1
  {
  }

  /** A value of an identity-provider attribute: text, or anything else (`typeof` not string). */
  datatype AttrValue = Text(text: string) | NonText(truthy: bool)

  /** An attribute holds one value or a list of them. */
  datatype Attr = Scalar(value: AttrValue) | Multi(values: seq<AttrValue>)

  /** JavaScript truthiness of an attribute: a list, even an empty one, is truthy. */
  predicate AttrTruthy(a: Attr) {
    match a
    case Multi(_) => true
    case Scalar(Text(s)) => s != ""
    case Scalar(NonText(t)) => t
  }

  /** The value a `birthdate` attribute gives: a list's first element (undefined if empty), or the scalar itself. */
  function BirthdateValue(a: Attr): (b: Option<AttrValue>)
    ensures a.Multi? && |a.values| > 0 ==> b == Some(a.values[0])
    ensures a.Multi? && |a.values| == 0 ==> b.None?
    ensures a.Scalar? ==> b == Some(a.value)
  {
    match a
    case Multi(values) => if |values| > 0 then Some(values[0]) else None
    case Scalar(v) => Some(v)
  }

  /** The age a birthdate value yields, when it is non-empty text naming a date and the age is in [0, 150]. */
  function AgeFromBirthdate(b: Option<AttrValue>, parse: string -> Option<CalendarDate>, today: CalendarDate)
    : (r: Option<int>)
    ensures r.Some? <==>
      && b.Some? && b.value.Text? && b.value.text != ""
      && parse(b.value.text).Some?
      && 0 <= AgeOn(parse(b.value.text).value, today) <= 150
    ensures r.Some? ==> 0 <= r.value <= 150 && r.value == AgeOn(parse(b.value.text).value, today)
  {
    if b.None? || !b.value.Text? || b.value.text == "" then None
    else
      var birth := parse(b.value.text);
      if birth.None? then None
      else
        var age := AgeOn(birth.value, today);
        if age < 0 || age > 150 then None else Some(age)
  }

  /** `calculateAge`: the year difference, one less before this year's birthday, kept only in [0, 150]. */
  method CalculateAge(b: Option<AttrValue>, parse: string -> Option<CalendarDate>, today: CalendarDate)
    returns (r: Option<int>)
    ensures r == AgeFromBirthdate(b, parse, today)
  {
    if b.None? || !b.value.Text? || b.value.text == "" {
      return None;
    }
    var parsed := parse(b.value.text);
    if parsed.None? {
      return None;
    }
    var birth := parsed.value;
    var age := today.year - birth.year;
    var monthDiff := today.month - birth.month;
    if monthDiff < 0 || (monthDiff == 0 && today.day < birth.day) {
      age := age - 1;
    }
    if age < 0 || age > 150 {
      return None;
    }
    return Some(age);
  }

  /** The identity provider's profile, with its custom attributes. */
  datatype ProviderProfile = ProviderProfile(
    id: Option<string>,
    username: Option<string>,
    email: Option<string>,
    firstName: Option<string>,
    lastName: Option<string>,
    attributes: Option<map<string, Attr>>)

  /** The application's view of the user. */
  datatype UserProfile = UserProfile(
    id: Option<string>,
    username: Option<string>,
    email: Option<string>,
    firstName: Option<string>,
    lastName: Option<string>,
    birthDate: Option<AttrValue>,
    age: Option<int>)

  /** `attributes?.['birthdate']`. */
  function BirthdateAttr(p: ProviderProfile): Option<Attr> {
    if p.attributes.Some? && "birthdate" in p.attributes.value then Some(p.attributes.value["birthdate"]) else None
  }

  /**
   * `getUserProfile`: no profile (not signed in, or the fetch failed) gives none; otherwise the
   * identity fields are copied, and a truthy birthdate attribute sets `birthDate` and, when an
   * age can be worked out, `age`.
   */
  method GetUserProfile(provider: Option<ProviderProfile>, parse: string -> Option<CalendarDate>, today: CalendarDate)
    returns (r: Option<UserProfile>)
    ensures r.None? <==> provider.None?
    ensures r.Some? ==>
      var p, u := provider.value, r.value;
      && u.id == p.id && u.username == p.username && u.email == p.email
      && u.firstName == p.firstName && u.lastName == p.lastName
      && var attr := BirthdateAttr(p);
      && (attr.None? || !AttrTruthy(attr.value) ==> u.birthDate.None? && u.age.None?)
      && (attr.Some? && AttrTruthy(attr.value) ==>
            && u.birthDate == BirthdateValue(attr.value)
            && u.age == AgeFromBirthdate(BirthdateValue(attr.value), parse, today))
  {
    if provider.None? {
      return None;
    }
    var p := provider.value;
    var profile := UserProfile(p.id, p.username, p.email, p.firstName, p.lastName, None, None);
    var attr := BirthdateAttr(p);
    if attr.Some? && AttrTruthy(attr.value) {
      var birthdate := BirthdateValue(attr.value);
      profile := profile.(birthDate := birthdate);
      var calculatedAge := CalculateAge(birthdate, parse, today);
      if calculatedAge.Some? {
        profile := profile.(age := calculatedAge);
      }
    }
    return Some(profile);
  }

  /** `getUserAge`: the profile's age, when there is one. */
  function UserAge(profile: Option<UserProfile>): (age: Option<int>)
    ensures age.Some? <==> profile.Some? && profile.value.age.Some?
    ensures age.Some? ==> age.value == profile.value.age.value
  {
    if profile.Some? then profile.value.age else None
  }
}
