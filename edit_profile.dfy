/** The profile editing form: its schema, the values it starts from, the payload it sends and
    its submit and region handlers. The user comes from the session store; the update call's
    reply is an input. */
module EditProfile {
  import opened Wrappers
  import opened Text
  import opened AuthSchemas
  import AuthService

  /** The form's fields, as strings. */
  datatype ProfileValues = ProfileValues(
    name: string,
    lastName: string,
    phone: string,
    city: string,
    region: string,
    bio: string,
    habits: string)

  const EmptyValues := ProfileValues("", "", "", "", "", "", "")

  const NameMax := 50
  const BioMax := 500
  const HabitsMax := 1000

  // ---------------------------------------------------------------------------------------
  // The schema

  // The schema's messages.
  const PhoneMessage := "El teléfono debe tener 9 dígitos y empezar con 9 (ej: 987654321)"
  const NameRequired := "El nombre es requerido"
  const NameTooShort := "El nombre debe tener al menos 2 caracteres"
  const NameTooLong := "El nombre no puede exceder 50 caracteres"
  const LastNameRequired := "El apellido es requerido"
  const LastNameTooShort := "El apellido debe tener al menos 2 caracteres"
  const LastNameTooLong := "El apellido no puede exceder 50 caracteres"
  const CityRequired := "La ciudad es requerida"
  const CityTooLong := "La ciudad no puede exceder 50 caracteres"
  const RegionRequired := "La región es requerida"
  const RegionTooLong := "La región no puede exceder 50 caracteres"
  const BioTooLong := "La biografía no puede exceder 500 caracteres"
  const HabitsTooLong := "Los hábitos no pueden exceder 1000 caracteres"

  /** `.min(1, required).min(2, tooShort).max(50, tooLong)`: every failing check reports. */
  function NameChecks(path: string, s: string, required: string, tooShort: string, tooLong: string): (r: seq<Issue>)
    ensures r == [] <==> 2 <= |s| <= NameMax
    ensures forall i :: 0 <= i < |r| ==> r[i].path == path
  {
    Require(path, |s| >= 1, required) + Require(path, |s| >= 2, tooShort) + Require(path, |s| <= NameMax, tooLong)
  }

  /** `.min(1, required).max(50, tooLong)` */
  function PresentChecks(path: string, s: string, required: string, tooLong: string): (r: seq<Issue>)
    ensures r == [] <==> 1 <= |s| <= NameMax
    ensures forall i :: 0 <= i < |r| ==> r[i].path == path
  {
    Require(path, |s| >= 1, required) + Require(path, |s| <= NameMax, tooLong)
  }

  /** A phone separator the check removes: white space, `-`, `(` or `)`. */
  predicate PhoneSeparator(c: char) {
    IsSpace(c) || c == '-' || c == '(' || c == ')'
  }

  predicate NotSeparator(c: char) { !PhoneSeparator(c) }

  predicate NotSpace(c: char) { !IsSpace(c) }

  /** `phone.replace(/[\s\-\(\)]/g, '')` */
  function CleanPhone(s: string): (r: string)
    ensures forall i :: 0 <= i < |r| ==> !PhoneSeparator(r[i])
    ensures (forall i :: 0 <= i < |s| ==> !PhoneSeparator(s[i])) ==> r == s
  {
    assert (forall i :: 0 <= i < |s| ==> NotSeparator(s[i])) ==> Filter(s, NotSeparator) == s by {
      if forall i :: 0 <= i < |s| ==> NotSeparator(s[i]) {
        FilterKeepsKept(s, NotSeparator);
      }
    }
    Filter(s, NotSeparator)
  }

  /** The optional phone: empty or blank, or a mobile number once its separators are gone. */
  predicate PhoneAccepted(s: string) {
    IsBlank(s) || MobilePhone(CleanPhone(s))
  }

  function PhoneChecks(s: string): (r: seq<Issue>)
    ensures r == [] <==> PhoneAccepted(s)
  {
    Require("phone", PhoneAccepted(s), PhoneMessage)
  }

  /** The checks of the seven fields, in declaration order, on the values they are given. */
  function Checks(v: ProfileValues): (r: seq<Issue>)
    ensures r == [] <==>
      2 <= |v.name| <= NameMax && 2 <= |v.lastName| <= NameMax && PhoneAccepted(v.phone)
      && 1 <= |v.city| <= NameMax && 1 <= |v.region| <= NameMax
      && |v.bio| <= BioMax && |v.habits| <= HabitsMax
  {
    NameChecks("name", v.name, NameRequired, NameTooShort, NameTooLong)
    + NameChecks("lastName", v.lastName, LastNameRequired, LastNameTooShort, LastNameTooLong)
    + PhoneChecks(v.phone)
    + PresentChecks("city", v.city, CityRequired, CityTooLong)
    + PresentChecks("region", v.region, RegionRequired, RegionTooLong)
    + Require("bio", |v.bio| <= BioMax, BioTooLong)
    + Require("habits", |v.habits| <= HabitsMax, HabitsTooLong)
  }

  /** The values the schema yields: name, last name, city, bio and habits trimmed. */
  function Output(v: ProfileValues): (o: ProfileValues)
    ensures o.phone == v.phone && o.region == v.region
    ensures o.name == Trim(v.name) && o.lastName == Trim(v.lastName) && o.city == Trim(v.city)
    ensures o.bio == Trim(v.bio) && o.habits == Trim(v.habits)
  {
    v.(name := Trim(v.name), lastName := Trim(v.lastName), city := Trim(v.city), bio := Trim(v.bio), habits := Trim(v.habits))
  }

  /** The schema as written: each `.trim()` comes after the length checks of its field, so the
      checks see the untrimmed text. A city of spaces passes `.min(1)` and comes out empty. */
  function ProfileSchemaAsWritten(v: ProfileValues): (r: Parsed<ProfileValues>)
    ensures r.Success? <==> Checks(v) == []
    ensures r.Success? ==> r.value == Output(v)
  {
    var issues := Checks(v);
    if issues == [] then Success(Output(v)) else Failure(issues)
  }

  /** A profile whose city is three spaces passes the schema as written, and the city it
      yields is empty although the city is required. */
  lemma BlankCityAccepted()
    ensures var r := ProfileSchemaAsWritten(ProfileValues("Ana", "Soto", "", "   ", "Maule", "", ""));
      r.Success? && r.value.city == ""
  {
    var v := ProfileValues("Ana", "Soto", "", "   ", "Maule", "", "");
    assert IsBlank(v.phone);
    assert IsBlank(v.city);
    assert Checks(v) == [];
  }

  /** The schema with each `.trim()` applied before the checks of its field: the checks see
      the text that is kept. */
  function ProfileSchema(v: ProfileValues): (r: Parsed<ProfileValues>)
    ensures r.Success? <==> Checks(Checked(v)) == []
    ensures r.Success? ==> r.value == Output(v)
    ensures r.Failure? ==> r.issues != []
  {
    var issues := Checks(Checked(v));
    if issues == [] then Success(Output(v)) else Failure(issues)
  }

  /** What the checks see once each trim comes first: the trimmed name, last name and city,
      and the bio and habits as typed (their only check is a maximum, which trimming cannot
      break). */
  function Checked(v: ProfileValues): (c: ProfileValues)
    ensures c.name == Trim(v.name) && c.lastName == Trim(v.lastName) && c.city == Trim(v.city)
    ensures c.phone == v.phone && c.region == v.region && c.bio == v.bio && c.habits == v.habits
  {
    ProfileValues(Trim(v.name), Trim(v.lastName), v.phone, Trim(v.city), v.region, v.bio, v.habits)
  }

  /** What the schema guarantees of a profile it accepts: names of 2 to 50 characters, a city
      and a region of 1 to 50, all without surrounding white space except the region, an
      accepted phone, a bio of at most 500 characters and habits of at most 1000. */
  lemma {:induction false} ProfileSchemaAccepts(v: ProfileValues)
    requires ProfileSchema(v).Success?
    ensures var o := ProfileSchema(v).value;
      2 <= |o.name| <= NameMax && 2 <= |o.lastName| <= NameMax
      && 1 <= |o.city| <= NameMax && 1 <= |o.region| <= NameMax
      && Unpadded(o.name) && Unpadded(o.lastName) && Unpadded(o.city)
      && PhoneAccepted(o.phone) && |o.bio| <= BioMax && |o.habits| <= HabitsMax
  {
    var o := Output(v);
    assert Checks(Checked(v)) == [];
    assert |o.bio| <= |v.bio| && |o.habits| <= |v.habits|;
  }

  /** A blank city is refused once the trim comes first. */
  lemma BlankCityRefused()
    ensures ProfileSchema(ProfileValues("Ana", "Soto", "", "   ", "Maule", "", "")).Failure?
  {
    var v := ProfileValues("Ana", "Soto", "", "   ", "Maule", "", "");
    assert Trim(v.city) == [] by {
      assert IsBlank(v.city);
    }
  }

  // ---------------------------------------------------------------------------------------
  // Initial values and payload

  /** `phone.replace('+56 ', '').replace(/\s/g, '')`: the first country prefix goes, wherever
      it stands, then all white space. */
  function InitialPhone(phone: string): (r: string)
    ensures forall i :: 0 <= i < |r| ==> !IsSpace(r[i])
    ensures IndexOf(phone, "+56 ").None? ==> r == Filter(phone, NotSpace)
    ensures IndexOf(phone, "+56 ").Some? ==>
      var k := IndexOf(phone, "+56 ").value; r == Filter(phone[..k] + phone[k + 4..], NotSpace)
  {
    assert IndexOf(phone, "+56 ").Some? ==>
      var k := IndexOf(phone, "+56 ").value;
      ReplaceFirst(phone, "+56 ", "") == phone[..k] + phone[k + 4..] by {
      if IndexOf(phone, "+56 ").Some? {
        var k := IndexOf(phone, "+56 ").value;
        assert phone[..k] + "" == phone[..k];
      }
    }
    Filter(ReplaceFirst(phone, "+56 ", ""), NotSpace)
  }

  /** A stored number with the country prefix comes back as the digits after it, which the
      schema accepts when they are a mobile number. */
  lemma {:induction false} InitialPhoneDropsPrefix(digits: string)
    requires forall i :: 0 <= i < |digits| ==> !IsSpace(digits[i])
    ensures InitialPhone("+56 " + digits) == digits
  {
    var s := "+56 " + digits;
    assert OccursAt(s, "+56 ", 0) by {
      assert s[0..4] == "+56 ";
    }
    assert IndexOf(s, "+56 ") == Some(0);
    assert ReplaceFirst(s, "+56 ", "") == digits by {
      assert s[4..] == digits;
    }
    FilterKeepsKept(digits, NotSpace);
  }

  /** A stored mobile number with the country prefix starts the form as a phone the schema
      accepts. */
  lemma StoredMobileAccepted(digits: string)
    requires MobilePhone(digits)
    ensures PhoneAccepted(InitialPhone("+56 " + digits))
  {
    InitialPhoneDropsPrefix(digits);
    FilterKeepsKept(digits, NotSeparator);
  }

  /** The values the form is reset to for a user. */
  function InitialValues(u: AuthService.User): (v: ProfileValues)
    ensures v.name == u.name && v.lastName == u.lastName && v.city == u.city && v.region == u.region
    ensures v.bio == u.bio && v.habits == u.habits && v.phone == InitialPhone(u.phone)
  {
    ProfileValues(u.name, u.lastName, InitialPhone(u.phone), u.city, u.region, u.bio, u.habits)
  }

  /** The body of the update call; `None` is an omitted phone. */
  datatype UpdateData = UpdateData(
    name: string,
    lastName: string,
    phone: Option<string>,
    city: string,
    region: string,
    bio: string,
    habits: string)

  /** The payload built from parsed values: the phone trimmed, and left out when that leaves
      nothing; every other field as parsed. */
  function Payload(d: ProfileValues): (p: UpdateData)
    ensures p.phone.None? <==> IsBlank(d.phone)
    ensures p.phone.Some? ==> p.phone.value == Trim(d.phone)
    ensures p.name == d.name && p.lastName == d.lastName && p.city == d.city && p.region == d.region
    ensures p.bio == d.bio && p.habits == d.habits
  {
    var phone := Trim(d.phone);
    UpdateData(d.name, d.lastName, if phone == [] then None else Some(phone), d.city, d.region, d.bio, d.habits)
  }

  /** The phone check ignores separators but the payload keeps them: a number typed with
      spaces is accepted and sent with its spaces. */
  lemma SeparatorsAreSent()
    ensures PhoneAccepted("987 654 321")
    ensures Payload(EmptyValues.(phone := "987 654 321")).phone == Some("987 654 321")
  {
    SpacedNumberCleaned();
    MobileExample();
    TrimUnpadded("987 654 321");
  }

  lemma MobileExample()
    ensures MobilePhone("987654321")
  {
  }

  /** Removing the separators of "987 654 321" leaves "987654321". */
  lemma SpacedNumberCleaned()
    ensures CleanPhone("987 654 321") == "987654321"
  {
    var a, b, c := "987", "654", "321";
    assert a + " " + b + " " + c == "987 654 321";
    assert a + b + c == "987654321";
    GroupsJoined(a, b, c);
  }

  /** Three groups without separators, joined by single spaces, clean to the groups joined. */
  lemma GroupsJoined(a: string, b: string, c: string)
    requires forall i :: 0 <= i < |a| ==> NotSeparator(a[i])
    requires forall i :: 0 <= i < |b| ==> NotSeparator(b[i])
    requires forall i :: 0 <= i < |c| ==> NotSeparator(c[i])
    ensures CleanPhone(a + " " + b + " " + c) == a + b + c
  {
    FilterKeepsKept(a, NotSeparator);
    FilterKeepsKept(b, NotSeparator);
    FilterKeepsKept(c, NotSeparator);
    var sp := " ";
    assert Filter(sp, NotSeparator) == [] by {
      assert Filter(sp[1..], NotSeparator) == [];
    }
    FilterAppend(a + sp + b + sp, c, NotSeparator);
    FilterAppend(a + sp + b, sp, NotSeparator);
    FilterAppend(a + sp, b, NotSeparator);
    FilterAppend(a, sp, NotSeparator);
  }

  // ---------------------------------------------------------------------------------------
  // The form

  /** How the update call settles: the reply's `success`, or a thrown error. */
  datatype UpdateReply = Updated(success: bool) | Failed(message: string)

  /** What a submission did: refused by the schema, nothing to save, no user to save to, or
      sent (and, when the reply succeeded, the session's user reloaded). */
  datatype Submission = Invalid(issues: seq<Issue>) | NoChanges | NoUser | Sent(payload: UpdateData, refreshed: bool)

  class ProfileForm {
    /** The values in the form. */
    var values: ProfileValues
    /** The values the form was last reset to; the form is dirty when it differs from them. */
    var defaults: ProfileValues

    constructor()
      ensures values == EmptyValues && defaults == EmptyValues
    {
      values := EmptyValues;
      defaults := EmptyValues;
    }

    predicate IsDirty()
      reads this
    {
      values != defaults
    }

    /** The effect that runs when the user changes: with a user, both the values and the
        defaults become that user's; without one nothing changes. */
    method ResetFor(user: Option<AuthService.User>)
      modifies this
      ensures user.Some? ==> values == InitialValues(user.value) && defaults == values && !IsDirty()
      ensures user.None? ==> values == old(values) && defaults == old(defaults)
    {
      if user.Some? {
        values := InitialValues(user.value);
        defaults := values;
      }
    }

    /** `handleRegionChange`: the region takes the new value and the city is emptied. */
    method HandleRegionChange(region: string)
      modifies this
      ensures values == old(values).(region := region, city := "") && defaults == old(defaults)
    {
      values := values.(region := region);
      values := values.(city := "");
    }

    /** `handleCityChange` */
    method HandleCityChange(city: string)
      modifies this
      ensures values == old(values).(city := city) && defaults == old(defaults)
    {
      values := values.(city := city);
    }

    /** A submission: the schema first; then nothing is sent without changes or without a
        user id (an id of 0 counts as none); otherwise the payload of the parsed values is
        sent, and the session's user is reloaded when the reply reports success. */
    method Submit(user: Option<AuthService.User>, reply: UpdateReply) returns (r: Submission)
      ensures ProfileSchema(values).Failure? <==> r.Invalid?
      ensures r.Invalid? ==> r.issues == ProfileSchema(values).issues
      ensures r == NoChanges <==> ProfileSchema(values).Success? && !IsDirty()
      ensures r == NoUser <==> ProfileSchema(values).Success? && IsDirty() && (user.None? || user.value.id == 0)
      ensures r.Sent? ==> r.payload == Payload(ProfileSchema(values).value)
      ensures r.Sent? ==> (r.refreshed <==> reply == Updated(true))
    {
      var parsed := ProfileSchema(values);
      if parsed.Failure? {
        return Invalid(parsed.issues);
      }
      if !IsDirty() {
        return NoChanges;
      }
      if user.None? || user.value.id == 0 {
        return NoUser;
      }
      var payload := Payload(parsed.value);
      match reply {
        case Updated(success) =>
          r := Sent(payload, success);
        case Failed(_) =>
          r := Sent(payload, false);
      }
    }
  }
}
