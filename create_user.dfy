/** The administrators' create-user form: the field-by-field validator, the input handler
    that keeps the city list in step with the region, the phone input sanitiser and the
    submit handler. The region table and the create call's reply are inputs. */
module CreateUser {
  import opened Wrappers
  import opened Text
  import AuthSchemas

  // ---------------------------------------------------------------------------------------
  // The e-mail pattern `^[^\s@]+@[^\s@]+\.[^\s@]+$`

  /** A non-empty run of characters that are neither white space nor `@`. */
  predicate Part(t: string) {
    |t| > 0 && forall k :: 0 <= k < |t| ==> !IsSpace(t[k]) && t[k] != '@'
  }

  /** `s` reads as a part, `@` at `i`, a part, `.` at `j`, a part. */
  ghost predicate SplitsAt(s: string, i: int, j: int) {
    0 < i < j < |s| && s[i] == '@' && s[j] == '.'
    && Part(s[..i]) && Part(s[i + 1..j]) && Part(s[j + 1..])
  }

  /** What the pattern accepts. */
  ghost predicate EmailPattern(s: string) {
    exists i, j :: SplitsAt(s, i, j)
  }

  /** A direct test of the pattern: no white space anywhere, exactly one `@` with something
      before it, and a `.` strictly inside what follows it. It accepts exactly what the
      pattern accepts. */
  function MatchesEmailPattern(s: string): (b: bool)
    ensures b <==> EmailPattern(s)
  {
    match IndexOf(s, "@")
    case None =>
      assert forall i, j :: SplitsAt(s, i, j) ==> OccursAt(s, "@", i);
      false
    case Some(i) =>
      var ok := 0 < i && Part(s[..i]) && NoSpaceOrAt(s[i + 1..]) && HasInnerDot(s, i + 1);
      assert ok ==> EmailPattern(s) by {
        if ok {
          var j :| i + 1 < j < |s| - 1 && s[j] == '.';
          TestedSplit(s, i, j);
        }
      }
      assert EmailPattern(s) ==> ok by {
        if EmailPattern(s) {
          var i', j' :| SplitsAt(s, i', j');
          SplitIsTested(s, i', j');
        }
      }
      ok
  }

  /** A split the direct test finds is a split of the pattern. */
  lemma TestedSplit(s: string, i: int, j: int)
    requires 0 < i && i + 1 < j < |s| - 1 && s[i] == '@' && s[j] == '.'
    requires Part(s[..i]) && NoSpaceOrAt(s[i + 1..])
    ensures SplitsAt(s, i, j)
  {
    assert s[i + 1..j] == s[i + 1..][..j - i - 1];
    assert s[j + 1..] == s[i + 1..][j - i..];
  }

  /** A split of the pattern is found by the direct test: its `@` is the first one. */
  lemma SplitIsTested(s: string, i: int, j: int)
    requires SplitsAt(s, i, j)
    ensures IndexOf(s, "@") == Some(i)
    ensures NoSpaceOrAt(s[i + 1..]) && HasInnerDot(s, i + 1)
  {
    assert OccursAt(s, "@", i);
    var first := IndexOf(s, "@");
    assert first.Some? && first.value <= i;
    assert forall k :: 0 <= k < i ==> s[k] != '@' by {
      forall k | 0 <= k < i
        ensures s[k] != '@'
      {
        assert s[k] == s[..i][k];
      }
    }
    assert s[first.value] == '@' by {
      assert s[first.value..first.value + 1] == "@";
      assert s[first.value] == s[first.value..first.value + 1][0];
    }
    var t := s[i + 1..];
    forall k | 0 <= k < |t|
      ensures !IsSpace(t[k]) && t[k] != '@'
    {
      if i + 1 + k < j {
        assert t[k] == s[i + 1..j][k];
      } else if i + 1 + k > j {
        assert t[k] == s[j + 1..][k - (j - i)];
      }
    }
  }

  predicate NoSpaceOrAt(t: string) {
    forall k :: 0 <= k < |t| ==> !IsSpace(t[k]) && t[k] != '@'
  }

  predicate HasInnerDot(s: string, from: nat) {
    exists j :: from < j < |s| - 1 && s[j] == '.'
  }

  lemma EmailPatternExamples()
    ensures EmailPattern("ana@roomzy.cl")
    ensures !EmailPattern("ana@roomzy")
  {
    assert SplitsAt("ana@roomzy.cl", 3, 10);
    if EmailPattern("ana@roomzy") {
      var i, j :| SplitsAt("ana@roomzy", i, j);
      assert false;
    }
  }

  // ---------------------------------------------------------------------------------------
  // The form and its validator

  datatype CreateUserData = CreateUserData(
    name: string,
    lastName: string,
    email: string,
    region: string,
    city: string,
    phone: string,
    password: string,
    role: string,
    bio: string,
    habits: string)

  const EmptyForm := CreateUserData("", "", "", "", "", "", "", "seeker", "", "")

  datatype FieldName = Name | LastName | Email | Region | City | Phone | Password | Role | Bio | Habits

  /** The value of a field. */
  function Value(f: CreateUserData, field: FieldName): string {
    match field
    case Name => f.name
    case LastName => f.lastName
    case Email => f.email
    case Region => f.region
    case City => f.city
    case Phone => f.phone
    case Password => f.password
    case Role => f.role
    case Bio => f.bio
    case Habits => f.habits
  }

  /** `{...prev, [field]: value}`: the field takes the value and no other field changes. */
  function With(f: CreateUserData, field: FieldName, value: string): (g: CreateUserData)
    ensures Value(g, field) == value
    ensures forall other: FieldName :: other != field ==> Value(g, other) == Value(f, other)
  {
    match field
    case Name => f.(name := value)
    case LastName => f.(lastName := value)
    case Email => f.(email := value)
    case Region => f.(region := value)
    case City => f.(city := value)
    case Phone => f.(phone := value)
    case Password => f.(password := value)
    case Role => f.(role := value)
    case Bio => f.(bio := value)
    case Habits => f.(habits := value)
  }

  /** A field's value is present after trimming (`!value.trim()` fails): it is not all white
      space. */
  predicate Filled(s: string) { !IsBlank(s) }

  lemma FilledIsTrimmedNonEmpty(s: string)
    ensures Filled(s) <==> Trim(s) != []
  {
  }

  const PhoneLength := 9
  const MinPasswordLength := 6

  function RequiredError(s: string, message: string): (e: Option<string>)
    ensures e.None? <==> Filled(s)
  {
    if !Filled(s) then Some(message) else None
  }

  function EmailError(s: string): (e: Option<string>)
    ensures e.None? <==> EmailPattern(s)
  {
    if !Filled(s) then Some("El email es requerido")
    else if !MatchesEmailPattern(s) then Some("El formato del email no es válido")
    else None
  }

  function PhoneError(s: string): (e: Option<string>)
    ensures e.None? <==> AuthSchemas.MobilePhone(s)
  {
    if !Filled(s) then Some("El teléfono es requerido")
    else if |s| != PhoneLength then Some("El teléfono debe tener exactamente 9 dígitos")
    else if !AuthSchemas.MobilePhone(s) then Some("El teléfono debe comenzar con 9 seguido de 8 dígitos")
    else None
  }

  function PasswordError(s: string): (e: Option<string>)
    ensures e.None? <==> Filled(s) && |s| >= MinPasswordLength
  {
    if !Filled(s) then Some("La contraseña es requerida")
    else if |s| < MinPasswordLength then Some("La contraseña debe tener al menos 6 caracteres")
    else None
  }

  /** The error the validator gives a field, if any: the checks of one field run in order and
      only the first failing one speaks. Role, bio and habits are never checked. */
  function FieldError(f: CreateUserData, field: FieldName): (e: Option<string>)
    ensures field in {Role, Bio, Habits} ==> e.None?
  {
    match field
    case Name => RequiredError(f.name, "El nombre es requerido")
    case LastName => RequiredError(f.lastName, "El apellido es requerido")
    case Email => EmailError(f.email)
    case Region => if f.region == "" then Some("La región es requerida") else None
    case City => RequiredError(f.city, "La comuna es requerida")
    case Phone => PhoneError(f.phone)
    case Password => PasswordError(f.password)
    case Role => None
    case Bio => None
    case Habits => None
  }

  /** The rules the form must meet, read one by one. */
  ghost predicate Acceptable(f: CreateUserData) {
    Filled(f.name) && Filled(f.lastName) && EmailPattern(f.email) && f.region != ""
    && Filled(f.city) && AuthSchemas.MobilePhone(f.phone)
    && Filled(f.password) && |f.password| >= MinPasswordLength
  }

  /** The error map, keyed by field. */
  type Errors = map<FieldName, string>

  /** The fields the validator checks, in its order. */
  const Checked: seq<FieldName> := [Name, LastName, Email, Region, City, Phone, Password]

  const AllFields: set<FieldName> := {Name, LastName, Email, Region, City, Phone, Password, Role, Bio, Habits}

  lemma InAllFields(field: FieldName)
    ensures field in AllFields
  {
    match field
    case Name =>
    case LastName =>
    case Email =>
    case Region =>
    case City =>
    case Phone =>
    case Password =>
    case Role =>
    case Bio =>
    case Habits =>
  }

  /** `Object.keys(m).length === 0` holds exactly of the empty map. */
  lemma NoKeysIsEmpty(m: Errors)
    ensures |m| == 0 <==> m == map[]
  {
    if m != map[] {
      var k :| k in m;
      assert k in m.Keys;
    }
  }

  /** `m` with `field`'s message added when it has one. */
  function Put(m: Errors, field: FieldName, e: Option<string>): (r: Errors)
    ensures e.None? ==> r == m
    ensures e.Some? ==> r == m[field := e.value]
  {
    if e.Some? then m[field := e.value] else m
  }

  /** What a key of `Put(m, field, e)` holds. */
  lemma PutLookup(m: Errors, field: FieldName, e: Option<string>, g: FieldName)
    ensures g in Put(m, field, e) <==> (g == field && e.Some?) || g in m
    ensures g in Put(m, field, e) ==> Put(m, field, e)[g] == if g == field && e.Some? then e.value else m[g]
  {
  }

  /** The error map the validator builds: the messages of the checked fields added one by
      one, in its order. */
  function ErrorsFor(f: CreateUserData): Errors {
    var m1 := Put(map[], Name, FieldError(f, Name));
    var m2 := Put(m1, LastName, FieldError(f, LastName));
    var m3 := Put(m2, Email, FieldError(f, Email));
    var m4 := Put(m3, Region, FieldError(f, Region));
    var m5 := Put(m4, City, FieldError(f, City));
    var m6 := Put(m5, Phone, FieldError(f, Phone));
    Put(m6, Password, FieldError(f, Password))
  }

  /** The map holds a message for a field exactly when that field has an error, and then it
      holds that field's message: one message per field, none for a field that passes. */
  lemma {:induction false} ErrorsForMeaning(f: CreateUserData, g: FieldName)
    ensures g in ErrorsFor(f) <==> FieldError(f, g).Some?
    ensures g in ErrorsFor(f) ==> ErrorsFor(f)[g] == FieldError(f, g).value
  {
    var m1 := Put(map[], Name, FieldError(f, Name));
    var m2 := Put(m1, LastName, FieldError(f, LastName));
    var m3 := Put(m2, Email, FieldError(f, Email));
    var m4 := Put(m3, Region, FieldError(f, Region));
    var m5 := Put(m4, City, FieldError(f, City));
    var m6 := Put(m5, Phone, FieldError(f, Phone));
    var m7 := Put(m6, Password, FieldError(f, Password));
    PutLookup(map[], Name, FieldError(f, Name), g);
    PutLookup(m1, LastName, FieldError(f, LastName), g);
    PutLookup(m2, Email, FieldError(f, Email), g);
    PutLookup(m3, Region, FieldError(f, Region), g);
    PutLookup(m4, City, FieldError(f, City), g);
    PutLookup(m5, Phone, FieldError(f, Phone), g);
    PutLookup(m6, Password, FieldError(f, Password), g);
    assert ErrorsFor(f) == m7;
  }

  /** The form has no errors exactly when it meets every rule. */
  lemma NoErrorsIffAcceptable(f: CreateUserData)
    ensures ErrorsFor(f) == map[] <==> Acceptable(f)
  {
    var m := ErrorsFor(f);
    ErrorsForMeaning(f, Name);
    ErrorsForMeaning(f, LastName);
    ErrorsForMeaning(f, Email);
    ErrorsForMeaning(f, Region);
    ErrorsForMeaning(f, City);
    ErrorsForMeaning(f, Phone);
    ErrorsForMeaning(f, Password);
    if m != map[] {
      var k :| k in m;
      ErrorsForMeaning(f, k);
      InAllFields(k);
    }
  }

  /** The three phone checks give three different messages, in order. */
  lemma PhoneMessages()
    ensures PhoneError("  ") == Some("El teléfono es requerido")
    ensures PhoneError("98765432") == Some("El teléfono debe tener exactamente 9 dígitos")
    ensures PhoneError("812345678") == Some("El teléfono debe comenzar con 9 seguido de 8 dígitos")
    ensures PhoneError("987654321").None?
  {
    assert IsBlank("  ");
    assert !IsSpace("98765432"[0]);
    assert !IsSpace("812345678"[0]);
    assert "812345678"[0] != '9';
    assert AuthSchemas.MobilePhone("987654321");
  }

  /** A password needs six characters and nothing else: no character classes. */
  lemma PasswordRule()
    ensures PasswordError("abcdef").None?
    ensures PasswordError("abcde") == Some("La contraseña debe tener al menos 6 caracteres")
  {
    assert !IsSpace("abcdef"[0]);
    assert !IsSpace("abcde"[0]);
  }

  // ---------------------------------------------------------------------------------------
  // The phone input

  /** `value.replace(/\D/g, '').slice(0, 9)`: the digits of the input, at most nine of them,
      in order. Input that is already nine digits or fewer comes back unchanged. */
  function SanitizePhone(s: string): (r: string)
    ensures |r| <= PhoneLength && |r| <= |Filter(s, IsDigit)| && AllDigits(r)
    ensures r == Filter(s, IsDigit)[..|r|]
    ensures |r| == if |Filter(s, IsDigit)| <= PhoneLength then |Filter(s, IsDigit)| else PhoneLength
    ensures AllDigits(s) && |s| <= PhoneLength ==> r == s
  {
    var digits := Filter(s, IsDigit);
    assert AllDigits(s) ==> digits == s by {
      if AllDigits(s) {
        FilterKeepsKept(s, IsDigit);
      }
    }
    Take(digits, PhoneLength)
  }

  /** Sanitising twice is sanitising once. */
  lemma SanitizeIdempotent(s: string)
    ensures SanitizePhone(SanitizePhone(s)) == SanitizePhone(s)
  {
  }

  // ---------------------------------------------------------------------------------------
  // The page

  /** How `adminService.createUser` settles: a reply (with the new user's id when it has
      data), or a thrown error. */
  datatype CreateReply = Created(success: bool, userId: Option<int>) | Failed(message: string)

  /** Where the page sends the administrator: the new user's page, by id. */
  datatype Submitted = Invalid | Sent(shown: Option<int>)

  class CreateUserPage {
    var formData: CreateUserData
    var errors: Errors
    var availableCities: seq<string>
    var isCreating: bool
    /** The region → cities table. */
    const regions: map<string, seq<string>>

    constructor(regions: map<string, seq<string>>)
      ensures formData == EmptyForm && errors == map[] && availableCities == [] && !isCreating
      ensures this.regions == regions
    {
      formData := EmptyForm;
      errors := map[];
      availableCities := [];
      isCreating := false;
      this.regions := regions;
    }

    /** `validateForm`: the error map is replaced by the one built from the form, and the form
        is valid exactly when that map is empty. */
    method ValidateForm() returns (valid: bool)
      modifies this
      ensures errors == ErrorsFor(formData)
      ensures valid <==> errors == map[]
      ensures formData == old(formData) && availableCities == old(availableCities) && isCreating == old(isCreating)
    {
      var newErrors: Errors := map[];
      newErrors := Put(newErrors, Name, FieldError(formData, Name));
      newErrors := Put(newErrors, LastName, FieldError(formData, LastName));
      newErrors := Put(newErrors, Email, FieldError(formData, Email));
      newErrors := Put(newErrors, Region, FieldError(formData, Region));
      newErrors := Put(newErrors, City, FieldError(formData, City));
      newErrors := Put(newErrors, Phone, FieldError(formData, Phone));
      newErrors := Put(newErrors, Password, FieldError(formData, Password));
      errors := newErrors;
      valid := |errors| == 0;
      NoKeysIsEmpty(errors);
    }

    /** `handleInputChange(field, value)`: the field takes the value; a new region also
        selects its cities (none for an unknown region) and empties the city; a field that
        showed an error now shows the empty message. */
    method HandleInputChange(field: FieldName, value: string)
      modifies this
      ensures field != Region ==> formData == With(old(formData), field, value) && availableCities == old(availableCities)
      ensures field == Region ==>
        formData == old(formData).(region := value, city := "")
        && availableCities == Get(regions, value).GetOr([])
      ensures (field in old(errors) && old(errors)[field] != "") ==> errors == old(errors)[field := ""]
      ensures !(field in old(errors) && old(errors)[field] != "") ==> errors == old(errors)
      ensures isCreating == old(isCreating)
    {
      formData := With(formData, field, value);
      if field == Region {
        availableCities := Get(regions, value).GetOr([]);
        formData := formData.(city := "");
      }
      if field in errors && errors[field] != "" {
        errors := errors[field := ""];
      }
    }

    /** `handleSubmit`: an invalid form sends nothing; a valid one is sent, and the page of
        the created user is shown when the reply succeeds with data. */
    method HandleSubmit(reply: CreateReply) returns (r: Submitted)
      modifies this
      ensures errors == ErrorsFor(old(formData)) && formData == old(formData)
      ensures availableCities == old(availableCities)
      ensures r == Invalid <==> !Acceptable(old(formData))
      ensures r == Invalid ==> isCreating == old(isCreating)
      ensures r.Sent? ==> !isCreating
      ensures r.Sent? && r.shown.Some? <==> r.Sent? && reply.Created? && reply.success && reply.userId.Some?
      ensures r.Sent? && r.shown.Some? ==> r.shown == reply.userId
    {
      var valid := ValidateForm();
      NoErrorsIffAcceptable(formData);
      if !valid {
        r := Invalid;
        return;
      }
      isCreating := true;
      match reply {
        case Created(success, userId) =>
          r := Sent(if success && userId.Some? then userId else None);
        case Failed(_) =>
          r := Sent(None);
      }
      isCreating := false;
    }
  }
}
