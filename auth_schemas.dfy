/** The form schemas of the authentication pages: registration, login and password reset.
    A schema checks each field in declaration order, collecting one issue per failed check,
    then compares the two passwords; it yields the parsed form, with the e-mail lower-cased,
    when no issue was found. The library's e-mail test is the parameter `isEmail`. */
module AuthSchemas {
  import opened Text

  // ---------------------------------------------------------------------------------------
  // Messages

  const FirstNameRequired := "El nombre es requerido"
  const FirstNameTooShort := "El nombre debe tener al menos 2 caracteres"
  const FirstNameTooLong := "El nombre no puede exceder 50 caracteres"
  const FirstNameLetters := "El nombre solo puede contener letras"
  const LastNameRequired := "El apellido es requerido"
  const LastNameTooShort := "El apellido debe tener al menos 2 caracteres"
  const LastNameTooLong := "El apellido no puede exceder 50 caracteres"
  const LastNameLetters := "El apellido solo puede contener letras"
  const EmailRequired := "El email es requerido"
  const EmailInvalid := "El formato del email no es válido"
  const EmailTooLong := "El email no puede exceder 100 caracteres"
  const RegionRequired := "La región es requerida"
  const CityRequired := "La comuna es requerida"
  const PhoneRequired := "El teléfono es requerido"
  const PhoneWrongLength := "El teléfono debe tener exactamente 9 dígitos"
  const PhonePattern := "El teléfono debe comenzar con 9 y tener 9 dígitos (ej: 987654321)"
  const PasswordRequired := "La contraseña es requerida"
  const PasswordTooShort := "La contraseña debe tener al menos 8 caracteres"
  const PasswordTooLong := "La contraseña no puede exceder 100 caracteres"
  const PasswordClasses := "La contraseña debe contener al menos una mayúscula, una minúscula y un número"
  const ConfirmRequired := "Confirma tu contraseña"
  const NewPasswordRequired := "La nueva contraseña es requerida"
  const ConfirmNewRequired := "Confirma tu nueva contraseña"
  const CodeRequired := "El código de verificación es requerido"
  const CodeWrongLength := "El código debe tener exactamente 6 caracteres"
  const CodePattern := "El código debe contener solo letras mayúsculas y números"
  const MismatchMessage := "Las contraseñas no coinciden"

  /** A validation issue: the field it belongs to and its message. */
  datatype Issue = Issue(path: string, message: string)

  datatype Parsed<T> = Success(value: T) | Failure(issues: seq<Issue>)

  /** The last issue reported. */
  function Last(issues: seq<Issue>): Issue
    requires issues != []
  {
    issues[|issues| - 1]
  }

  /** One check: no issue when it holds, its message on `path` otherwise. */
  function Require(path: string, ok: bool, message: string): (r: seq<Issue>)
    ensures r == [] <==> ok
    ensures !ok ==> r == [Issue(path, message)]
  {
    if ok then [] else [Issue(path, message)]
  }

  // ---------------------------------------------------------------------------------------
  // Character classes and patterns

  /** A character of `[a-zA-ZáéíóúÁÉÍÓÚñÑ\s]`. */
  predicate NameChar(c: char) {
    IsAsciiLetter(c) || c in "áéíóúÁÉÍÓÚñÑ" || IsSpace(c)
  }

  /** `/^[a-zA-ZáéíóúÁÉÍÓÚñÑ\s]+$/` */
  predicate MatchesName(s: string) {
    |s| >= 1 && forall i :: 0 <= i < |s| ==> NameChar(s[i])
  }

  /** A valid first or last name: 2 to 50 characters, letters (with the Spanish accented
      vowels and ñ) and white space only. */
  predicate ValidName(s: string) {
    2 <= |s| <= 50 && MatchesName(s)
  }

  /** `/^9[0-9]{8}$/`: a Chilean mobile number, nine digits starting with 9. */
  predicate MobilePhone(s: string) {
    |s| == 9 && s[0] == '9' && AllDigits(s)
  }

  /** `/^[A-Z0-9]{6}$/` */
  predicate ResetCode(s: string) {
    |s| == 6 && forall i :: 0 <= i < |s| ==> IsAsciiUpper(s[i]) || IsDigit(s[i])
  }

  /** The text before the first line terminator: the part `.*` can scan from the start. */
  function FirstLine(s: string): (r: string)
    ensures |r| <= |s| && r == s[..|r|]
    ensures forall i :: 0 <= i < |r| ==> !IsLineTerminator(r[i])
    ensures |r| < |s| ==> IsLineTerminator(s[|r|])
  {
    if s == [] || IsLineTerminator(s[0]) then [] else [s[0]] + FirstLine(s[1..])
  }

  /** `/^(?=.*[a-z])(?=.*[A-Z])(?=.*\d)/`: a lower-case letter, an upper-case letter and a
      digit, each before the first line break. */
  predicate ThreeClasses(s: string) {
    var line := FirstLine(s);
    (exists i :: 0 <= i < |line| && IsAsciiLower(line[i]))
    && (exists i :: 0 <= i < |line| && IsAsciiUpper(line[i]))
    && (exists i :: 0 <= i < |line| && IsDigit(line[i]))
  }

  /** A valid password: 8 to 100 characters of the three classes. */
  predicate StrongPassword(s: string) {
    8 <= |s| <= 100 && ThreeClasses(s)
  }

  // ---------------------------------------------------------------------------------------
  // Field checks, in declaration order

  function NameIssues(path: string, s: string, required: string, tooShort: string, tooLong: string, letters: string): (r: seq<Issue>)
    ensures r == [] <==> ValidName(s)
    ensures forall i :: 0 <= i < |r| ==> r[i].path == path
  {
    Require(path, |s| >= 1, required) + Require(path, |s| >= 2, tooShort)
    + Require(path, |s| <= 50, tooLong) + Require(path, MatchesName(s), letters)
  }

  function EmailIssues(isEmail: string -> bool, s: string): (r: seq<Issue>)
    ensures r == [] <==> |s| >= 1 && isEmail(s)
    ensures forall i :: 0 <= i < |r| ==> r[i].path == "email"
  {
    Require("email", |s| >= 1, EmailRequired)
    + Require("email", isEmail(s), EmailInvalid)
  }

  function PasswordIssues(path: string, s: string, required: string): (r: seq<Issue>)
    ensures r == [] <==> StrongPassword(s)
    ensures forall i :: 0 <= i < |r| ==> r[i].path == path
  {
    Require(path, |s| >= 1, required)
    + Require(path, |s| >= 8, PasswordTooShort)
    + Require(path, |s| <= 100, PasswordTooLong)
    + Require(path, ThreeClasses(s), PasswordClasses)
  }

  function PhoneIssues(s: string): (r: seq<Issue>)
    ensures r == [] <==> MobilePhone(s)
    ensures forall i :: 0 <= i < |r| ==> r[i].path == "phone"
  {
    Require("phone", |s| >= 1, PhoneRequired)
    + Require("phone", |s| == 9, PhoneWrongLength)
    + Require("phone", MobilePhone(s), PhonePattern)
  }

  /** The issue the password comparison reports. */
  const Mismatch := Issue("confirmPassword", MismatchMessage)

  function MatchIssues(password: string, confirmation: string): (r: seq<Issue>)
    ensures r == [] <==> password == confirmation
    ensures r != [] ==> r == [Mismatch]
  {
    if password == confirmation then [] else [Mismatch]
  }

  // ---------------------------------------------------------------------------------------
  // registerSchema

  datatype RegisterForm = RegisterForm(
    firstName: string,
    lastName: string,
    email: string,
    region: string,
    city: string,
    phone: string,
    password: string,
    confirmPassword: string)

  function RegisterNameIssues(f: RegisterForm): (r: seq<Issue>)
    ensures r == [] <==> ValidName(f.firstName) && ValidName(f.lastName)
  {
    NameIssues("firstName", f.firstName, FirstNameRequired,
      FirstNameTooShort, FirstNameTooLong,
      FirstNameLetters)
    + NameIssues("lastName", f.lastName, LastNameRequired,
      LastNameTooShort, LastNameTooLong,
      LastNameLetters)
  }

  function RegisterContactIssues(isEmail: string -> bool, f: RegisterForm): (r: seq<Issue>)
    ensures r == [] <==>
      1 <= |f.email| <= 100 && isEmail(f.email) && f.region != "" && f.city != "" && MobilePhone(f.phone)
  {
    EmailIssues(isEmail, f.email)
    + Require("email", |f.email| <= 100, EmailTooLong)
    + Require("region", |f.region| >= 1, RegionRequired)
    + Require("city", |f.city| >= 1, CityRequired)
    + PhoneIssues(f.phone)
  }

  function RegisterPasswordIssues(f: RegisterForm): (r: seq<Issue>)
    ensures r == [] <==> StrongPassword(f.password) && f.confirmPassword == f.password
    ensures f.password != f.confirmPassword ==> r != [] && r[|r| - 1] == Mismatch
  {
    PasswordIssues("password", f.password, PasswordRequired)
    + Require("confirmPassword", |f.confirmPassword| >= 1, ConfirmRequired)
    + MatchIssues(f.password, f.confirmPassword)
  }

  lemma NoIssuesInParts(a: seq<Issue>, b: seq<Issue>, c: seq<Issue>)
    ensures a + b + c == [] <==> a == [] && b == [] && c == []
  {
    assert |a + b + c| == |a| + |b| + |c|;
  }

  /** All issues of the registration form, in the order the library reports them. */
  function RegisterIssues(isEmail: string -> bool, f: RegisterForm): seq<Issue> {
    RegisterNameIssues(f) + RegisterContactIssues(isEmail, f) + RegisterPasswordIssues(f)
  }

  /** `registerSchema.safeParse`: accepted exactly when both names are valid, the e-mail is a
      well-formed address of at most 100 characters, region and city are given, the phone is
      a mobile number, the password is strong and confirmed; the accepted form has its e-mail
      lower-cased. */
  function RegisterSchema(isEmail: string -> bool, f: RegisterForm): (r: Parsed<RegisterForm>)
    ensures r.Success? <==>
      ValidName(f.firstName) && ValidName(f.lastName)
      && 1 <= |f.email| <= 100 && isEmail(f.email)
      && f.region != "" && f.city != ""
      && MobilePhone(f.phone)
      && StrongPassword(f.password) && f.confirmPassword == f.password
    ensures r.Success? ==> r.value == f.(email := ToLower(f.email))
  {
    var issues := RegisterIssues(isEmail, f);
    NoIssuesInParts(RegisterNameIssues(f), RegisterContactIssues(isEmail, f), RegisterPasswordIssues(f));
    if issues == [] then Success(f.(email := ToLower(f.email))) else Failure(issues)
  }

  // ---------------------------------------------------------------------------------------
  // loginSchema

  datatype LoginForm = LoginForm(email: string, password: string)

  /** `loginSchema.safeParse`: a well-formed e-mail (lower-cased on output) and any non-empty
      password; there is no strength rule at login. */
  function LoginSchema(isEmail: string -> bool, f: LoginForm): (r: Parsed<LoginForm>)
    ensures r.Success? <==> |f.email| >= 1 && isEmail(f.email) && |f.password| >= 1
    ensures r.Success? ==> r.value == LoginForm(ToLower(f.email), f.password)
  {
    var issues := EmailIssues(isEmail, f.email)
      + Require("password", |f.password| >= 1, PasswordRequired);
    if issues == [] then Success(LoginForm(ToLower(f.email), f.password)) else Failure(issues)
  }

  // ---------------------------------------------------------------------------------------
  // resetPasswordSchema

  datatype ResetForm = ResetForm(email: string, code: string, newPassword: string, confirmPassword: string)

  function CodeIssues(s: string): (r: seq<Issue>)
    ensures r == [] <==> ResetCode(s)
  {
    Require("code", |s| >= 1, CodeRequired)
    + Require("code", |s| == 6, CodeWrongLength)
    + Require("code", ResetCode(s), CodePattern)
  }

  /** All issues of the reset form, in the order the library reports them. */
  function ResetIssues(isEmail: string -> bool, f: ResetForm): seq<Issue> {
    EmailIssues(isEmail, f.email) + CodeIssues(f.code)
    + PasswordIssues("newPassword", f.newPassword, NewPasswordRequired)
    + Require("confirmPassword", |f.confirmPassword| >= 1, ConfirmNewRequired)
    + MatchIssues(f.newPassword, f.confirmPassword)
  }

  /** `resetPasswordSchema.safeParse`: a well-formed e-mail (lower-cased on output), a code of
      six upper-case letters or digits, a strong new password and its confirmation. */
  function ResetPasswordSchema(isEmail: string -> bool, f: ResetForm): (r: Parsed<ResetForm>)
    ensures r.Success? <==>
      |f.email| >= 1 && isEmail(f.email) && ResetCode(f.code)
      && StrongPassword(f.newPassword) && f.confirmPassword == f.newPassword
    ensures r.Success? ==> r.value == f.(email := ToLower(f.email))
  {
    var issues := ResetIssues(isEmail, f);
    if issues == [] then Success(f.(email := ToLower(f.email))) else Failure(issues)
  }

  /** Differing passwords make registration fail, and the last issue reported is the mismatch,
      on `confirmPassword`, whatever else is wrong with the form. */
  lemma RegisterMismatchReported(isEmail: string -> bool, f: RegisterForm)
    requires f.password != f.confirmPassword
    ensures RegisterSchema(isEmail, f).Failure?
    ensures Last(RegisterSchema(isEmail, f).issues) == Mismatch
  {
    var names, contact, secret := RegisterNameIssues(f), RegisterContactIssues(isEmail, f), RegisterPasswordIssues(f);
    var all := names + contact + secret;
    assert RegisterIssues(isEmail, f) == all;
    assert all[|all| - 1] == secret[|secret| - 1];
  }

  /** The same for the reset form. */
  lemma ResetMismatchReported(isEmail: string -> bool, f: ResetForm)
    requires f.newPassword != f.confirmPassword
    ensures ResetPasswordSchema(isEmail, f).Failure?
    ensures Last(ResetPasswordSchema(isEmail, f).issues) == Mismatch
  {
    var all := ResetIssues(isEmail, f);
    var head := EmailIssues(isEmail, f.email) + CodeIssues(f.code)
      + PasswordIssues("newPassword", f.newPassword, NewPasswordRequired)
      + Require("confirmPassword", |f.confirmPassword| >= 1, ConfirmNewRequired);
    assert all == head + [Mismatch];
  }

  // ---------------------------------------------------------------------------------------
  // Examples

  lemma PhoneExamples()
    ensures MobilePhone("987654321")
    ensures !MobilePhone("812345678")
    ensures !MobilePhone("98765432")
  {
    assert forall i :: 0 <= i < 9 ==> IsDigit("987654321"[i]);
  }

  /** A password without an upper-case letter is refused, whatever its length. */
  lemma NoCapitalRefused(s: string)
    requires forall i :: 0 <= i < |s| ==> !IsAsciiUpper(s[i])
    ensures !StrongPassword(s)
  {
    var line := FirstLine(s);
    assert forall i :: 0 <= i < |line| ==> line[i] == s[i];
  }

  lemma LowerCaseExampleRefused()
    ensures !StrongPassword("abc12345")
  {
    var s := "abc12345";
    assert forall i :: 0 <= i < |s| ==> !IsAsciiUpper(s[i]);
    NoCapitalRefused(s);
  }

  /** A password with the three classes is accepted. */
  lemma ThreeClassesAccepted()
    ensures StrongPassword("Abc12345")
  {
    var s := "Abc12345";
    var line := FirstLine(s);
    assert s[..4] == "Abc1";
    assert |line| >= 4 by {
      assert forall i :: 0 <= i < 4 ==> !IsLineTerminator(s[i]);
    }
    assert IsAsciiUpper(line[0]) && IsAsciiLower(line[1]) && IsDigit(line[3]);
  }

  lemma EmailLowerCased()
    ensures ToLower("User@Example.COM") == "user@example.com"
  {
  }

  lemma CodeExamples()
    ensures ResetCode("AB12C9")
    ensures !ResetCode("ab12c9")
    ensures !ResetCode("AB12C")
  {
    assert !(IsAsciiUpper("ab12c9"[0]) || IsDigit("ab12c9"[0]));
  }

  lemma NameExamples()
    ensures ValidName("José Ñúñez")
    ensures !ValidName("J")
    ensures !ValidName("Jos3")
  {
    assert !NameChar("Jos3"[3]);
  }
}
