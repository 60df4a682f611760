/** The account forms' schemas of `src/schemaValidation/auth.schema.ts`:
    the password rules, registration, login, forgotten password and
    password reset. Whether a text is an e-mail address is the library's
    own test, passed in as `isEmail`. */
module AuthSchema {
  import opened Wrappers
  import opened JsStrings
  import opened Zod

  predicate IsLowerAscii(c: char) { 'a' <= c <= 'z' }
  predicate IsUpperAscii(c: char) { 'A' <= c <= 'Z' }
  /** `[^a-zA-Z0-9]`. */
  predicate IsSymbol(c: char) { !IsLowerAscii(c) && !IsUpperAscii(c) && !IsDigit(c) }

  /** The password the rules accept: at least 8 characters, with a
      lower-case letter, an upper-case letter, a digit and a character
      that is none of these. */
  predicate StrongPassword(p: string) {
    |p| >= 8 &&
    (exists i :: 0 <= i < |p| && IsLowerAscii(p[i])) &&
    (exists i :: 0 <= i < |p| && IsUpperAscii(p[i])) &&
    (exists i :: 0 <= i < |p| && IsDigit(p[i])) &&
    (exists i :: 0 <= i < |p| && IsSymbol(p[i]))
  }

  const TooShort: string := "At least 8 characters"
  const NoLower: string := "At least one lowercase letter"
  const NoUpper: string := "At least one uppercase letter"
  const NoDigit: string := "At least one number"
  const NoSymbol: string := "At least one special symbol"

  /** Whether some character of `p` satisfies `f`, scanning left to right. */
  function Any(p: string, f: char -> bool): (found: bool)
    ensures found <==> exists i :: 0 <= i < |p| && f(p[i])
  {
    if p == [] then false
    else if f(p[0]) then true
    else
      var found := Any(p[1..], f);
      assert forall i :: 1 <= i < |p| ==> p[i] == p[1..][i - 1];
      found
  }

  /** `passwordSchema`: every failed rule gives its own message, in the
      order the rules are declared. */
  function PasswordMessages(p: string): (ms: seq<string>)
    ensures ms == [] <==> StrongPassword(p)
    ensures TooShort in ms <==> |p| < 8
    ensures NoLower in ms <==> !(exists i :: 0 <= i < |p| && IsLowerAscii(p[i]))
    ensures NoUpper in ms <==> !(exists i :: 0 <= i < |p| && IsUpperAscii(p[i]))
    ensures NoDigit in ms <==> !(exists i :: 0 <= i < |p| && IsDigit(p[i]))
    ensures NoSymbol in ms <==> !(exists i :: 0 <= i < |p| && IsSymbol(p[i]))
    ensures |ms| <= 5
  {
    (if |p| >= 8 then [] else [TooShort]) +
    (if Any(p, IsLowerAscii) then [] else [NoLower]) +
    (if Any(p, IsUpperAscii) then [] else [NoUpper]) +
    (if Any(p, IsDigit) then [] else [NoDigit]) +
    (if Any(p, IsSymbol) then [] else [NoSymbol])
  }

  /** The password issues at `field`. */
  function PasswordField(field: string, p: string): (issues: seq<Issue>)
    ensures |issues| == |PasswordMessages(p)|
    ensures forall i :: 0 <= i < |issues| ==> issues[i] == Message([Key(field)], PasswordMessages(p)[i])
  {
    var ms := PasswordMessages(p);
    seq(|ms|, i requires 0 <= i < |ms| => Message([Key(field)], ms[i]))
  }

  lemma PasswordFieldContinuable(field: string, p: string)
    ensures Continuable(PasswordField(field, p))
    ensures PasswordField(field, p) == [] <==> StrongPassword(p)
  {
  }

  /** A password with all four kinds of character and nine characters
      passes every rule. */
  lemma StrongExample()
    ensures PasswordMessages("Passw0rd!") == []
  {
    var strong := "Passw0rd!";
    assert IsLowerAscii(strong[1]) && IsUpperAscii(strong[0]) && IsDigit(strong[5]) && IsSymbol(strong[8]);
  }

  const EmailMessage: string := "Invalid email address"

  function EmailField(isEmail: string -> bool, e: Option<string>): (issues: seq<Issue>)
    ensures issues == [] <==> e.Some? && isEmail(e.value)
    ensures Continuable(issues) <==> e.Some?
    ensures e.None? ==> issues == [Missing([Key("email")])]
    ensures e.Some? ==> forall k :: 0 <= k < |issues| ==> issues[k] == Message([Key("email")], EmailMessage)
  {
    RequiredContinuable("email", e, s => Check("email", isEmail(s), EmailMessage));
    Required("email", e, s => Check("email", isEmail(s), EmailMessage))
  }

  /** A required `z.string().min(1, message)` field. */
  function NonEmptyField(field: string, v: Option<string>, message: string): (issues: seq<Issue>)
    ensures issues == [] <==> v.Some? && |v.value| >= 1
    ensures Continuable(issues) <==> v.Some?
    ensures v.None? ==> issues == [Missing([Key(field)])]
    ensures v.Some? ==> forall k :: 0 <= k < |issues| ==> issues[k] == Message([Key(field)], message)
  {
    RequiredContinuable(field, v, s => Check(field, |s| >= 1, message));
    Required(field, v, s => Check(field, |s| >= 1, message))
  }

  /** Every password's rule issues are check issues. */
  lemma PasswordFieldsContinuable(field: string)
    ensures forall p :: Continuable(PasswordField(field, p))
  {
    forall p ensures Continuable(PasswordField(field, p)) {
      PasswordFieldContinuable(field, p);
    }
  }

  /** A required field holding `passwordSchema`. */
  function StrongPasswordField(field: string, v: Option<string>): (issues: seq<Issue>)
    ensures issues == [] <==> v.Some? && StrongPassword(v.value)
    ensures Continuable(issues) <==> v.Some?
    ensures v.None? ==> issues == [Missing([Key(field)])]
    ensures v.Some? ==> forall k :: 0 <= k < |issues| ==> issues[k].Message? && issues[k].path == [Key(field)]
  {
    PasswordFieldsContinuable(field);
    RequiredContinuable(field, v, p => PasswordField(field, p));
    Required(field, v, p => PasswordField(field, p))
  }

  // Registration

  datatype RegisterInput = RegisterInput(
    fullName: Option<string>, email: Option<string>, password: Option<string>,
    confirmPassword: Option<string>, extraKeys: seq<string>)

  datatype Register = Register(fullName: string, email: string, password: string, confirmPassword: string)

  const FullNameRequired: string := "Full name is required"
  const ConfirmRequired: string := "Confirm password is required"
  const PasswordsDiffer: string := "Passwords do not match"

  /** The issues of the fields and of the strict key check. */
  function RegisterShapeIssues(input: RegisterInput, isEmail: string -> bool): seq<Issue> {
    NonEmptyField("fullName", input.fullName, FullNameRequired) +
    EmailField(isEmail, input.email) +
    StrongPasswordField("password", input.password) +
    NonEmptyField("confirmPassword", input.confirmPassword, ConfirmRequired) +
    KeyIssues(Strict, input.extraKeys)
  }

  /** `RegisterBody`: the shape's issues, then the equality refinement on
      `confirmPassword`, which runs only while the shape's issues are all
      check issues. */
  function RegisterIssues(input: RegisterInput, isEmail: string -> bool): seq<Issue> {
    var shape := RegisterShapeIssues(input, isEmail);
    if Continuable(shape) && input.password.Some? && input.confirmPassword.Some? &&
       input.password.value != input.confirmPassword.value
    then shape + [Mismatch]
    else shape
  }

  /** Every field check of the shape is continuable, so only a missing
      field or an unknown key stops the refinement. */
  lemma RegisterShapeContinuable(input: RegisterInput, isEmail: string -> bool)
    ensures Continuable(RegisterShapeIssues(input, isEmail)) <==>
      input.fullName.Some? && input.email.Some? && input.password.Some? && input.confirmPassword.Some? &&
      input.extraKeys == []
  {
    var a := NonEmptyField("fullName", input.fullName, FullNameRequired);
    var b := EmailField(isEmail, input.email);
    var c := StrongPasswordField("password", input.password);
    var d := NonEmptyField("confirmPassword", input.confirmPassword, ConfirmRequired);
    var e := KeyIssues(Strict, input.extraKeys);
    if input.extraKeys != [] {
      assert e[0].UnrecognizedKeys?;
    }
    ContinuableAppend(a, b);
    ContinuableAppend(a + b, c);
    ContinuableAppend(a + b + c, d);
    ContinuableAppend(a + b + c + d, e);
  }

  /** A registration is accepted exactly when every field is present, the
      name and confirmation are non-empty, the e-mail is an address, the
      password is strong, there is no unknown key and both passwords are
      equal. */
  lemma RegisterAcceptedIff(input: RegisterInput, isEmail: string -> bool)
    ensures RegisterIssues(input, isEmail) == [] <==>
      input.fullName.Some? && input.email.Some? && input.password.Some? && input.confirmPassword.Some? &&
      |input.fullName.value| >= 1 && isEmail(input.email.value) && StrongPassword(input.password.value) &&
      |input.confirmPassword.value| >= 1 && input.extraKeys == [] &&
      input.password.value == input.confirmPassword.value
  {
    RegisterShapeContinuable(input, isEmail);
  }

  /** With every field present and no unknown key, different passwords
      always give "Passwords do not match" on `confirmPassword`, whatever
      else is wrong; an unknown key suppresses that issue. */
  lemma RegisterMismatch(input: RegisterInput, isEmail: string -> bool)
    requires input.password.Some? && input.confirmPassword.Some?
    requires input.password.value != input.confirmPassword.value
    ensures input.fullName.Some? && input.email.Some? && input.extraKeys == [] ==>
      Mismatch in RegisterIssues(input, isEmail)
    ensures input.extraKeys != [] ==> Mismatch !in RegisterIssues(input, isEmail)
  {
    RegisterShapeContinuable(input, isEmail);
    var shape := RegisterShapeIssues(input, isEmail);
    if input.extraKeys != [] {
      PasswordsDifferNotInShape(input, isEmail);
    } else if input.fullName.Some? && input.email.Some? {
      assert RegisterIssues(input, isEmail)[|shape|] == Mismatch;
    }
  }

  /** The issue of the registration's equality refinement. */
  const Mismatch: Issue := Message([Key("confirmPassword")], PasswordsDiffer)

  lemma NonEmptyFieldNoMismatch(field: string, v: Option<string>, message: string)
    requires |field| != |"confirmPassword"| || |message| != |PasswordsDiffer|
    ensures Mismatch !in NonEmptyField(field, v, message)
  {
  }

  lemma StrongPasswordFieldNoMismatch(field: string, v: Option<string>)
    requires |field| != |"confirmPassword"|
    ensures Mismatch !in StrongPasswordField(field, v)
  {
  }

  lemma EmailFieldNoMismatch(isEmail: string -> bool, e: Option<string>)
    ensures Mismatch !in EmailField(isEmail, e)
  {
    assert |"email"| != |"confirmPassword"|;
  }

  /** No field check of the shape uses the mismatch message. */
  lemma PasswordsDifferNotInShape(input: RegisterInput, isEmail: string -> bool)
    ensures Mismatch !in RegisterShapeIssues(input, isEmail)
  {
    var a := NonEmptyField("fullName", input.fullName, FullNameRequired);
    var b := EmailField(isEmail, input.email);
    var c := StrongPasswordField("password", input.password);
    var d := NonEmptyField("confirmPassword", input.confirmPassword, ConfirmRequired);
    var e := KeyIssues(Strict, input.extraKeys);
    NonEmptyFieldNoMismatch("fullName", input.fullName, FullNameRequired);
    EmailFieldNoMismatch(isEmail, input.email);
    StrongPasswordFieldNoMismatch("password", input.password);
    NonEmptyFieldNoMismatch("confirmPassword", input.confirmPassword, ConfirmRequired);
    assert Mismatch !in e;
    assert RegisterShapeIssues(input, isEmail) == a + b + c + d + e;
    assert Mismatch !in a + b;
    assert Mismatch !in a + b + c;
    assert Mismatch !in a + b + c + d;
  }

  /** `RegisterBody.safeParse`. */
  function ParseRegister(input: RegisterInput, isEmail: string -> bool): (r: Result<Register, seq<Issue>>)
    ensures r.Ok? <==> RegisterIssues(input, isEmail) == []
    ensures r.Err? ==> r.error == RegisterIssues(input, isEmail)
    ensures r.Ok? ==>
      (input.fullName.Some? && input.email.Some? && input.password.Some? && input.confirmPassword.Some? &&
       r.value == Register(input.fullName.value, input.email.value, input.password.value, input.confirmPassword.value))
    ensures r.Ok? ==> r.value.password == r.value.confirmPassword && StrongPassword(r.value.password)
  {
    var issues := RegisterIssues(input, isEmail);
    RegisterAcceptedIff(input, isEmail);
    if issues != [] then Err(issues)
    else Ok(Register(input.fullName.value, input.email.value, input.password.value, input.confirmPassword.value))
  }

  // Login

  datatype LoginInput = LoginInput(email: Option<string>, password: Option<string>, extraKeys: seq<string>)

  datatype Login = Login(email: string, password: string)

  const PasswordRequired: string := "Password is required"

  /** `LoginBody`: any non-empty password, no strength rule; unknown keys
      are dropped. */
  function LoginIssues(input: LoginInput, isEmail: string -> bool): seq<Issue> {
    EmailField(isEmail, input.email) +
    NonEmptyField("password", input.password, PasswordRequired) +
    KeyIssues(Strip, input.extraKeys)
  }

  /** `LoginBody.safeParse`: the two fields only. */
  function ParseLogin(input: LoginInput, isEmail: string -> bool): (r: Result<Login, seq<Issue>>)
    ensures r.Ok? <==>
      (input.email.Some? && input.password.Some? && isEmail(input.email.value) && |input.password.value| >= 1)
    ensures r.Ok? ==> r.value == Login(input.email.value, input.password.value)
    ensures r.Err? ==> r.error == LoginIssues(input, isEmail) && r.error != []
  {
    var issues := LoginIssues(input, isEmail);
    if issues != [] then Err(issues) else Ok(Login(input.email.value, input.password.value))
  }

  /** Login takes no notice of unknown keys. */
  lemma LoginIgnoresExtraKeys(input: LoginInput, isEmail: string -> bool, keys: seq<string>)
    ensures ParseLogin(input.(extraKeys := keys), isEmail) == ParseLogin(input, isEmail)
  {
    assert LoginIssues(input.(extraKeys := keys), isEmail) == LoginIssues(input, isEmail);
  }

  /** A one-character password that no strength rule would accept still
      logs in. */
  lemma LoginHasNoStrengthRule(email: string, isEmail: string -> bool)
    requires isEmail(email)
    ensures ParseLogin(LoginInput(Some(email), Some("a"), []), isEmail) == Ok(Login(email, "a"))
    ensures !StrongPassword("a")
  {
  }

  // Forgotten password

  datatype ForgotPasswordInput = ForgotPasswordInput(email: Option<string>, extraKeys: seq<string>)

  /** `ForgotPasswordBody`: an e-mail address and no other key. */
  function ParseForgotPassword(input: ForgotPasswordInput, isEmail: string -> bool): (r: Result<string, seq<Issue>>)
    ensures r.Ok? <==> input.email.Some? && isEmail(input.email.value) && input.extraKeys == []
    ensures r.Ok? ==> r.value == input.email.value
    ensures input.extraKeys != [] ==> r.Err? && UnrecognizedKeys(input.extraKeys) in r.error
  {
    var issues := EmailField(isEmail, input.email) + KeyIssues(Strict, input.extraKeys);
    if issues != [] then Err(issues) else Ok(input.email.value)
  }

  // Password reset

  datatype ResetPasswordInput = ResetPasswordInput(
    email: Option<string>, otp: Option<string>, newPassword: Option<string>,
    confirmPassword: Option<string>, extraKeys: seq<string>)

  datatype ResetPassword = ResetPassword(email: string, otp: string, newPassword: string, confirmPassword: string)

  const OtpLength: string := "OTP must be 6 digits"
  const PasswordDiffers: string := "Password does not match"

  /** `z.string().length(6, ...)`: exactly six characters, digits or not. */
  function OtpField(v: Option<string>): (issues: seq<Issue>)
    ensures issues == [] <==> v.Some? && |v.value| == 6
    ensures Continuable(issues) <==> v.Some?
    ensures v.Some? && |v.value| != 6 ==> issues == [Message([Key("otp")], OtpLength)]
  {
    RequiredContinuable("otp", v, s => Check("otp", |s| == 6, OtpLength));
    Required("otp", v, s => Check("otp", |s| == 6, OtpLength))
  }

  /** A required `z.string()` with no check. */
  function PresentField(field: string, v: Option<string>): (issues: seq<Issue>)
    ensures issues == [] <==> v.Some?
    ensures Continuable(issues) <==> v.Some?
  {
    RequiredContinuable(field, v, (s: string) => []);
    Required(field, v, (s: string) => [])
  }

  /** The issues of the fields and of the strict key check. */
  function ResetShapeIssues(input: ResetPasswordInput, isEmail: string -> bool): seq<Issue> {
    EmailField(isEmail, input.email) +
    OtpField(input.otp) +
    StrongPasswordField("newPassword", input.newPassword) +
    PresentField("confirmPassword", input.confirmPassword) +
    KeyIssues(Strict, input.extraKeys)
  }

  /** `ResetPasswordBody`: the shape's issues, then the equality check,
      whose issue has no path (it belongs to the whole object). */
  function ResetIssues(input: ResetPasswordInput, isEmail: string -> bool): seq<Issue> {
    var shape := ResetShapeIssues(input, isEmail);
    if Continuable(shape) && input.newPassword.Some? && input.confirmPassword.Some? &&
       input.newPassword.value != input.confirmPassword.value
    then shape + [Message([], PasswordDiffers)]
    else shape
  }

  lemma ResetShapeContinuable(input: ResetPasswordInput, isEmail: string -> bool)
    ensures Continuable(ResetShapeIssues(input, isEmail)) <==>
      input.email.Some? && input.otp.Some? && input.newPassword.Some? && input.confirmPassword.Some? &&
      input.extraKeys == []
  {
    var a := EmailField(isEmail, input.email);
    var b := OtpField(input.otp);
    var c := StrongPasswordField("newPassword", input.newPassword);
    var d := PresentField("confirmPassword", input.confirmPassword);
    var e := KeyIssues(Strict, input.extraKeys);
    if input.extraKeys != [] {
      assert e[0].UnrecognizedKeys?;
    }
    ContinuableAppend(a, b);
    ContinuableAppend(a + b, c);
    ContinuableAppend(a + b + c, d);
    ContinuableAppend(a + b + c + d, e);
  }

  /** A reset is accepted exactly when every field is present, the e-mail
      is an address, the code has exactly 6 characters of any kind, the
      new password is strong, there is no unknown key and the two
      passwords are equal. */
  lemma ResetAcceptedIff(input: ResetPasswordInput, isEmail: string -> bool)
    ensures ResetIssues(input, isEmail) == [] <==>
      input.email.Some? && input.otp.Some? && input.newPassword.Some? && input.confirmPassword.Some? &&
      isEmail(input.email.value) && |input.otp.value| == 6 && StrongPassword(input.newPassword.value) &&
      input.extraKeys == [] && input.newPassword.value == input.confirmPassword.value
  {
    ResetShapeContinuable(input, isEmail);
  }

  /** Different passwords with a complete, strictly shaped input always
      end the issue list with "Password does not match" at the root. */
  lemma ResetMismatch(input: ResetPasswordInput, isEmail: string -> bool)
    requires input.email.Some? && input.otp.Some? && input.newPassword.Some? && input.confirmPassword.Some?
    requires input.extraKeys == [] && input.newPassword.value != input.confirmPassword.value
    ensures var issues := ResetIssues(input, isEmail);
      |issues| > 0 && issues[|issues| - 1] == Message([], PasswordDiffers)
  {
    ResetShapeContinuable(input, isEmail);
  }

  /** `ResetPasswordBody.safeParse`. */
  function ParseResetPassword(input: ResetPasswordInput, isEmail: string -> bool): (r: Result<ResetPassword, seq<Issue>>)
    ensures r.Ok? <==> ResetIssues(input, isEmail) == []
    ensures r.Err? ==> r.error == ResetIssues(input, isEmail)
    ensures r.Ok? ==>
      (input.email.Some? && input.otp.Some? && input.newPassword.Some? && input.confirmPassword.Some? &&
       r.value == ResetPassword(input.email.value, input.otp.value, input.newPassword.value, input.confirmPassword.value))
    ensures r.Ok? ==> |r.value.otp| == 6 && r.value.newPassword == r.value.confirmPassword
  {
    var issues := ResetIssues(input, isEmail);
    ResetAcceptedIff(input, isEmail);
    if issues != [] then Err(issues)
    else Ok(ResetPassword(input.email.value, input.otp.value, input.newPassword.value, input.confirmPassword.value))
  }
}
