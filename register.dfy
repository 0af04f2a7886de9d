// The registration form: its field validation with fixed message precedence,
// the password-strength meter, and the change handler that clears a field's
// error as soon as the user edits that field.
module Register {
  import opened JsText
  import opened EmailPattern

  datatype Field = FirstName | LastName | Email | Password | ConfirmPassword

  datatype RegisterForm = RegisterForm(firstName: string, lastName: string, email: string, password: string, confirmPassword: string)

  const InitialForm := RegisterForm("", "", "", "", "")

  /** `formData[name]`. */
  function Get(form: RegisterForm, name: Field): string {
    match name
    case FirstName => form.firstName
    case LastName => form.lastName
    case Email => form.email
    case Password => form.password
    case ConfirmPassword => form.confirmPassword
  }

  /** `{ ...form, [name]: value }`. */
  function Set(form: RegisterForm, name: Field, value: string): (r: RegisterForm)
    ensures Get(r, name) == value
    ensures forall other :: other != name ==> Get(r, other) == Get(form, other)
  {
    match name
    case FirstName => form.(firstName := value)
    case LastName => form.(lastName := value)
    case Email => form.(email := value)
    case Password => form.(password := value)
    case ConfirmPassword => form.(confirmPassword := value)
  }

  // ---------------------------------------------------------------------------
  // Character classes of the password rules

  datatype CharClass = LowerClass | UpperClass | DigitClass

  predicate InClass(c: char, k: CharClass) {
    match k
    case LowerClass => IsLower(c)
    case UpperClass => IsUpper(c)
    case DigitClass => IsDigit(c)
  }

  /** `/[a-z]/.test(s)`, `/[A-Z]/.test(s)`, `/\d/.test(s)`. */
  predicate HasClass(s: string, k: CharClass) {
    exists m | 0 <= m < |s| :: InClass(s[m], k)
  }

  /** No line terminator in `s[p..m]`: what the regular-expression `.*` can cross. */
  predicate NoTerminator(s: string, p: int, m: int)
    requires 0 <= p <= m <= |s|
  {
    forall u :: p <= u < m ==> !IsLineTerminator(s[u])
  }

  /** The lookahead `(?=.*[class])` holds at offset `p`. */
  predicate ClassAhead(s: string, p: int, k: CharClass)
    requires 0 <= p <= |s|
  {
    exists m | p <= m < |s| :: InClass(s[m], k) && NoTerminator(s, p, m)
  }

  predicate MixedAt(s: string, p: int)
    requires 0 <= p <= |s|
  {
    ClassAhead(s, p, LowerClass) && ClassAhead(s, p, UpperClass) && ClassAhead(s, p, DigitClass)
  }

  /** `/(?=.*[a-z])(?=.*[A-Z])(?=.*\d)/.test(s)`: at some offset all three
      lookaheads hold, so a lowercase letter, an uppercase letter and a digit
      all occur on one line. */
  predicate MixedCase(s: string) {
    exists p | 0 <= p <= |s| :: MixedAt(s, p)
  }

  /** Some class was seen in `s[p..t]`. */
  predicate SeenIn(s: string, p: int, t: int, k: CharClass)
    requires 0 <= p <= t <= |s|
  {
    exists m | p <= m < t :: InClass(s[m], k)
  }

  /** Where the scan of a line stops, the classes seen so far are exactly the
      ones the lookaheads find. */
  lemma LineScanComplete(s: string, p: int, t: int, k: CharClass)
    requires 0 <= p <= t <= |s| && NoTerminator(s, p, t)
    requires t == |s| || IsLineTerminator(s[t])
    ensures ClassAhead(s, p, k) <==> SeenIn(s, p, t, k)
  {
    if ClassAhead(s, p, k) {
      var m :| p <= m < |s| && InClass(s[m], k) && NoTerminator(s, p, m);
      assert m < t;
    }
    if SeenIn(s, p, t, k) {
      var m :| p <= m < t && InClass(s[m], k);
      assert NoTerminator(s, p, m);
    }
  }

  /** The three lookaheads at offset `p`, by scanning its line. */
  method ScanLine(s: string, p: nat) returns (lower: bool, upper: bool, digit: bool)
    requires p <= |s|
    ensures lower == ClassAhead(s, p, LowerClass)
    ensures upper == ClassAhead(s, p, UpperClass)
    ensures digit == ClassAhead(s, p, DigitClass)
  {
    lower, upper, digit := false, false, false;
    var t := p;
    while t < |s| && !IsLineTerminator(s[t])
      invariant p <= t <= |s| && NoTerminator(s, p, t)
      invariant lower == SeenIn(s, p, t, LowerClass)
      invariant upper == SeenIn(s, p, t, UpperClass)
      invariant digit == SeenIn(s, p, t, DigitClass)
    {
      lower := lower || IsLower(s[t]);
      upper := upper || IsUpper(s[t]);
      digit := digit || IsDigit(s[t]);
      assert InClass(s[t], LowerClass) == IsLower(s[t]);
      assert InClass(s[t], UpperClass) == IsUpper(s[t]);
      assert InClass(s[t], DigitClass) == IsDigit(s[t]);
      t := t + 1;
    }
    LineScanComplete(s, p, t, LowerClass);
    LineScanComplete(s, p, t, UpperClass);
    LineScanComplete(s, p, t, DigitClass);
  }

  /** The lookahead test, tried at every offset as the regular expression does. */
  method TestMixed(s: string) returns (found: bool)
    ensures found == MixedCase(s)
  {
    var p := 0;
    while p <= |s|
      invariant 0 <= p <= |s| + 1
      invariant forall p' :: 0 <= p' < p ==> !MixedAt(s, p')
    {
      var lower, upper, digit := ScanLine(s, p);
      if lower && upper && digit {
        assert MixedAt(s, p);
        return true;
      }
      p := p + 1;
    }
    return false;
  }

  /** `/[class]/.test(s)`. */
  method TestClass(s: string, k: CharClass) returns (found: bool)
    ensures found == HasClass(s, k)
  {
    for m := 0 to |s|
      invariant forall m' :: 0 <= m' < m ==> !InClass(s[m'], k)
    {
      if InClass(s[m], k) {
        return true;
      }
    }
    return false;
  }

  /** The lookahead test implies each class occurs. */
  lemma MixedHasEveryClass(s: string)
    requires MixedCase(s)
    ensures HasClass(s, LowerClass) && HasClass(s, UpperClass) && HasClass(s, DigitClass)
  {
    var p :| 0 <= p <= |s| && MixedAt(s, p);
    var a :| p <= a < |s| && InClass(s[a], LowerClass) && NoTerminator(s, p, a);
    var b :| p <= b < |s| && InClass(s[b], UpperClass) && NoTerminator(s, p, b);
    var c :| p <= c < |s| && InClass(s[c], DigitClass) && NoTerminator(s, p, c);
  }

  /** On a single line the lookahead test is just "has a lowercase letter, an
      uppercase letter and a digit". */
  lemma MixedOnOneLine(s: string)
    requires forall u :: 0 <= u < |s| ==> !IsLineTerminator(s[u])
    ensures MixedCase(s) <==> HasClass(s, LowerClass) && HasClass(s, UpperClass) && HasClass(s, DigitClass)
  {
    if HasClass(s, LowerClass) && HasClass(s, UpperClass) && HasClass(s, DigitClass) {
      var a :| 0 <= a < |s| && InClass(s[a], LowerClass);
      var b :| 0 <= b < |s| && InClass(s[b], UpperClass);
      var c :| 0 <= c < |s| && InClass(s[c], DigitClass);
      assert NoTerminator(s, 0, a) && NoTerminator(s, 0, b) && NoTerminator(s, 0, c);
      assert MixedAt(s, 0);
    }
    if MixedCase(s) {
      MixedHasEveryClass(s);
    }
  }

  // ---------------------------------------------------------------------------
  // validateForm

  const FirstNameRequired := "First name is required"
  const FirstNameTooLong := "First name must be less than 50 characters"
  const EmailRequired := "Email is required"
  const EmailInvalid := "Email is invalid"
  const PasswordRequired := "Password is required"
  const PasswordTooShort := "Password must be at least 8 characters"
  const PasswordTooPlain := "Password must contain uppercase, lowercase letters and numbers"
  const ConfirmRequired := "Please confirm your password"
  const ConfirmMismatch := "Passwords do not match"

  /** Every check of `validateForm` passes. */
  predicate FormValid(form: RegisterForm) {
    && Trim(form.firstName) != "" && |form.firstName| <= 50
    && Trim(form.email) != "" && EmailShape(form.email)
    && |form.password| >= 8 && MixedCase(form.password)
    && form.confirmPassword != "" && form.confirmPassword == form.password
  }

  /** The message a field check records, if any: the first failing check in
      the order the source writes them. */
  function FirstNameError(s: string): Option<string> {
    if Trim(s) == "" then Some(FirstNameRequired)
    else if |s| > 50 then Some(FirstNameTooLong)
    else None
  }

  function EmailError(s: string): Option<string> {
    if Trim(s) == "" then Some(EmailRequired)
    else if !EmailShape(s) then Some(EmailInvalid)
    else None
  }

  function PasswordError(pw: string): Option<string> {
    if pw == "" then Some(PasswordRequired)
    else if |pw| < 8 then Some(PasswordTooShort)
    else if !MixedCase(pw) then Some(PasswordTooPlain)
    else None
  }

  function ConfirmError(pw: string, confirm: string): Option<string> {
    if confirm == "" then Some(ConfirmRequired)
    else if pw != confirm then Some(ConfirmMismatch)
    else None
  }

  /** `newErrors[key] = message` when a check recorded a message. */
  function Record(errors: map<Field, string>, key: Field, message: Option<string>): map<Field, string> {
    if message.Some? then errors[key := message.value] else errors
  }

  /** The error object built from the four checks' outcomes, in source order. */
  function BuildErrors(first: Option<string>, email: Option<string>, password: Option<string>, confirm: Option<string>): map<Field, string> {
    Record(Record(Record(Record(map[], FirstName, first), Email, email), Password, password), ConfirmPassword, confirm)
  }

  /** The error object `validateForm` builds. */
  function FormErrors(form: RegisterForm): map<Field, string> {
    BuildErrors(FirstNameError(form.firstName), EmailError(form.email), PasswordError(form.password),
                ConfirmError(form.password, form.confirmPassword))
  }

  /** `validateForm`: runs the four field checks in source order on one
      error object and reports whether it stayed empty. */
  method ValidateForm(form: RegisterForm) returns (errors: map<Field, string>, valid: bool)
    ensures errors == FormErrors(form)
    ensures valid <==> errors == map[]
    ensures valid <==> FormValid(form)
  {
    errors := map[];
    errors := CheckFirstName(errors, form.firstName);
    errors := CheckEmail(errors, form.email);
    errors := CheckPassword(errors, form.password);
    errors := CheckConfirm(errors, form.password, form.confirmPassword);
    valid := errors == map[];
    FormErrorsEmptyIffValid(form);
  }

  /** The first-name block of `validateForm`. */
  method CheckFirstName(errors: map<Field, string>, s: string) returns (r: map<Field, string>)
    ensures r == Record(errors, FirstName, FirstNameError(s))
  {
    r := errors;
    if Trim(s) == "" {
      r := r[FirstName := FirstNameRequired];
    } else if |s| > 50 {
      r := r[FirstName := FirstNameTooLong];
    }
  }

  /** The e-mail block of `validateForm`; the shape test runs only on a non-blank e-mail. */
  method CheckEmail(errors: map<Field, string>, s: string) returns (r: map<Field, string>)
    ensures r == Record(errors, Email, EmailError(s))
  {
    r := errors;
    if Trim(s) == "" {
      r := r[Email := EmailRequired];
    } else {
      var shaped := TestEmail(s);
      if !shaped {
        r := r[Email := EmailInvalid];
      }
    }
  }

  /** The password block of `validateForm`; the class test runs only on a
      password of at least 8 characters. */
  method CheckPassword(errors: map<Field, string>, pw: string) returns (r: map<Field, string>)
    ensures r == Record(errors, Password, PasswordError(pw))
  {
    r := errors;
    if pw == "" {
      r := r[Password := PasswordRequired];
    } else if |pw| < 8 {
      r := r[Password := PasswordTooShort];
    } else {
      var mixed := TestMixed(pw);
      if !mixed {
        r := r[Password := PasswordTooPlain];
      }
    }
  }

  /** The confirmation block of `validateForm`. */
  method CheckConfirm(errors: map<Field, string>, pw: string, confirm: string) returns (r: map<Field, string>)
    ensures r == Record(errors, ConfirmPassword, ConfirmError(pw, confirm))
  {
    r := errors;
    if confirm == "" {
      r := r[ConfirmPassword := ConfirmRequired];
    } else if pw != confirm {
      r := r[ConfirmPassword := ConfirmMismatch];
    }
  }

  /** The error object is empty exactly when every check passes. */
  lemma FormErrorsEmptyIffValid(form: RegisterForm)
    ensures FormErrors(form) == map[] <==> FormValid(form)
  {
    BuildErrorsEmpty(FirstNameError(form.firstName), EmailError(form.email), PasswordError(form.password),
                     ConfirmError(form.password, form.confirmPassword));
    assert FirstNameError(form.firstName).None? <==> Trim(form.firstName) != "" && |form.firstName| <= 50;
    assert EmailError(form.email).None? <==> Trim(form.email) != "" && EmailShape(form.email);
    assert PasswordError(form.password).None? <==> |form.password| >= 8 && MixedCase(form.password);
    assert ConfirmError(form.password, form.confirmPassword).None? <==>
      form.confirmPassword != "" && form.confirmPassword == form.password;
  }

  lemma BuildErrorsEmpty(first: Option<string>, email: Option<string>, password: Option<string>, confirm: Option<string>)
    ensures BuildErrors(first, email, password, confirm) == map[] <==> first.None? && email.None? && password.None? && confirm.None?
  {
    var e := BuildErrors(first, email, password, confirm);
    if first.Some? { assert FirstName in e; }
    if email.Some? { assert Email in e; }
    if password.Some? { assert Password in e; }
    if confirm.Some? { assert ConfirmPassword in e; }
  }

  /** The message the check of one field records, if any. */
  function FieldError(form: RegisterForm, f: Field): Option<string> {
    match f
    case FirstName => FirstNameError(form.firstName)
    case LastName => None
    case Email => EmailError(form.email)
    case Password => PasswordError(form.password)
    case ConfirmPassword => ConfirmError(form.password, form.confirmPassword)
  }

  /** The error object holds, for each field, exactly the message that
      field's own check records: no check overwrites another's entry. */
  lemma FormErrorsByField(form: RegisterForm, f: Field)
    ensures f in FormErrors(form) <==> FieldError(form, f).Some?
    ensures f in FormErrors(form) ==> FormErrors(form)[f] == FieldError(form, f).value
  {
    BuildErrorsByField(FirstNameError(form.firstName), EmailError(form.email), PasswordError(form.password),
                       ConfirmError(form.password, form.confirmPassword), f);
  }

  lemma BuildErrorsByField(first: Option<string>, email: Option<string>, password: Option<string>, confirm: Option<string>, f: Field)
    ensures var o := match f
                     case FirstName => first
                     case LastName => None
                     case Email => email
                     case Password => password
                     case ConfirmPassword => confirm;
      && (f in BuildErrors(first, email, password, confirm) <==> o.Some?)
      && (f in BuildErrors(first, email, password, confirm) ==> BuildErrors(first, email, password, confirm)[f] == o.value)
  {
  }

  /** First name fails when blank or longer than 50 characters, blank first. */
  lemma FirstNameErrorMeaning(s: string)
    ensures FirstNameError(s).Some? <==> Trim(s) == "" || |s| > 50
    ensures FirstNameError(s).Some? ==> FirstNameError(s).value == if Trim(s) == "" then FirstNameRequired else FirstNameTooLong
  {
  }

  /** The e-mail fails when blank or without the shape, blank first; a shaped
      e-mail is never blank, so it fails exactly when it lacks the shape. */
  lemma EmailErrorMeaning(s: string)
    ensures EmailError(s).Some? <==> !EmailShape(s)
    ensures EmailError(s).Some? ==> EmailError(s).value == if Trim(s) == "" then EmailRequired else EmailInvalid
  {
    if EmailShape(s) {
      ShapedIsNotBlank(s);
    }
  }

  /** The password fails when shorter than 8 characters or without a line
      holding all three classes; empty, then short, then plain. */
  lemma PasswordErrorMeaning(pw: string)
    ensures PasswordError(pw).Some? <==> |pw| < 8 || !MixedCase(pw)
    ensures PasswordError(pw).Some? ==>
      PasswordError(pw).value == if pw == "" then PasswordRequired
                                 else if |pw| < 8 then PasswordTooShort
                                 else PasswordTooPlain
  {
  }

  /** The confirmation fails when empty or different from the password, empty first. */
  lemma ConfirmErrorMeaning(pw: string, confirm: string)
    ensures ConfirmError(pw, confirm).Some? <==> confirm == "" || confirm != pw
    ensures ConfirmError(pw, confirm).Some? ==>
      ConfirmError(pw, confirm).value == if confirm == "" then ConfirmRequired else ConfirmMismatch
  {
  }

  /** A valid form needs only the e-mail shape, not a separate non-blank
      check, and a valid password is then rated 100 / Strong. */
  lemma ValidFormFacts(form: RegisterForm)
    ensures FormValid(form) <==>
      && Trim(form.firstName) != "" && |form.firstName| <= 50
      && EmailShape(form.email)
      && |form.password| >= 8 && MixedCase(form.password)
      && form.confirmPassword == form.password
    ensures FormValid(form) ==> Strength(form.password) == StrengthInfo(100, "Strong", "success")
  {
    if EmailShape(form.email) {
      ShapedIsNotBlank(form.email);
    }
    if FormValid(form) {
      MixedHasEveryClass(form.password);
      StrengthBands(form.password);
    }
  }

  lemma DemoPasswordIsMixed()
    ensures MixedCase("Demo123!")
  {
    var pw := "Demo123!";
    assert IsLower(pw[1]) && IsUpper(pw[0]) && IsDigit(pw[4]);
    assert InClass(pw[1], LowerClass) && InClass(pw[0], UpperClass) && InClass(pw[4], DigitClass);
    assert NoTerminator(pw, 0, 1) && NoTerminator(pw, 0, 0) && NoTerminator(pw, 0, 4);
    assert MixedAt(pw, 0);
  }

  lemma DemoNameIsPresent()
    ensures Trim("John") != ""
  {
    BlankIffAllSpace("John");
    assert !IsSpace("John"[0]);
  }

  lemma DemoEmailIsShaped()
    ensures EmailShape("demo@example.com") && Trim("demo@example.com") != ""
  {
    DemoAddressesHaveShape();
    ShapedIsNotBlank("demo@example.com");
  }

  /** The "fill demo data" button fills a form that passes validation. */
  lemma DemoFillIsValid()
    ensures FormValid(RegisterForm("John", "Doe", "demo@example.com", "Demo123!", "Demo123!"))
  {
    DemoNameIsPresent();
    DemoEmailIsShaped();
    DemoPasswordIsMixed();
  }

  // ---------------------------------------------------------------------------
  // passwordStrength

  datatype StrengthInfo = StrengthInfo(strength: nat, text: string, variant: string)

  /** How many of the four criteria the password meets: length of at least 8,
      a lowercase letter, an uppercase letter, a digit. */
  function CriteriaMet(pw: string): (n: nat)
    ensures n <= 4
  {
    (if |pw| >= 8 then 1 else 0) + (if HasClass(pw, LowerClass) then 1 else 0)
    + (if HasClass(pw, UpperClass) then 1 else 0) + (if HasClass(pw, DigitClass) then 1 else 0)
  }

  /** The meter's label and colour for a strength value. */
  function Band(strength: nat): (r: StrengthInfo)
    ensures r.strength == strength
  {
    if strength <= 25 then StrengthInfo(strength, "Weak", "danger")
    else if strength <= 50 then StrengthInfo(strength, "Fair", "warning")
    else if strength <= 75 then StrengthInfo(strength, "Good", "info")
    else StrengthInfo(strength, "Strong", "success")
  }

  /** What `passwordStrength` returns for a password. */
  function Strength(pw: string): StrengthInfo {
    if pw == "" then StrengthInfo(0, "", "") else Band(25 * CriteriaMet(pw))
  }

  /** `passwordStrength`: adds 25 per criterion met, then picks the band. */
  method PasswordStrength(pw: string) returns (info: StrengthInfo)
    ensures info == Strength(pw)
    ensures info.strength in {0, 25, 50, 75, 100}
  {
    if pw == "" {
      return StrengthInfo(0, "", "");
    }
    var strength := 0;
    if |pw| >= 8 {
      strength := strength + 25;
    }
    var lower := TestClass(pw, LowerClass);
    if lower {
      strength := strength + 25;
    }
    var upper := TestClass(pw, UpperClass);
    if upper {
      strength := strength + 25;
    }
    var digit := TestClass(pw, DigitClass);
    if digit {
      strength := strength + 25;
    }

    var text := "";
    var variant := "";
    if strength <= 25 {
      text, variant := "Weak", "danger";
    } else if strength <= 50 {
      text, variant := "Fair", "warning";
    } else if strength <= 75 {
      text, variant := "Good", "info";
    } else {
      text, variant := "Strong", "success";
    }
    info := StrengthInfo(strength, text, variant);
  }

  /** The bands by number of criteria met: none or one is Weak (so a
      non-empty password meeting nothing still shows Weak at 0), two Fair,
      three Good, all four Strong at 100. Only the empty password has no label. */
  lemma StrengthBands(pw: string)
    ensures pw == "" <==> Strength(pw).text == ""
    ensures pw != "" && CriteriaMet(pw) <= 1 ==> Strength(pw).text == "Weak" && Strength(pw).variant == "danger"
    ensures pw != "" && CriteriaMet(pw) == 2 ==> Strength(pw) == StrengthInfo(50, "Fair", "warning")
    ensures pw != "" && CriteriaMet(pw) == 3 ==> Strength(pw) == StrengthInfo(75, "Good", "info")
    ensures pw != "" ==> (Strength(pw).text == "Strong" <==> CriteriaMet(pw) == 4)
    ensures CriteriaMet(pw) == 4 ==> Strength(pw) == StrengthInfo(100, "Strong", "success")
  {
    if CriteriaMet(pw) == 4 {
      assert pw != "";
    }
  }

  // ---------------------------------------------------------------------------
  // handleChange

  datatype RegisterView = RegisterView(form: RegisterForm, errors: map<Field, string>)

  /** `handleChange`: stores the typed value; the field's error is reset to ''
      only if there was a (non-empty) one. */
  function HandleChange(v: RegisterView, name: Field, value: string): (r: RegisterView)
    ensures r.form == Set(v.form, name, value)
    ensures name in v.errors && v.errors[name] != "" ==> r.errors == v.errors[name := ""]
    ensures !(name in v.errors && v.errors[name] != "") ==> r.errors == v.errors
  {
    var form := Set(v.form, name, value);
    if name in v.errors && v.errors[name] != "" then RegisterView(form, v.errors[name := ""])
    else RegisterView(form, v.errors)
  }

  /** After an edit the edited field shows no error, the same fields carry
      error entries as before, and every other field's value and error are kept. */
  lemma HandleChangeClearsOnlyThatField(v: RegisterView, name: Field, value: string)
    ensures var r := HandleChange(v, name, value);
      && Get(r.form, name) == value
      && !(name in r.errors && r.errors[name] != "")
      && r.errors.Keys == v.errors.Keys
      && (forall f :: f != name ==> Get(r.form, f) == Get(v.form, f))
      && (forall f :: f != name && f in v.errors ==> r.errors[f] == v.errors[f])
  {
  }
}
