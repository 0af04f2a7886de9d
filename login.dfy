// The login form: presence and e-mail-shape validation, the change handler,
// the demo-credential buttons and the styling of the general alert.
module Login {
  import opened JsText
  import opened EmailPattern

  datatype LoginForm = LoginForm(email: string, password: string)

  const InitialForm := LoginForm("", "")

  /** The two inputs of the form, by their `name` attribute. */
  datatype Input = EmailInput | PasswordInput

  /** The keys of the error object: one per input, plus the general alert. */
  datatype ErrorKey = EmailKey | PasswordKey | General

  function KeyOf(name: Input): ErrorKey {
    match name
    case EmailInput => EmailKey
    case PasswordInput => PasswordKey
  }

  function Get(form: LoginForm, name: Input): string {
    match name
    case EmailInput => form.email
    case PasswordInput => form.password
  }

  function Set(form: LoginForm, name: Input, value: string): (r: LoginForm)
    ensures Get(r, name) == value
    ensures forall other :: other != name ==> Get(r, other) == Get(form, other)
  {
    match name
    case EmailInput => form.(email := value)
    case PasswordInput => form.(password := value)
  }

  // ---------------------------------------------------------------------------
  // validateForm

  const EmailRequired := "Email is required"
  const EmailInvalid := "Invalid email"
  const PasswordRequired := "Password is required"

  /** The e-mail is required only when it is the empty string; anything else,
      whitespace included, goes to the shape test. */
  function EmailError(s: string): Option<string> {
    if s == "" then Some(EmailRequired)
    else if !EmailShape(s) then Some(EmailInvalid)
    else None
  }

  function PasswordError(pw: string): Option<string> {
    if pw == "" then Some(PasswordRequired) else None
  }

  /** The error object `validateForm` builds. */
  function FormErrors(form: LoginForm): map<ErrorKey, string> {
    var e := if EmailError(form.email).Some? then map[EmailKey := EmailError(form.email).value] else map[];
    if PasswordError(form.password).Some? then e[PasswordKey := PasswordError(form.password).value] else e
  }

  /** Every check of `validateForm` passes. */
  predicate FormValid(form: LoginForm) {
    EmailShape(form.email) && form.password != ""
  }

  /** `validateForm`: an e-mail check and a password check on one error
      object; the form is valid when the object stayed empty. */
  method ValidateForm(form: LoginForm) returns (errors: map<ErrorKey, string>, valid: bool)
    ensures errors == FormErrors(form)
    ensures valid <==> errors == map[]
    ensures valid <==> FormValid(form)
  {
    errors := map[];
    if form.email == "" {
      errors := errors[EmailKey := EmailRequired];
    } else {
      var shaped := TestEmail(form.email);
      if !shaped {
        errors := errors[EmailKey := EmailInvalid];
      }
    }
    if form.password == "" {
      errors := errors[PasswordKey := PasswordRequired];
    }
    valid := errors == map[];
    FormErrorsEmptyIffValid(form);
  }

  /** The error object is empty exactly when the e-mail has the shape and the
      password is not empty. */
  lemma FormErrorsEmptyIffValid(form: LoginForm)
    ensures FormErrors(form) == map[] <==> FormValid(form)
  {
    var e := FormErrors(form);
    if EmailShape(form.email) {
      ShapedIsNotBlank(form.email);
    }
    if EmailError(form.email).Some? {
      assert EmailKey in e;
    } else if PasswordError(form.password).Some? {
      assert PasswordKey in e;
    }
  }

  /** Each input carries a message exactly when its check fails, the e-mail's
      being 'required' only for the empty string; the general key is never set. */
  lemma FormErrorsMeaning(form: LoginForm)
    ensures var e := FormErrors(form);
      && General !in e
      && (EmailKey in e <==> !EmailShape(form.email))
      && (EmailKey in e ==> e[EmailKey] == if form.email == "" then EmailRequired else EmailInvalid)
      && (PasswordKey in e <==> form.password == "")
      && (PasswordKey in e ==> e[PasswordKey] == PasswordRequired)
  {
    if EmailShape(form.email) {
      ShapedIsNotBlank(form.email);
    }
  }

  /** Unlike registration, login does not trim: an e-mail of spaces only is
      reported invalid, not missing. */
  lemma BlankEmailIsInvalid(s: string)
    requires s != "" && forall i :: 0 <= i < |s| ==> IsSpace(s[i])
    ensures FormErrors(LoginForm(s, "x"))[EmailKey] == EmailInvalid
  {
    BlankIffAllSpace(s);
    if EmailShape(s) {
      ShapedIsNotBlank(s);
    }
  }

  // ---------------------------------------------------------------------------
  // handleChange

  datatype LoginView = LoginView(form: LoginForm, errors: map<ErrorKey, string>)

  /** `handleChange`: stores the typed value; the input's error is reset to ''
      only if there was a (non-empty) one. */
  function HandleChange(v: LoginView, name: Input, value: string): (r: LoginView)
    ensures r.form == Set(v.form, name, value)
  {
    var key := KeyOf(name);
    var form := Set(v.form, name, value);
    if key in v.errors && v.errors[key] != "" then LoginView(form, v.errors[key := ""])
    else LoginView(form, v.errors)
  }

  /** After an edit the edited input shows no error, the same keys carry
      entries as before, and every other value and error (the general alert
      included) is kept. */
  lemma HandleChangeClearsOnlyThatInput(v: LoginView, name: Input, value: string)
    ensures var r := HandleChange(v, name, value);
      && Get(r.form, name) == value
      && !(KeyOf(name) in r.errors && r.errors[KeyOf(name)] != "")
      && r.errors.Keys == v.errors.Keys
      && (forall other :: other != name ==> Get(r.form, other) == Get(v.form, other))
      && (forall k :: k != KeyOf(name) && k in v.errors ==> r.errors[k] == v.errors[k])
  {
  }

  // ---------------------------------------------------------------------------
  // handleDemoLogin

  /** `demoCredentials[role]`: a fixed two-entry table; any other role finds nothing. */
  function DemoCredentials(role: string): (r: Option<LoginForm>)
    ensures r.Some? <==> role == "user" || role == "admin"
  {
    if role == "user" then Some(LoginForm("demo@example.com", "demo123"))
    else if role == "admin" then Some(LoginForm("admin@example.com", "admin123"))
    else None
  }

  /** Both demo buttons fill a form that passes login validation. */
  lemma DemoCredentialsAreValid(role: string)
    requires role == "user" || role == "admin"
    ensures FormValid(DemoCredentials(role).value)
    ensures FormErrors(DemoCredentials(role).value) == map[]
  {
    DemoAddressesHaveShape();
    FormErrorsEmptyIffValid(DemoCredentials(role).value);
  }

  // ---------------------------------------------------------------------------
  // The general alert

  const LoginSuccessful := "Login successful!"
  const InvalidCredentials := "Invalid credentials"
  const NetworkError := "Network error"

  /** The alert is styled as a success when its message contains 'successful'. */
  predicate AlertIsSuccess(message: string) {
    Contains(message, "successful")
  }

  /** The general message after the login request: the success text, or the
      server's error when it is a non-empty string, else the fallback. */
  function ResponseMessage(ok: bool, serverError: Option<string>): (m: string)
    ensures ok ==> m == LoginSuccessful
    ensures !ok && serverError.Some? && serverError.value != "" ==> m == serverError.value
    ensures !ok && (serverError.None? || serverError.value == "") ==> m == InvalidCredentials
  {
    if ok then LoginSuccessful
    else if serverError.Some? && serverError.value != "" then serverError.value
    else InvalidCredentials
  }

  /** A message with no 's' where 'successful' could start cannot contain it. */
  lemma NoSIsNotSuccess(message: string)
    requires forall i :: 0 <= i <= |message| - 10 ==> message[i] != 's'
    ensures !AlertIsSuccess(message)
  {
    forall i | 0 <= i <= |message| - 10
      ensures !OccursAt(message, "successful", i)
    {
      OccurrenceStartsWithHead(message, "successful", i);
    }
  }

  /** A successful login shows the success style; the two fixed failure texts
      show the error style. */
  lemma AlertStyles()
    ensures AlertIsSuccess(LoginSuccessful)
    ensures !AlertIsSuccess(InvalidCredentials)
    ensures !AlertIsSuccess(NetworkError)
  {
    assert OccursAt(LoginSuccessful, "successful", 6);
    NoSIsNotSuccess(NetworkError);
    NoSIsNotSuccess(InvalidCredentials);
  }

  /** The general alert after a login request is a success exactly when the
      request succeeded, unless the server's own error text contains 'successful'. */
  lemma ResponseAlert(ok: bool, serverError: Option<string>)
    ensures ok ==> AlertIsSuccess(ResponseMessage(ok, serverError))
    ensures !ok && (serverError.None? || serverError.value == "") ==> !AlertIsSuccess(ResponseMessage(ok, serverError))
  {
    AlertStyles();
  }
}
