/** Rules the login and registration forms share. */
module AuthRules {
  import opened Text

  /** `\S`: a character that is not white space. */
  predicate NonSpace(c: char) {
    !IsSpace(c)
  }

  /**
   * `/\S+@\S+\.\S+/.test(s)`: somewhere in `s` a non-blank character, an
   * '@', one or more non-blank characters, a '.', and a non-blank character.
   */
  predicate MatchesEmailPattern(s: string) {
    exists i: nat, j: nat :: i < j < |s| && EmailShapeAt(s, i, j)
  }

  /** The '@' of the match is at `i` and the '.' at `j`. */
  predicate EmailShapeAt(s: string, i: nat, j: nat) {
    0 < i && i + 1 < j && j + 1 < |s| &&
    s[i] == '@' && s[j] == '.' && NonSpace(s[i - 1]) && NonSpace(s[j + 1]) &&
    AllNonSpace(s[i + 1..j])
  }

  predicate AllNonSpace(t: string) {
    forall k :: 0 <= k < |t| ==> NonSpace(t[k])
  }

  /** A string the pattern accepts is not empty. */
  lemma PatternNeedsText(s: string)
    requires MatchesEmailPattern(s)
    ensures |s| >= 5
  {
  }

  /** Example: the demo account address matches the pattern. */
  lemma DemoEmailMatches()
    ensures MatchesEmailPattern("demo@reactarchitect.com")
  {
    var s := "demo@reactarchitect.com";
    assert s[5..19] == "reactarchitect";
    assert EmailShapeAt(s, 4, 19);
  }

  const DemoEmail: string := "demo@reactarchitect.com"
  const DemoPassword: string := "React2026!"

  /** The error text for an email, as both forms write it, or "" when it is acceptable. */
  function EmailError(email: string): (r: string)
    ensures r == "" <==> MatchesEmailPattern(email)
  {
    if email == "" then "Email is required"
    else if !MatchesEmailPattern(email) then "Invalid email format"
    else ""
  }
}

/** The login form: validation, submission against the demo credentials, and the Enter key. */
module LoginForm {
  import opened Wrappers
  import opened AuthRules
  import opened Text
  import Snackbar

  /** `FormErrors`; "" stands for an absent key. */
  datatype LoginErrors = LoginErrors(email: string, password: string, submit: string)

  const NoErrors: LoginErrors := LoginErrors("", "", "")

  function PasswordError(password: string): (r: string)
    ensures r == "" <==> JsLength(password) >= 6
  {
    if password == "" then "Password is required"
    else if JsLength(password) < 6 then "Password must be at least 6 characters"
    else ""
  }

  /** `validateLoginForm`: each key depends on its own field only. */
  function ValidateLoginForm(email: string, password: string): (r: LoginErrors)
    ensures r.email == EmailError(email) && r.password == PasswordError(password) && r.submit == ""
    ensures r == NoErrors <==> MatchesEmailPattern(email) && JsLength(password) >= 6
  {
    LoginErrors(EmailError(email), PasswordError(password), "")
  }

  datatype LoginPayload = LoginPayload(email: string, rememberMe: bool)

  /** The values `submitForm`'s timer closure captured when it was scheduled. */
  datatype LoginAttempt = LoginAttempt(email: string, password: string, rememberMe: bool)

  class Login {
    var email: string
    var password: string
    var rememberMe: bool
    var isLoading: bool
    var errors: LoginErrors
    /** The submission whose timer has not fired yet. */
    var pending: Option<LoginAttempt>

    constructor ()
      ensures email == DemoEmail && password == "" && !rememberMe && !isLoading && errors == NoErrors
      ensures pending == None
    {
      email := DemoEmail;
      password := "";
      rememberMe := false;
      isLoading := false;
      errors := NoErrors;
      pending := None;
    }

    /**
     * `submitForm` up to the timer: with validation errors they are stored and
     * nothing starts; otherwise loading starts with the errors cleared, and
     * the timer holds the email, password and remember-me flag of this moment.
     */
    method SubmitForm() returns (started: bool)
      modifies this
      ensures started <==> ValidateLoginForm(old(email), old(password)) == NoErrors
      ensures !started ==> errors == ValidateLoginForm(email, password) && isLoading == old(isLoading) && pending == old(pending)
      ensures started ==> errors == NoErrors && isLoading && pending == Some(LoginAttempt(email, password, rememberMe))
      ensures email == old(email) && password == old(password) && rememberMe == old(rememberMe)
    {
      var validation := ValidateLoginForm(email, password);
      if validation != NoErrors {
        errors := validation;
        return false;
      }
      isLoading := true;
      errors := NoErrors;
      pending := Some(LoginAttempt(email, password, rememberMe));
      started := true;
    }

    /**
     * The timer's callback, on the values captured at submit (edits made
     * while it waits do not count): `onSubmit` fires only for exactly the
     * demo credentials; otherwise a submit error and an error snackbar.
     */
    method CompleteLogin(snackbars: Snackbar.SnackbarStore, freshId: string) returns (submitted: Option<LoginPayload>)
      requires pending.Some?
      modifies this, snackbars
      ensures var a := old(pending).value;
        submitted.Some? <==> a.email == DemoEmail && a.password == DemoPassword
      ensures submitted.Some? ==>
        (submitted.value == LoginPayload(old(pending).value.email, old(pending).value.rememberMe) &&
         errors == old(errors) && snackbars.snackbars == old(snackbars.snackbars))
      ensures submitted.None? ==>
        (errors == LoginErrors("", "", "Authentication failed. Invalid credentials provided.") &&
         snackbars.snackbars == old(snackbars.snackbars) + [Snackbar.SnackbarItem(freshId, "Login failed. Please check your credentials.", Snackbar.Error)])
      ensures !isLoading && pending == None
      ensures email == old(email) && password == old(password) && rememberMe == old(rememberMe)
    {
      var a := pending.value;
      if a.email == DemoEmail && a.password == DemoPassword {
        submitted := Some(LoginPayload(a.email, a.rememberMe));
      } else {
        errors := LoginErrors("", "", "Authentication failed. Invalid credentials provided.");
        snackbars.Show("Login failed. Please check your credentials.", Snackbar.Error, freshId);
        submitted := None;
      }
      isLoading := false;
      pending := None;
    }

    /** The window's key handler: Enter submits only when both fields are filled. */
    method HandleKeyDown(key: string) returns (started: bool)
      modifies this
      ensures !(key == "Enter" && old(email) != "" && old(password) != "") ==> !started && errors == old(errors) && isLoading == old(isLoading) && pending == old(pending)
      ensures started ==> key == "Enter" && ValidateLoginForm(old(email), old(password)) == NoErrors
      ensures email == old(email) && password == old(password)
    {
      if key == "Enter" && email != "" && password != "" {
        started := SubmitForm();
      } else {
        started := false;
      }
    }
  }

  /** Example: the demo credentials pass validation, so a login with them reaches the timer. */
  lemma DemoCredentialsValidate()
    ensures ValidateLoginForm(DemoEmail, DemoPassword) == NoErrors
  {
    DemoEmailMatches();
  }

  /** Example: three emoji are six UTF-16 code units, enough for the login rule though only three characters. */
  lemma AstralPasswordPasses()
    ensures PasswordError("\U{1F600}\U{1F600}\U{1F600}") == ""
  {
    var p := "\U{1F600}\U{1F600}\U{1F600}";
    assert p[1..][1..][1..] == [];
  }

  /** Example: a fresh form with the demo password typed in submits the demo credentials. */
  method SubmitDemoCredentials() returns (form: Login)
    ensures fresh(form) && form.isLoading
    ensures form.pending == Some(LoginAttempt(DemoEmail, DemoPassword, false))
  {
    form := new Login();
    form.password := DemoPassword;
    DemoCredentialsValidate();
    var started := form.SubmitForm();
  }

  /**
   * Example: the password is changed to anything while the timer waits; the
   * timer still signs in with the demo credentials submitted before the edit.
   */
  method EditDuringWaitStillSignsIn(edited: string, snackbars: Snackbar.SnackbarStore, freshId: string) returns (submitted: Option<LoginPayload>)
    modifies snackbars
    ensures submitted == Some(LoginPayload(DemoEmail, false))
  {
    var form := SubmitDemoCredentials();
    form.password := edited;
    submitted := form.CompleteLogin(snackbars, freshId);
  }

}

/** The registration form: strength bands, validation, field edits and the duplicate-account check. */
module RegisterForm {
  import opened Wrappers
  import opened Text
  import opened AuthRules
  import Snackbar

  datatype Strength = Weak | Medium | Strong

  /** `strengthLabel` from `passwordStrength`, the password's `length`, which is `JsLength(password)`. */
  function StrengthLabel(length: nat): (s: Strength)
    ensures s == Weak <==> length < 6
    ensures s == Medium <==> 6 <= length < 10
    ensures s == Strong <==> length >= 10
  {
    if length < 6 then Weak else if length < 10 then Medium else Strong
  }

  /** `getStrengthColor`. */
  function StrengthColor(length: nat): string {
    if length < 6 then "bg-error" else if length < 10 then "bg-warning" else "bg-success"
  }

  /** `getStrengthWidth`. */
  function StrengthWidth(length: nat): string {
    if length < 6 then "w-1/3" else if length < 10 then "w-2/3" else "w-full"
  }

  /** The meter's colour and width follow the same bands as the label. */
  lemma MeterMatchesLabel(length: nat)
    ensures StrengthLabel(length) == Weak <==> StrengthColor(length) == "bg-error" && StrengthWidth(length) == "w-1/3"
    ensures StrengthLabel(length) == Medium <==> StrengthColor(length) == "bg-warning" && StrengthWidth(length) == "w-2/3"
    ensures StrengthLabel(length) == Strong <==> StrengthColor(length) == "bg-success" && StrengthWidth(length) == "w-full"
  {
  }

  /** The meter shows only for a non-empty password. */
  predicate MeterShown(password: string) {
    password != ""
  }

  /** The keys of `FormData`. */
  datatype Field = FullName | Email | Password | ConfirmPassword

  /** The keys of `FormErrors`. */
  datatype ErrorKey = FieldError(field: Field) | Terms | Submit

  datatype FormData = FormData(fullName: string, email: string, password: string, confirmPassword: string)

  function Get(data: FormData, f: Field): string {
    match f
    case FullName => data.fullName
    case Email => data.email
    case Password => data.password
    case ConfirmPassword => data.confirmPassword
  }

  function Set(data: FormData, f: Field, value: string): (r: FormData)
    ensures Get(r, f) == value
    ensures forall g :: g != f ==> Get(r, g) == Get(data, g)
  {
    match f
    case FullName => data.(fullName := value)
    case Email => data.(email := value)
    case Password => data.(password := value)
    case ConfirmPassword => data.(confirmPassword := value)
  }

  /** `(?=.*[a-z])(?=.*[A-Z])(?=.*\d)`: a lower-case letter, an upper-case letter and a digit somewhere. */
  predicate HasLowerUpperDigit(s: string) {
    (exists i :: 0 <= i < |s| && 'a' <= s[i] <= 'z') &&
    (exists i :: 0 <= i < |s| && 'A' <= s[i] <= 'Z') &&
    (exists i :: 0 <= i < |s| && '0' <= s[i] <= '9')
  }

  function FullNameError(fullName: string): (r: string)
    ensures r == "" <==> JsLength(Trim(fullName)) >= 3
  {
    if Trim(fullName) == "" then "Full name is required"
    else if JsLength(Trim(fullName)) < 3 then "Name must be at least 3 characters"
    else ""
  }

  function PasswordError(password: string): (r: string)
    ensures r == "" <==> JsLength(password) >= 8 && HasLowerUpperDigit(password)
  {
    if password == "" then "Password is required"
    else if JsLength(password) < 8 then "Password must be at least 8 characters"
    else if !HasLowerUpperDigit(password) then "Password must contain uppercase, lowercase, and number"
    else ""
  }

  function ConfirmError(password: string, confirm: string): (r: string)
    ensures r == "" <==> confirm != "" && confirm == password
  {
    if confirm == "" then "Please confirm your password"
    else if password != confirm then "Passwords do not match"
    else ""
  }

  /** The message `validateForm` stores under `k`, or "" when that rule holds. */
  function RuleError(data: FormData, acceptTerms: bool, k: ErrorKey): string {
    match k
    case FieldError(FullName) => FullNameError(data.fullName)
    case FieldError(Email) => EmailError(data.email)
    case FieldError(Password) => PasswordError(data.password)
    case FieldError(ConfirmPassword) => ConfirmError(data.password, data.confirmPassword)
    case Terms => if acceptTerms then "" else "You must accept the terms and conditions"
    case Submit => ""
  }

  const ValidatedKeys: set<ErrorKey> :=
    {FieldError(FullName), FieldError(Email), FieldError(Password), FieldError(ConfirmPassword), Terms}

  /** `validateForm`: a key for every failing rule and no other. */
  function ValidateForm(data: FormData, acceptTerms: bool): (errors: map<ErrorKey, string>)
    ensures FieldError(FullName) in errors <==> FullNameError(data.fullName) != ""
    ensures FieldError(Email) in errors <==> EmailError(data.email) != ""
    ensures FieldError(Password) in errors <==> PasswordError(data.password) != ""
    ensures FieldError(ConfirmPassword) in errors <==> ConfirmError(data.password, data.confirmPassword) != ""
    ensures Terms in errors <==> !acceptTerms
    ensures Submit !in errors
    ensures forall k :: k in errors ==> errors[k] != ""
  {
    map k | k in ValidatedKeys && RuleError(data, acceptTerms, k) != "" :: RuleError(data, acceptTerms, k)
  }

  /** The form validates exactly when every rule holds. */
  lemma ValidIffAllRulesHold(data: FormData, acceptTerms: bool)
    ensures ValidateForm(data, acceptTerms) == map[] <==>
      JsLength(Trim(data.fullName)) >= 3 && MatchesEmailPattern(data.email) &&
      JsLength(data.password) >= 8 && HasLowerUpperDigit(data.password) &&
      data.confirmPassword == data.password && data.password != "" && acceptTerms
  {
    var e := ValidateForm(data, acceptTerms);
    if e != map[] {
      var k :| k in e;
    }
  }

  datatype RegisterPayload = RegisterPayload(fullName: string, email: string)

  class Register {
    var formData: FormData
    var acceptTerms: bool
    var isLoading: bool
    var errors: map<ErrorKey, string>
    /** The form data `submitForm`'s timer closure captured, while that timer has not fired. */
    var pending: Option<FormData>

    constructor ()
      ensures formData == FormData("", "", "", "") && !acceptTerms && !isLoading && errors == map[]
      ensures pending == None
    {
      formData := FormData("", "", "", "");
      acceptTerms := false;
      isLoading := false;
      errors := map[];
      pending := None;
    }

    /** `handleInputChange(name, value)`: sets the field and deletes that field's error, if it has a non-empty one. */
    method HandleInputChange(name: Field, value: string)
      modifies this
      ensures formData == Set(old(formData), name, value)
      ensures FieldError(name) in old(errors) && old(errors)[FieldError(name)] != "" ==> errors == old(errors) - {FieldError(name)}
      ensures !(FieldError(name) in old(errors) && old(errors)[FieldError(name)] != "") ==> errors == old(errors)
      ensures acceptTerms == old(acceptTerms) && isLoading == old(isLoading) && pending == old(pending)
    {
      formData := Set(formData, name, value);
      if FieldError(name) in errors && errors[FieldError(name)] != "" {
        errors := errors - {FieldError(name)};
      }
    }

    method SetAcceptTerms(accepted: bool)
      modifies this
      ensures acceptTerms == accepted && formData == old(formData) && errors == old(errors) && isLoading == old(isLoading)
      ensures pending == old(pending)
    {
      acceptTerms := accepted;
    }

    /** `submitForm` up to the timer, which holds the form data of this moment. */
    method SubmitForm() returns (started: bool)
      modifies this
      ensures started <==> ValidateForm(old(formData), old(acceptTerms)) == map[]
      ensures !started ==> errors == ValidateForm(formData, acceptTerms) && isLoading == old(isLoading) && pending == old(pending)
      ensures started ==> errors == map[] && isLoading && pending == Some(formData)
      ensures formData == old(formData) && acceptTerms == old(acceptTerms)
    {
      var validation := ValidateForm(formData, acceptTerms);
      if validation != map[] {
        errors := validation;
        return false;
      }
      isLoading := true;
      errors := map[];
      pending := Some(formData);
      started := true;
    }

    /**
     * The timer's callback, on the form data captured at submit (edits made
     * while it waits do not count): the demo address is an existing account,
     * so it gets a submit error and a snackbar and `onSubmit` is not called;
     * any other address is submitted (loading is then left on).
     */
    method CompleteRegistration(snackbars: Snackbar.SnackbarStore, freshId: string) returns (submitted: Option<RegisterPayload>)
      requires pending.Some?
      modifies this, snackbars
      ensures submitted.None? <==> old(pending).value.email == DemoEmail
      ensures submitted.Some? ==>
        (submitted.value == RegisterPayload(old(pending).value.fullName, old(pending).value.email) &&
         errors == old(errors) && isLoading == old(isLoading) && snackbars.snackbars == old(snackbars.snackbars))
      ensures submitted.None? ==>
        (errors == map[Submit := "Registration failed. Account already exists"] && !isLoading &&
         snackbars.snackbars == old(snackbars.snackbars) + [Snackbar.SnackbarItem(freshId, "Registration failed. Please use a different email.", Snackbar.Error)])
      ensures pending == None
      ensures formData == old(formData) && acceptTerms == old(acceptTerms)
    {
      var data := pending.value;
      pending := None;
      if data.email == DemoEmail {
        errors := map[Submit := "Registration failed. Account already exists"];
        snackbars.Show("Registration failed. Please use a different email.", Snackbar.Error, freshId);
        isLoading := false;
        return None;
      }
      submitted := Some(RegisterPayload(data.fullName, data.email));
    }
  }

  /** Editing a field never touches the other fields' errors, the terms error or the submit error. */
  lemma EditKeepsOtherErrors(errors: map<ErrorKey, string>, name: Field, k: ErrorKey)
    requires k != FieldError(name) && k in errors
    ensures k in errors - {FieldError(name)} && (errors - {FieldError(name)})[k] == errors[k]
  {
  }

  /**
   * A valid form submitted with a fresh address registers that address, even
   * when the email field is changed to the existing demo account while the
   * timer waits.
   */
  method EditDuringWaitKeepsSubmittedData(data: FormData, snackbars: Snackbar.SnackbarStore, freshId: string)
      returns (submitted: Option<RegisterPayload>)
    requires ValidateForm(data, true) == map[] && data.email != DemoEmail
    modifies snackbars
    ensures submitted == Some(RegisterPayload(data.fullName, data.email))
  {
    var form := new Register();
    form.formData := data;
    form.SetAcceptTerms(true);
    var started := form.SubmitForm();
    form.HandleInputChange(Email, DemoEmail);
    submitted := form.CompleteRegistration(snackbars, freshId);
  }
}
