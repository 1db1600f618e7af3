/**
 * The sign-in / sign-up page: the form's state, its validation, the guard
 * in front of the authentication call, the mapping of the backend's error
 * messages, the redirect target and the mode toggle.
 *
 * The email check is Zod's `.email()`, which is not part of this model: it
 * is passed in as the predicate `validEmail`. The backend's answer to
 * `signIn` / `signUp` is an input too: `None` for success, `Some(message)`
 * for the error it returned.
 */
module Auth {
  import opened Wrappers
  import opened JsText

  const EmailMessage := "Please enter a valid email address"
  const PasswordMessage := "Password must be at least 6 characters"
  const MismatchMessage := "Passwords do not match"
  const MinPasswordLength := 6

  const InvalidCredentials := "Invalid login credentials"
  const InvalidCredentialsText := "Invalid email or password"
  const AlreadyRegistered := "already registered"
  const AlreadyRegisteredText := "This email is " + AlreadyRegistered + ". Please sign in."
  const WelcomeBackText := "Welcome back to the Grid!"
  const AccountCreatedText := "Account created! Welcome to MoStar Grid."

  /** The `errors` record: a key is present only when its field failed. */
  datatype FormErrors = FormErrors(email: Option<string>, password: Option<string>, confirmPassword: Option<string>)

  const NoErrors := FormErrors(None, None, None)

  datatype Call = SignIn(email: string, password: string) | SignUp(email: string, password: string)

  datatype Toast = Success(text: string) | Failure(text: string)

  /** What one press of the submit button led to. */
  datatype Submission =
    | NotSubmitted
    | Submitted(call: Call, toast: Toast, redirect: Option<string>)

  /**
   * The message shown for a failed sign-in: the backend's own message,
   * except that a bad-credentials one is replaced by a neutral text.
   */
  function SignInErrorText(message: string): (text: string)
    ensures Includes(message, InvalidCredentials) ==> text == InvalidCredentialsText
    ensures !Includes(message, InvalidCredentials) ==> text == message
  {
    if Includes(message, InvalidCredentials) then InvalidCredentialsText else message
  }

  /** The message shown for a failed sign-up, with a hint for a known address. */
  function SignUpErrorText(message: string): (text: string)
    ensures Includes(message, AlreadyRegistered) ==> text == AlreadyRegisteredText
    ensures !Includes(message, AlreadyRegistered) ==> text == message
  {
    if Includes(message, AlreadyRegistered) then AlreadyRegisteredText else message
  }

  /** A failed sign-in never shows the backend's bad-credentials wording. */
  lemma SignInTextHidesCredentials(message: string)
    ensures !Includes(SignInErrorText(message), InvalidCredentials)
  {
    DiffersSameLength(InvalidCredentialsText, InvalidCredentials, 8);
  }

  /** The sign-up hint itself contains the wording it replaces. */
  lemma HintNamesCause()
    ensures Includes(AlreadyRegisteredText, AlreadyRegistered)
  {
    var before := "This email is ";
    assert AlreadyRegisteredText[|before|..|before| + |AlreadyRegistered|] == AlreadyRegistered;
    assert OccursAt(AlreadyRegisteredText, AlreadyRegistered, |before|);
    IncludesAt(AlreadyRegisteredText, AlreadyRegistered);
  }

  /** The sign-up hint still names the cause, so it reads as an "already registered" error. */
  lemma SignUpTextKeepsCause(message: string)
    ensures Includes(SignUpErrorText(message), AlreadyRegistered) <==> Includes(message, AlreadyRegistered)
  {
    HintNamesCause();
  }

  /**
   * `from`: the path the user came from, or `/` when there is none or it is
   * empty (the `||` default). Never empty.
   */
  function RedirectTarget(fromPathname: Option<string>): (target: string)
    ensures target != ""
    ensures fromPathname.Some? && fromPathname.value != "" ==> target == fromPathname.value
    ensures fromPathname.None? || fromPathname.value == "" ==> target == "/"
  {
    if fromPathname.Some? && fromPathname.value != "" then fromPathname.value else "/"
  }

  /** Redirecting to a computed target again leads to the same place. */
  lemma RedirectTargetStable(fromPathname: Option<string>)
    ensures RedirectTarget(Some(RedirectTarget(fromPathname))) == RedirectTarget(fromPathname)
  {
  }

  /** The form is acceptable: a valid email, a long enough password, and in sign-up mode a matching confirmation. */
  predicate Acceptable(isLogin: bool, emailOk: bool, password: string, confirmPassword: string) {
    emailOk && |password| >= MinPasswordLength && (isLogin || password == confirmPassword)
  }

  class AuthForm {
    var isLogin: bool
    var email: string
    var password: string
    var confirmPassword: string
    var isLoading: bool
    var errors: FormErrors
    /** Where a successful submission leads, fixed when the page opens. */
    const from: string

    /** The page as it opens: login mode, empty fields, no errors. */
    constructor (fromPathname: Option<string>)
      ensures isLogin && email == "" && password == "" && confirmPassword == ""
      ensures !isLoading && errors == NoErrors
      ensures from == RedirectTarget(fromPathname)
    {
      isLogin := true;
      email, password, confirmPassword := "", "", "";
      isLoading := false;
      errors := NoErrors;
      from := RedirectTarget(fromPathname);
    }

    /** The three inputs' `onChange` handlers. */
    method Edit(newEmail: string, newPassword: string, newConfirmPassword: string)
      modifies this
      ensures email == newEmail && password == newPassword && confirmPassword == newConfirmPassword
      ensures isLogin == old(isLogin) && isLoading == old(isLoading) && errors == old(errors)
    {
      email, password, confirmPassword := newEmail, newPassword, newConfirmPassword;
    }

    /** The mode toggle: switches between sign-in and sign-up and clears every error. */
    method ToggleMode()
      modifies this
      ensures isLogin == !old(isLogin) && errors == NoErrors
      ensures email == old(email) && password == old(password) && confirmPassword == old(confirmPassword)
      ensures isLoading == old(isLoading)
    {
      isLogin := !isLogin;
      errors := NoErrors;
    }

    /**
     * `validateForm`: records one message per failing field, and reports
     * success exactly when no message was recorded.
     */
    method ValidateForm(validEmail: string -> bool) returns (valid: bool)
      modifies this
      ensures errors.email == if validEmail(email) then None else Some(EmailMessage)
      ensures errors.password == if |password| < MinPasswordLength then Some(PasswordMessage) else None
      ensures errors.confirmPassword == if !isLogin && password != confirmPassword then Some(MismatchMessage) else None
      ensures valid <==> errors == NoErrors
      ensures valid <==> Acceptable(isLogin, validEmail(email), password, confirmPassword)
      ensures isLogin == old(isLogin) && email == old(email) && password == old(password)
      ensures confirmPassword == old(confirmPassword) && isLoading == old(isLoading)
    {
      var newErrors := NoErrors;
      if !validEmail(email) {
        newErrors := newErrors.(email := Some(EmailMessage));
      }
      if |password| < MinPasswordLength {
        newErrors := newErrors.(password := Some(PasswordMessage));
      }
      if !isLogin && password != confirmPassword {
        newErrors := newErrors.(confirmPassword := Some(MismatchMessage));
      }
      errors := newErrors;
      valid := newErrors == NoErrors;
    }

    /**
     * `handleSubmit`: validates; an invalid form goes no further and no
     * backend call is made. Otherwise signs in or up, shows the success
     * toast and redirects, or shows the mapped error; loading is off again
     * at the end either way.
     */
    method HandleSubmit(validEmail: string -> bool, reply: Option<string>) returns (s: Submission)
      modifies this
      ensures s.NotSubmitted? <==> !Acceptable(isLogin, validEmail(email), password, confirmPassword)
      ensures s.NotSubmitted? ==> isLoading == old(isLoading)
      ensures s.Submitted? ==> !isLoading
      ensures s.Submitted? ==> s.call == if isLogin then SignIn(email, password) else SignUp(email, password)
      ensures s.Submitted? && reply.None? ==>
        s.redirect == Some(from) && s.toast == Success(if isLogin then WelcomeBackText else AccountCreatedText)
      ensures s.Submitted? && reply.Some? ==>
        s.redirect.None? && s.toast == Failure(if isLogin then SignInErrorText(reply.value) else SignUpErrorText(reply.value))
      ensures errors.email == if validEmail(email) then None else Some(EmailMessage)
      ensures errors.password == if |password| < MinPasswordLength then Some(PasswordMessage) else None
      ensures errors.confirmPassword == if !isLogin && password != confirmPassword then Some(MismatchMessage) else None
      ensures errors == NoErrors <==> s.Submitted?
      ensures isLogin == old(isLogin) && email == old(email) && password == old(password)
      ensures confirmPassword == old(confirmPassword)
    {
      var valid := ValidateForm(validEmail);
      if !valid {
        return NotSubmitted;
      }
      isLoading := true;
      var call := if isLogin then SignIn(email, password) else SignUp(email, password);
      match reply {
        case Some(message) =>
          var text := if isLogin then SignInErrorText(message) else SignUpErrorText(message);
          s := Submitted(call, Failure(text), None);
        case None =>
          s := Submitted(call, Success(if isLogin then WelcomeBackText else AccountCreatedText), Some(from));
      }
      isLoading := false;
    }
  }
}
