/** The submit handlers of the register page (src/app/register/page.tsx)
    and the login page (src/app/login/page.tsx). Each page is a class whose
    fields are the component state; the outcome of the `register` or `login`
    call is a parameter. */
module AuthPages {
  import opened Wrappers
  import Api

  /** What a failed call throws: an Error with its message, or anything else. */
  datatype Thrown = ErrorObject(message: string) | NonError

  /** `err instanceof Error ? err.message : fallback` */
  function ThrownMessage(t: Thrown, fallback: string): (m: string)
    ensures t.ErrorObject? ==> m == t.message
    ensures t.NonError? ==> m == fallback
  {
    match t
    case ErrorObject(message) => message
    case NonError => fallback
  }

  /** The outcome of `register(email, password)` or `login(...)`. */
  datatype Outcome = Succeeded | Failed(thrown: Thrown)

  // ---------------------------------------------------------------------
  // Register page
  // ---------------------------------------------------------------------

  const MismatchMessage := "Passwords do not match"
  const ShortPasswordMessage := "Password must be at least 8 characters"
  const AlreadyRegisteredMessage := "This email is already registered. Please try logging in instead."

  /** The password validations made before `register` is called, in their order. */
  function ValidatePasswords(password: string, confirmPassword: string): (e: Option<string>)
    ensures e.None? <==> password == confirmPassword && |password| >= 8
    ensures password != confirmPassword ==> e == Some(MismatchMessage)
    ensures password == confirmPassword && |password| < 8 ==> e == Some(ShortPasswordMessage)
  {
    if password != confirmPassword then Some(MismatchMessage)
    else if |password| < 8 then Some(ShortPasswordMessage)
    else None
  }

  /** The message shown for a failed registration. */
  function RegisterErrorText(t: Thrown): (m: string)
    ensures Api.Mentions(ThrownMessage(t, "Failed to register"), "email already registered") ==>
              m == AlreadyRegisteredMessage
    ensures !Api.Mentions(ThrownMessage(t, "Failed to register"), "email already registered") ==>
              m == ThrownMessage(t, "Failed to register")
  {
    var errorMessage := ThrownMessage(t, "Failed to register");
    if Api.Mentions(errorMessage, "email already registered") then AlreadyRegisteredMessage
    else errorMessage
  }

  class RegisterForm {
    var error: string
    var isSubmitting: bool
    var registrationComplete: bool
    var registeredEmail: string

    constructor ()
      ensures error == "" && !isSubmitting && !registrationComplete && registeredEmail == ""
    {
      error := "";
      isSubmitting := false;
      registrationComplete := false;
      registeredEmail := "";
    }

    /** handleSubmit; `called` says whether `register` was invoked. */
    method HandleSubmit(email: string, password: string, confirmPassword: string, outcome: Outcome)
      returns (called: bool)
      modifies this
      ensures !isSubmitting
      ensures called <==> ValidatePasswords(password, confirmPassword).None?
      ensures !called ==>
                error == ValidatePasswords(password, confirmPassword).value
                && registrationComplete == old(registrationComplete)
                && registeredEmail == old(registeredEmail)
      ensures called && outcome.Succeeded? ==>
                error == "" && registrationComplete && registeredEmail == email
      ensures called && outcome.Failed? ==>
                error == RegisterErrorText(outcome.thrown)
                && registrationComplete == old(registrationComplete)
                && registeredEmail == old(registeredEmail)
    {
      error := "";
      isSubmitting := true;
      var invalid := ValidatePasswords(password, confirmPassword);
      if invalid.Some? {
        error := invalid.value;
        isSubmitting := false;
        return false;
      }
      called := true;
      match outcome {
        case Succeeded =>
          registeredEmail := email;
          registrationComplete := true;
        case Failed(thrown) =>
          error := RegisterErrorText(thrown);
      }
      isSubmitting := false;
    }
  }

  /** Mismatched passwords are reported as a mismatch even when they are
      also too short. */
  lemma MismatchReportedFirst(password: string, confirmPassword: string)
    requires password != confirmPassword && |password| < 8 && |confirmPassword| < 8
    ensures ValidatePasswords(password, confirmPassword) == Some(MismatchMessage)
  {
  }

  // ---------------------------------------------------------------------
  // Login page
  // ---------------------------------------------------------------------

  /** What the login page shows after a failed login. */
  datatype LoginFailure = ConfirmEmail | ShowError(message: string)

  function ClassifyLoginError(t: Thrown): (f: LoginFailure)
    ensures f.ConfirmEmail? <==> Api.Mentions(ThrownMessage(t, "Failed to login"), "email not confirmed")
    ensures f.ShowError? && Api.Mentions(ThrownMessage(t, "Failed to login"), "invalid login credentials") ==>
              f.message == Api.CredentialsMessage
    ensures f.ShowError? && !Api.Mentions(ThrownMessage(t, "Failed to login"), "invalid login credentials") ==>
              f.message == ThrownMessage(t, "Failed to login")
  {
    var errorMessage := ThrownMessage(t, "Failed to login");
    if Api.Mentions(errorMessage, "email not confirmed") then ConfirmEmail
    else if Api.Mentions(errorMessage, "invalid login credentials") then ShowError(Api.CredentialsMessage)
    else ShowError(errorMessage)
  }

  /** The confirmation view wins over the credentials message. */
  lemma ConfirmationBeforeCredentials(message: string)
    requires Api.Mentions(message, "email not confirmed")
    ensures ClassifyLoginError(ErrorObject(message)) == ConfirmEmail
  {
  }

  /** The login page and the API client show the same text for rejected credentials. */
  lemma CredentialsTextAgrees(message: string, status: Option<int>)
    requires Api.Mentions(message, "invalid login credentials")
    requires !Api.Mentions(message, "email not confirmed")
    ensures ClassifyLoginError(ErrorObject(message)) == ShowError(Api.MapErrorMessage(message, status))
  {
  }

  class LoginForm {
    var error: string
    var isSubmitting: bool
    var needsEmailConfirmation: bool
    var confirmationEmail: string

    constructor ()
      ensures error == "" && !isSubmitting && !needsEmailConfirmation && confirmationEmail == ""
    {
      error := "";
      isSubmitting := false;
      needsEmailConfirmation := false;
      confirmationEmail := "";
    }

    /** handleSubmit */
    method HandleSubmit(email: string, outcome: Outcome)
      modifies this
      ensures !isSubmitting
      ensures outcome.Succeeded? ==>
                error == "" && !needsEmailConfirmation && confirmationEmail == old(confirmationEmail)
      ensures outcome.Failed? && ClassifyLoginError(outcome.thrown) == ConfirmEmail ==>
                error == "" && needsEmailConfirmation && confirmationEmail == email
      ensures outcome.Failed? && ClassifyLoginError(outcome.thrown).ShowError? ==>
                error == ClassifyLoginError(outcome.thrown).message
                && !needsEmailConfirmation && confirmationEmail == old(confirmationEmail)
    {
      error := "";
      needsEmailConfirmation := false;
      isSubmitting := true;
      match outcome {
        case Succeeded =>
        case Failed(thrown) =>
          match ClassifyLoginError(thrown) {
            case ConfirmEmail =>
              needsEmailConfirmation := true;
              confirmationEmail := email;
            case ShowError(message) =>
              error := message;
          }
      }
      isSubmitting := false;
    }
  }
}
