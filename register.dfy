/** The registration form: its validators, the order in which a rejected submit picks
    its message, the loading flag around the registration call, and the button state. */
module Register {
  import opened Wrappers
  import opened EmailRule

  const PasswordsDoNotMatch := "Passwords do not match"
  const PasswordTooShort := "Password must be at least 8 characters long"
  const FillAllFields := "Please fill in all fields correctly"
  const RegistrationFailed := "Registration failed. Please try again."

  /** `isValidPassword` */
  predicate IsValidPassword(password: string) {
    |password| >= 8
  }

  /** `isValidForm`: every field non-empty (JavaScript truthiness of a string), a valid
      email, a long enough password, and a confirmation equal to it. */
  predicate IsValidForm(name: string, email: string, password: string, confirm: string) {
    name != "" && email != "" && password != "" && confirm != "" &&
    IsValidEmail(email) && IsValidPassword(password) && password == confirm
  }

  /** Read against the regular expression itself, the non-emptiness tests on the email
      and on the confirmation are implied by the other conditions. */
  lemma FormValidityAgainstRegex(name: string, email: string, password: string, confirm: string)
    ensures IsValidForm(name, email, password, confirm) <==>
      name != "" && MatchesEmailRegex(email) && |password| >= 8 && password == confirm
  {
    EmailCheckMatchesRegex(email);
  }

  /** The toast a submit shows instead of calling the registration, if any. */
  function SubmitError(name: string, email: string, password: string, confirm: string): (r: Option<string>)
    ensures r.None? <==> IsValidForm(name, email, password, confirm)
    ensures r == Some(PasswordsDoNotMatch) <==> password != confirm
    ensures r == Some(PasswordTooShort) <==> password == confirm && |password| < 8
    ensures r == Some(FillAllFields) <==>
      password == confirm && |password| >= 8 && !IsValidForm(name, email, password, confirm)
  {
    if IsValidForm(name, email, password, confirm) then None
    else if password != confirm then Some(PasswordsDoNotMatch)
    else if !IsValidPassword(password) then Some(PasswordTooShort)
    else Some(FillAllFields)
  }

  /** A form whose only fault is a bad email address gets the generic message. */
  lemma BadEmailGetsGenericMessage(name: string, email: string, password: string)
    requires name != "" && |password| >= 8 && !MatchesEmailRegex(email)
    ensures SubmitError(name, email, password, password) == Some(FillAllFields)
  {
    EmailCheckMatchesRegex(email);
  }

  datatype RegisterField = Name | EmailAddress | Password | ConfirmPassword

  /** What pressing Register does first: a toast and nothing else, or the call. */
  datatype SubmitStart = Rejected(message: string) | CallRegister(name: string, email: string, password: string)

  /** How the submit ends once the awaited call settles. */
  datatype SubmitEnd = Registered(navigateTo: string) | Failed(message: string)

  /** The settled registration call, as the page means it: the context's sign-up
      catches its own errors and resolves to whether it succeeded, and the page goes
      home exactly when it reports success; otherwise the failure message shows. */
  function EndOfCall(succeeded: bool): (r: SubmitEnd)
    ensures r.Registered? <==> succeeded
    ensures r.Registered? ==> r.navigateTo == "/"
    ensures r.Failed? ==> r.message == RegistrationFailed
  {
    if succeeded then Registered("/") else Failed(RegistrationFailed)
  }

  /** The function the page takes out of the authentication context under the name
      `register`. The context's value carries `signUp` but no `register`, so what
      the page holds is `undefined`. */
  datatype Callee = Undefined | Function(succeeds: bool)

  const RegisterFromContext: Callee := Undefined

  /** Calling `undefined` throws a TypeError inside the `try`, so it never succeeds. */
  function CallSucceeds(callee: Callee): (succeeded: bool)
    ensures succeeded <==> callee.Function? && callee.succeeds
  {
    match callee
    case Undefined => false
    case Function(succeeds) => succeeds
  }

  /** As written, every submit that passes validation ends in the failure toast. */
  lemma RegistrationAlwaysFailsAsWritten()
    ensures EndOfCall(CallSucceeds(RegisterFromContext)) == Failed(RegistrationFailed)
  {
  }

  class RegisterPage {
    var name: string
    var email: string
    var password: string
    var confirmPassword: string
    var isLoading: bool

    constructor ()
      ensures name == "" && email == "" && password == "" && confirmPassword == "" && !isLoading
    {
      name, email, password, confirmPassword := "", "", "", "";
      isLoading := false;
    }

    /** The Register button is disabled while loading or while the form is invalid. */
    function SubmitDisabled(): (disabled: bool)
      reads this
      ensures disabled <==> isLoading || SubmitError(name, email, password, confirmPassword).Some?
    {
      isLoading || !IsValidForm(name, email, password, confirmPassword)
    }

    method Edit(field: RegisterField, value: string)
      modifies this
      ensures name == (if field == Name then value else old(name))
      ensures email == (if field == EmailAddress then value else old(email))
      ensures password == (if field == Password then value else old(password))
      ensures confirmPassword == (if field == ConfirmPassword then value else old(confirmPassword))
      ensures isLoading == old(isLoading)
    {
      match field
      case Name => name := value;
      case EmailAddress => email := value;
      case Password => password := value;
      case ConfirmPassword => confirmPassword := value;
    }

    /** `handleSubmit` up to the `await`: an invalid form shows its message and changes
        nothing; a valid one sets `isLoading` and calls the registration once. */
    method BeginSubmit() returns (start: SubmitStart)
      modifies this
      ensures var err := SubmitError(name, email, password, confirmPassword);
        (err.Some? ==> start == Rejected(err.value) && isLoading == old(isLoading)) &&
        (err.None? ==> start == CallRegister(name, email, password) && isLoading)
      ensures name == old(name) && email == old(email) && password == old(password)
      ensures confirmPassword == old(confirmPassword)
    {
      var err := SubmitError(name, email, password, confirmPassword);
      if err.Some? {
        start := Rejected(err.value);
        return;
      }
      isLoading := true;
      start := CallRegister(name, email, password);
    }

    /** `handleSubmit` after the `await`, with the call the page means (the context's
        sign-up, reporting `succeeded`): the `finally` clears `isLoading` whichever way
        the call settled. */
    method FinishSubmit(succeeded: bool) returns (end: SubmitEnd)
      requires isLoading
      modifies this
      ensures !isLoading && end == EndOfCall(succeeded)
      ensures name == old(name) && email == old(email) && password == old(password)
      ensures confirmPassword == old(confirmPassword)
    {
      end := EndOfCall(succeeded);
      isLoading := false;
    }
  }
}
