/** The login form: its validator, the redirect target, the loading flag around the
    login call, and the redirect of a user who is already signed in. */
module Login {
  import opened Wrappers
  import opened EmailRule

  const InvalidLogin := "Please enter a valid email and password"

  /** `isValidForm` */
  predicate IsValidForm(email: string, password: string) {
    email != "" && password != "" && IsValidEmail(email)
  }

  /** Against the regular expression itself the emptiness test on the email is implied. */
  lemma FormValidityAgainstRegex(email: string, password: string)
    ensures IsValidForm(email, password) <==> MatchesEmailRegex(email) && password != ""
  {
    EmailCheckMatchesRegex(email);
  }

  /** `location.state?.from || '/'` */
  function RedirectPath(from: Option<string>): (r: string)
    ensures r != ""
    ensures from.Some? && from.value != "" ==> r == from.value
    ensures from.None? || from.value == "" ==> r == "/"
  {
    if from.Some? && from.value != "" then from.value else "/"
  }

  datatype SubmitStart = Rejected(message: string) | CallLogin(email: string, password: string)

  class LoginPage {
    const redirectPath: string
    var email: string
    var password: string
    var isLoading: bool

    constructor (from: Option<string>)
      ensures redirectPath == RedirectPath(from) && redirectPath != ""
      ensures email == "" && password == "" && !isLoading
    {
      redirectPath := RedirectPath(from);
      email, password := "", "";
      isLoading := false;
    }

    /** The effect on the authentication flag: a signed-in user is sent on. */
    function AuthRedirect(isAuthenticated: bool): (navigateTo: Option<string>)
      reads this
      ensures navigateTo.Some? <==> isAuthenticated
      ensures navigateTo.Some? ==> navigateTo.value == redirectPath
    {
      if isAuthenticated then Some(redirectPath) else None
    }

    function SubmitDisabled(): (disabled: bool)
      reads this
      ensures disabled <==> isLoading || !(MatchesEmailRegex(email) && password != "")
    {
      FormValidityAgainstRegex(email, password);
      isLoading || !IsValidForm(email, password)
    }

    method SetEmail(value: string)
      modifies this
      ensures email == value && password == old(password) && isLoading == old(isLoading)
    {
      email := value;
    }

    method SetPassword(value: string)
      modifies this
      ensures password == value && email == old(email) && isLoading == old(isLoading)
    {
      password := value;
    }

    /** `handleSubmit` up to the `await`: an invalid form shows the error and does not
        call `login`; a valid one sets `isLoading` and calls it. */
    method BeginSubmit() returns (start: SubmitStart)
      modifies this
      ensures !IsValidForm(email, password) ==> start == Rejected(InvalidLogin) && isLoading == old(isLoading)
      ensures IsValidForm(email, password) ==> start == CallLogin(email, password) && isLoading
      ensures email == old(email) && password == old(password)
    {
      if !IsValidForm(email, password) {
        start := Rejected(InvalidLogin);
        return;
      }
      isLoading := true;
      start := CallLogin(email, password);
    }

    /** `handleSubmit` after the `await`: navigate on success, stay on failure, and clear
        `isLoading` either way. */
    method FinishSubmit(success: bool) returns (navigateTo: Option<string>)
      requires isLoading
      modifies this
      ensures !isLoading
      ensures navigateTo.Some? <==> success
      ensures success ==> navigateTo.value == redirectPath
      ensures email == old(email) && password == old(password)
    {
      navigateTo := if success then Some(redirectPath) else None;
      isLoading := false;
    }
  }
}
