/** The sign-in page: where a successful sign-in lands, the messages for
    failed sign-ins, the `loading` flag across a sign-in, and the hand-over
    of the typed e-mail to the password-reset page. */
module LoginPage {
  import opened Ui
  import opened Auth

  const Home := "/"
  const ForgotPasswordPath := "/forgot-password"

  const EmailNotFound := "Email not found"
  const WrongPassword := "Incorrect password"
  const LoginFailed := "Login failed. Please try again."
  const GoogleCancelled := "Google sign-in cancelled."
  const GoogleFailed := "Google login failed. Please try again."

  /** `location.state?.from?.pathname || "/"`. */
  function RedirectTarget(state: Option<LocState>): (path: string)
    ensures path != ""
    ensures path == Home
      || (state.Some? && state.value.from.Some? && state.value.from.value.pathname == Some(path))
    ensures state.Some? && state.value.from.Some? && state.value.from.value.pathname.Some?
            && state.value.from.value.pathname.value != "" ==>
              path == state.value.from.value.pathname.value
  {
    if state.Some? && state.value.from.Some? && state.value.from.value.pathname.Some?
       && state.value.from.value.pathname.value != ""
    then state.value.from.value.pathname.value
    else Home
  }

  /** With no recorded origin, a sign-in lands on the home page. */
  lemma NoOriginLandsHome(state: Option<LocState>)
    requires state.None? || state.value.from.None? || state.value.from.value.pathname.None?
    ensures RedirectTarget(state) == Home
  {
  }

  /** The message for a failed password sign-in. */
  function LoginErrorMessage(e: AuthError): (m: string)
    ensures m in {EmailNotFound, WrongPassword, LoginFailed}
    ensures m == EmailNotFound <==> e.code == "auth/user-not-found"
    ensures m == WrongPassword <==> e.code == "auth/wrong-password"
  {
    if e.code == "auth/user-not-found" then EmailNotFound
    else if e.code == "auth/wrong-password" then WrongPassword
    else LoginFailed
  }

  /** The message for a failed Google sign-in. */
  function GoogleErrorMessage(e: AuthError): (m: string)
    ensures m in {GoogleCancelled, GoogleFailed}
    ensures m == GoogleCancelled <==> e.code == "auth/popup-closed-by-user"
  {
    if e.code == "auth/popup-closed-by-user" then GoogleCancelled else GoogleFailed
  }

  /** The navigation `handleForgotPasswordClick` makes. */
  function ForgotPasswordLink(email: string): (n: Navigation)
    ensures n.path == ForgotPasswordPath && n.state == Some(LocState(None, Some(email)))
  {
    Navigation(ForgotPasswordPath, Some(LocState(None, Some(email))))
  }

  class Login {
    /** The controlled e-mail input. */
    var email: string
    /** True while a sign-in is in flight. */
    var loading: bool

    constructor ()
      ensures email == "" && !loading
    {
      email := "";
      loading := false;
    }

    /** The e-mail input's `onChange`. */
    method SetEmail(value: string)
      modifies this`email
      ensures email == value
    {
      email := value;
    }

    /** `handleLogin`, up to the provider's answer: `loading` is set and the
        context's `signInUser` is called with the submitted fields. The
        submitted e-mail is the controlled input's value, so it is `email`. */
    method HandleLogin(auth: AuthProvider, password: string, result: Settled<UserRecord>)
      returns (p: Settled<UserRecord>, toast: Toast)
      modifies this`loading, auth`currentUser, auth`calls
      ensures loading && email == old(email) && p == result && toast == SignedInToast
      ensures auth.calls == old(auth.calls) + [PasswordSignIn(old(email), password)]
      ensures auth.user == old(auth.user) && auth.loading == old(auth.loading)
      ensures auth.currentUser == if result.Resolved? then Some(result.value) else old(auth.currentUser)
    {
      loading := true;
      p, toast := auth.SignInUser(email, password, result);
    }

    /** `handleLogin` once the provider has answered: on success the e-mail
        is cleared and the visitor goes to the redirect target; on failure the
        mapped message is shown and nothing navigates. `loading` ends. */
    method OnLoginSettled(p: Settled<UserRecord>, state: Option<LocState>)
      returns (nav: Option<Navigation>, toast: Toast)
      modifies this`email, this`loading
      ensures !loading
      ensures p.Resolved? ==>
        email == "" && nav == Some(GoTo(RedirectTarget(state)))
        && toast == Toast(Success, "Successfully Logged In!")
      ensures p.Rejected? ==>
        email == old(email) && nav == None && toast == Toast(Error, LoginErrorMessage(p.error))
    {
      if p.Resolved? {
        toast := Toast(Success, "Successfully Logged In!");
        email := "";
        nav := Some(GoTo(RedirectTarget(state)));
      } else {
        toast := Toast(Error, LoginErrorMessage(p.error));
        nav := None;
      }
      loading := false;
    }

    /** `handleGoogleSignIn`, up to the provider's answer. */
    method HandleGoogleSignIn(auth: AuthProvider, result: Settled<UserRecord>)
      returns (p: Settled<UserRecord>)
      modifies this`loading, auth`loading, auth`currentUser, auth`calls
      ensures loading && email == old(email) && p == result
      ensures auth.calls == old(auth.calls) + [GooglePopup]
      ensures auth.loading && auth.user == old(auth.user)
      ensures auth.currentUser == if result.Resolved? then Some(result.value) else old(auth.currentUser)
    {
      loading := true;
      p := auth.SignInWithGoogle(result);
    }

    /** `handleGoogleSignIn` once the provider has answered: success goes to
        the redirect target, failure shows the mapped message and stays.
        `loading` ends; the e-mail is not touched. */
    method OnGoogleSettled(p: Settled<UserRecord>, state: Option<LocState>)
      returns (nav: Option<Navigation>, toast: Toast)
      modifies this`loading
      ensures !loading
      ensures p.Resolved? ==>
        nav == Some(GoTo(RedirectTarget(state))) && toast == Toast(Success, "Successfully Logged In!")
      ensures p.Rejected? ==> nav == None && toast == Toast(Error, GoogleErrorMessage(p.error))
    {
      if p.Resolved? {
        toast := Toast(Success, "Successfully Logged In!");
        nav := Some(GoTo(RedirectTarget(state)));
      } else {
        toast := Toast(Error, GoogleErrorMessage(p.error));
        nav := None;
      }
      loading := false;
    }

    /** `handleForgotPasswordClick`: go to the reset page, carrying the
        e-mail typed so far. */
    method HandleForgotPasswordClick() returns (nav: Navigation)
      ensures nav == ForgotPasswordLink(email)
    {
      nav := ForgotPasswordLink(email);
    }
  }
}
