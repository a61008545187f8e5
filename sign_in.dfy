/**
 * The sign-in screen of the older authentication flow: one form that either
 * signs in or registers, with its own checks in front of the context's.
 */
module SignIn {
  import opened Wrappers
  import opened Text
  import opened Documents
  import opened LegacyAuth

  const BadEmail := Alert("Invalid Email", "Please use your @mavs.uta.edu email address")
  const MissingName := Alert("Missing Information", "Please enter your name")
  const WeakPassword := Alert("Weak Password", "Password must be at least 8 characters long")
  const Registered := Alert("Success", "Registration successful!")
  const MinPasswordLength := 8

  /**
   * The first check `handleRegister` fails, in the order it makes them;
   * `emailAccepted` is the answer of the address check `isValidUTAEmail`.
   */
  function RegisterBlocker(emailAccepted: bool, name: string, password: string): (r: Option<Alert>)
    ensures !emailAccepted ==> r == Some(BadEmail)
    ensures r.None? ==> Trim(name) != "" && |password| >= MinPasswordLength
  {
    if !emailAccepted then Some(BadEmail)
    else if Trim(name) == "" then Some(MissingName)
    else if |password| < MinPasswordLength then Some(WeakPassword)
    else None
  }

  /** Registration goes ahead exactly for an accepted address, a non-blank name and an 8-character password. */
  lemma RegisterBlockerCases(emailAccepted: bool, name: string, password: string)
    ensures RegisterBlocker(emailAccepted, name, password).None? <==>
            emailAccepted && !AllWhitespace(name) && |password| >= MinPasswordLength
    ensures !emailAccepted ==> RegisterBlocker(emailAccepted, name, password) == Some(BadEmail)
    ensures emailAccepted && AllWhitespace(name) ==> RegisterBlocker(emailAccepted, name, password) == Some(MissingName)
  {
    TrimBlank(name);
  }

  /** The screen's effect leaves for the tabs exactly when the context holds a user. */
  function ShouldRedirect(user: Option<Account>): (r: bool)
    ensures r <==> user.Some?
  {
    user.Some?
  }

  /** What one press of the form's button did. */
  datatype Press = Press(alert: Option<Alert>, navigated: bool)

  class SignInScreen {
    var email: string
    var password: string
    var name: string
    var isRegistering: bool
    const auth: LegacyAuthProvider

    constructor (auth: LegacyAuthProvider)
      ensures this.auth == auth
      ensures email == "" && password == "" && name == "" && !isRegistering
    {
      this.auth := auth;
      email, password, name := "", "", "";
      isRegistering := false;
    }

    /** `toggleForm`. */
    method ToggleForm()
      modifies this
      ensures isRegistering == !old(isRegistering)
      ensures email == old(email) && password == old(password) && name == old(name)
    {
      isRegistering := !isRegistering;
    }

    /** `handleLogin`: the context is asked only for an accepted address, and success navigates. */
    method HandleLogin(emailAccepted: bool, loggedIn: Outcome, current: Result<Option<Account>>) returns (p: Press)
      modifies auth
      ensures !emailAccepted ==>
        p == Press(Some(BadEmail), false) && auth.user == old(auth.user) && auth.isLoading == old(auth.isLoading)
      ensures emailAccepted ==>
        && p.navigated == loggedIn.Done?
        && (loggedIn.Done? ==> p.alert.None? && auth.user == CheckedUser(current))
        && (loggedIn.Done? ==> (ShouldRedirect(auth.user) <==> current.Ok? && current.value.Some?))
        && (loggedIn.Failed? ==> p.alert == Some(LoginFailed) && auth.user == old(auth.user))
        && !auth.isLoading
    {
      if !emailAccepted {
        return Press(Some(BadEmail), false);
      }
      var ok, alert := auth.Login(email, password, loggedIn, current);
      p := Press(alert, ok);
    }

    /**
     * `handleRegister`: the screen's checks, then the context's; a successful
     * registration shows the success alert and switches back to signing in.
     */
    method HandleRegister(emailAccepted: bool, registered: Outcome, current: Result<Option<Account>>)
      returns (alert: Option<Alert>)
      modifies this, auth
      ensures email == old(email) && password == old(password) && name == old(name)
      ensures RegisterBlocker(emailAccepted, name, password).Some? ==>
        && alert == RegisterBlocker(emailAccepted, name, password)
        && isRegistering == old(isRegistering) && auth.user == old(auth.user) && auth.isLoading == old(auth.isLoading)
      ensures RegisterBlocker(emailAccepted, name, password).None? ==>
        var ok := IsUniversityEmail(email) && registered.Done?;
        && (ok ==> alert == Some(Registered) && !isRegistering && auth.user == CheckedUser(current))
        && (!ok ==> isRegistering == old(isRegistering) && auth.user == old(auth.user))
        && (!IsUniversityEmail(email) ==> alert == Some(InvalidEmail))
        && (IsUniversityEmail(email) && registered.Failed? ==>
              alert == Some(Alert("Registration Failed", registered.error.message)))
        && !auth.isLoading
    {
      var blocker := RegisterBlocker(emailAccepted, name, password);
      if blocker.Some? {
        return blocker;
      }
      var ok, shown := auth.Register(email, password, name, registered, current);
      if ok {
        alert := Some(Registered);
        isRegistering := false;
      } else {
        alert := shown;
      }
    }

    /** The button runs `handleRegister` while registering and `handleLogin` otherwise. */
    method Submit(emailAccepted: bool, outcome: Outcome, current: Result<Option<Account>>) returns (p: Press)
      modifies this, auth
      ensures !old(isRegistering) ==> p.navigated == (emailAccepted && outcome.Done?)
      ensures old(isRegistering) ==> !p.navigated
      ensures email == old(email) && password == old(password) && name == old(name)
    {
      if isRegistering {
        var alert := HandleRegister(emailAccepted, outcome, current);
        p := Press(alert, false);
      } else {
        p := HandleLogin(emailAccepted, outcome, current);
      }
    }
  }
}
