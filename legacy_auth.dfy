/**
 * The older authentication context: registration restricted to university
 * addresses, and a user that is always re-read from the backend after a
 * successful login or registration.
 */
module LegacyAuth {
  import opened Wrappers
  import opened Text
  import opened Documents

  const UniversityDomain := "@mavs.uta.edu"
  const InvalidEmail := Alert("Invalid Email", "Only @mavs.uta.edu email addresses are allowed to register")
  const LoginFailed := Alert("Login Failed", "Invalid email or password")

  /** `email.endsWith('@mavs.uta.edu')`: case-sensitive, nothing trimmed. */
  function IsUniversityEmail(email: string): (r: bool)
    ensures r ==> |email| >= |UniversityDomain| && email[|email| - |UniversityDomain|] == '@'
  {
    EndsWith(email, UniversityDomain)
  }

  /** Every local part followed by the domain is accepted; nothing shorter than the domain is. */
  lemma UniversityEmailCases(local: string, email: string)
    ensures IsUniversityEmail(local + UniversityDomain)
    ensures |email| < |UniversityDomain| ==> !IsUniversityEmail(email)
    ensures IsUniversityEmail(email) ==> email == email[..|email| - |UniversityDomain|] + UniversityDomain
  {
    ConcatEnds(local, UniversityDomain);
    if IsUniversityEmail(email) {
      assert email == email[..|email| - |UniversityDomain|] + email[|email| - |UniversityDomain|..];
    }
  }

  /** The user `checkUserStatus` keeps: the current account, or none when there is none or the lookup fails. */
  function CheckedUser(current: Result<Option<Account>>): (u: Option<Account>)
    ensures current.Err? ==> u.None?
    ensures current.Ok? && current.value.Some? ==> u == current.value
    ensures u.Some? <==> current.Ok? && current.value.Some?
  {
    if current.Ok? then current.value else None
  }

  class LegacyAuthProvider {
    var user: Option<Account>
    var isLoading: bool

    /** The provider starts with no user, loading until the first status check ends. */
    constructor ()
      ensures user.None? && isLoading
    {
      user := None;
      isLoading := true;
    }

    /** `checkUserStatus`: `current` answers `getCurrentUser()`. */
    method CheckUserStatus(current: Result<Option<Account>>)
      modifies this
      ensures user == CheckedUser(current)
      ensures !isLoading
    {
      isLoading := true;
      if current.Err? {
        user := None;
      } else {
        user := current.value;
      }
      isLoading := false;
    }

    /**
     * `register`: `registered` answers `registerUser` and `current` the
     * status check that follows it; `alert` is what the user is shown.
     */
    method Register(email: string, password: string, name: string, registered: Outcome,
                    current: Result<Option<Account>>) returns (ok: bool, alert: Option<Alert>)
      modifies this
      ensures ok <==> IsUniversityEmail(email) && registered.Done?
      ensures !IsUniversityEmail(email) ==> alert == Some(InvalidEmail) && user == old(user)
      ensures IsUniversityEmail(email) && registered.Failed? ==>
        alert == Some(Alert("Registration Failed", registered.error.message)) && user == old(user)
      ensures ok ==> alert.None? && user == CheckedUser(current)
      ensures !isLoading
    {
      isLoading := true;
      if !IsUniversityEmail(email) {
        isLoading := false;
        return false, Some(InvalidEmail);
      }
      if registered.Failed? {
        isLoading := false;
        return false, Some(Alert("Registration Failed", registered.error.message));
      }
      CheckUserStatus(current);
      isLoading := false;
      ok, alert := true, None;
    }

    /**
     * `login`: `loggedIn` answers `loginUser`. A successful login reports
     * success even when the following status check finds no user.
     */
    method Login(email: string, password: string, loggedIn: Outcome,
                 current: Result<Option<Account>>) returns (ok: bool, alert: Option<Alert>)
      modifies this
      ensures ok <==> loggedIn.Done?
      ensures !ok ==> alert == Some(LoginFailed) && user == old(user)
      ensures ok ==> alert.None? && user == CheckedUser(current)
      ensures !isLoading
    {
      isLoading := true;
      if loggedIn.Failed? {
        isLoading := false;
        return false, Some(LoginFailed);
      }
      CheckUserStatus(current);
      isLoading := false;
      ok, alert := true, None;
    }

    /** `logout`: `loggedOut` answers `logoutUser`; on failure the user stays signed in. */
    method Logout(loggedOut: Outcome) returns (ok: bool)
      modifies this
      ensures ok <==> loggedOut.Done?
      ensures ok ==> user.None?
      ensures !ok ==> user == old(user)
      ensures !isLoading
    {
      isLoading := true;
      if loggedOut.Failed? {
        isLoading := false;
        return false;
      }
      user := None;
      isLoading := false;
      ok := true;
    }
  }
}
