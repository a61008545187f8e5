/**
 * The login and registration screen: one form in two modes, a field check
 * before anything is sent, and on registration the default profile document.
 */
module LoginScreen {
  import opened Wrappers
  import opened Text
  import opened Documents
  import opened AuthSession
  import opened Storage

  datatype Mode = LoginMode | RegisterMode

  /** The fields that carry an error message. */
  datatype FormField = NameField | EmailField | PasswordField

  /** The profile document created for a new account. */
  datatype ProfileDoc = ProfileDoc(id: string, displayName: string, bio: string, contactEmail: string, createdAt: string)

  const EmailRequired := "Email is required."
  const PasswordRequired := "Password is required."
  const NameRequired := "Name is required."
  const NameTooShort := "Name must be at least 2 characters."
  const AuthErrorTitle := "Authentication Error"
  const LoginFailed := "Failed to log in. Please check your credentials."
  const RegisterFailed := "Failed to register. This email might already be in use."

  /** The mode button switches to the other mode. */
  function Toggle(mode: Mode): (r: Mode)
    ensures r != mode
  {
    if mode == LoginMode then RegisterMode else LoginMode
  }

  /** The alert text after a failure depends only on the mode. */
  function FailureMessage(mode: Mode): (r: string)
    ensures r == LoginFailed <==> mode == LoginMode
  {
    if mode == LoginMode then LoginFailed else RegisterFailed
  }

  /** The errors object `validateForm` builds. */
  function FormErrors(mode: Mode, email: string, password: string, name: string): (r: map<FormField, string>)
    ensures mode == LoginMode ==> NameField !in r
    ensures forall f :: f in r ==> r[f] != ""
  {
    var m1: map<FormField, string> := if Trim(email) == "" then map[EmailField := EmailRequired] else map[];
    var m2 := if Trim(password) == "" then m1[PasswordField := PasswordRequired] else m1;
    if mode == RegisterMode && Trim(name) == "" then m2[NameField := NameRequired]
    else if mode == RegisterMode && |Trim(name)| < 2 then m2[NameField := NameTooShort]
    else m2
  }

  /**
   * E-mail and password are required in both modes; the name only when
   * registering, where a blank name is reported before a short one.
   */
  lemma FormErrorsCases(mode: Mode, email: string, password: string, name: string)
    ensures var e := FormErrors(mode, email, password, name);
      && (EmailField in e <==> AllWhitespace(email))
      && (PasswordField in e <==> AllWhitespace(password))
      && (NameField in e <==> mode == RegisterMode && |Trim(name)| < 2)
      && (NameField in e ==> e[NameField] == if AllWhitespace(name) then NameRequired else NameTooShort)
      && (EmailField in e ==> e[EmailField] == EmailRequired)
      && (PasswordField in e ==> e[PasswordField] == PasswordRequired)
  {
    TrimBlank(email);
    TrimBlank(password);
    TrimBlank(name);
  }

  /** The form passes in login mode exactly when it would pass in register mode with a long enough name. */
  lemma LoginNeedsNoName(email: string, password: string, name: string)
    ensures FormErrors(LoginMode, email, password, name) == map[] <==>
            FormErrors(RegisterMode, email, password, "ab") == map[]
  {
    assert Trim("ab") == "ab" by {
      assert TrimStart("ab") == "ab";
      assert TrimEnd("ab") == "ab";
    }
    var e := FormErrors(RegisterMode, email, password, "ab");
    assert NameField !in e;
  }

  /** What one press of the submit button asked for and showed. */
  datatype AuthAttempt = AuthAttempt(profile: Option<ProfileDoc>, alert: Option<Alert>, navigated: bool)

  class LoginForm {
    var mode: Mode
    var email: string
    var password: string
    var name: string
    var isLoading: bool
    var fieldErrors: map<FormField, string>
    const auth: AuthProvider

    constructor (auth: AuthProvider)
      ensures this.auth == auth
      ensures mode == LoginMode && email == "" && password == "" && name == "" && !isLoading && fieldErrors == map[]
    {
      this.auth := auth;
      mode := LoginMode;
      email, password, name := "", "", "";
      isLoading := false;
      fieldErrors := map[];
    }

    /** The mode button. */
    method ToggleMode()
      modifies this
      ensures mode == Toggle(old(mode))
      ensures email == old(email) && password == old(password) && name == old(name)
      ensures isLoading == old(isLoading) && fieldErrors == old(fieldErrors)
    {
      mode := if mode == LoginMode then RegisterMode else LoginMode;
    }

    /** `validateForm`: replaces the errors by those of the form and reports whether there are none. */
    method ValidateForm() returns (ok: bool)
      modifies this
      ensures fieldErrors == FormErrors(mode, email, password, name)
      ensures ok <==> fieldErrors == map[]
      ensures mode == old(mode) && email == old(email) && password == old(password) && name == old(name)
      ensures isLoading == old(isLoading)
    {
      var errors: map<FormField, string> := map[];
      if Trim(email) == "" {
        errors := errors[EmailField := EmailRequired];
      }
      if Trim(password) == "" {
        errors := errors[PasswordField := PasswordRequired];
      }
      if mode == RegisterMode {
        if Trim(name) == "" {
          errors := errors[NameField := NameRequired];
        } else if |Trim(name)| < 2 {
          errors := errors[NameField := NameTooShort];
        }
      }
      fieldErrors := errors;
      ok := |errors.Keys| == 0;
      assert ok <==> errors == map[] by {
        if errors != map[] {
          var f :| f in errors;
        }
      }
    }

    /**
     * `handleAuth`: `created` answers `account.create` (register mode only),
     * `session` and `fetched` are the answers `login` gets, `profileCreated`
     * the answer to creating the profile document, `createdAt` the time.
     */
    method HandleAuth(created: Result<Account>, session: Outcome, fetched: Result<Account>,
                      profileCreated: Outcome, createdAt: string) returns (out: AuthAttempt)
      modifies this, auth, auth.store
      ensures fieldErrors == FormErrors(mode, email, password, name)
      ensures mode == old(mode) && email == old(email) && password == old(password) && name == old(name)
      ensures fieldErrors != map[] ==>
        && out == AuthAttempt(None, None, false) && isLoading == old(isLoading)
        && auth.user == old(auth.user) && auth.store.items == old(auth.store.items)
      ensures fieldErrors == map[] ==> !isLoading
      ensures auth.pendingUserId == old(auth.pendingUserId) && auth.isLoading == old(auth.isLoading)
      ensures fieldErrors == map[] ==>
        var signedIn := session.Done? && fetched.Ok? && (mode == LoginMode || created.Ok?);
        && out.navigated == signedIn
        && (signedIn ==> out.alert.None? && auth.user == Some(fetched.value))
        && (signedIn ==> auth.store.items == old(auth.store.items)[CurrentUserKey := AccountJson(fetched.value)])
        && (!signedIn ==> out.alert == Some(Alert(AuthErrorTitle, FailureMessage(mode))) && out.profile.None?)
        && (!signedIn ==> auth.user == old(auth.user) && auth.store.items == old(auth.store.items))
        && (signedIn && mode == RegisterMode ==> out.profile == Some(ProfileDoc(created.value.id, Trim(name), "", email, createdAt)))
        && (mode == LoginMode ==> out.profile.None?)
        // A failed profile creation is only logged: the sign-up still navigates without an alert.
        && (signedIn && profileCreated.Failed? ==> out.navigated && out.alert.None?)
    {
      var ok := ValidateForm();
      if !ok {
        return AuthAttempt(None, None, false);
      }
      isLoading := true;
      var profile: Option<ProfileDoc> := None;
      if mode == LoginMode {
        var r := auth.Login(email, password, session, fetched);
        if r.Err? {
          isLoading := false;
          return AuthAttempt(None, Some(Alert(AuthErrorTitle, FailureMessage(mode))), false);
        }
      } else {
        if created.Err? {
          isLoading := false;
          return AuthAttempt(None, Some(Alert(AuthErrorTitle, FailureMessage(mode))), false);
        }
        var r := auth.Login(email, password, session, fetched);
        if r.Err? {
          isLoading := false;
          return AuthAttempt(None, Some(Alert(AuthErrorTitle, FailureMessage(mode))), false);
        }
        // A failure to create the profile is logged and does not abort.
        profile := Some(ProfileDoc(created.value.id, Trim(name), "", email, createdAt));
      }
      isLoading := false;
      out := AuthAttempt(profile, None, true);
    }
  }
}
