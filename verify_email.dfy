/**
 * The e-mail verification screen: a six-digit code field, a verify action
 * that also creates the profile saved at registration, and a resend action.
 */
module VerifyEmail {
  import opened Wrappers
  import opened Text
  import opened Documents
  import opened Storage
  import opened AuthSession

  const CodeLength := 6
  const PendingProfileKey := "pendingProfile"
  const EnterCode := "Please enter a 6-digit code"
  const InvalidCode := "Invalid or expired code"
  const Verified := "Email verified successfully!"
  const CodeSent := "New code sent! Check your email."
  const SendFailed := "Failed to send code"

  /** The screen leaves for the tabs once the context's user has a verified e-mail. */
  function ShouldRedirect(user: Option<Account>): (r: bool)
    ensures r ==> user.Some?
  {
    IsEmailVerified(user)
  }

  /** `text.replace(/[^0-9]/g, '')`: the digits of `text`, in order. */
  function DigitsOnly(text: string): (r: string)
    ensures AllDigits(r) && |r| <= |text|
  {
    if text == [] then []
    else (if IsDigit(text[0]) then [text[0]] else []) + DigitsOnly(text[1..])
  }

  /** The code field's filter: the digits of the input, cut to the first six. */
  function SanitizeCode(text: string): (r: string)
    ensures AllDigits(r) && |r| <= CodeLength
    ensures |r| <= |DigitsOnly(text)| && r == DigitsOnly(text)[..|r|]
    ensures |r| == CodeLength || r == DigitsOnly(text)
  {
    var d := DigitsOnly(text);
    if |d| <= CodeLength then d else d[..CodeLength]
  }

  /** Removing the non-digits of a string of digits leaves it as it is. */
  lemma {:induction false} DigitsOnlyOfDigits(s: string)
    requires AllDigits(s)
    ensures DigitsOnly(s) == s
  {
    if s != [] {
      assert AllDigits(s[1..]) by {
        forall i | 0 <= i < |s[1..]| ensures IsDigit(s[1..][i]) {
          assert s[1..][i] == s[i + 1];
        }
      }
      DigitsOnlyOfDigits(s[1..]);
      assert s == [s[0]] + s[1..];
    }
  }

  /** The filter is a projection: a code it produced passes through unchanged, so re-filtering changes nothing. */
  lemma SanitizeCodeIdempotent(text: string)
    ensures SanitizeCode(SanitizeCode(text)) == SanitizeCode(text)
    ensures forall s :: AllDigits(s) && |s| <= CodeLength ==> SanitizeCode(s) == s
  {
    forall s | AllDigits(s) && |s| <= CodeLength ensures SanitizeCode(s) == s {
      DigitsOnlyOfDigits(s);
    }
  }

  /** The address shown: the pending profile's e-mail, else the user's, else 'your email'. */
  function ShownEmail(pending: Option<Stored>, user: Option<Account>): (r: string)
    ensures r != ""
    ensures (pending.Some? && pending.value.ProfileJson? && pending.value.profile.email != "") ==> r == pending.value.profile.email
    ensures !(pending.Some? && pending.value.ProfileJson? && pending.value.profile.email != "") ==>
      r == (if user.Some? && user.value.email != "" then user.value.email else "your email")
  {
    if pending.Some? && pending.value.ProfileJson? && pending.value.profile.email != "" then pending.value.profile.email
    else if user.Some? && user.value.email != "" then user.value.email
    else "your email"
  }

  /** The profile saved under 'pendingProfile' at sign-up, if any. */
  function PendingProfileIn(items: map<string, Stored>): (p: Option<PendingProfile>)
    ensures p.Some? <==> PendingProfileKey in items && items[PendingProfileKey].ProfileJson?
    ensures p.Some? ==> items[PendingProfileKey] == ProfileJson(p.value)
  {
    if PendingProfileKey in items && items[PendingProfileKey].ProfileJson? then Some(items[PendingProfileKey].profile) else None
  }

  /** Signing in through a code touches neither the pending profile nor its key. */
  lemma PendingProfileUnaffected(items: map<string, Stored>, account: Account)
    ensures PendingProfileIn((items - {PendingKey})[CurrentUserKey := AccountJson(account)]) == PendingProfileIn(items)
  {
    assert PendingProfileKey != PendingKey by { assert PendingProfileKey[7] != PendingKey[7]; }
    assert PendingProfileKey != CurrentUserKey by { assert PendingProfileKey[0] != CurrentUserKey[0]; }
  }

  class VerifyEmailScreen {
    var code: string
    var isVerifying: bool
    var isResending: bool
    var error: string
    var success: string
    const auth: AuthProvider

    constructor (auth: AuthProvider)
      ensures this.auth == auth
      ensures code == "" && !isVerifying && !isResending && error == "" && success == ""
    {
      this.auth := auth;
      code := "";
      isVerifying := false;
      isResending := false;
      error := "";
      success := "";
    }

    /** The code field's `onChangeText`: keeps the sanitized code and clears the error. */
    method OnChangeCode(text: string)
      modifies this
      ensures code == SanitizeCode(text) && error == ""
      ensures isVerifying == old(isVerifying) && isResending == old(isResending)
      ensures success == old(success)
      ensures CanVerify() <==> !isVerifying && |DigitsOnly(text)| >= CodeLength
    {
      code := SanitizeCode(text);
      error := "";
    }

    /** The verify button is enabled with a full code and no verification in flight. */
    predicate CanVerify()
      reads this
    {
      !isVerifying && |code| == CodeLength
    }

    /** The resend button is enabled while neither action is in flight. */
    predicate CanResend()
      reads this
    {
      !isResending && !isVerifying
    }

    /**
     * `handleVerifyCode`: `session` and `fetched` are the answers `verifyCode`
     * gets, and `created` the answer to creating the pending profile's
     * document; `profile` is the profile that document is created for.
     */
    method HandleVerifyCode(session: Outcome, fetched: Result<Account>, created: Outcome)
      returns (target: Option<string>, profile: Option<PendingProfile>)
      modifies this, auth, auth.store
      ensures code == old(code) && isResending == old(isResending)
      ensures |old(code)| != CodeLength ==>
        && error == EnterCode && success == old(success) && isVerifying == old(isVerifying)
        && target.None? && profile.None?
        && auth.user == old(auth.user) && auth.store.items == old(auth.store.items)
        && auth.pendingUserId == old(auth.pendingUserId)
      ensures auth.isLoading == old(auth.isLoading)
      ensures |old(code)| == CodeLength ==>
        && !isVerifying
        && target == PendingTarget(old(auth.pendingUserId), old(auth.StoredText(PendingKey)), old(auth.user))
      ensures |old(code)| == CodeLength && (target.None? || session.Failed?) ==>
        && auth.user == old(auth.user) && auth.pendingUserId == old(auth.pendingUserId)
        && auth.store.items == old(auth.store.items)
      ensures |old(code)| == CodeLength && target.Some? && session.Done? ==> auth.pendingUserId.None?
      ensures |old(code)| == CodeLength && target.Some? && session.Done? && fetched.Err? ==>
        auth.user == old(auth.user) && auth.store.items == old(auth.store.items) - {PendingKey}
      ensures |old(code)| == CodeLength && !(target.Some? && session.Done? && fetched.Ok?) ==>
        && success == old(success) && profile.None?
        && error == MessageOr(if target.None? then Error("No pending verification found. Please request a new code.")
                            else if session.Failed? then session.error else fetched.error, InvalidCode)
      ensures |old(code)| == CodeLength && target.Some? && session.Done? && fetched.Ok? ==>
        var signedIn := (old(auth.store.items) - {PendingKey})[CurrentUserKey := AccountJson(fetched.value)];
        && error == "" && success == Verified
        && auth.user == Some(fetched.value)
        && (ShouldRedirect(auth.user) <==> fetched.value.emailVerification)
        && profile == PendingProfileIn(old(auth.store.items))
        && auth.store.items == (if profile.Some? && created.Done? then signedIn - {PendingProfileKey} else signedIn)
    {
      if |code| != CodeLength {
        error := EnterCode;
        return None, None;
      }
      target, profile := VerifyFullCode(session, fetched, created);
    }

    /** The part of `handleVerifyCode` that runs once the code has six characters. */
    method VerifyFullCode(session: Outcome, fetched: Result<Account>, created: Outcome)
      returns (target: Option<string>, profile: Option<PendingProfile>)
      requires |code| == CodeLength
      modifies this, auth, auth.store
      ensures code == old(code) && isResending == old(isResending)
      ensures auth.isLoading == old(auth.isLoading)
      ensures !isVerifying
      ensures target == PendingTarget(old(auth.pendingUserId), old(auth.StoredText(PendingKey)), old(auth.user))
      ensures target.None? || session.Failed? ==>
        && auth.user == old(auth.user) && auth.pendingUserId == old(auth.pendingUserId)
        && auth.store.items == old(auth.store.items)
      ensures target.Some? && session.Done? ==> auth.pendingUserId.None?
      ensures target.Some? && session.Done? && fetched.Err? ==>
        auth.user == old(auth.user) && auth.store.items == old(auth.store.items) - {PendingKey}
      ensures !(target.Some? && session.Done? && fetched.Ok?) ==>
        && success == old(success) && profile.None?
        && error == MessageOr(if target.None? then Error("No pending verification found. Please request a new code.")
                            else if session.Failed? then session.error else fetched.error, InvalidCode)
      ensures target.Some? && session.Done? && fetched.Ok? ==>
        var signedIn := (old(auth.store.items) - {PendingKey})[CurrentUserKey := AccountJson(fetched.value)];
        && error == "" && success == Verified
        && auth.user == Some(fetched.value)
        && (ShouldRedirect(auth.user) <==> fetched.value.emailVerification)
        && profile == PendingProfileIn(old(auth.store.items))
        && auth.store.items == (if profile.Some? && created.Done? then signedIn - {PendingProfileKey} else signedIn)
    {
      error := "";
      isVerifying := true;
      var r;
      r, target := auth.VerifyCode(code, session, fetched);
      if r.Err? {
        assert r.error == if target.None? then Error("No pending verification found. Please request a new code.")
                          else if session.Failed? then session.error else fetched.error;
        error := MessageOr(r.error, InvalidCode);
        isVerifying := false;
        return target, None;
      }
      assert target.Some? && session.Done? && fetched.Ok?;
      ghost var signedIn := auth.store.items;
      assert signedIn == (old(auth.store.items) - {PendingKey})[CurrentUserKey := AccountJson(fetched.value)];
      PendingProfileUnaffected(old(auth.store.items), fetched.value);
      profile := FinishVerification(created);
      assert profile == PendingProfileIn(signedIn);
    }

    /** After a successful verification: the pending profile is created and success is shown. */
    method FinishVerification(created: Outcome) returns (profile: Option<PendingProfile>)
      modifies this, auth.store
      ensures code == old(code) && isResending == old(isResending) && error == old(error)
      ensures success == Verified && !isVerifying
      ensures profile == PendingProfileIn(old(auth.store.items))
      ensures auth.store.items == if profile.Some? && created.Done? then old(auth.store.items) - {PendingProfileKey}
                                  else old(auth.store.items)
    {
      profile := TakePendingProfile(created);
      success := Verified;
      isVerifying := false;
    }

    /**
     * Creating the pending profile's document after a verification: `created`
     * answers the creation, and only a successful creation removes the entry.
     */
    method TakePendingProfile(created: Outcome) returns (profile: Option<PendingProfile>)
      modifies auth.store
      ensures profile == PendingProfileIn(old(auth.store.items))
      ensures auth.store.items == if profile.Some? && created.Done? then old(auth.store.items) - {PendingProfileKey}
                                  else old(auth.store.items)
    {
      var stored := auth.store.Get(PendingProfileKey);
      if stored.Some? && stored.value.ProfileJson? {
        profile := Some(stored.value.profile);
        // A failure to create the profile does not fail the verification.
        if created.Done? {
          auth.store.RemoveItem(PendingProfileKey);
        }
      } else {
        profile := None;
      }
    }

    /**
     * `handleResendCode`: asks for a new code for the signed-in user;
     * `token` and `freshId` are as for `sendVerificationCode`.
     */
    method HandleResendCode(token: Result<string>, freshId: string)
      modifies this, auth, auth.store
      ensures !isResending && isVerifying == old(isVerifying)
      ensures auth.user == old(auth.user)
      ensures var sent := old(auth.user).Some? && old(auth.user).value.email != "" && token.Ok?;
        && (sent ==> success == CodeSent && error == "" && code == ""
                     && auth.pendingUserId == Some(token.value)
                     && auth.store.items == old(auth.store.items)[PendingKey := Text(token.value)])
        && (!sent ==> success == "" && code == old(code)
                      && error == MessageOr(if token.Ok? || old(auth.user).None? || old(auth.user).value.email == ""
                                          then Error("No email provided") else token.error, SendFailed)
                      && auth.pendingUserId == old(auth.pendingUserId)
                      && auth.store.items == old(auth.store.items))
    {
      error := "";
      success := "";
      isResending := true;
      var r, _ := auth.SendVerificationCode(None, None, token, freshId);
      if r.Ok? {
        success := CodeSent;
        code := "";
      } else {
        error := MessageOr(r.error, SendFailed);
      }
      isResending := false;
    }
  }
}
