/**
 * The session provider of the app (`AuthProvider`): the signed-in account,
 * its cached copy under 'currentUser', and the user id awaiting an e-mail
 * one-time code, kept in state and under 'pendingVerificationUserId'.
 */
module AuthSession {
  import opened Wrappers
  import opened Documents
  import opened Storage

  const CurrentUserKey := "currentUser"
  const PendingKey := "pendingVerificationUserId"

  /** `user?.emailVerification === true`. */
  function IsEmailVerified(user: Option<Account>): (r: bool)
    ensures r ==> user.Some?
  {
    user.Some? && user.value.emailVerification
  }

  predicate Truthy(v: Option<string>) {
    v.Some? && v.value != ""
  }

  /**
   * The user id a code is checked against: the pending id in state, else the
   * stored one, else the signed-in user's; None when all three are falsy.
   */
  function PendingTarget(pending: Option<string>, stored: Option<string>, user: Option<Account>): (r: Option<string>)
    ensures r.Some? ==> r.value != ""
    ensures Truthy(pending) ==> r == pending
    ensures !Truthy(pending) && Truthy(stored) ==> r == stored
    ensures !Truthy(pending) && !Truthy(stored) ==> r == (if user.Some? && user.value.id != "" then Some(user.value.id) else None)
  {
    if Truthy(pending) then pending
    else if Truthy(stored) then stored
    else if user.Some? && user.value.id != "" then Some(user.value.id)
    else None
  }

  /** The first truthy of an argument and a fallback taken from the user, as `arg || user?.field` does. */
  function Prefer(arg: Option<string>, fallback: Option<string>): (r: Option<string>)
    ensures r.Some? ==> r.value != ""
    ensures r.None? <==> !Truthy(arg) && !Truthy(fallback)
    ensures Truthy(arg) ==> r == arg
  {
    if Truthy(arg) then arg else if Truthy(fallback) then fallback else None
  }

  /**
   * A cached 'currentUser' that is truthy but not JSON: a non-empty plain
   * string. The empty string is falsy and is skipped; the records this store
   * holds are what `JSON.stringify` wrote, so they parse.
   */
  predicate Unparsable(cached: Option<Stored>) {
    cached.Some? && cached.value.Text? && cached.value.text != ""
  }

  class AuthProvider {
    var user: Option<Account>
    var isLoading: bool
    var pendingUserId: Option<string>
    const store: Store

    /** The cached 'currentUser' is the signed-in account, or absent when there is none. */
    ghost predicate InStep()
      reads this, store
    {
      if user.Some? then store.Get(CurrentUserKey) == Some(AccountJson(user.value))
      else CurrentUserKey !in store.items
    }

    /** The string stored under a key, None when absent or not a string. */
    function StoredText(key: string): (v: Option<string>)
      reads this, store
      ensures v.Some? ==> key in store.items && store.items[key] == Text(v.value)
    {
      match store.Get(key)
      case Some(Text(t)) => Some(t)
      case _ => None
    }

    constructor (store: Store)
      ensures this.store == store && user.None? && isLoading && pendingUserId.None?
    {
      this.store := store;
      user := None;
      isLoading := true;
      pendingUserId := None;
    }

    /**
     * `loadCachedUser`: shows the cached account at once, then keeps the
     * session's fresh account, or clears both when there is no session or the
     * lookup fails. `session` is what `getSession('current')` settles with.
     * A cached entry that `JSON.parse` rejects ends the load at once in the
     * catch block: no user, the entry removed, and no session check.
     */
    method LoadCachedUser(session: Outcome, fetched: Result<Account>)
      modifies this, store
      ensures !isLoading && InStep()
      ensures Unparsable(old(store.Get(CurrentUserKey))) ==> user.None? && store.items == old(store.items) - {CurrentUserKey}
      ensures !Unparsable(old(store.Get(CurrentUserKey))) ==>
        user == (if session.Done? && fetched.Ok? then Some(fetched.value) else None)
      ensures pendingUserId == old(pendingUserId)
      ensures store.items - {CurrentUserKey} == old(store.items) - {CurrentUserKey}
    {
      var cached := store.Get(CurrentUserKey);
      if Unparsable(cached) {
        // `JSON.parse` throws: the catch block clears the user and the entry.
        user := None;
        store.RemoveItem(CurrentUserKey);
        isLoading := false;
        return;
      }
      if cached.Some? && cached.value.AccountJson? {
        user := Some(cached.value.account);
        isLoading := false;
      }
      if session.Done? && fetched.Ok? {
        user := Some(fetched.value);
        store.SetItem(CurrentUserKey, AccountJson(fetched.value));
      } else {
        user := None;
        store.RemoveItem(CurrentUserKey);
      }
      isLoading := false;
    }

    /**
     * `login`: opens a session, fetches the account, and keeps it both in
     * state and under 'currentUser'; a failure is rethrown with nothing changed.
     */
    method Login(email: string, password: string, session: Outcome, fetched: Result<Account>) returns (r: Result<Account>)
      modifies this, store
      ensures r == (if session.Failed? then Err(session.error) else fetched)
      ensures r.Ok? ==> user == Some(r.value) && store.items == old(store.items)[CurrentUserKey := AccountJson(r.value)]
      ensures r.Ok? ==> InStep()
      ensures r.Err? ==> user == old(user) && store.items == old(store.items)
      ensures pendingUserId == old(pendingUserId) && isLoading == old(isLoading)
    {
      if session.Failed? {
        return Err(session.error);
      }
      if fetched.Err? {
        return fetched;
      }
      user := Some(fetched.value);
      store.SetItem(CurrentUserKey, AccountJson(fetched.value));
      r := fetched;
    }

    /** `logout`: whether or not the remote session is deleted, the user and the cached copy are gone. */
    method Logout(deleted: Outcome)
      modifies this, store
      ensures user.None? && InStep()
      ensures store.items == old(store.items) - {CurrentUserKey}
      ensures pendingUserId == old(pendingUserId) && isLoading == old(isLoading)
    {
      // The try block and the catch block clear the same state, so the
      // outcome of `deleteSession` does not change what happens here.
      user := None;
      store.RemoveItem(CurrentUserKey);
    }

    /** `refreshUser`: keeps the fresh account, or on failure clears the user and the cache and rethrows. */
    method RefreshUser(fetched: Result<Account>) returns (r: Result<Account>)
      modifies this, store
      ensures r == fetched && InStep()
      ensures user == (if fetched.Ok? then Some(fetched.value) else None)
      ensures store.items == if fetched.Ok? then old(store.items)[CurrentUserKey := AccountJson(fetched.value)]
                             else old(store.items) - {CurrentUserKey}
      ensures pendingUserId == old(pendingUserId) && isLoading == old(isLoading)
    {
      if fetched.Ok? {
        user := Some(fetched.value);
        store.SetItem(CurrentUserKey, AccountJson(fetched.value));
      } else {
        user := None;
        store.RemoveItem(CurrentUserKey);
      }
      r := fetched;
    }

    /**
     * `sendVerificationCode(userId?, email?)`: the arguments win over the
     * signed-in user; with no e-mail at all it throws 'No email provided'
     * before calling the backend. `request` is the (user id, e-mail) pair the
     * token is asked for, `freshId` stands for `ID.unique()`, and `token` is
     * the user id of the token the backend returns. On success that id becomes
     * the pending id, in state and in storage.
     */
    method SendVerificationCode(userId: Option<string>, email: Option<string>, token: Result<string>, freshId: string)
      returns (r: Result<bool>, request: Option<(string, string)>)
      modifies this, store
      ensures var target := Prefer(email, if old(user).Some? then Some(old(user).value.email) else None);
        && (request.None? <==> target.None?)
        && (target.None? ==> r == Err(Error("No email provided")))
      ensures request.Some? ==>
        var uid := Prefer(userId, if old(user).Some? then Some(old(user).value.id) else None);
        request.value == (if uid.Some? then uid.value else freshId,
                          Prefer(email, if old(user).Some? then Some(old(user).value.email) else None).value)
      ensures r.Ok? <==> request.Some? && token.Ok?
      ensures r.Ok? ==> r.value && pendingUserId == Some(token.value)
                        && store.items == old(store.items)[PendingKey := Text(token.value)]
      ensures r.Err? ==> pendingUserId == old(pendingUserId) && store.items == old(store.items)
      ensures request.Some? && token.Err? ==> r == Err(token.error)
      ensures user == old(user) && isLoading == old(isLoading)
    {
      var uid := Prefer(userId, if user.Some? then Some(user.value.id) else None);
      var target := Prefer(email, if user.Some? then Some(user.value.email) else None);
      if target.None? {
        return Err(Error("No email provided")), None;
      }
      request := Some((if uid.Some? then uid.value else freshId, target.value));
      if token.Err? {
        return Err(token.error), request;
      }
      pendingUserId := Some(token.value);
      store.SetItem(PendingKey, Text(token.value));
      r := Ok(true);
    }

    /**
     * `verifyCode(code)`: picks the target id by the fallback chain and throws
     * when there is none; otherwise creates the session (`session`), clears the
     * pending id in state and storage, then fetches the account (`fetched`) and
     * keeps it in state and under 'currentUser'.
     */
    method VerifyCode(code: string, session: Outcome, fetched: Result<Account>) returns (r: Result<bool>, target: Option<string>)
      modifies this, store
      ensures target == PendingTarget(old(pendingUserId), old(StoredText(PendingKey)), old(user))
      ensures target.None? ==> r == Err(Error("No pending verification found. Please request a new code."))
      ensures target.None? || session.Failed? ==>
        user == old(user) && pendingUserId == old(pendingUserId) && store.items == old(store.items)
      ensures target.Some? && session.Failed? ==> r == Err(session.error)
      ensures target.Some? && session.Done? ==> pendingUserId.None?
      ensures target.Some? && session.Done? && fetched.Err? ==>
        r == Err(fetched.error) && user == old(user) && store.items == old(store.items) - {PendingKey}
      ensures r.Ok? <==> target.Some? && session.Done? && fetched.Ok?
      ensures r.Ok? ==>
        user == Some(fetched.value) && InStep()
        && store.items == (old(store.items) - {PendingKey})[CurrentUserKey := AccountJson(fetched.value)]
      ensures isLoading == old(isLoading)
    {
      target := PendingTarget(pendingUserId, StoredText(PendingKey), user);
      if target.None? {
        return Err(Error("No pending verification found. Please request a new code.")), target;
      }
      if session.Failed? {
        return Err(session.error), target;
      }
      pendingUserId := None;
      store.RemoveItem(PendingKey);
      if fetched.Err? {
        return Err(fetched.error), target;
      }
      user := Some(fetched.value);
      store.SetItem(CurrentUserKey, AccountJson(fetched.value));
      r := Ok(true);
    }

    /** `deleteAccount`: throws with no user; once the account is deactivated the user and the cache are gone. */
    method DeleteAccount(status: Outcome) returns (r: Result<bool>)
      modifies this, store
      ensures old(user).None? ==> r == Err(Error("No user logged in"))
      ensures old(user).Some? ==> r == (if status.Done? then Ok(true) else Err(status.error))
      ensures r.Ok? ==> user.None? && InStep() && store.items == old(store.items) - {CurrentUserKey}
      ensures r.Err? ==> user == old(user) && store.items == old(store.items)
      ensures pendingUserId == old(pendingUserId) && isLoading == old(isLoading)
    {
      if user.None? {
        return Err(Error("No user logged in"));
      }
      if status.Failed? {
        return Err(status.error);
      }
      user := None;
      store.RemoveItem(CurrentUserKey);
      r := Ok(true);
    }
  }
}
