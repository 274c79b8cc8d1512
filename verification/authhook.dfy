/** The session hook: log in, log out, and restore a stored session on load.
    Times are milliseconds since the epoch; the current time is a parameter. */
module AuthHook {
  import opened Common

  /** The fallback session length: `1000 * 60 * 60` ms, one hour. */
  const SessionMillis := 1000 * 60 * 60

  /** The `userData` record kept in local storage. */
  datatype StoredSession = StoredSession(userId: string, token: string, expiration: int)

  /** The hook's state and the storage it writes. A missing `token` stands for
      both the initial `false` and the `null` a logout sets. */
  datatype Hook = Hook(token: Option<string>, userId: Option<string>, expiration: Option<int>, stored: Option<StoredSession>)

  /** Before anything ran: no token, no user, no expiration; `stored` is
      whatever the browser kept. */
  function Fresh(stored: Option<StoredSession>): (h: Hook)
    ensures h.token.None? && h.userId.None? && h.expiration.None? && h.stored == stored
  {
    Hook(None, None, None, stored)
  }

  /** `login(uid, token, expirationDate)`: the session and the stored record get
      the same user, token and expiration — the given date, else one hour from now. */
  function Login(h: Hook, uid: string, token: string, expirationDate: Option<int>, now: int): (r: Hook)
    ensures r.token == Some(token) && r.userId == Some(uid)
    ensures expirationDate.Some? ==> r.expiration == expirationDate
    ensures expirationDate.None? ==> r.expiration == Some(now + 3600000)
    ensures r.stored == Some(StoredSession(uid, token, r.expiration.value))
  {
    var exp := expirationDate.GetOr(now + SessionMillis);
    Hook(Some(token), Some(uid), Some(exp), Some(StoredSession(uid, token, exp)))
  }

  /** `logout()`: everything cleared, the stored record removed. */
  function Logout(h: Hook): (r: Hook)
    ensures r.token.None? && r.userId.None? && r.expiration.None? && r.stored.None?
  {
    Hook(None, None, None, None)
  }

  /** Whether a stored record is restored: it exists, its token is not empty
      (truthy) and its expiration lies strictly after now. */
  predicate Restorable(stored: Option<StoredSession>, now: int) {
    stored.Some? && stored.value.token != "" && stored.value.expiration > now
  }

  /** The load-time effect: a restorable record is logged in again with its own
      expiration; otherwise the hook is left as it is. */
  function Restore(h: Hook, now: int): (r: Hook)
    ensures !Restorable(h.stored, now) ==> r == h
    ensures Restorable(h.stored, now) ==>
      && r.token == Some(h.stored.value.token)
      && r.userId == Some(h.stored.value.userId)
      && r.expiration == Some(h.stored.value.expiration)
      && r.stored == h.stored
  {
    if Restorable(h.stored, now) then
      var d := h.stored.value;
      Login(h, d.userId, d.token, Some(d.expiration), now)
    else h
  }

  /** A login survives a reload: a fresh hook over the stored record restores
      the same session, as long as the token is not empty and the expiration
      has not been reached. */
  lemma LoginSurvivesReload(h: Hook, uid: string, token: string, expirationDate: Option<int>, now: int, later: int)
    ensures
      var session := Login(h, uid, token, expirationDate, now);
      Restore(Fresh(session.stored), later) ==
        if token != "" && later < session.expiration.value then session else Fresh(session.stored)
  {
  }

  /** After a logout nothing is restored. */
  lemma LogoutSurvivesReload(h: Hook, now: int)
    ensures Restore(Fresh(Logout(h).stored), now) == Fresh(None)
  {
  }

  /** Restoring twice is restoring once. */
  lemma RestoreIdempotent(h: Hook, now: int)
    ensures Restore(Restore(h, now), now) == Restore(h, now)
  {
  }
}
