/**
 * The `useAuthGuard` hook of hooks/use-auth-guard.ts: a check over the
 * session store that redirects to the login page when the session is gone,
 * run once when the hook mounts and then on every tick of a timer.
 *
 * `checkAuth` reads the clock twice, once inside `isAuthenticated` and once
 * inside `refreshSession`; the two readings are the parameters `authNow` and
 * `refreshNow`. The router is the sequence of paths pushed to it.
 */
module AuthGuard {
  import opened Common
  import opened Auth

  const LoginPath: string := "/login"

  /** How `checkAuth` ends: authorised, or which of its two tests sent the user to log in. */
  datatype Verdict = Authorized | NotAuthenticated | RefreshFailed

  /** `checkAuth()`: the storage it leaves and how it ends. */
  function CheckAuthSpec(st: Storage, authNow: int, refreshNow: int): Step<Verdict>
  {
    var auth := Authenticated(st, authNow);
    if !auth.result then Step(auth.storage, NotAuthenticated)
    else
      var refresh := Refreshed(auth.storage, refreshNow);
      if !refresh.result then Step(refresh.storage, RefreshFailed)
      else Step(refresh.storage, Authorized)
  }

  /** The paths `checkAuth` pushes to the router for a verdict. */
  function Redirects(v: Verdict): seq<string>
  {
    if v == Authorized then [] else [LoginPath]
  }

  class Guard {
    const store: SessionStore
    var isLoading: bool
    var isAuthorized: bool
    /** Every path pushed to the router, oldest first. */
    var pushed: seq<string>

    /** The hook's initial state: loading, not authorised, no redirect yet. */
    constructor (store: SessionStore)
      ensures this.store == store
      ensures isLoading && !isAuthorized && pushed == []
    {
      this.store := store;
      isLoading := true;
      isAuthorized := false;
      pushed := [];
    }

    /**
     * Asks the store whether the user is authenticated and, only if so,
     * refreshes the session; either failure pushes "/login".
     */
    method CheckAuth(authNow: int, refreshNow: int) returns (ok: bool)
      modifies store, this`pushed
      ensures var spec := CheckAuthSpec(old(store.Contents()), authNow, refreshNow);
              store.Contents() == spec.storage
              && ok == (spec.result == Authorized)
              && pushed == old(pushed) + Redirects(spec.result)
    {
      var authenticated := store.IsAuthenticated(authNow);
      if !authenticated {
        pushed := pushed + [LoginPath];
        return false;
      }
      var refreshed := store.RefreshSession(refreshNow);
      if !refreshed {
        pushed := pushed + [LoginPath];
        return false;
      }
      return true;
    }

    /** The effect's first run: `isAuthorized` takes the check's result and loading ends. */
    method Mount(authNow: int, refreshNow: int)
      modifies store, this`pushed, this`isAuthorized, this`isLoading
      ensures var spec := CheckAuthSpec(old(store.Contents()), authNow, refreshNow);
              store.Contents() == spec.storage
              && isAuthorized == (spec.result == Authorized)
              && pushed == old(pushed) + Redirects(spec.result)
      ensures !isLoading
    {
      var authorized := CheckAuth(authNow, refreshNow);
      isAuthorized := authorized;
      isLoading := false;
    }

    /** One tick of the five-minute timer: a failed check revokes, a passed one grants nothing. */
    method Tick(authNow: int, refreshNow: int)
      modifies store, this`pushed, this`isAuthorized
      ensures var spec := CheckAuthSpec(old(store.Contents()), authNow, refreshNow);
              store.Contents() == spec.storage
              && isAuthorized == (old(isAuthorized) && spec.result == Authorized)
              && pushed == old(pushed) + Redirects(spec.result)
      ensures isAuthorized ==> old(isAuthorized)
    {
      var ok := CheckAuth(authNow, refreshNow);
      if !ok {
        isAuthorized := false;
      }
    }
  }

  /** When the user is not authenticated, the check stops there: the refresh writes nothing. */
  lemma UnauthenticatedSkipsRefresh(st: Storage, authNow: int, refreshNow: int)
    requires !HasLiveRecord(st, authNow) && !OnlyLegacyUser(st)
    ensures CheckAuthSpec(st, authNow, refreshNow).result == NotAuthenticated
    ensures CheckAuthSpec(st, authNow, refreshNow).storage == Authenticated(st, authNow).storage
  {
    AuthenticatedIff(st, authNow);
  }

  /**
   * With one reading of the clock, a user who passes the first test passes
   * the refresh as well: the second redirect cannot happen, and the session
   * now runs for fifteen minutes from that instant.
   */
  lemma SecondRedirectUnreachable(st: Storage, now: int)
    ensures CheckAuthSpec(st, now, now).result != RefreshFailed
    ensures CheckAuthSpec(st, now, now).result == Authorized
            <==> HasLiveRecord(st, now) || OnlyLegacyUser(st)
    ensures CheckAuthSpec(st, now, now).result == Authorized ==>
              HasLiveRecord(CheckAuthSpec(st, now, now).storage, now)
              && CheckAuthSpec(st, now, now).storage.session.value.data.expiresAt == now + SessionDuration
              && CheckAuthSpec(st, now, now).storage.token == st.token
  {
    AuthenticatedIff(st, now);
  }

  /**
   * With two readings, the second redirect is reachable: a session valid at
   * the first reading and expired at the second is purged by the refresh.
   */
  lemma RefreshCanFailAfterAuthCheck(st: Storage, authNow: int, refreshNow: int)
    requires HasLiveRecord(st, authNow)
    requires refreshNow > st.session.value.data.expiresAt
    ensures CheckAuthSpec(st, authNow, refreshNow) == Step(LoggedOut(st), RefreshFailed)
    ensures Redirects(CheckAuthSpec(st, authNow, refreshNow).result) == [LoginPath]
  {
  }

  /** A check that passes always extends the session to the second reading plus fifteen minutes. */
  lemma AuthorizedSlidesExpiry(st: Storage, authNow: int, refreshNow: int)
    requires CheckAuthSpec(st, authNow, refreshNow).result == Authorized
    ensures CheckAuthSpec(st, authNow, refreshNow).storage.session.Some?
    ensures CheckAuthSpec(st, authNow, refreshNow).storage.session.value.Record?
    ensures CheckAuthSpec(st, authNow, refreshNow).storage.session.value.data.timestamp == refreshNow
    ensures CheckAuthSpec(st, authNow, refreshNow).storage.session.value.data.expiresAt == refreshNow + SessionDuration
  {
  }
}
