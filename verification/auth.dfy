/**
 * The client-side session store of lib/auth.ts. The browser's localStorage is
 * the object `SessionStore`; its fields are the three keys the store uses,
 * plus every other key, which no operation may touch:
 *
 *   paw-auth-session   a `{user, timestamp, expiresAt}` record, or text that
 *                      `JSON.parse` rejects
 *   paw-auth-token     the bearer token returned at login
 *   paw-auth-user      the record of the previous storage format, migrated once
 *
 * An empty string under a key reads as absent, as it does in the source
 * (`if (!sessionStr)`). The clock is the parameter `now` (milliseconds).
 * Each method is proved against a function over a `Storage` value; the
 * lemmas at the end state the lifecycle the store promises.
 */
module Auth {
  import opened Common

  /** `SESSION_DURATION`: fifteen minutes in milliseconds. */
  const SessionDuration: int := 15 * 60 * 1000

  datatype Role = Admin

  /** The `User` record; `id` is missing when the login reply had no `username`. */
  datatype User = User(id: Option<string>, username: string, role: Role)

  datatype SessionData = SessionData(user: User, timestamp: int, expiresAt: int)

  /** What `paw-auth-session` holds when it is not empty. */
  datatype SessionSlot = Record(data: SessionData) | Malformed

  /** What `paw-auth-user` holds when it is not empty. */
  datatype LegacySlot = LegacyUser(user: User) | LegacyMalformed

  /** localStorage as the session store sees it. */
  datatype Storage = Storage(
    session: Option<SessionSlot>,
    token: Option<string>,
    legacy: Option<LegacySlot>,
    others: map<string, string>)

  /** The storage after a call, and what the call returned. */
  datatype Step<T> = Step(storage: Storage, result: T)

  /** The reply of `POST /api/auth/login`: `Threw` when `fetch` or `response.json()` threw. */
  datatype LoginReply = Threw | Reply(ok: bool, token: Option<string>, username: Option<string>)

  // ---- the store as functions of the storage ----

  function NewSession(user: User, now: int): SessionData
  {
    SessionData(user, now, now + SessionDuration)
  }

  /** `setAuthUser(user)` */
  function WithSession(st: Storage, user: User, now: int): Storage
  {
    st.(session := Some(Record(NewSession(user, now))))
  }

  /** `logout()` */
  function LoggedOut(st: Storage): Storage
  {
    st.(session := None, token := None, legacy := None)
  }

  /** `getSessionData()`: the record, or the migrated legacy user, or nothing. */
  function ReadSession(st: Storage, now: int): Step<Option<SessionData>>
  {
    match st.session
    case Some(Record(d)) => Step(st, Some(d))
    case Some(Malformed) => Step(st, None)
    case None =>
      match st.legacy
      case Some(LegacyUser(u)) =>
        Step(WithSession(st, u, now).(legacy := None), Some(NewSession(u, now)))
      case _ => Step(st, None)
  }

  /**
   * What `isAuthenticated`, `getCurrentUser` and `refreshSession` share: the
   * session read, with an expired one cleared by `logout()`.
   */
  function LiveSession(st: Storage, now: int): Step<Option<SessionData>>
  {
    var read := ReadSession(st, now);
    match read.result
    case None => read
    case Some(d) => if now > d.expiresAt then Step(LoggedOut(read.storage), None) else read
  }

  /** `isAuthenticated()` */
  function Authenticated(st: Storage, now: int): Step<bool>
  {
    var live := LiveSession(st, now);
    Step(live.storage, live.result.Some?)
  }

  /** `getCurrentUser()` */
  function CurrentUser(st: Storage, now: int): Step<Option<User>>
  {
    var live := LiveSession(st, now);
    match live.result
    case None => Step(live.storage, None)
    case Some(d) => Step(live.storage, Some(d.user))
  }

  /** `refreshSession()` */
  function Refreshed(st: Storage, now: int): Step<bool>
  {
    var live := LiveSession(st, now);
    match live.result
    case None => Step(live.storage, false)
    case Some(d) => Step(WithSession(live.storage, d.user, now), true)
  }

  /** The user built from a successful login reply. */
  function ReplyUser(username: string, replyName: Option<string>): User
  {
    var named := replyName.Some? && replyName.value != "";
    User(replyName, if named then replyName.value else username, Admin)
  }

  /** `authenticateUser(username, password)` from the moment the reply exists. */
  function LoggedIn(st: Storage, username: string, reply: LoginReply, now: int): Step<Option<User>>
  {
    match reply
    case Threw => Step(st, None)
    case Reply(ok, token, replyName) =>
      if !ok then Step(st, None)
      else
        var withToken := if token.Some? && token.value != "" then st.(token := token) else st;
        var user := ReplyUser(username, replyName);
        Step(WithSession(withToken, user, now), Some(user))
  }

  /** A current-format record that has not expired at `now`. */
  predicate HasLiveRecord(st: Storage, now: int)
  {
    st.session.Some? && st.session.value.Record? && now <= st.session.value.data.expiresAt
  }

  /** Only the legacy record is there, and it parses. */
  predicate OnlyLegacyUser(st: Storage)
  {
    st.session.None? && st.legacy.Some? && st.legacy.value.LegacyUser?
  }

  // ---- localStorage as an object ----

  class SessionStore {
    var session: Option<SessionSlot>
    var token: Option<string>
    var legacy: Option<LegacySlot>
    var others: map<string, string>

    function Contents(): Storage
      reads this
    {
      Storage(session, token, legacy, others)
    }

    constructor (initial: Storage)
      ensures Contents() == initial
    {
      session, token, legacy, others := initial.session, initial.token, initial.legacy, initial.others;
    }

    /** Overwrites the session slot with a record that expires fifteen minutes from `now`. */
    method SetAuthUser(user: User, now: int)
      modifies this
      ensures Contents() == WithSession(old(Contents()), user, now)
    {
      var sessionData := SessionData(user, now, now + SessionDuration);
      session := Some(Record(sessionData));
    }

    /** Removes the session, the token and the legacy key; nothing else. */
    method Logout()
      modifies this
      ensures Contents() == LoggedOut(old(Contents()))
    {
      session := None;
      token := None;
      legacy := None;
    }

    /**
     * Reads the session record. With no record but a legacy user, writes a
     * current-format session for it, removes the legacy key and reads again;
     * that second read finds the record, so the recursion stops there.
     */
    method GetSessionData(now: int) returns (d: Option<SessionData>)
      modifies this
      decreases if session.None? && legacy.Some? then 1 else 0
      ensures Step(Contents(), d) == ReadSession(old(Contents()), now)
    {
      if session.None? {
        if legacy.Some? {
          match legacy.value
          case LegacyMalformed =>
            return None;
          case LegacyUser(user) =>
            SetAuthUser(user, now);
            legacy := None;
            d := GetSessionData(now);
            return;
        }
        return None;
      }
      match session.value
      case Record(sessionData) =>
        d := Some(sessionData);
      case Malformed =>
        d := None;
    }

    method IsAuthenticated(now: int) returns (b: bool)
      modifies this
      ensures Step(Contents(), b) == Authenticated(old(Contents()), now)
    {
      var sessionData := GetSessionData(now);
      if sessionData.None? {
        return false;
      }
      if now > sessionData.value.expiresAt {
        Logout();
        return false;
      }
      return true;
    }

    method GetCurrentUser(now: int) returns (u: Option<User>)
      modifies this
      ensures Step(Contents(), u) == CurrentUser(old(Contents()), now)
    {
      var sessionData := GetSessionData(now);
      if sessionData.None? {
        return None;
      }
      if now > sessionData.value.expiresAt {
        Logout();
        return None;
      }
      return Some(sessionData.value.user);
    }

    method RefreshSession(now: int) returns (ok: bool)
      modifies this
      ensures Step(Contents(), ok) == Refreshed(old(Contents()), now)
    {
      var sessionData := GetSessionData(now);
      if sessionData.None? {
        return false;
      }
      if now > sessionData.value.expiresAt {
        Logout();
        return false;
      }
      SetAuthUser(sessionData.value.user, now);
      return true;
    }

    /** The stored token, read without looking at the session or its expiry. */
    method GetAuthToken() returns (t: Option<string>)
      ensures t == token
    {
      t := token;
    }

    /**
     * Handles the login reply: a failed or thrown request writes nothing and
     * yields no user; a successful one stores a non-empty token and starts a
     * session for the user named in the reply.
     */
    method AuthenticateUser(username: string, reply: LoginReply, now: int) returns (u: Option<User>)
      modifies this
      ensures Step(Contents(), u) == LoggedIn(old(Contents()), username, reply, now)
    {
      if reply.Threw? || !reply.ok {
        return None;
      }
      if reply.token.Some? && reply.token.value != "" {
        token := reply.token;
      }
      var user := User(reply.username,
                       if reply.username.Some? && reply.username.value != "" then reply.username.value else username,
                       Admin);
      SetAuthUser(user, now);
      return Some(user);
    }
  }

  // ---- the lifecycle ----

  /** A session set at `now` is valid up to and including `now + SessionDuration`. */
  lemma NewSessionIsLive(st: Storage, user: User, now: int, later: int)
    requires now <= later <= now + SessionDuration
    ensures Authenticated(WithSession(st, user, now), later) == Step(WithSession(st, user, now), true)
    ensures CurrentUser(WithSession(st, user, now), later).result == Some(user)
  {
  }

  /** One millisecond past `expiresAt` the session is gone, purged by the read itself. */
  lemma NewSessionExpires(st: Storage, user: User, now: int, later: int)
    requires later > now + SessionDuration
    ensures Authenticated(WithSession(st, user, now), later) == Step(LoggedOut(WithSession(st, user, now)), false)
    ensures LoggedOut(WithSession(st, user, now)).session.None?
  {
  }

  /** `isAuthenticated` holds exactly for an unexpired record or a legacy user to migrate. */
  lemma AuthenticatedIff(st: Storage, now: int)
    ensures Authenticated(st, now).result <==> HasLiveRecord(st, now) || OnlyLegacyUser(st)
  {
  }

  /** An expired record makes all three readers fail and leaves the three keys removed. */
  lemma ExpiredSessionIsPurged(st: Storage, now: int)
    requires st.session.Some? && st.session.value.Record? && now > st.session.value.data.expiresAt
    ensures Authenticated(st, now) == Step(LoggedOut(st), false)
    ensures CurrentUser(st, now) == Step(LoggedOut(st), None)
    ensures Refreshed(st, now) == Step(LoggedOut(st), false)
  {
  }

  /** A record `JSON.parse` rejects yields no session and changes nothing. */
  lemma MalformedSessionChangesNothing(st: Storage, now: int)
    requires st.session == Some(Malformed)
    ensures ReadSession(st, now) == Step(st, None)
    ensures Authenticated(st, now) == Step(st, false)
    ensures Refreshed(st, now) == Step(st, false)
  {
  }

  /** `logout` removes exactly the three keys, and a second call changes nothing more. */
  lemma LogoutIdempotent(st: Storage)
    ensures LoggedOut(LoggedOut(st)) == LoggedOut(st)
    ensures LoggedOut(st).session.None? && LoggedOut(st).token.None? && LoggedOut(st).legacy.None?
    ensures LoggedOut(st).others == st.others
  {
  }

  /** Refreshing a valid session keeps the user and the token and restarts the fifteen minutes. */
  lemma RefreshExtendsSession(st: Storage, now: int)
    requires HasLiveRecord(st, now)
    ensures Refreshed(st, now).result
    ensures Refreshed(st, now).storage == WithSession(st, st.session.value.data.user, now)
    ensures Refreshed(st, now).storage.token == st.token
    ensures now >= st.session.value.data.timestamp ==>
              Refreshed(st, now).storage.session.value.data.expiresAt
                >= st.session.value.data.timestamp + SessionDuration
  {
  }

  /** With neither a current nor a legacy record, `refreshSession` fails and writes nothing. */
  lemma RefreshWithoutSession(st: Storage, now: int)
    requires st.session.None? && st.legacy.None?
    ensures Refreshed(st, now) == Step(st, false)
  {
  }

  /**
   * A legacy user is migrated by the first read: a current-format session
   * appears and the legacy key goes. A later read finds that record and
   * migrates nothing.
   */
  lemma MigrationHappensOnce(st: Storage, now: int, later: int)
    requires OnlyLegacyUser(st)
    ensures ReadSession(st, now).storage.legacy.None?
    ensures ReadSession(st, now).storage.session == Some(Record(NewSession(st.legacy.value.user, now)))
    ensures ReadSession(st, now).result == Some(NewSession(st.legacy.value.user, now))
    ensures ReadSession(ReadSession(st, now).storage, later) == Step(ReadSession(st, now).storage, ReadSession(st, now).result)
  {
  }

  /** A failed or thrown login returns no user and writes nothing. */
  lemma FailedLoginWritesNothing(st: Storage, username: string, reply: LoginReply, now: int)
    requires reply.Threw? || !reply.ok
    ensures LoggedIn(st, username, reply, now) == Step(st, None)
  {
  }

  /**
   * A successful login yields an admin named by the reply (or by the typed
   * name when the reply has none), stores the token only when there is one,
   * and starts a session that is valid at once.
   */
  lemma SuccessfulLogin(st: Storage, username: string, reply: LoginReply, now: int)
    requires reply.Reply? && reply.ok
    ensures LoggedIn(st, username, reply, now).result.Some?
    ensures LoggedIn(st, username, reply, now).result.value.role == Admin
    ensures LoggedIn(st, username, reply, now).result.value.username
              == if reply.username.Some? && reply.username.value != "" then reply.username.value else username
    ensures LoggedIn(st, username, reply, now).storage.token
              == if reply.token.Some? && reply.token.value != "" then reply.token else st.token
    ensures Authenticated(LoggedIn(st, username, reply, now).storage, now).result
  {
  }
}
