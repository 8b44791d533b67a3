/**
 * `createSessionMiddleware(cookieName, ttl, debugLog)` of the JavaScript tree:
 * sessions kept in memory under a random key that goes out as a cookie. Each
 * request either finds its session by the cookie or gets a new one; sessions
 * not seen for longer than `ttl` milliseconds are swept, but a sweep runs at
 * most once every five minutes.
 *
 * The clock (`now`) and the two random tokens a new session draws are
 * parameters. The stored session and `req.session` are the same object in the
 * source; here `req.session` is a copy taken once the request's update is done.
 */
module Sessions {
  import opened Js
  import opened Wrappers
  import opened Http
  import Cookies

  /** `CLEAN_EXPIRED_SESSIONS_INTERVAL`: five minutes, in milliseconds. */
  const CleanupInterval: int := 1000 * 60 * 5

  type Store = map<string, Session>

  /** A session has expired when it was last seen strictly more than `ttl` ago. */
  predicate Expired(s: Session, now: int, ttl: int) {
    now - s.lastSeenAt > ttl
  }

  /** Every session is stored under its own key, as the middleware stores them. */
  predicate Keyed(sessions: Store) {
    forall k :: k in sessions ==> sessions[k].key == k
  }

  /** What a sweep leaves: exactly the sessions that have not expired, unchanged. */
  function Unexpired(sessions: Store, now: int, ttl: int): Store {
    map k | k in sessions && !Expired(sessions[k], now, ttl) :: sessions[k]
  }

  /** The session a request with cookie `key` resolves to: the stored one, or a new one under `token`. */
  function Resolve(sessions: Store, key: Option<string>, now: int, token: string, csrf: string): (s: Session)
    ensures key.Some? && key.value != "" && key.value in sessions ==> s == sessions[key.value]
    ensures !(key.Some? && key.value != "" && key.value in sessions) ==>
              s == Session(token, now, now, csrf, Null)
  {
    if key.Some? && key.value != "" && key.value in sessions then sessions[key.value]
    else Session(token, now, now, csrf, Null)
  }

  class SessionStore {
    const cookieName: string
    const ttl: int
    var sessions: Store
    var lastCleanupAt: int

    ghost predicate Valid()
      reads this
    {
      Keyed(sessions)
    }

    /** The store starts empty, its last sweep dated at creation. */
    constructor (cookieName: string, ttl: int, now: int)
      ensures Valid()
      ensures this.cookieName == cookieName && this.ttl == ttl && sessions == map[] && lastCleanupAt == now
    {
      this.cookieName := cookieName;
      this.ttl := ttl;
      sessions := map[];
      lastCleanupAt := now;
    }

    /** `cleanExpiredSessions()`: walk the sessions, deleting each expired one by its key. */
    method CleanExpiredSessions(now: int)
      requires Valid()
      modifies this`sessions
      ensures Valid()
      ensures sessions == Unexpired(old(sessions), now, ttl)
    {
      ghost var start := sessions;
      var pending := sessions.Keys;
      while pending != {}
        invariant pending <= start.Keys
        invariant forall k :: k in sessions <==> k in start && (k in pending || !Expired(start[k], now, ttl))
        invariant forall k :: k in sessions ==> sessions[k] == start[k]
        decreases |pending|
      {
        var k :| k in pending;
        var session := sessions[k];
        if now - session.lastSeenAt > ttl {
          sessions := sessions - {session.key};
        }
        pending := pending - {k};
      }
      assert sessions == Unexpired(start, now, ttl);
    }

    /**
     * `middleware(req, res, next)`: resolve the session, mark it seen now, hand
     * it to the request, and sweep when the last sweep is more than five
     * minutes old. A new session is stored and its key sent as the cookie.
     */
    method Middleware(req: Request, reply: Reply, now: int, token: string, csrf: string)
      requires Valid()
      modifies this`sessions, this`lastCleanupAt, req`session, reply`effects
      ensures Valid()
      ensures var key := Cookies.ExtractCookieSpec(req.cookieHeader, cookieName);
              var s := Resolve(old(sessions), key, now, token, csrf).(lastSeenAt := now);
              var found := key.Some? && key.value != "" && key.value in old(sessions);
              var seen := old(sessions)[s.key := s];
              && req.session == Some(s)
              && reply.effects == (if found then old(reply.effects) else old(reply.effects) + [SetCookie(cookieName, token)])
              && (now - old(lastCleanupAt) > CleanupInterval ==> sessions == Unexpired(seen, now, ttl) && lastCleanupAt == now)
              && (now - old(lastCleanupAt) <= CleanupInterval ==> sessions == seen && lastCleanupAt == old(lastCleanupAt))
    {
      Touch(req, reply, now, token, csrf);
      if now - lastCleanupAt > CleanupInterval {
        CleanExpiredSessions(now);
        lastCleanupAt := now;
      }
    }

    /** The part of `middleware` before the sweep: find or create the session, and mark it seen. */
    method Touch(req: Request, reply: Reply, now: int, token: string, csrf: string)
      requires Valid()
      modifies this`sessions, req`session, reply`effects
      ensures Valid()
      ensures var key := Cookies.ExtractCookieSpec(req.cookieHeader, cookieName);
              var s := Resolve(old(sessions), key, now, token, csrf).(lastSeenAt := now);
              var found := key.Some? && key.value != "" && key.value in old(sessions);
              && req.session == Some(s)
              && reply.effects == (if found then old(reply.effects) else old(reply.effects) + [SetCookie(cookieName, token)])
              && sessions == old(sessions)[s.key := s]
    {
      var key := Cookies.ExtractCookie(req.cookieHeader, cookieName);
      var session: Session;
      var found := false;
      if key.Some? && key.value != "" && key.value in sessions {
        session := sessions[key.value];
        found := true;
      }
      if !found {
        session := Session(token, now, now, csrf, Null);
        sessions := sessions[session.key := session];
        reply.effects := reply.effects + [SetCookie(cookieName, session.key)];
      }
      session := session.(lastSeenAt := now);
      sessions := sessions[session.key := session];
      req.session := Some(session);
    }
  }

  // ---------------------------------------------------------------------------
  // Properties

  /** A resolved session is stored under its own key, and a new one never takes the client's key unless the draw repeats it. */
  lemma ResolveKeyed(sessions: Store, key: Option<string>, now: int, token: string, csrf: string)
    requires Keyed(sessions)
    ensures var s := Resolve(sessions, key, now, token, csrf);
            && (key.Some? && key.value != "" && key.value in sessions ==> s.key == key.value)
            && (!(key.Some? && key.value != "" && key.value in sessions) ==>
                  s.key == token && s.csrfToken == csrf && s.editBackUrl == Null && s.createdAt == now)
  {
  }

  /** The sweep deletes exactly the expired sessions and leaves the others as they are. */
  lemma UnexpiredExactly(sessions: Store, now: int, ttl: int, k: string)
    ensures k in Unexpired(sessions, now, ttl) <==> k in sessions && now - sessions[k].lastSeenAt <= ttl
    ensures k in Unexpired(sessions, now, ttl) ==> Unexpired(sessions, now, ttl)[k] == sessions[k]
  {
  }

  /**
   * The request's own session survives the sweep its request triggers,
   * because it is marked seen before the sweep (for any `ttl` that is not negative).
   */
  lemma {:induction false} CurrentSessionSurvives(sessions: Store, s: Session, now: int, ttl: int)
    requires s.lastSeenAt == now && ttl >= 0
    ensures s.key in Unexpired(sessions[s.key := s], now, ttl)
    ensures Unexpired(sessions[s.key := s], now, ttl)[s.key] == s
  {
    var seen := sessions[s.key := s];
    assert seen[s.key] == s;
    assert !Expired(s, now, ttl);
  }

  /**
   * Between sweeps an expired session is still found and reused: the store
   * only forgets a session when a sweep runs.
   */
  lemma ExpiredButUnsweptIsReused(sessions: Store, key: string, now: int, ttl: int, token: string, csrf: string)
    requires Keyed(sessions) && key != "" && key in sessions && Expired(sessions[key], now, ttl)
    ensures Resolve(sessions, Some(key), now, token, csrf) == sessions[key]
    ensures Resolve(sessions, Some(key), now, token, csrf).key == key
  {
  }
}
