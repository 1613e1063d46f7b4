/**
 * The request gate in front of the authenticated routes: the session id
 * comes from the session cookie, and only a stored, unexpired session
 * lets the request through (refreshing that session on the way).
 * Cookies are the map from cookie name to value the request carried.
 */
module AuthMiddleware {
  import opened Wrappers
  import opened Json
  import opened Http
  import opened AppConfig
  import opened SessionState
  import opened Sessions

  const NoSessionMessage := "No session found. Please authenticate."
  const InvalidSessionMessage := "Invalid or expired session. Please authenticate again."

  /** get_session_id_from_request: the value of the cookie the configuration names, if sent. */
  function SessionIdFromCookies(cookies: map<string, string>, cfg: Config): (r: Option<string>)
    ensures r.Some? <==> cfg.sessionCookieName in cookies
    ensures r.Some? ==> r.value == cookies[cfg.sessionCookieName]
  {
    if cfg.sessionCookieName in cookies then Some(cookies[cfg.sessionCookieName]) else None
  }

  /** The cookie is sent and not empty (the truth test on the session id). */
  predicate HasSessionCookie(cookies: map<string, string>, cfg: Config) {
    var id := SessionIdFromCookies(cookies, cfg);
    id.Some? && id.value != ""
  }

  /**
   * require_valid_session: the request's session id when its session is
   * active, which is then refreshed; 401 otherwise, without touching the
   * store when no session id was sent.
   */
  method RequireValidSession(sm: SessionManager, cfg: Config, cookies: map<string, string>, now: int)
    returns (r: Result<string, HttpError>)
    requires sm.Valid() && sm.ClockOk(now)
    modifies sm
    ensures sm.Valid() && sm.ClockOk(now)
    ensures r.Success? <==>
      HasSessionCookie(cookies, cfg) && old(sm.IsSessionActive(cookies[cfg.sessionCookieName], now))
    ensures r.Success? ==> r.value == cookies[cfg.sessionCookieName]
    ensures r.Success? ==> r.value in sm.sessions && sm.sessions[r.value].lastActivity == now
    ensures r.Success? ==> sm.IsSessionActive(r.value, now)
    ensures r.Success? ==> sm.sessions[r.value].data == old(sm.sessions)[r.value].data
    ensures !HasSessionCookie(cookies, cfg) ==> r == Failure(Raise(UNAUTHORIZED, NoSessionMessage))
    ensures !HasSessionCookie(cookies, cfg) ==> unchanged(sm)
    ensures HasSessionCookie(cookies, cfg) && r.Failure? ==> r == Failure(Raise(UNAUTHORIZED, InvalidSessionMessage))
    ensures HasSessionCookie(cookies, cfg) ==>
      sm.State() == Access(sm.Prepared(old(sm.State()), now), sm.timeout, cookies[cfg.sessionCookieName], now)
  {
    var id := SessionIdFromCookies(cookies, cfg);
    if id.None? || id.value == "" {
      return Failure(Raise(UNAUTHORIZED, NoSessionMessage));
    }
    var session := sm.GetSession(id.value, now, true);
    if session.None? {
      return Failure(Raise(UNAUTHORIZED, InvalidSessionMessage));
    }
    r := Success(id.value);
  }
}
