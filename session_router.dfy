/**
 * The session routes: passphrase login, authentication status, storing
 * and reading session data, and session counts. The routes that sit
 * behind require_valid_session take the session id that gate produced
 * (see AuthMiddleware); the cookie a login sets is returned as a value.
 */
module SessionRouter {
  import opened Wrappers
  import opened Json
  import opened Http
  import opened AppConfig
  import opened SessionState
  import opened Sessions
  import opened AuthMiddleware

  datatype AuthResponse = AuthResponse(success: bool, message: string)
  datatype SetCookie = SetCookie(name: string, value: string, settings: CookieSettings)
  datatype LoginResult = LoginResult(response: AuthResponse, cookie: SetCookie)

  /** last_activity is the session's activity time (isoformat() is not modelled). */
  datatype AuthStatusResponse = AuthStatusResponse(
    authenticated: bool,
    passphraseRequired: bool,
    lastActivity: Option<int>)

  datatype SessionDataResponse = SessionDataResponse(
    success: bool,
    data: Option<map<string, Json>>,
    message: Option<string>)

  datatype SessionCountResponse = SessionCountResponse(totalSessions: nat, activeSessions: nat)

  /** The passphrase check of authenticate: no check, or a non-empty passphrase equal to the configured one. */
  predicate PassphraseAccepted(cfg: Config, passphrase: Option<string>) {
    !cfg.passphraseAuth || !(passphrase.None? || passphrase.value == "" || passphrase.value != cfg.passphrase)
  }

  /**
   * With the check on, exactly the configured passphrase is accepted, and
   * an empty configured passphrase accepts no one.
   */
  lemma PassphraseAcceptedIff(cfg: Config, passphrase: Option<string>)
    ensures PassphraseAccepted(cfg, passphrase) <==>
      !cfg.passphraseAuth || (passphrase == Some(cfg.passphrase) && cfg.passphrase != "")
  {
  }

  /**
   * authenticate: 401 and no change when the passphrase is refused;
   * otherwise one new session, without data, whose id the cookie carries.
   * freshId stands for secrets.token_urlsafe(32).
   */
  method Authenticate(sm: SessionManager, cfg: Config, passphrase: Option<string>, freshId: string, now: int)
    returns (r: Result<LoginResult, HttpError>)
    requires sm.Valid() && sm.ClockOk(now)
    requires freshId !in sm.sessions
    modifies sm
    ensures sm.Valid() && sm.ClockOk(now)
    ensures r.Failure? <==> !PassphraseAccepted(cfg, passphrase)
    ensures r.Failure? ==> r.error == Raise(UNAUTHORIZED, "Invalid passphrase") && unchanged(sm)
    ensures r.Success? ==> sm.State() == Insert(sm.Prepared(old(sm.State()), now), freshId, map[], now)
    ensures r.Success? ==> sm.sessions.Keys == sm.Prepared(old(sm.State()), now).sessions.Keys + {freshId}
    ensures r.Success? ==> r.value.cookie == SetCookie(cfg.sessionCookieName, freshId, cfg.GetCookieSettings())
    ensures r.Success? ==> r.value.response == AuthResponse(true, "Successfully authenticated")
  {
    if cfg.passphraseAuth {
      if passphrase.None? || passphrase.value == "" || passphrase.value != cfg.passphrase {
        return Failure(Raise(UNAUTHORIZED, "Invalid passphrase"));
      }
    }
    var id := sm.CreateSession(freshId, None, now);
    var cookie := SetCookie(cfg.sessionCookieName, id, cfg.GetCookieSettings());
    r := Success(LoginResult(AuthResponse(true, "Successfully authenticated"), cookie));
  }

  /**
   * get_auth_status: authenticated exactly when the cookie names an
   * active session (which is then refreshed); the passphrase flag is
   * reported in every case.
   */
  method GetAuthStatus(sm: SessionManager, cfg: Config, cookies: map<string, string>, now: int)
    returns (s: AuthStatusResponse)
    requires sm.Valid() && sm.ClockOk(now)
    modifies sm
    ensures sm.Valid() && sm.ClockOk(now)
    ensures s.passphraseRequired == cfg.passphraseAuth
    ensures s.authenticated <==>
      HasSessionCookie(cookies, cfg) && old(sm.IsSessionActive(cookies[cfg.sessionCookieName], now))
    ensures s.authenticated ==> s.lastActivity == Some(now)
    ensures !s.authenticated ==> s.lastActivity == None
    ensures !HasSessionCookie(cookies, cfg) ==> unchanged(sm)
    ensures HasSessionCookie(cookies, cfg) ==>
      sm.State() == Access(sm.Prepared(old(sm.State()), now), sm.timeout, cookies[cfg.sessionCookieName], now)
  {
    var id := SessionIdFromCookies(cookies, cfg);
    if id.None? || id.value == "" {
      return AuthStatusResponse(false, cfg.passphraseAuth, None);
    }
    var session := sm.GetSession(id.value, now, true);
    if session.None? {
      return AuthStatusResponse(false, cfg.passphraseAuth, None);
    }
    s := AuthStatusResponse(true, cfg.passphraseAuth, Some(session.value.lastActivity));
  }

  /** store_session_data: 500 exactly when set_session_data fails; otherwise the keys are merged. */
  method StoreSessionData(sm: SessionManager, sessionId: string, data: map<string, Json>, now: int)
    returns (r: Result<SessionDataResponse, HttpError>)
    requires sm.Valid() && sm.ClockOk(now)
    modifies sm
    ensures sm.Valid() && sm.ClockOk(now)
    ensures r.Failure? <==> !old(sm.IsSessionActive(sessionId, now))
    ensures r.Failure? ==> r.error == Raise(INTERNAL_SERVER_ERROR, "Failed to store session data")
    ensures r.Success? ==> r.value == SessionDataResponse(true, None, Some("Successfully stored data in session"))
    ensures r.Success? ==> sessionId in sm.sessions && sm.sessions[sessionId].data == old(sm.sessions)[sessionId].data + data
    ensures r.Success? ==> sessionId in sm.Prepared(old(sm.State()), now).sessions
    ensures r.Success? ==> sm.State() == Touch(Merge(sm.Prepared(old(sm.State()), now), sessionId, data), sessionId, now)
    ensures r.Success? ==> sm.sessions[sessionId].lastActivity == now && sm.IsSessionActive(sessionId, now)
    ensures r.Success? ==> forall other :: other in sm.sessions && other != sessionId ==>
      other in old(sm.sessions) && sm.sessions[other] == old(sm.sessions)[other]
    ensures r.Failure? ==> sm.State() == Drop(sm.Prepared(old(sm.State()), now), sessionId)
  {
    var ok := sm.SetSessionData(sessionId, data, now);
    if !ok {
      return Failure(Raise(INTERNAL_SERVER_ERROR, "Failed to store session data"));
    }
    r := Success(SessionDataResponse(true, None, Some("Successfully stored data in session")));
  }

  /** get_session_data (route): the session's whole data map, or 500 when it is gone. */
  method GetSessionData(sm: SessionManager, sessionId: string, now: int)
    returns (r: Result<SessionDataResponse, HttpError>)
    requires sm.Valid() && sm.ClockOk(now)
    modifies sm
    ensures sm.Valid() && sm.ClockOk(now)
    ensures r.Failure? <==> !old(sm.IsSessionActive(sessionId, now))
    ensures r.Failure? ==> r.error == Raise(INTERNAL_SERVER_ERROR, "Session not found")
    ensures r.Success? ==> r.value == SessionDataResponse(true, Some(old(sm.sessions)[sessionId].data), None)
    ensures sm.State() == Access(sm.Prepared(old(sm.State()), now), sm.timeout, sessionId, now)
    ensures r.Success? ==> sessionId in sm.sessions && sm.sessions[sessionId].lastActivity == now
    ensures r.Failure? ==> sessionId !in sm.sessions && sessionId !in sm.activityOrder
  {
    var data := sm.GetSessionData(sessionId, now);
    if data.None? {
      return Failure(Raise(INTERNAL_SERVER_ERROR, "Session not found"));
    }
    r := Success(SessionDataResponse(true, data, None));
  }

  /** get_session_count: the store's counts, nothing cleaned up. */
  method GetSessionCount(sm: SessionManager, sessionId: string, now: int) returns (c: SessionCountResponse)
    ensures c.totalSessions == |sm.sessions|
    ensures c.activeSessions == |ActiveIds(sm.State(), sm.timeout, now)|
    ensures c.activeSessions <= c.totalSessions
  {
    var total, active := sm.GetSessionCountInfo(now);
    c := SessionCountResponse(total, active);
  }

  /**
   * GET /data behind require_valid_session, both at one instant: the
   * gate's 401s, or the session's data; the route's "Session not found"
   * 500 cannot follow a successful gate.
   */
  method GuardedGetSessionData(sm: SessionManager, cfg: Config, cookies: map<string, string>, now: int)
    returns (r: Result<SessionDataResponse, HttpError>)
    requires sm.Valid() && sm.ClockOk(now)
    modifies sm
    ensures sm.Valid() && sm.ClockOk(now)
    ensures r.Failure? ==> r.error.status == UNAUTHORIZED
    ensures r.Success? <==>
      HasSessionCookie(cookies, cfg) && old(sm.IsSessionActive(cookies[cfg.sessionCookieName], now))
    ensures r.Success? ==>
      r.value == SessionDataResponse(true, Some(old(sm.sessions)[cookies[cfg.sessionCookieName]].data), None)
  {
    var gate := RequireValidSession(sm, cfg, cookies, now);
    if gate.Failure? {
      return Failure(gate.error);
    }
    r := GetSessionData(sm, gate.value, now);
  }
}
