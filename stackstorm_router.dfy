/**
 * The StackStorm routes: choosing which StackStorm server a session
 * talks to (its own custom connection, a preconfigured one it selected,
 * or the configured default), validating and storing that choice, and
 * turning what the server answers into route results.
 *
 * The server is reached through a Remote function (see Http), so each
 * route's result is a function of the resolution, the request it sends
 * and the outcome the remote side gives for it.
 */
module StackStormRouter {
  import opened Wrappers
  import opened Text
  import opened Json
  import opened Http
  import opened AppConfig
  import opened SessionState
  import opened Sessions

  /** The session-data key under which the chosen connection is stored. */
  const ConnectionKey := "stackstorm_connection"
  const CustomId := "custom"

  const CustomMissingMessage := "Custom connection selected but no custom connection data found."
  const NoDefaultMessage := "No StackStorm connection configured and no default connection available."
  const BadApiKeyMessage := "Authentication failed: Invalid API key"

  /** The {"url", "api_key"} dict a resolution returns; each is whatever JSON value was found. */
  datatype Endpoint = Endpoint(url: Json, apiKey: Json)

  /** A failed resolution: the HTTPException it raises, or the message of any other exception. */
  datatype Fault = Raised(error: HttpError) | Crashed(message: string)

  /** A string setting as JSON: None when missing. */
  function OptionJson(o: Option<string>): Json {
    if o.None? then Null else Str(o.value)
  }

  /** session_data and session_data.get("stackstorm_connection"): the stored value, or None. */
  function StoredConnection(sessionData: Option<map<string, Json>>): Json {
    if sessionData.Some? && sessionData.value != map[] then Get(sessionData.value, ConnectionKey) else Null
  }

  /** The stored value is set but is no dict, so reading its fields raises AttributeError. */
  predicate StoredIsBroken(sessionData: Option<map<string, Json>>) {
    var v := StoredConnection(sessionData);
    Truthy(v) && !v.Obj?
  }

  /** The "current" field of the stored value, None when nothing usable is stored. */
  function StoredCurrent(sessionData: Option<map<string, Json>>): Json {
    var v := StoredConnection(sessionData);
    if Truthy(v) && v.Obj? then Get(v.fields, "current") else Null
  }

  /** The "custom_connection" field of the stored value, None when nothing usable is stored. */
  function StoredCustom(sessionData: Option<map<string, Json>>): Json {
    var v := StoredConnection(sessionData);
    if Truthy(v) && v.Obj? then Get(v.fields, "custom_connection") else Null
  }

  /** The preconfigured connection a selection names; only a string can equal a configured id. */
  function Selected(cfg: Config, current: Json): Option<Connection> {
    if current.Str? then cfg.GetConnectionById(current.s) else None
  }

  /** The last step of _get_stackstorm_config_from_session: look the selection up in the configuration. */
  function Preconfigured(cfg: Config, current: Json): (r: Result<Endpoint, Fault>)
    ensures r.Success? <==> Selected(cfg, current).Some?
    ensures r.Success? ==> r.value == Endpoint(OptionJson(Selected(cfg, current).value.url), OptionJson(Selected(cfg, current).value.apiKey))
    ensures r.Failure? ==> r.error == Raised(Raise(BAD_REQUEST,
      "Connection '" + PyStr(current) + "' not found in preconfigured connections."))
  {
    match Selected(cfg, current)
    case None =>
      Failure(Raised(Raise(BAD_REQUEST, "Connection '" + PyStr(current) + "' not found in preconfigured connections.")))
    case Some(c) => Success(Endpoint(OptionJson(c.url), OptionJson(c.apiKey)))
  }

  /**
   * _get_stackstorm_config_from_session, given what get_session_data
   * returned: the session's custom connection when "custom" is selected,
   * else the selected preconfigured connection, else the default one.
   */
  function ResolveConnection(sessionData: Option<map<string, Json>>, cfg: Config): (r: Result<Endpoint, Fault>)
    ensures r.Failure? && r.error.Raised? ==> r.error.error.status == BAD_REQUEST
    ensures r.Failure? && r.error.Crashed? ==>
      StoredIsBroken(sessionData) || (StoredCurrent(sessionData) == Str(CustomId) && Truthy(StoredCustom(sessionData)))
    ensures r.Success? ==>
      (StoredCurrent(sessionData) == Str(CustomId) && StoredCustom(sessionData).Obj? &&
       r.value == Endpoint(Get(StoredCustom(sessionData).fields, "url"), Get(StoredCustom(sessionData).fields, "api_key")))
      || (exists c :: (c in cfg.GetStackStormConnections().connections && c.id.Some? &&
                      r.value == Endpoint(OptionJson(c.url), OptionJson(c.apiKey))))
    ensures !StoredIsBroken(sessionData) && Truthy(StoredCurrent(sessionData)) && StoredCurrent(sessionData) != Str(CustomId) ==>
      r == Preconfigured(cfg, StoredCurrent(sessionData))
  {
    var stored := StoredConnection(sessionData);
    if StoredIsBroken(sessionData) then
      Failure(Crashed(NoAttribute(stored, "get")))
    else
      var current := StoredCurrent(sessionData);
      if current == Str(CustomId) then
        var custom := StoredCustom(sessionData);
        if !Truthy(custom) then Failure(Raised(Raise(BAD_REQUEST, CustomMissingMessage)))
        else if !custom.Obj? then Failure(Crashed(NoAttribute(custom, "get")))
        else Success(Endpoint(Get(custom.fields, "url"), Get(custom.fields, "api_key")))
      else if !Truthy(current) then
        var d := cfg.GetStackStormConnections().default;
        if d.None? || d.value == "" then Failure(Raised(Raise(BAD_REQUEST, NoDefaultMessage)))
        else Preconfigured(cfg, Str(d.value))
      else
        Preconfigured(cfg, current)
  }

  /** A session that selected its own custom connection gets exactly that, whatever is configured. */
  lemma CustomIgnoresConfiguration(sessionData: Option<map<string, Json>>, cfg1: Config, cfg2: Config)
    requires StoredCurrent(sessionData) == Str(CustomId)
    ensures ResolveConnection(sessionData, cfg1) == ResolveConnection(sessionData, cfg2)
    ensures StoredCustom(sessionData).Obj? && StoredCustom(sessionData).fields != map[] ==>
      ResolveConnection(sessionData, cfg1) ==
        Success(Endpoint(Get(StoredCustom(sessionData).fields, "url"), Get(StoredCustom(sessionData).fields, "api_key")))
    ensures !Truthy(StoredCustom(sessionData)) ==>
      ResolveConnection(sessionData, cfg1) == Failure(Raised(Raise(BAD_REQUEST, CustomMissingMessage)))
  {
  }

  /** With nothing selected, the default id is used, and its absence is a 400. */
  lemma NoSelectionUsesDefault(sessionData: Option<map<string, Json>>, cfg: Config)
    requires !StoredIsBroken(sessionData) && !Truthy(StoredCurrent(sessionData))
    ensures var d := cfg.GetStackStormConnections().default;
      ResolveConnection(sessionData, cfg) ==
        if d.None? || d.value == "" then Failure(Raised(Raise(BAD_REQUEST, NoDefaultMessage)))
        else Preconfigured(cfg, Str(d.value))
    ensures ResolveConnection(sessionData, cfg) == ResolveConnection(None, cfg)
  {
  }

  /**
   * A selection other than "custom" is looked up in the configuration and
   * is never replaced by the default: an unknown id is the 400 naming it.
   */
  lemma SelectionUsesConfiguration(sessionData: Option<map<string, Json>>, cfg: Config)
    requires !StoredIsBroken(sessionData) && Truthy(StoredCurrent(sessionData)) && StoredCurrent(sessionData) != Str(CustomId)
    ensures ResolveConnection(sessionData, cfg) == Preconfigured(cfg, StoredCurrent(sessionData))
    ensures var cur := StoredCurrent(sessionData);
      cur.Str? && cfg.GetConnectionById(cur.s).Some? ==>
        var c := cfg.GetConnectionById(cur.s).value;
        ResolveConnection(sessionData, cfg) == Success(Endpoint(OptionJson(c.url), OptionJson(c.apiKey)))
    ensures var cur := StoredCurrent(sessionData);
      (!cur.Str? || cfg.GetConnectionById(cur.s).None?) ==>
        ResolveConnection(sessionData, cfg) ==
          Failure(Raised(Raise(BAD_REQUEST, "Connection '" + PyStr(cur) + "' not found in preconfigured connections.")))
  {
  }

  // ----- set_connection ------------------------------------------------------

  datatype CustomConnection = CustomConnection(url: string, apiKey: Option<string>)
  datatype ConnectionRequest = ConnectionRequest(current: string, customConnection: Option<CustomConnection>)
  datatype ConnectionUpdateResponse = ConnectionUpdateResponse(success: bool, message: string)

  /** The checks set_connection makes before storing anything: the error it raises, if any. */
  function ValidateConnectionRequest(req: ConnectionRequest, cfg: Config): (r: Option<HttpError>)
    ensures r.Some? ==> r.value.status == BAD_REQUEST
    ensures r.None? <==>
      if req.current == CustomId then req.customConnection.Some? && req.customConnection.value.url != ""
      else cfg.GetConnectionById(req.current).Some?
  {
    if req.current == CustomId then
      if req.customConnection.None? then
        Some(Raise(BAD_REQUEST, "Custom connection data required when current is 'custom'"))
      else if req.customConnection.value.url == "" then
        Some(Raise(BAD_REQUEST, "URL is required for custom connection"))
      else None
    else if cfg.GetConnectionById(req.current).None? then
      Some(Raise(BAD_REQUEST, "Connection '" + req.current + "' not found in preconfigured connections"))
    else None
  }

  /** The stackstorm_connection value set_connection stores. */
  function ConnectionRecord(req: ConnectionRequest): Json {
    var custom := match req.customConnection
      case None => Null
      case Some(c) => Obj(map["url" := Str(c.url), "api_key" := OptionJson(c.apiKey)]);
    Obj(map["current" := Str(req.current), "custom_connection" := custom])
  }

  /**
   * Storing a validated choice and resolving it again yields that choice:
   * the custom url and key, or the selected connection's.
   */
  lemma SetThenResolve(data: map<string, Json>, req: ConnectionRequest, cfg: Config)
    requires ValidateConnectionRequest(req, cfg).None? && req.current != ""
    ensures var r := ResolveConnection(Some(data[ConnectionKey := ConnectionRecord(req)]), cfg);
      if req.current == CustomId then
        r == Success(Endpoint(Str(req.customConnection.value.url), OptionJson(req.customConnection.value.apiKey)))
      else
        var c := cfg.GetConnectionById(req.current).value;
        r == Success(Endpoint(OptionJson(c.url), OptionJson(c.apiKey)))
  {
    var sd := Some(data[ConnectionKey := ConnectionRecord(req)]);
    assert ConnectionKey in sd.value && "current" in ConnectionRecord(req).fields;
    assert StoredConnection(sd) == ConnectionRecord(req);
    assert !StoredIsBroken(sd);
    assert StoredCurrent(sd) == Str(req.current);
    if req.current == CustomId {
      var c := req.customConnection.value;
      var fields := map["url" := Str(c.url), "api_key" := OptionJson(c.apiKey)];
      assert StoredCustom(sd) == Obj(fields);
      assert "url" in fields && Truthy(Obj(fields));
      assert Get(fields, "url") == Str(c.url) && Get(fields, "api_key") == OptionJson(c.apiKey);
    } else {
      assert Truthy(Str(req.current));
      assert Selected(cfg, Str(req.current)) == cfg.GetConnectionById(req.current);
    }
  }

  /**
   * The one validated choice that does not survive: an id "" (accepted when
   * a configured connection has that id) reads as no selection, so the
   * default connection is used instead.
   */
  lemma SetEmptyIdResolvesToDefault(data: map<string, Json>, req: ConnectionRequest, cfg: Config)
    requires ValidateConnectionRequest(req, cfg).None? && req.current == ""
    ensures ResolveConnection(Some(data[ConnectionKey := ConnectionRecord(req)]), cfg) == ResolveConnection(None, cfg)
  {
    var sd := Some(data[ConnectionKey := ConnectionRecord(req)]);
    assert ConnectionKey in sd.value && "current" in ConnectionRecord(req).fields;
    assert StoredConnection(sd) == ConnectionRecord(req);
    assert StoredCurrent(sd) == Str("");
    NoSelectionUsesDefault(sd, cfg);
  }

  /**
   * set_connection: a refused request changes nothing; an accepted one
   * writes the stackstorm_connection key of the session and nothing else,
   * or fails with 500 when the session is gone.
   */
  method SetConnection(sm: SessionManager, cfg: Config, req: ConnectionRequest, sessionId: string, now: int)
    returns (r: Result<ConnectionUpdateResponse, HttpError>)
    requires sm.Valid() && sm.ClockOk(now)
    modifies sm
    ensures sm.Valid() && sm.ClockOk(now)
    ensures ValidateConnectionRequest(req, cfg).Some? ==>
      r == Failure(ValidateConnectionRequest(req, cfg).value) && unchanged(sm)
    ensures ValidateConnectionRequest(req, cfg).None? ==>
      (r.Failure? <==> !old(sm.IsSessionActive(sessionId, now)))
    ensures ValidateConnectionRequest(req, cfg).None? && r.Failure? ==>
      r.error == Raise(INTERNAL_SERVER_ERROR, "Failed to save connection configuration")
    ensures r.Success? ==>
      && sessionId in sm.sessions
      && sm.sessions[sessionId].data == old(sm.sessions)[sessionId].data + map[ConnectionKey := ConnectionRecord(req)]
      && r.value == ConnectionUpdateResponse(true, "Connection configuration updated to '" + req.current + "'")
    ensures r.Success? ==> sessionId in sm.Prepared(old(sm.State()), now).sessions
    ensures r.Success? ==>
      sm.State() == Touch(Merge(sm.Prepared(old(sm.State()), now), sessionId, map[ConnectionKey := ConnectionRecord(req)]), sessionId, now)
    ensures r.Success? ==> sm.sessions[sessionId].lastActivity == now && sm.IsSessionActive(sessionId, now)
    ensures r.Success? ==> forall other :: other in sm.sessions && other != sessionId ==>
      other in old(sm.sessions) && sm.sessions[other] == old(sm.sessions)[other]
    ensures ValidateConnectionRequest(req, cfg).None? && r.Failure? ==>
      sm.State() == Drop(sm.Prepared(old(sm.State()), now), sessionId)
  {
    var invalid := ValidateConnectionRequest(req, cfg);
    if invalid.Some? {
      return Failure(invalid.value);
    }
    var ok := sm.SetSessionData(sessionId, map[ConnectionKey := ConnectionRecord(req)], now);
    if !ok {
      return Failure(Raise(INTERNAL_SERVER_ERROR, "Failed to save connection configuration"));
    }
    r := Success(ConnectionUpdateResponse(true, "Connection configuration updated to '" + req.current + "'"));
  }

  // ----- get_connection ------------------------------------------------------

  datatype ConnectionInfo = ConnectionInfo(id: string, alias: string)
  datatype ConnectionResponse = ConnectionResponse(
    connections: seq<ConnectionInfo>,
    default: Option<string>,
    current: Json,
    customConnection: Json)

  /** The entry get_connection lists for a connection: id defaults to "", alias to the id, then "Unknown". */
  function InfoOf(c: Connection): (r: ConnectionInfo)
    ensures r.id == c.id.GetOr("")
    ensures c.alias.Some? ==> r.alias == c.alias.value
    ensures c.alias.None? && c.id.Some? ==> r.alias == c.id.value
    ensures c.alias.None? && c.id.None? ==> r.alias == "Unknown"
  {
    ConnectionInfo(c.id.GetOr(""), c.alias.GetOr(c.id.GetOr("Unknown")))
  }

  /** The append loop of get_connection: one entry per configured connection, in file order. */
  method BuildConnectionList(cs: seq<Connection>) returns (list: seq<ConnectionInfo>)
    ensures |list| == |cs|
    ensures forall i :: 0 <= i < |cs| ==> list[i] == InfoOf(cs[i])
  {
    list := [];
    var i := 0;
    while i < |cs|
      invariant 0 <= i <= |cs|
      invariant |list| == i
      invariant forall j :: 0 <= j < i ==> list[j] == InfoOf(cs[j])
    {
      list := list + [InfoOf(cs[i])];
      i := i + 1;
    }
  }

  /**
   * get_connection: the configured connections and default, and the
   * session's stored selection; 500 when the stored value is no dict.
   */
  method GetConnection(sm: SessionManager, cfg: Config, sessionId: string, now: int)
    returns (r: Result<ConnectionResponse, HttpError>)
    requires sm.Valid() && sm.ClockOk(now)
    modifies sm
    ensures sm.Valid() && sm.ClockOk(now)
    ensures sm.State() == Access(sm.Prepared(old(sm.State()), now), sm.timeout, sessionId, now)
    ensures var data := if old(sm.IsSessionActive(sessionId, now)) then Some(old(sm.sessions)[sessionId].data) else None;
      && (r.Failure? <==> StoredIsBroken(data))
      && (r.Failure? ==> r.error == Raise(INTERNAL_SERVER_ERROR,
            "Failed to load connection configuration: " + NoAttribute(StoredConnection(data), "get")))
      && (r.Success? ==> r.value.current == StoredCurrent(data) && r.value.customConnection == StoredCustom(data))
    ensures r.Success? ==>
      && |r.value.connections| == |cfg.GetStackStormConnections().connections|
      && (forall i :: 0 <= i < |r.value.connections| ==>
            r.value.connections[i] == InfoOf(cfg.GetStackStormConnections().connections[i]))
      && r.value.default == cfg.GetStackStormConnections().default
  {
    var connectionsConfig := cfg.GetStackStormConnections();
    var list := BuildConnectionList(connectionsConfig.connections);
    var data := sm.GetSessionData(sessionId, now);
    if StoredIsBroken(data) {
      return Failure(Raise(INTERNAL_SERVER_ERROR,
        "Failed to load connection configuration: " + NoAttribute(StoredConnection(data), "get")));
    }
    r := Success(ConnectionResponse(list, connectionsConfig.default, StoredCurrent(data), StoredCustom(data)));
  }

  // ----- requests to the StackStorm server -----------------------------------

  /** stackstorm_config["url"].rstrip("/"), or the AttributeError when the url is no string. */
  function BaseUrl(e: Endpoint): (r: Result<string, string>)
    ensures r.Success? <==> e.url.Str?
    ensures r.Success? ==> r.value == RStrip(e.url.s, '/')
    ensures r.Failure? ==> r.error == NoAttribute(e.url, "rstrip")
  {
    if e.url.Str? then Success(RStrip(e.url.s, '/')) else Failure(NoAttribute(e.url, "rstrip"))
  }

  /** The request headers: JSON content, and the API key when it is set. */
  function Headers(e: Endpoint): (h: map<string, Json>)
    ensures "Content-Type" in h && h["Content-Type"] == Str("application/json")
    ensures "St2-Api-Key" in h <==> Truthy(e.apiKey)
    ensures "St2-Api-Key" in h ==> h["St2-Api-Key"] == e.apiKey
    ensures h.Keys <= {"Content-Type", "St2-Api-Key"}
  {
    var h := map["Content-Type" := Str("application/json")];
    if Truthy(e.apiKey) then h["St2-Api-Key" := e.apiKey] else h
  }

  function TestRequest(base: string, e: Endpoint): OutboundRequest {
    GetRequest(base + "/v1/executions", Headers(e))
  }

  function ExecutionsRequest(base: string, e: Endpoint): OutboundRequest {
    GetRequest(base + "/v1/executions?limit=50&show_secrets=false", Headers(e))
  }

  function ExecutionRequest(base: string, e: Endpoint, executionId: string): OutboundRequest {
    GetRequest(base + "/v1/executions/" + executionId + "?show_secrets=false", Headers(e))
  }

  /** A base url ending in any number of slashes addresses the same server path. */
  lemma {:induction false} TrailingSlashesIgnored(url: string, k: nat)
    ensures RStrip(url + seq(k, _ => '/'), '/') == RStrip(url, '/')
  {
    if k > 0 {
      var shorter := url + seq(k - 1, _ => '/');
      var longer := url + seq(k, _ => '/');
      assert longer == shorter + ['/'];
      assert longer[..|longer| - 1] == shorter;
      TrailingSlashesIgnored(url, k - 1);
    } else {
      assert url + seq(k, _ => '/') == url;
    }
  }

  /** The path is joined to a base that does not end in '/', so no '//' appears at the join. */
  lemma ExecutionUrlJoin(e: Endpoint, executionId: string)
    requires e.url.Str?
    ensures var base := BaseUrl(e).value;
      && (base == [] || base[|base| - 1] != '/')
      && ExecutionRequest(base, e, executionId).url[..|base| + 15] == base + "/v1/executions/"
  {
    var base := BaseUrl(e).value;
    assert ExecutionRequest(base, e, executionId).url == base + "/v1/executions/" + (executionId + "?show_secrets=false");
  }

  // ----- test_connection -----------------------------------------------------

  datatype ConnectionTestResponse = ConnectionTestResponse(success: bool, message: string)

  /** test_connection after resolution: every failure becomes success = False with a message. */
  function TestConnectionOutcome(res: Result<Endpoint, Fault>, remote: Remote): (r: ConnectionTestResponse)
    ensures r.success <==>
      res.Success? && BaseUrl(res.value).Success? &&
      var o := remote(TestRequest(BaseUrl(res.value).value, res.value)); o.Responded? && o.status == OK
    ensures res.Failure? && res.error.Raised? ==> r == ConnectionTestResponse(false, PyStr(res.error.error.detail))
    ensures res.Failure? && res.error.Crashed? ==>
      r == ConnectionTestResponse(false, "Connection test failed: " + res.error.message)
    ensures res.Success? && BaseUrl(res.value).Failure? ==>
      r == ConnectionTestResponse(false, "Connection test failed: " + BaseUrl(res.value).error)
    ensures res.Success? && BaseUrl(res.value).Success? ==>
      var o := remote(TestRequest(BaseUrl(res.value).value, res.value));
      && (o.Responded? && o.status == OK ==> r == ConnectionTestResponse(true, "Connection successful"))
      && (o.Responded? && o.status == UNAUTHORIZED ==> r == ConnectionTestResponse(false, BadApiKeyMessage))
      && (o.Responded? && o.status != OK && o.status != UNAUTHORIZED ==>
            r == ConnectionTestResponse(false, "Connection failed: HTTP " + IntToString(o.status)))
      && (o.RequestError? ==> r == ConnectionTestResponse(false, "Failed to connect to StackStorm server"))
      && (o.OtherError? ==> r == ConnectionTestResponse(false, "Connection test failed: " + o.message))
  {
    match res
    case Failure(Raised(e)) => ConnectionTestResponse(false, PyStr(e.detail))
    case Failure(Crashed(m)) => ConnectionTestResponse(false, "Connection test failed: " + m)
    case Success(e) =>
      match BaseUrl(e)
      case Failure(m) => ConnectionTestResponse(false, "Connection test failed: " + m)
      case Success(base) =>
        match remote(TestRequest(base, e))
        case Responded(status, _, _) =>
          if status == OK then ConnectionTestResponse(true, "Connection successful")
          else if status == UNAUTHORIZED then ConnectionTestResponse(false, BadApiKeyMessage)
          else ConnectionTestResponse(false, "Connection failed: HTTP " + IntToString(status))
        case RequestError(_) => ConnectionTestResponse(false, "Failed to connect to StackStorm server")
        case OtherError(m) => ConnectionTestResponse(false, "Connection test failed: " + m)
  }

  /** The message for a status other than 200 and 401 names that status, which can be read back. */
  lemma TestConnectionStatusReadBack(res: Result<Endpoint, Fault>, remote: Remote)
    requires res.Success? && BaseUrl(res.value).Success?
    ensures var o := remote(TestRequest(BaseUrl(res.value).value, res.value));
      o.Responded? && o.status != OK && o.status != UNAUTHORIZED ==>
        var m := TestConnectionOutcome(res, remote).message;
        m[..|"Connection failed: HTTP "|] == "Connection failed: HTTP " &&
        ParseInt(m[|"Connection failed: HTTP "|..]) == Some(o.status)
  {
    var o := remote(TestRequest(BaseUrl(res.value).value, res.value));
    if o.Responded? && o.status != OK && o.status != UNAUTHORIZED {
      var m := TestConnectionOutcome(res, remote).message;
      assert m == "Connection failed: HTTP " + IntToString(o.status);
      assert m[|"Connection failed: HTTP "|..] == IntToString(o.status);
      IntToStringRoundTrip(o.status);
    }
  }

  /** test_connection: resolve the session's connection (refreshing it) and probe the server. */
  method TestConnection(sm: SessionManager, cfg: Config, sessionId: string, remote: Remote, now: int)
    returns (r: ConnectionTestResponse)
    requires sm.Valid() && sm.ClockOk(now)
    modifies sm
    ensures sm.Valid() && sm.ClockOk(now)
    ensures sm.State() == Access(sm.Prepared(old(sm.State()), now), sm.timeout, sessionId, now)
    ensures var data := if old(sm.IsSessionActive(sessionId, now)) then Some(old(sm.sessions)[sessionId].data) else None;
      r == TestConnectionOutcome(ResolveConnection(data, cfg), remote)
  {
    var data := sm.GetSessionData(sessionId, now);
    r := TestConnectionOutcome(ResolveConnection(data, cfg), remote);
  }

  // ----- get_executions and get_execution ------------------------------------

  /** The error raised for an exception that is neither an HTTPException nor a request error. */
  function Unexpected(message: string): HttpError {
    Raise(INTERNAL_SERVER_ERROR, "Unexpected error: " + message)
  }

  /** The errors both execution routes raise for a non-200 status other than 404. */
  function RemoteStatusError(status: int, text: string): HttpError {
    if status == UNAUTHORIZED then Raise(UNAUTHORIZED, BadApiKeyMessage)
    else Raise(status, "StackStorm API error: " + text)
  }

  predicate IsObj(v: Json) {
    v.Obj?
  }

  /**
   * get_executions after resolution. A 200 body must be a list of
   * objects (the response model); shapeError is the message its
   * validation gives otherwise.
   */
  function ExecutionsOutcome(res: Result<Endpoint, Fault>, remote: Remote, shapeError: Json -> string)
    : (r: Result<seq<Json>, HttpError>)
    ensures res.Failure? && res.error.Raised? ==> r == Failure(res.error.error)
    ensures res.Failure? && res.error.Crashed? ==> r == Failure(Unexpected(res.error.message))
    ensures r.Success? ==> forall i :: 0 <= i < |r.value| ==> IsObj(r.value[i])
    ensures res.Success? && BaseUrl(res.value).Failure? ==> r == Failure(Unexpected(BaseUrl(res.value).error))
    ensures res.Success? && BaseUrl(res.value).Success? ==>
      var o := remote(ExecutionsRequest(BaseUrl(res.value).value, res.value));
      && (o.Responded? && o.status != OK ==> r.Failure? && r.error.status == o.status)
      && (o.Responded? && o.status == UNAUTHORIZED ==> r == Failure(Raise(UNAUTHORIZED, BadApiKeyMessage)))
      && (o.Responded? && o.status != OK && o.status != UNAUTHORIZED ==>
            r == Failure(Raise(o.status, "StackStorm API error: " + o.text)))
      && (o.RequestError? ==> r == Failure(Raise(SERVICE_UNAVAILABLE, "Failed to connect to StackStorm: " + o.message)))
      && (o.OtherError? ==> r == Failure(Unexpected(o.message)))
      && (r.Success? <==> (o.Responded? && o.status == OK && o.body.Success? && o.body.value.Arr? &&
                           forall i :: 0 <= i < |o.body.value.items| ==> IsObj(o.body.value.items[i])))
      && (r.Success? ==> r.value == o.body.value.items)
  {
    match res
    case Failure(Raised(e)) => Failure(e)
    case Failure(Crashed(m)) => Failure(Unexpected(m))
    case Success(e) =>
      match BaseUrl(e)
      case Failure(m) => Failure(Unexpected(m))
      case Success(base) =>
        match remote(ExecutionsRequest(base, e))
        case Responded(status, text, body) =>
          if status != OK then Failure(RemoteStatusError(status, text))
          else if body.Failure? then Failure(Unexpected(body.error))
          else if body.value.Arr? && forall i :: 0 <= i < |body.value.items| ==> IsObj(body.value.items[i]) then
            Success(body.value.items)
          else Failure(Unexpected(shapeError(body.value)))
        case RequestError(m) => Failure(Raise(SERVICE_UNAVAILABLE, "Failed to connect to StackStorm: " + m))
        case OtherError(m) => Failure(Unexpected(m))
  }

  datatype ExecutionResponse = ExecutionResponse(executionData: map<string, Json>, message: string)

  /** get_execution after resolution. */
  function ExecutionOutcome(res: Result<Endpoint, Fault>, remote: Remote, executionId: string)
    : (r: Result<ExecutionResponse, HttpError>)
    ensures res.Failure? && res.error.Raised? ==> r == Failure(res.error.error)
    ensures res.Failure? && res.error.Crashed? ==> r == Failure(Unexpected(res.error.message))
    ensures res.Success? && BaseUrl(res.value).Failure? ==> r == Failure(Unexpected(BaseUrl(res.value).error))
    ensures res.Success? && BaseUrl(res.value).Success? ==>
      var o := remote(ExecutionRequest(BaseUrl(res.value).value, res.value, executionId));
      && (o.Responded? && o.status != OK ==> r.Failure? && r.error.status == o.status)
      && (o.Responded? && o.status == UNAUTHORIZED ==> r == Failure(Raise(UNAUTHORIZED, BadApiKeyMessage)))
      && (o.Responded? && o.status == NOT_FOUND ==> r == Failure(Raise(NOT_FOUND, "Execution " + executionId + " not found")))
      && (o.Responded? && o.status != OK && o.status != UNAUTHORIZED && o.status != NOT_FOUND ==>
            r == Failure(Raise(o.status, "StackStorm API error: " + o.text)))
      && (o.RequestError? ==> r == Failure(Raise(SERVICE_UNAVAILABLE, "Failed to connect to StackStorm: " + o.message)))
      && (o.OtherError? ==> r == Failure(Unexpected(o.message)))
      && (r.Success? <==> o.Responded? && o.status == OK && o.body.Success? && o.body.value.Obj?)
      && (r.Success? ==> r.value.executionData == o.body.value.fields)
    ensures r.Success? ==>
      r.value.message == "Execution loaded successfully! Status: " + PyStr(GetOr(r.value.executionData, "status", Str("unknown")))
  {
    match res
    case Failure(Raised(e)) => Failure(e)
    case Failure(Crashed(m)) => Failure(Unexpected(m))
    case Success(e) =>
      match BaseUrl(e)
      case Failure(m) => Failure(Unexpected(m))
      case Success(base) =>
        match remote(ExecutionRequest(base, e, executionId))
        case Responded(status, text, body) =>
          if status == OK then
            if body.Failure? then Failure(Unexpected(body.error))
            else if !body.value.Obj? then Failure(Unexpected(NoAttribute(body.value, "get")))
            else
              var status := GetOr(body.value.fields, "status", Str("unknown"));
              Success(ExecutionResponse(body.value.fields, "Execution loaded successfully! Status: " + PyStr(status)))
          else if status == NOT_FOUND then Failure(Raise(NOT_FOUND, "Execution " + executionId + " not found"))
          else Failure(RemoteStatusError(status, text))
        case RequestError(m) => Failure(Raise(SERVICE_UNAVAILABLE, "Failed to connect to StackStorm: " + m))
        case OtherError(m) => Failure(Unexpected(m))
  }

  /** get_executions: resolve the session's connection (refreshing it) and list executions. */
  method GetExecutions(sm: SessionManager, cfg: Config, sessionId: string, remote: Remote,
                       shapeError: Json -> string, now: int)
    returns (r: Result<seq<Json>, HttpError>)
    requires sm.Valid() && sm.ClockOk(now)
    modifies sm
    ensures sm.Valid() && sm.ClockOk(now)
    ensures sm.State() == Access(sm.Prepared(old(sm.State()), now), sm.timeout, sessionId, now)
    ensures var data := if old(sm.IsSessionActive(sessionId, now)) then Some(old(sm.sessions)[sessionId].data) else None;
      r == ExecutionsOutcome(ResolveConnection(data, cfg), remote, shapeError)
  {
    var data := sm.GetSessionData(sessionId, now);
    r := ExecutionsOutcome(ResolveConnection(data, cfg), remote, shapeError);
  }

  /** get_execution: resolve the session's connection (refreshing it) and fetch one execution. */
  method GetExecution(sm: SessionManager, cfg: Config, sessionId: string, executionId: string, remote: Remote, now: int)
    returns (r: Result<ExecutionResponse, HttpError>)
    requires sm.Valid() && sm.ClockOk(now)
    modifies sm
    ensures sm.Valid() && sm.ClockOk(now)
    ensures sm.State() == Access(sm.Prepared(old(sm.State()), now), sm.timeout, sessionId, now)
    ensures var data := if old(sm.IsSessionActive(sessionId, now)) then Some(old(sm.sessions)[sessionId].data) else None;
      r == ExecutionOutcome(ResolveConnection(data, cfg), remote, executionId)
  {
    var data := sm.GetSessionData(sessionId, now);
    r := ExecutionOutcome(ResolveConnection(data, cfg), remote, executionId);
  }
}
