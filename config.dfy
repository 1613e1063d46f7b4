/**
 * Backend configuration: settings read from the environment once, when
 * the configuration object is built, and the list of preconfigured
 * StackStorm connections read from a JSON file. The environment is a map
 * of strings and the file read is an input (what the read produced).
 */
module AppConfig {
  import opened Wrappers
  import opened Text

  /** One entry of the connections file; a missing key is None. */
  datatype Connection = Connection(
    id: Option<string>,
    alias: Option<string>,
    url: Option<string>,
    apiKey: Option<string>)

  /** The connections file: a default id and the connection entries. */
  datatype ConnectionsConfig = ConnectionsConfig(default: Option<string>, connections: seq<Connection>)

  /** {"default": None, "connections": []} */
  const NoConnections := ConnectionsConfig(None, [])

  /**
   * What reading the connections file produced: no file, an exception
   * while opening or decoding it, or its decoded content (None when the
   * file held a JSON value Python treats as false, such as null).
   */
  datatype ConfigFile = NotFound | LoadError(message: string) | Loaded(content: Option<ConnectionsConfig>)

  datatype CookieSettings = CookieSettings(httponly: bool, secure: bool, samesite: string)

  /** os.getenv(name, default) */
  function EnvOr(env: map<string, string>, name: string, default: string): string {
    if name in env then env[name] else default
  }

  /** The boolean settings: the string, lower-cased, equals "true". */
  predicate ParseFlag(s: string) {
    Lower(s) == "true"
  }

  function EnvFlag(env: map<string, string>, name: string, default: string): bool {
    ParseFlag(EnvOr(env, name, default))
  }

  /** A flag is set exactly by the four-letter word true in any mix of cases. */
  lemma ParseFlagCases(s: string)
    ensures ParseFlag(s) <==>
      |s| == 4 && s[0] in "tT" && s[1] in "rR" && s[2] in "uU" && s[3] in "eE"
  {
    if |s| == 4 {
      assert Lower(s) == [LowerChar(s[0]), LowerChar(s[1]), LowerChar(s[2]), LowerChar(s[3])];
    }
  }

  /** _load_stackstorm_connections: a missing or unreadable file yields the empty configuration. */
  function LoadConnections(file: ConfigFile): (r: Option<ConnectionsConfig>)
    ensures !file.Loaded? ==> r == Some(NoConnections)
    ensures file.Loaded? ==> r == file.content
  {
    match file
    case NotFound => Some(NoConnections)
    case LoadError(_) => Some(NoConnections)
    case Loaded(content) => content
  }

  /** The index of the first connection whose id is the given one. */
  function FirstWithId(cs: seq<Connection>, id: string): (r: Option<nat>)
    ensures r.Some? ==> r.value < |cs| && cs[r.value].id == Some(id)
    ensures r.Some? ==> forall j :: 0 <= j < r.value ==> cs[j].id != Some(id)
    ensures r.None? ==> forall j :: 0 <= j < |cs| ==> cs[j].id != Some(id)
    decreases |cs|
  {
    if cs == [] then None
    else if cs[0].id == Some(id) then Some(0)
    else
      match FirstWithId(cs[1..], id)
      case None => None
      case Some(k) => Some(k + 1)
  }

  /** A connection with the given id, the first one in file order. */
  function FindConnection(cs: seq<Connection>, id: string): (r: Option<Connection>)
  {
    match FirstWithId(cs, id)
    case None => None
    case Some(k) => Some(cs[k])
  }

  /** The timeout setting parses (otherwise int() raises and the backend does not start). */
  predicate TimeoutParses(env: map<string, string>) {
    ParseInt(EnvOr(env, "SESSION_TIMEOUT_HOURS", "4")).Some?
  }

  class Config {
    const passphraseAuth: bool
    const passphrase: string
    const sessionTimeoutHours: int
    const sessionCookieName: string
    const sessionCookieSecure: bool
    const sessionCookieSameSite: string
    const proactiveSessionCleanup: bool
    const authRateLimit: string
    const connectionsConfigPath: string
    /** _stackstorm_connections: None when unset. */
    const stackstormConnections: Option<ConnectionsConfig>

    /** Config.__init__ given the environment and the outcome of reading the connections file. */
    constructor (env: map<string, string>, file: ConfigFile)
      requires TimeoutParses(env)
      ensures passphraseAuth == EnvFlag(env, "PASSPHRASE_AUTH", "true")
      ensures passphrase == EnvOr(env, "PASSPHRASE", "Ch@ngeMe")
      ensures Some(sessionTimeoutHours) == ParseInt(EnvOr(env, "SESSION_TIMEOUT_HOURS", "4"))
      ensures sessionCookieName == EnvOr(env, "SESSION_COOKIE_NAME", "session_id")
      ensures sessionCookieSecure == EnvFlag(env, "SESSION_COOKIE_SECURE", "false")
      ensures sessionCookieSameSite == EnvOr(env, "SESSION_COOKIE_SAMESITE", "lax")
      ensures proactiveSessionCleanup == EnvFlag(env, "PROACTIVE_SESSION_CLEANUP", "true")
      ensures authRateLimit == EnvOr(env, "AUTH_RATE_LIMIT", "5/minute")
      ensures connectionsConfigPath == EnvOr(env, "STACKSTORM_CONNECTIONS_CONFIG", "./config/stackstorm-connections.json")
      ensures stackstormConnections == LoadConnections(file)
    {
      passphraseAuth := EnvFlag(env, "PASSPHRASE_AUTH", "true");
      passphrase := EnvOr(env, "PASSPHRASE", "Ch@ngeMe");
      sessionTimeoutHours := ParseInt(EnvOr(env, "SESSION_TIMEOUT_HOURS", "4")).value;
      sessionCookieName := EnvOr(env, "SESSION_COOKIE_NAME", "session_id");
      sessionCookieSecure := EnvFlag(env, "SESSION_COOKIE_SECURE", "false");
      sessionCookieSameSite := EnvOr(env, "SESSION_COOKIE_SAMESITE", "lax");
      proactiveSessionCleanup := EnvFlag(env, "PROACTIVE_SESSION_CLEANUP", "true");
      authRateLimit := EnvOr(env, "AUTH_RATE_LIMIT", "5/minute");
      connectionsConfigPath := EnvOr(env, "STACKSTORM_CONNECTIONS_CONFIG", "./config/stackstorm-connections.json");
      stackstormConnections := LoadConnections(file);
    }

    /** get_stackstorm_connections: never fails; an unset configuration reads as the empty one. */
    function GetStackStormConnections(): (r: ConnectionsConfig)
      ensures stackstormConnections.None? ==> r == NoConnections
      ensures stackstormConnections.Some? ==> r == stackstormConnections.value
    {
      stackstormConnections.GetOr(NoConnections)
    }

    /** get_stackstorm_connection_by_id */
    function GetConnectionById(id: string): (r: Option<Connection>)
      ensures r.Some? ==> stackstormConnections.Some? && r.value in stackstormConnections.value.connections
      ensures r.Some? ==> r.value.id == Some(id)
    {
      match stackstormConnections
      case None => None
      case Some(c) => FindConnection(c.connections, id)
    }

    /** get_default_stackstorm_connection: a missing or empty default id yields None. */
    function GetDefaultConnection(): (r: Option<Connection>)
      ensures r == if stackstormConnections.None? then None
        else var d := stackstormConnections.value.default;
          if d.None? || d.value == "" then None else GetConnectionById(d.value)
    {
      match stackstormConnections
      case None => None
      case Some(c) =>
        if c.default.None? || c.default.value == "" then None
        else FindConnection(c.connections, c.default.value)
    }

    /** get_cookie_settings: the session cookie is always HttpOnly. */
    function GetCookieSettings(): (r: CookieSettings)
      ensures r.httponly
      ensures r.secure == sessionCookieSecure && r.samesite == sessionCookieSameSite
    {
      CookieSettings(true, sessionCookieSecure, sessionCookieSameSite)
    }
  }

  /** The lookup by id finds the first entry with that id, and nothing when none has it. */
  lemma GetConnectionByIdFirstMatch(cfg: Config, id: string)
    ensures match cfg.GetConnectionById(id)
      case None =>
        cfg.stackstormConnections.None? ||
        forall j :: 0 <= j < |cfg.stackstormConnections.value.connections| ==>
          cfg.stackstormConnections.value.connections[j].id != Some(id)
      case Some(c) =>
        var cs := cfg.stackstormConnections.value.connections;
        exists k :: 0 <= k < |cs| && cs[k] == c && forall j :: 0 <= j < k ==> cs[j].id != Some(id)
  {
    if cfg.stackstormConnections.Some? {
      var cs := cfg.stackstormConnections.value.connections;
      var k := FirstWithId(cs, id);
      if k.Some? {
        assert cs[k.value] == cfg.GetConnectionById(id).value;
      }
    }
  }
}
