# Orquestulator backend core, modelled in Dafny

Orquestulator is a web tool for testing StackStorm/Orquesta expressions.
Its backend keeps passphrase logins as server-side sessions held in memory.
Each session stores per-user data, such as the StackStorm server it talks to.
The backend also forwards requests to that server and evaluates YAQL, Jinja2
and Orquesta expressions. This project models the backend's core, and proves
properties of the model:

- **Session store** (`session_manager.py`), as an imperative class
  `Sessions.SessionManager`. It holds a map from id to session and the activity
  list, and its methods change both in place. Each method's postcondition gives
  the new state as a function of the old one. Those functions live in
  `SessionState`, where the store invariant is proved. The invariant: the
  activity list holds the stored ids exactly once each, ordered by last
  activity from old to recent. Also proved there: a sweep keeps exactly the
  active sessions, unchanged; lookups expire lazily; a refresh moves the id to
  the back; a merge overwrites only the supplied keys.
- **Request gate and session routes** (`auth_middleware.py`,
  `session_router.py`). These are methods over the same manager: the
  passphrase decision, login, status, storing and reading data, and counts.
- **Configuration** (`config.py`). A class whose fields the constructor sets
  from the environment and from what reading the connections file produced.
  The lookups by id are first-match searches, written as recursive functions.
- **StackStorm routes** (`stackstorm_router.py`). These are pure functions:
  - connection resolution (custom, then selected id, then default);
  - validation of a new selection, and the record that stores it;
  - URL and header building;
  - mapping the remote side's answers to route results.
  The routes are methods that read the session (refreshing it) and apply those
  functions. The server is a function parameter from request to outcome.
- **Evaluation route** (`evaluate.py`). The Orquesta context built by a loop,
  proved equal to a specification function whose properties are lemmas. Also
  the dispatch to the three evaluators, which are function parameters, with
  errors wrapped as 400.

Modules: `Wrappers` (Option/Result), `Text` (startswith, rstrip, lower,
decimal str/int), `Json` (JSON values, Python truthiness, `str()`,
AttributeError text), `Http`, `AppConfig`, `SessionState`, `Sessions`,
`AuthMiddleware`, `SessionRouter`, `StackStormRouter`, `Evaluate`.

Time and the random token:
- Time is an integer count of microseconds. Each public call takes one `now`.
- The monotone clock is the precondition `ClockOk(now)`: no stored session was
  active later than `now`.
- The session token from `secrets.token_urlsafe` is an unused id that the
  caller supplies.

Behaviour of the code that is easy to miss:
- Orquesta evaluation drops every request key starting with `__`, including
  `__task_status` and `__task_result`. It then rebuilds the task context under
  `__current_task`, `__state` and `__current_item` from those keys.
- `__task_status` may be any value; nothing restricts it to `succeeded` or
  `failed`.
- The list route (`get_executions`) special-cases only the remote status 401;
  the single-execution route (`get_execution`) special-cases 401 and 404. Every
  other status, a 403 for instance, passes through as "StackStorm API error:
  <text>" (and so does a 404 on the list route).
- The path pattern of the evaluation route, `^(yaql|jinja2|orquesta)$`, also
  lets a name followed by one newline through, assuming the path validator
  matches with Python's `re.match`, as pydantic v1 does (pydantic v2 uses a
  different regex engine, whose `$` may not admit the newline). Such a
  path reaches the "Unsupported query type" branch, and the route answers 400.

Facts worth knowing, proved here:
- After `RequireValidSession` succeeds, the session is active at that same
  instant. So the "Session not found" 500 of the data route cannot follow a
  successful gate at the same instant (`SessionRouter.GuardedGetSessionData`
  fails only with 401). With a real clock it can still happen when the timeout
  runs out between the two calls.
- A validated selection survives storage and resolution
  (`StackStormRouter.SetThenResolve`), with one exception: the id `""`. It is
  accepted when a configured connection has that id, yet it later reads as no
  selection, so the default is used (`StackStormRouter.SetEmptyIdResolvesToDefault`).

## Model

| member | source | states |
|---|---|---|
| `AppConfig.ParseFlagCases` | backend/app/lib/config.py:23-35 | a boolean setting is on exactly for the four letters t,r,u,e in any mix of cases |
| `AppConfig.EnvOr` | backend/app/lib/config.py:23-35 | definition: os.getenv with the given default; see Config.constructor |
| `AppConfig.EnvFlag` | backend/app/lib/config.py:23-35 | definition: a setting, with its default, read as a flag; see ParseFlagCases |
| `AppConfig.ParseFlag` | backend/app/lib/config.py:23-35 | definition: lower() == "true"; see ParseFlagCases |
| `AppConfig.FindConnection` | backend/app/lib/config.py:91-95 | definition: the entry at FirstWithId; see GetConnectionByIdFirstMatch |
| `AppConfig.LoadConnections` | backend/app/lib/config.py:49-63 | a missing file or a read/decode error yields `{"default": None, "connections": []}`; otherwise the file's content |
| `AppConfig.Config.constructor` | backend/app/lib/config.py:19-47 | each setting is the environment value or its default (the same defaults as the source); the flags are parsed, and the connections are loaded |
| `AppConfig.Config.GetStackStormConnections` | backend/app/lib/config.py:65-67 | always a value: the empty configuration when none is loaded |
| `AppConfig.FirstWithId` | backend/app/lib/config.py:91-95 | the index of the first entry with that id; no earlier entry has it; None exactly when no entry has it |
| `AppConfig.Config.GetConnectionById` | backend/app/lib/config.py:84-95 | a result is a configured connection carrying the requested id |
| `AppConfig.GetConnectionByIdFirstMatch` | backend/app/lib/config.py:84-95 | the lookup returns the first connection with that id, and None when the configuration is unset or no entry has it |
| `AppConfig.Config.GetDefaultConnection` | backend/app/lib/config.py:69-82 | None when unset or the default id is missing/empty; otherwise the lookup of the default id |
| `AppConfig.Config.GetCookieSettings` | backend/app/lib/config.py:97-103 | httponly is always true; secure and samesite are copied from the settings |
| `Text.RStrip` | backend/app/routes/stackstorm_router.py:190 | the result is a prefix of the input, does not end in the character, and only that character was removed |
| `Text.RStripIdempotent` | backend/app/routes/stackstorm_router.py:281 | stripping a stripped base changes nothing |
| `SessionState.Active` | backend/app/lib/session_manager.py:132-139 | definition: stored and last activity + timeout > now; see ExpiryIsPermanent |
| `SessionState.Insert` | backend/app/lib/session_manager.py:35-40 | definition: the entry at now, appended to the list; see InsertInvariant |
| `SessionState.Drop` | backend/app/lib/session_manager.py:169-178 | definition: list.remove and pop; see DropInvariant |
| `SessionState.Touch` | backend/app/lib/session_manager.py:105-113 | definition: activity now, moved to the back; see TouchMovesToBack and TouchIsDropThenInsert |
| `SessionState.SweepFront` | backend/app/lib/session_manager.py:146-151 | definition: the while loop, dropping the head while it is inactive; see the sweep lemmas |
| `SessionState.Sweep` | backend/app/lib/session_manager.py:141-153 | definition: nothing on an empty store, else the loop; see SweepKeepsExactlyActive |
| `SessionState.Prepare` | backend/app/lib/session_manager.py:29-30 | definition: the sweep when proactive cleanup is on; see PrepareFacts |
| `SessionState.Access` | backend/app/lib/session_manager.py:100-114 | definition: refresh when active, else delete; see AccessInvariant |
| `SessionState.ExpiryIsPermanent` | backend/app/lib/session_manager.py:132-139 | active iff stored and now < lastActivity + timeout (strict); expired at lastActivity + timeout and at every later instant |
| `SessionState.IndexOf` | backend/app/lib/session_manager.py:172-173 | the position list.remove deletes: the first occurrence |
| `SessionState.RemoveFirstMembers` | backend/app/lib/session_manager.py:106-110 | removing an id from a duplicate-free list leaves it duplicate-free, with exactly the other ids |
| `SessionState.RemoveFirstSorted` | backend/app/lib/session_manager.py:172-176 | removing an id keeps the list ordered by activity |
| `SessionState.DropInvariant` | backend/app/lib/session_manager.py:169-178 | deleting keeps the invariant, and the id is then in neither the map nor the list |
| `SessionState.InsertInvariant` | backend/app/lib/session_manager.py:35-40 | adding a fresh id with activity now, at the end of the list, keeps the invariant under a monotone clock |
| `SessionState.TouchIsDropThenInsert` | backend/app/lib/session_manager.py:105-113 | a refresh is the deletion of the id followed by its re-insertion with the same data at now |
| `SessionState.TouchInvariant` | backend/app/lib/session_manager.py:105-113 | a refresh keeps the invariant and the clock assumption |
| `SessionState.TouchMovesToBack` | backend/app/lib/session_manager.py:105-113 | after a refresh the id occurs once, at the end; its activity is now and its data unchanged; other sessions are unchanged |
| `SessionState.Merge` | backend/app/lib/session_manager.py:88 | the shallow merge: list and ids unchanged; supplied keys overwritten, other keys kept; other sessions unchanged |
| `SessionState.MergeInvariant` | backend/app/lib/session_manager.py:88 | a merge keeps the invariant |
| `SessionState.MergeThenTouch` | backend/app/lib/session_manager.py:83-92 | merging then refreshing an active session: it holds old data plus the new keys at now; nothing else changes |
| `SessionState.SweepFrontStep` | backend/app/lib/session_manager.py:146-151 | one loop turn removes the inactive head; the loop stops at an empty list or an active head |
| `SessionState.SweepLoopStep` | backend/app/lib/session_manager.py:146-151 | a loop turn keeps the final state and the list of removed ids |
| `SessionState.SweepFrontSettled` | backend/app/lib/session_manager.py:146-148 | after the loop the list is empty or its head is active |
| `SessionState.SweepFrontShape` | backend/app/lib/session_manager.py:146-151 | the removed ids are a prefix of the list, in order |
| `SessionState.SweepFrontRest` | backend/app/lib/session_manager.py:146-151 | the list the loop leaves is what follows the removed ids |
| `SessionState.SweepFrontSessions` | backend/app/lib/session_manager.py:149-151 | the sessions left are the old ones minus the removed ids |
| `SessionState.SweepFrontIdsInactive` | backend/app/lib/session_manager.py:146-148 | every removed id was inactive |
| `SessionState.SweepFrontInvariant` | backend/app/lib/session_manager.py:141-153 | the loop keeps the invariant |
| `SessionState.SettledAllActive` | backend/app/lib/session_manager.py:21-22 | in a sorted store whose head is active, every session is active |
| `SessionState.EmptyStore` | backend/app/lib/session_manager.py:144-145 | under the invariant, no sessions exactly when the list is empty |
| `SessionState.SweepKeepsExactlyActive` | backend/app/lib/session_manager.py:141-153 | a sweep keeps the invariant and exactly the active sessions, unchanged |
| `SessionState.SweepLeavesOnlyActive` | backend/app/lib/session_manager.py:141-153 | after a sweep every remaining session is active |
| `SessionState.SweptIdsArePrefix` | backend/app/lib/session_manager.py:141-153 | the returned ids are the front of the list, in order; all were stored and expired; the list left is the rest |
| `SessionState.SettledSweepIsIdentity` | backend/app/lib/session_manager.py:146-148 | a store whose head is active is left as it is |
| `SessionState.SweepSettles` | backend/app/lib/session_manager.py:146-148 | a swept non-empty store has an active head |
| `SessionState.SweepIdempotent` | backend/app/lib/session_manager.py:141-153 | sweeping twice at one instant is sweeping once |
| `SessionState.PrepareFacts` | backend/app/lib/session_manager.py:29-30 | the optional cleanup keeps the invariant and the clock; it changes no session's activity or value |
| `SessionState.PrepareIdempotent` | backend/app/lib/session_manager.py:97-98 | the nested cleanup inside update_activity changes nothing more |
| `SessionState.PrepareAfterMerge` | backend/app/lib/session_manager.py:88-90 | after a merge into an active session, the cleanup in update_activity removes nothing |
| `SessionState.SetDataFacts` | backend/app/lib/session_manager.py:77-92 | cleanup, merge and refresh keep the invariant; the session holds old data plus the supplied keys at now; every other remaining session is an old one, unchanged |
| `SessionState.AccessInvariant` | backend/app/lib/session_manager.py:100-114 | access (refresh if active, else delete) keeps the invariant and the clock |
| `SessionState.ActiveIdsBound` | backend/app/lib/session_manager.py:159-165 | the active ids are stored ids: active count <= total |
| `Sessions.SessionManager.constructor` | backend/app/lib/session_manager.py:13-24 | for the hours timedelta accepts, an empty store that satisfies the invariant; timeout is hours converted to microseconds |
| `Sessions.SessionManager.DeleteEntry` | backend/app/lib/session_manager.py:169-178 | returns the removed session if it was stored; the id is then in neither the map nor the list |
| `Sessions.SessionManager.CleanupExpiredSessions` | backend/app/lib/session_manager.py:141-153 | keeps the invariant; the new store is the sweep of the old one and the result its swept ids (so, by the sweep lemmas, the expired front of the list, in order, leaving exactly the active sessions) |
| `Sessions.SessionManager.GetSessionOrDelete` | backend/app/lib/session_manager.py:124-130 | an active session is returned, with no change; otherwise it is deleted and None returned |
| `Sessions.SessionManager.UpdateActivity` | backend/app/lib/session_manager.py:94-114 | True iff active; the id is then once, at the end, with activity now and data unchanged; otherwise deleted |
| `Sessions.SessionManager.GetSession` | backend/app/lib/session_manager.py:44-60 | Some iff active: the session with its data (activity now when refreshing); None leaves the id in neither map nor list |
| `Sessions.SessionManager.GetSessionData` | backend/app/lib/session_manager.py:62-75 | an active session's data, refreshed; None, and the session gone, otherwise |
| `Sessions.SessionManager.SetSessionData` | backend/app/lib/session_manager.py:77-92 | False iff missing or expired (then deleted); otherwise old data plus supplied keys at now, other sessions unchanged |
| `Sessions.SessionManager.DeleteSession` | backend/app/lib/session_manager.py:116-122 | after the cleanup, deletes the id and returns its session if it was still stored |
| `Sessions.SessionManager.CreateSession` | backend/app/lib/session_manager.py:26-42 | the new id maps to the given data (or none) with activity now, at the end of the list; the invariant holds |
| `Sessions.SessionManager.GetSessionCountInfo` | backend/app/lib/session_manager.py:155-167 | changes nothing; total = stored sessions, active = those active at now, active <= total |
| `AuthMiddleware.HasSessionCookie` | backend/app/lib/auth_middleware.py:14-15 | definition: the configured cookie was sent with a non-empty value; see RequireValidSession |
| `AuthMiddleware.SessionIdFromCookies` | backend/app/lib/auth_middleware.py:7-9 | the value of the cookie the configuration names, when it was sent |
| `AuthMiddleware.RequireValidSession` | backend/app/lib/auth_middleware.py:12-28 | success iff a non-empty cookie names an active session; returns that id, refreshed and still active; 401 otherwise, with no store change when no id was sent |
| `SessionRouter.PassphraseAccepted` | backend/app/routes/session_router.py:33-37 | definition: the check is off, or the passphrase is given, non-empty and equal to the configured one; see PassphraseAcceptedIff |
| `SessionRouter.PassphraseAcceptedIff` | backend/app/routes/session_router.py:33-37 | with the check on, only the configured, non-empty passphrase is accepted |
| `SessionRouter.Authenticate` | backend/app/routes/session_router.py:26-47 | refused: 401 "Invalid passphrase" and no change; accepted: exactly one new empty session, whose id the cookie carries |
| `SessionRouter.GetAuthStatus` | backend/app/routes/session_router.py:50-71 | passphrase_required always equals the setting; authenticated iff the cookie names an active session, then reporting activity now |
| `SessionRouter.StoreSessionData` | backend/app/routes/session_router.py:74-91 | 500 iff the session is not active, which is then deleted; otherwise the new store is cleanup, merge and refresh: old data plus the keys at now, other sessions unchanged |
| `SessionRouter.GetSessionData` | backend/app/routes/session_router.py:94-108 | the session's full data, or 500 "Session not found" when it is not active; the new store is cleanup then refresh or deletion |
| `SessionRouter.GuardedGetSessionData` | backend/app/routes/session_router.py:94-108 | the data route behind its gate at one instant: success iff the cookie names an active session, with its data; every failure is 401 |
| `SessionRouter.GetSessionCount` | backend/app/routes/session_router.py:111-117 | the manager's counts, with active <= total |
| `StackStormRouter.Preconfigured` | backend/app/routes/stackstorm_router.py:58-69 | a configured connection's url and api_key, or 400 naming the missing id |
| `StackStormRouter.ResolveConnection` | backend/app/routes/stackstorm_router.py:19-69 | every raised error is 400; a crash needs a stored value that is no dict; a success is the session's custom data or a configured connection; a truthy selection other than "custom" is looked up as it is, never replaced by the default |
| `StackStormRouter.SelectionUsesConfiguration` | backend/app/routes/stackstorm_router.py:33-69 | a truthy selection other than "custom" resolves to that id's configured url and api_key, or to 400 "Connection '<id>' not found in preconfigured connections." |
| `StackStormRouter.Selected` | backend/app/routes/stackstorm_router.py:59 | definition: the configured connection a selection names, only a string can name one; see Preconfigured |
| `StackStormRouter.StoredIsBroken` | backend/app/routes/stackstorm_router.py:29-31 | definition: a truthy stored value that is no dict, whose `.get` raises; see ResolveConnection |
| `StackStormRouter.StoredCurrent` | backend/app/routes/stackstorm_router.py:26-31 | definition: the stored "current" field, None when nothing usable is stored; see ResolveConnection |
| `StackStormRouter.StoredCustom` | backend/app/routes/stackstorm_router.py:34-35 | definition: the stored "custom_connection" field, None when nothing usable is stored; see CustomIgnoresConfiguration |
| `StackStormRouter.CustomIgnoresConfiguration` | backend/app/routes/stackstorm_router.py:33-44 | a "custom" selection never consults the configuration: exactly the custom url/api_key, or 400 when no custom data |
| `StackStormRouter.NoSelectionUsesDefault` | backend/app/routes/stackstorm_router.py:46-56 | with nothing selected, the default id is used, and its absence is 400 |
| `StackStormRouter.ValidateConnectionRequest` | backend/app/routes/stackstorm_router.py:122-143 | accepted iff custom with data and a non-empty url, or a configured id; every refusal is 400 |
| `StackStormRouter.SetThenResolve` | backend/app/routes/stackstorm_router.py:145-159 | a stored validated selection resolves to exactly that custom endpoint or configured connection |
| `StackStormRouter.SetEmptyIdResolvesToDefault` | backend/app/routes/stackstorm_router.py:46-51 | a stored id "" resolves as if nothing were selected |
| `StackStormRouter.SetConnection` | backend/app/routes/stackstorm_router.py:113-178 | a refused request returns its 400 and changes nothing; an accepted one gives the new store as cleanup, merge of the stackstorm_connection key and refresh, other sessions unchanged; 500 iff the session is not active, which is then deleted |
| `StackStormRouter.ConnectionRecord` | backend/app/routes/stackstorm_router.py:145-158 | definition: {current, custom_connection}; see SetThenResolve |
| `StackStormRouter.StoredConnection` | backend/app/routes/stackstorm_router.py:25-30 | definition: the stored stackstorm_connection value, None when there is no data; see ResolveConnection |
| `StackStormRouter.InfoOf` | backend/app/routes/stackstorm_router.py:83-86 | id defaults to ""; alias to the id, then "Unknown" |
| `StackStormRouter.BuildConnectionList` | backend/app/routes/stackstorm_router.py:80-87 | one entry per configured connection, in file order |
| `StackStormRouter.GetConnection` | backend/app/routes/stackstorm_router.py:72-110 | the listed connections, the default and the stored selection; 500 exactly when the stored value is no dict |
| `StackStormRouter.BaseUrl` | backend/app/routes/stackstorm_router.py:281 | the url with trailing slashes removed, or the AttributeError text when the url is no string |
| `StackStormRouter.Headers` | backend/app/routes/stackstorm_router.py:284-286 | JSON content type always; St2-Api-Key exactly when the key is truthy; no other header |
| `StackStormRouter.TrailingSlashesIgnored` | backend/app/routes/stackstorm_router.py:190-191 | any number of trailing slashes on a base url gives the same request url |
| `StackStormRouter.ExecutionUrlJoin` | backend/app/routes/stackstorm_router.py:281-282 | the base does not end in '/', and the path follows it directly |
| `StackStormRouter.TestConnectionOutcome` | backend/app/routes/stackstorm_router.py:186-222 | never raises; success iff resolved with a string url and the server answered 200; the message for each case: a raised error's detail, 401 "Authentication failed: Invalid API key", "Connection failed: HTTP n", "Failed to connect to StackStorm server", or "Connection test failed: " and the exception text |
| `StackStormRouter.TestConnectionStatusReadBack` | backend/app/routes/stackstorm_router.py:206-210 | the "HTTP n" message carries the server's status, readable back as an integer |
| `StackStormRouter.TestConnection` | backend/app/routes/stackstorm_router.py:181-222 | the outcome for the session's resolution; the session is refreshed |
| `StackStormRouter.ExecutionsOutcome` | backend/app/routes/stackstorm_router.py:230-266 | resolution errors re-raised; a url that is no string is 500 "Unexpected error: ..."; 401 is "Authentication failed: Invalid API key"; any other non-200 status passes through with "StackStorm API error: <text>"; request error 503; other errors 500; success iff 200 with a list of objects |
| `StackStormRouter.ExecutionOutcome` | backend/app/routes/stackstorm_router.py:277-322 | resolution errors re-raised; a url that is no string is 500 "Unexpected error: ..."; 401 is "Authentication failed: Invalid API key"; 404 is "Execution <id> not found"; any other non-200 status passes through with "StackStorm API error: <text>"; request error 503; success iff 200 with an object, and its status in the message |
| `StackStormRouter.RemoteStatusError` | backend/app/routes/stackstorm_router.py:247-254 | definition: 401 with the bad-key message, else the status with "StackStorm API error: <text>"; see ExecutionsOutcome and ExecutionOutcome |
| `StackStormRouter.Unexpected` | backend/app/routes/stackstorm_router.py:263-266 | definition: 500 "Unexpected error: <message>"; see ExecutionsOutcome and ExecutionOutcome |
| `StackStormRouter.TestRequest` | backend/app/routes/stackstorm_router.py:188-197 | definition: GET <base>/v1/executions with the headers; see TestConnectionOutcome |
| `StackStormRouter.ExecutionsRequest` | backend/app/routes/stackstorm_router.py:234-242 | definition: GET <base>/v1/executions?limit=50&show_secrets=false with the headers; see ExecutionsOutcome |
| `StackStormRouter.ExecutionRequest` | backend/app/routes/stackstorm_router.py:281-289 | definition: GET <base>/v1/executions/<id>?show_secrets=false with the headers; see ExecutionUrlJoin |
| `StackStormRouter.GetExecutions` | backend/app/routes/stackstorm_router.py:225-266 | the outcome for the session's resolution; the session is refreshed |
| `StackStormRouter.GetExecution` | backend/app/routes/stackstorm_router.py:269-322 | the outcome for the session's resolution; the session is refreshed |
| `Evaluate.PathPatternMatches` | backend/app/routes/evaluate.py:22 | definition: the path pattern under `re.match`, a name or a name followed by one newline |
| `Evaluate.ParseQueryType` | backend/app/routes/evaluate.py:28-38 | the if/elif chain: a branch is taken exactly for yaql, jinja2 and orquesta, each naming its query type |
| `Evaluate.UnsupportedPathsEndInNewline` | backend/app/routes/evaluate.py:22-38 | among the paths the pattern lets through, the ones no branch takes are exactly a name plus a final newline |
| `Evaluate.QueryTypeRoundTrip` | backend/app/routes/evaluate.py:22-38 | each query type's name passes the pattern and selects its own branch |
| `Evaluate.BuildOrquestaContext` | backend/app/routes/evaluate.py:52-84 | the loop and assignments build exactly the Orquesta context |
| `Evaluate.UserKeysPassedOn` | backend/app/routes/evaluate.py:52-57 | every user key is kept with its value; no other key without "__"; the only "__" keys are the three system ones |
| `Evaluate.CurrentTaskFields` | backend/app/routes/evaluate.py:41-45 | __current_task is {id, route, result}; each of the four task fields is the supplied value when present, else 'current_task', 'succeeded', 0 or None |
| `Evaluate.StateShape` | backend/app/routes/evaluate.py:66-80 | __state.tasks maps the one route id to 0; one sequence entry {status, result}; routes [[task_id]] |
| `Evaluate.CurrentItemIff` | backend/app/routes/evaluate.py:83-84 | __current_item is present iff given and not None, and then unchanged |
| `Evaluate.RouteIdReadBack` | backend/app/routes/evaluate.py:67 | task_id + "__r" + route splits back into the task id and the integer route |
| `Evaluate.RouteIdsDistinct` | backend/app/routes/evaluate.py:67 | distinct routes of a task give distinct route ids |
| `Evaluate.EvaluateExpression` | backend/app/routes/evaluate.py:19-101 | the chosen evaluator's result with the path's query type echoed; an evaluator failure is 400 with {error, query_type}; a path with a final newline is 400 "400: Unsupported query type: ..." |
| `Evaluate.UserData` | backend/app/routes/evaluate.py:52-57 | definition: the request keys not starting with `__`; see UserKeysPassedOn |
| `Evaluate.EvaluatorFor` | backend/app/routes/evaluate.py:28-38 | definition: the evaluator of the branch a query type selects; see EvaluateExpression |
| `Evaluate.OrquestaContext` | backend/app/routes/evaluate.py:52-84 | definition: user keys without `__`, plus __current_task, __state and the optional __current_item; its properties are the lemmas above |
| `Evaluate.RouteId` | backend/app/routes/evaluate.py:67 | definition: f'{task_id}__r{task_route}'; see RouteIdReadBack and RouteIdsDistinct |

## Left out

- The three evaluators (YAQL, Jinja2, Orquesta), which are third-party libraries. They are function parameters.
- Evaluate.EvaluateExpression: requires the path pattern to have matched, read as Python's `re.match` does (the pydantic v1 validator); under pydantic v2's regex engine a name plus a final newline may be refused with 422 instead. FastAPI answers 422 to other paths without calling the route, and that answer is not modelled. The message of the else branch assumes a Starlette HTTPException whose `str()` is "status: detail".
- The HTTP client (httpx), TLS and the network. The server is a function from request to outcome. An httpx timeout is a request error, so that outcome covers it; the timeout values (10 and 30 seconds) are not modelled.
- The wall clock. Python reads `datetime.now` again at each check inside one call; the model uses one instant per call. The monotone-clock assumption is a precondition.
- The random session token. It is an unused id that the caller supplies.
- Concurrency between requests. Calls are taken one at a time.
- The `.env`/environment loading and the file read. The constructor takes the environment as a map and the read's outcome as a value. A file whose content Python treats as false reads as an unset configuration.
- Connection entries are typed: a missing key and a JSON null are the same (`None`), and ids are strings.
- The connection list of get_connection treats a null id like a missing one. Pydantic would refuse a null id.
- SessionState.Active: does not model the OverflowError of `last_activity + session_timeout` past year 9999 or before year 1, which makes every gated request a 500 for timeouts beyond about 7·10^7 hours (or below about -1.8·10^7). Model integers do not overflow.
- `int()` of the timeout: leading/trailing whitespace, `_` separators and non-ASCII Unicode digits (which Python accepts) are not accepted. A value that does not parse is excluded by the constructor's precondition, since the backend does not start then.
- ASCII-only `lower()`.
- Json.EscapeChar: `repr()` also escapes non-ASCII characters that Python does not consider printable (as \xhh, \uhhhh or \Uhhhhhhhh); the model escapes only ASCII controls, since printability is defined by the Unicode database.
- `str()` of a non-empty dict is the placeholder "{...}": its key order is not modelled. JSON floats are not modelled.
- The pydantic response models. Their field types are not checked, except that a list of executions must hold objects. The message of the resulting validation error is a parameter (`shapeError`).
- The `except Exception` clause of set_connection. Nothing in the model raises there.
- isoformat() of the last activity. The status reports the activity instant itself.
- FastAPI routing, cookies as headers, the slowapi rate limiter and CORS.
- backend/app/middleware/auth.py, a stale duplicate of the request gate, is not part of this model.
- The debug scripts are not part of this model.
