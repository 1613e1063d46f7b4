/**
 * The expression-evaluation route. YAQL and Jinja2 expressions are
 * evaluated against the request data as given; Orquesta expressions
 * against a context rebuilt from it: the user's own keys, plus the task
 * context Orquesta's evaluators expect (__current_task, __state and, in
 * a with-items loop, __current_item), taken from the request's __task_*
 * keys. The three evaluators are third-party code and are parameters
 * here: each maps an expression and data to a value or the message of
 * the exception it raised.
 */
module Evaluate {
  import opened Wrappers
  import opened Text
  import opened Json
  import opened Http

  /** The query types the route dispatches on. */
  datatype QueryType = Yaql | Jinja2 | Orquesta

  function QueryTypeName(q: QueryType): string {
    match q
    case Yaql => "yaql"
    case Jinja2 => "jinja2"
    case Orquesta => "orquesta"
  }

  /**
   * The path check, the pattern ^(yaql|jinja2|orquesta)$ under Python's
   * re.match: a name, or a name followed by one newline (there $ also
   * matches before a final newline).
   */
  predicate PathPatternMatches(s: string) {
    exists q: QueryType :: s == QueryTypeName(q) || s == QueryTypeName(q) + "\n"
  }

  /** The if/elif chain of evaluate_expression: equality with one of the three names. */
  function ParseQueryType(s: string): (r: Option<QueryType>)
    ensures r.Some? <==> s == "yaql" || s == "jinja2" || s == "orquesta"
    ensures r.Some? ==> QueryTypeName(r.value) == s
  {
    if s == "yaql" then Some(Yaql)
    else if s == "jinja2" then Some(Jinja2)
    else if s == "orquesta" then Some(Orquesta)
    else None
  }

  lemma QueryTypeRoundTrip(q: QueryType)
    ensures ParseQueryType(QueryTypeName(q)) == Some(q)
    ensures PathPatternMatches(QueryTypeName(q))
  {
  }

  /**
   * The paths the pattern lets through but no branch names are exactly
   * the three names followed by a newline; they reach the else branch.
   */
  lemma UnsupportedPathsEndInNewline(s: string)
    requires PathPatternMatches(s)
    ensures ParseQueryType(s).None? <==>
      |s| > 0 && s[|s| - 1] == '\n' && ParseQueryType(s[..|s| - 1]).Some?
  {
    var q: QueryType :| s == QueryTypeName(q) || s == QueryTypeName(q) + "\n";
    if s == QueryTypeName(q) + "\n" {
      assert s[..|s| - 1] == QueryTypeName(q);
    }
  }

  type Evaluator = (string, map<string, Json>) -> Result<Json, string>

  datatype EvaluateResponse = EvaluateResponse(result: Json, queryType: string)

  // ----- the task fields of the request data -----------------------------------

  function TaskResult(data: map<string, Json>): Json { GetOr(data, "__task_result", Null) }
  function TaskId(data: map<string, Json>): Json { GetOr(data, "__task_id", Str("current_task")) }
  function TaskStatus(data: map<string, Json>): Json { GetOr(data, "__task_status", Str("succeeded")) }
  function TaskRoute(data: map<string, Json>): Json { GetOr(data, "__task_route", Int(0)) }
  function CurrentItem(data: map<string, Json>): Json { GetOr(data, "__current_item", Null) }

  /** Keys reserved for the system context are those starting with "__". */
  predicate Reserved(k: string) {
    StartsWith(k, "__")
  }

  /** The task-state route id: f'{task_id}__r{task_route}'. */
  function RouteId(taskId: Json, route: Json): string {
    PyStr(taskId) + "__r" + PyStr(route)
  }

  function CurrentTask(data: map<string, Json>): Json {
    Obj(map["id" := TaskId(data), "route" := TaskRoute(data), "result" := TaskResult(data)])
  }

  function TaskState(data: map<string, Json>): Json {
    Obj(map[
      "tasks" := Obj(map[RouteId(TaskId(data), TaskRoute(data)) := Int(0)]),
      "sequence" := Arr([Obj(map["status" := TaskStatus(data), "result" := TaskResult(data)])]),
      "routes" := Arr([Arr([TaskId(data)])])])
  }

  /** The user's keys: every entry whose key is not reserved. */
  function UserData(data: map<string, Json>): map<string, Json> {
    map k | k in data && !Reserved(k) :: data[k]
  }

  /** The context the Orquesta evaluator receives. */
  function OrquestaContext(data: map<string, Json>): map<string, Json> {
    var ctx := UserData(data)["__current_task" := CurrentTask(data)]["__state" := TaskState(data)];
    if CurrentItem(data) != Null then ctx["__current_item" := CurrentItem(data)] else ctx
  }

  /** The building of orquesta_data: a loop copying the user's keys, then the system entries. */
  method BuildOrquestaContext(data: map<string, Json>) returns (ctx: map<string, Json>)
    ensures ctx == OrquestaContext(data)
  {
    ctx := map[];
    var remaining := data.Keys;
    while remaining != {}
      invariant remaining <= data.Keys
      invariant ctx == map k | k in data.Keys - remaining && !Reserved(k) :: data[k]
      decreases remaining
    {
      var k :| k in remaining;
      if !Reserved(k) {
        ctx := ctx[k := data[k]];
      }
      remaining := remaining - {k};
    }
    ctx := ctx["__current_task" := CurrentTask(data)];
    ctx := ctx["__state" := TaskState(data)];
    if CurrentItem(data) != Null {
      ctx := ctx["__current_item" := CurrentItem(data)];
    }
  }

  // ----- properties of the context ------------------------------------------------

  /** Every user key is passed on with its value, and no reserved key of the request is. */
  lemma UserKeysPassedOn(data: map<string, Json>)
    ensures var ctx := OrquestaContext(data);
      && (forall k :: k in data && !Reserved(k) ==> k in ctx && ctx[k] == data[k])
      && (forall k :: k in ctx && !Reserved(k) ==> k in data)
      && (forall k :: k in ctx && Reserved(k) ==> k == "__current_task" || k == "__state" || k == "__current_item")
  {
    assert Reserved("__current_task") && Reserved("__state") && Reserved("__current_item");
  }

  /** __current_task is {id, route, result}, each taken from the request or defaulted. */
  lemma CurrentTaskFields(data: map<string, Json>)
    ensures var ctx := OrquestaContext(data);
      && "__current_task" in ctx
      && ctx["__current_task"] == Obj(map["id" := TaskId(data), "route" := TaskRoute(data), "result" := TaskResult(data)])
      && ("__task_id" !in data ==> TaskId(data) == Str("current_task"))
      && ("__task_route" !in data ==> TaskRoute(data) == Int(0))
      && ("__task_result" !in data ==> TaskResult(data) == Null)
      && ("__task_status" !in data ==> TaskStatus(data) == Str("succeeded"))
      && ("__task_id" in data ==> TaskId(data) == data["__task_id"])
      && ("__task_route" in data ==> TaskRoute(data) == data["__task_route"])
      && ("__task_result" in data ==> TaskResult(data) == data["__task_result"])
      && ("__task_status" in data ==> TaskStatus(data) == data["__task_status"])
  {
  }

  /**
   * __state records one task: tasks maps the single route id to sequence
   * index 0, the sequence holds that task's status and result, and the
   * one route holds that task.
   */
  lemma StateShape(data: map<string, Json>)
    ensures var ctx := OrquestaContext(data);
      && "__state" in ctx && ctx["__state"].Obj?
      && var st := ctx["__state"].fields;
      && st.Keys == {"tasks", "sequence", "routes"}
      && st["tasks"] == Obj(map[RouteId(TaskId(data), TaskRoute(data)) := Int(0)])
      && st["sequence"].Arr? && |st["sequence"].items| == 1
      && st["sequence"].items[0] == Obj(map["status" := TaskStatus(data), "result" := TaskResult(data)])
      && st["routes"] == Arr([Arr([TaskId(data)])])
  {
  }

  /** __current_item is there exactly when the request gives one that is not None, and unchanged. */
  lemma CurrentItemIff(data: map<string, Json>)
    ensures var ctx := OrquestaContext(data);
      && ("__current_item" in ctx <==> "__current_item" in data && data["__current_item"] != Null)
      && ("__current_item" in ctx ==> ctx["__current_item"] == data["__current_item"])
  {
  }

  /** A route id of a string task and an integer route reads back as the task, "__r" and the route. */
  lemma RouteIdReadBack(taskId: string, route: int)
    ensures var r := RouteId(Str(taskId), Int(route));
      && r[..|taskId|] == taskId
      && r[|taskId|..|taskId| + 3] == "__r"
      && ParseInt(r[|taskId| + 3..]) == Some(route)
  {
    var r := RouteId(Str(taskId), Int(route));
    assert r == taskId + "__r" + IntToString(route);
    assert r[|taskId| + 3..] == IntToString(route);
    IntToStringRoundTrip(route);
  }

  /** Different routes of one task get different route ids. */
  lemma RouteIdsDistinct(taskId: string, route1: int, route2: int)
    requires route1 != route2
    ensures RouteId(Str(taskId), Int(route1)) != RouteId(Str(taskId), Int(route2))
  {
    RouteIdReadBack(taskId, route1);
    RouteIdReadBack(taskId, route2);
  }

  // ----- the route ----------------------------------------------------------------

  /** The 400 detail for a failed evaluation: ErrorResponse(error, query_type).dict(). */
  function ErrorDetail(message: string, queryType: string): Json {
    Obj(map["error" := Str(message), "query_type" := Str(queryType)])
  }

  /** str() of the HTTPException the else branch raises. */
  function UnsupportedMessage(queryType: string): string {
    "400: Unsupported query type: " + queryType
  }

  /** The data an evaluator is given: the request data, or the rebuilt context for Orquesta. */
  function EvaluatorData(q: QueryType, data: map<string, Json>): map<string, Json> {
    if q == Orquesta then OrquestaContext(data) else data
  }

  function EvaluatorFor(q: QueryType, yaql: Evaluator, jinja2: Evaluator, orquesta: Evaluator): Evaluator {
    match q
    case Yaql => yaql
    case Jinja2 => jinja2
    case Orquesta => orquesta
  }

  /**
   * evaluate_expression, for a path the pattern let through: the chosen
   * evaluator's value, echoed with the query type; any exception,
   * including the else branch's, becomes 400 with the error and query type.
   */
  method EvaluateExpression(queryType: string, expression: string, data: map<string, Json>,
                            yaql: Evaluator, jinja2: Evaluator, orquesta: Evaluator)
    returns (r: Result<EvaluateResponse, HttpError>)
    requires PathPatternMatches(queryType)
    ensures ParseQueryType(queryType).Some? ==>
      var q := ParseQueryType(queryType).value;
      var out := EvaluatorFor(q, yaql, jinja2, orquesta)(expression, EvaluatorData(q, data));
      && (r.Success? <==> out.Success?)
      && (r.Success? ==> r.value == EvaluateResponse(out.value, queryType))
      && (r.Failure? ==> r.error == HttpError(BAD_REQUEST, ErrorDetail(out.error, queryType)))
    ensures ParseQueryType(queryType).None? ==>
      r == Failure(HttpError(BAD_REQUEST, ErrorDetail(UnsupportedMessage(queryType), queryType)))
    ensures r.Success? ==> ParseQueryType(r.value.queryType).Some? && r.value.queryType == queryType
    ensures r.Failure? ==>
      r.error.status == BAD_REQUEST && r.error.detail.Obj? && r.error.detail.fields.Keys == {"error", "query_type"}
  {
    var outcome: Result<Json, string>;
    if queryType == "yaql" {
      outcome := yaql(expression, data);
    } else if queryType == "jinja2" {
      outcome := jinja2(expression, data);
    } else if queryType == "orquesta" {
      var context := BuildOrquestaContext(data);
      outcome := orquesta(expression, context);
    } else {
      outcome := Failure(UnsupportedMessage(queryType));
    }
    if outcome.Failure? {
      return Failure(HttpError(BAD_REQUEST, ErrorDetail(outcome.error, queryType)));
    }
    r := Success(EvaluateResponse(outcome.value, queryType));
  }
}
