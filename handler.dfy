/**
 * `handler`: the batch of queued records, each driven through size check,
 * JSON parse, field defaulting, validation, cache lookup, routing, agent
 * invocation and cache write, one result per record, in order.
 *
 * The pure functions below (Intake, Serve, Step, Run, Handled) specify the
 * loop; the class RoutingFunction runs it against its cache table, and
 * each of its methods is proved to follow them.
 */
module Handler {

  import opened Options
  import opened Json
  import opened Prims
  import opened Validation
  import opened CacheKey
  import opened Routing
  import opened Invoke
  import opened Outcomes
  import Utf8

  const MaxBatch := 10
  /** 256 KiB per message, measured in UTF-8 bytes. */
  const MaxBodyBytes := 256 * 1024

  /** A queued record: its `body`, or None when it has none (then '{}' is parsed). */
  datatype Record = Record(body: Option<string>)

  /**
   * The values the handler derives from `time.time()`: the `session-<ts>`
   * default session id and the `err-<ts>` error id.
   */
  datatype Stamps = Stamps(defaultSessionId: string, errorId: string)

  /**
   * What stays fixed for the container's lifetime: the library primitives,
   * the backend, and whether a cache table is configured.
   */
  datatype Env = Env(prims: Prims, backend: Backend, tableConfigured: bool)

  /**
   * What the pipeline has done to the world: the live cache entries (key to
   * response text), the keys it looked up, in order, and the backend calls
   * it made, in order.
   */
  datatype World = World(cache: map<string, string>, lookups: seq<string>, calls: seq<Invocation>)

  /** A record that passed every check made before the cache. */
  datatype Request = Request(appName: string, request: Entries, sessionId: string, inputText: string)

  /** The part of a record's processing that touches nothing: a final result, or a request to serve. */
  datatype Admission = Reject(outcome: Outcome) | Accept(req: Request)

  /** The handler's return value: 400 'No records found', or 200 with the results. */
  datatype HandlerReply = NoRecords | Processed(results: seq<Outcome>, processedCount: nat)
  {
    function StatusCode(): int {
      if NoRecords? then 400 else 200
    }
  }

  // ---------------------------------------------------------------------
  // Reading a record

  /** `record.get('body', '{}')`. */
  function BodyText(rec: Record): string {
    if rec.body.Some? then rec.body.value else "{}"
  }

  /** `body.get('app_name', 'default')`. */
  function AppNameField(body: Entries): Json {
    GetOr(body, "app_name", JStr("default"))
  }

  /** `body.get('request', {})`, replaced by `{}` when it is not a dict. */
  function RequestField(body: Entries): Entries {
    match GetOr(body, "request", JObj([]))
    case JObj(es) => es
    case _ => []
  }

  /** `body.get('session_id', f"session-{ts}")`. */
  function SessionIdField(body: Entries, st: Stamps): Json {
    GetOr(body, "session_id", JStr(st.defaultSessionId))
  }

  /** `request.get('input') or request.get('query') or request.get('prompt', '')`. */
  function InputTextField(request: Entries): Json {
    Or(Or(Get(request, "input"), Get(request, "query")), GetOr(request, "prompt", JStr("")))
  }

  /**
   * The input text is `input` when that is truthy, else `query` when that is
   * truthy, else `prompt` (or '' without one).
   */
  lemma InputTextPriority(request: Entries)
    ensures Truthy(Get(request, "input")) ==> InputTextField(request) == Get(request, "input")
    ensures !Truthy(Get(request, "input")) && Truthy(Get(request, "query")) ==>
      InputTextField(request) == Get(request, "query")
    ensures !Truthy(Get(request, "input")) && !Truthy(Get(request, "query")) ==>
      InputTextField(request) == GetOr(request, "prompt", JStr(""))
  {
  }

  /** The 500 result of an exception caught at the record boundary. */
  function InternalError(st: Stamps): Outcome {
    Outcome(500, Error("Internal server error", Some(st.errorId)), false, None)
  }

  /**
   * Everything done with a record before the cache is consulted: the 256 KiB
   * size check, `json.loads`, reading the fields with their defaults, and
   * `validate_input`. A parsed body that is not a dict makes `body.get`
   * raise, which ends in the 500 result.
   */
  function Intake(p: Prims, st: Stamps, rec: Record): Admission
  {
    var text := BodyText(rec);
    if Utf8.ByteLen(text) > MaxBodyBytes then Reject(BadRequest("Request body too large", None))
    else match p.loads(text)
      case None => Reject(BadRequest("Invalid JSON format", None))
      case Some(parsed) =>
        if !parsed.JObj? then Reject(InternalError(st))
        else
          var body := parsed.entries;
          var appName, request := AppNameField(body), RequestField(body);
          var sessionId := SessionIdField(body, st);
          var inputText := InputTextField(request);
          match ValidateInput(p, appName, inputText, sessionId)
          case Invalid(message) => Reject(BadRequest(message, Some(appName)))
          case Valid =>
            if !Truthy(inputText) then Reject(BadRequest("No input text provided", Some(appName)))
            else Accept(Request(appName.s, request, sessionId.s, inputText.s))
  }

  /**
   * The cases of Intake, in the order the code tries them: a body over
   * 256 KiB, a body that does not parse, a parsed value that is not a dict,
   * and then the verdict of `validate_input` on the defaulted fields.
   */
  lemma IntakeCases(p: Prims, st: Stamps, rec: Record)
    ensures Utf8.ByteLen(BodyText(rec)) > MaxBodyBytes ==>
      Intake(p, st, rec) == Reject(BadRequest("Request body too large", None))
    ensures Utf8.ByteLen(BodyText(rec)) <= MaxBodyBytes && p.loads(BodyText(rec)).None? ==>
      Intake(p, st, rec) == Reject(BadRequest("Invalid JSON format", None))
    ensures Utf8.ByteLen(BodyText(rec)) <= MaxBodyBytes && p.loads(BodyText(rec)).Some? ==>
      match p.loads(BodyText(rec)).value
      case JObj(body) =>
        var appName, request := AppNameField(body), RequestField(body);
        var inputText, sessionId := InputTextField(request), SessionIdField(body, st);
        (match ValidateInput(p, appName, inputText, sessionId)
         case Invalid(message) => Intake(p, st, rec) == Reject(BadRequest(message, Some(appName)))
         case Valid => Intake(p, st, rec) == Accept(Request(appName.s, request, sessionId.s, inputText.s)))
      case _ => Intake(p, st, rec) == Reject(InternalError(st))
  {
  }

  /**
   * An accepted request has an app name and session id of the allowed
   * characters and lengths, and a non-empty input text of at most 100 KiB.
   */
  lemma AcceptedIsValid(p: Prims, st: Stamps, rec: Record)
    ensures Intake(p, st, rec).Accept? ==>
      && Identifier(p, Intake(p, st, rec).req.appName, MaxAppNameLen)
      && Identifier(p, Intake(p, st, rec).req.sessionId, MaxSessionIdLen)
      && Intake(p, st, rec).req.inputText != "" && Utf8.ByteLen(Intake(p, st, rec).req.inputText) <= MaxInputBytes
  {
  }

  // ---------------------------------------------------------------------
  // The stateful steps

  /** The key a request is cached under. */
  function KeyOf(p: Prims, req: Request): string {
    Key(p, req.request, req.appName)
  }

  /** `get_from_cache`: the stored text, or None on a miss or without a table (then nothing is read). */
  function CacheRead(env: Env, w: World, key: string): (Option<string>, World) {
    if !env.tableConfigured then (None, w)
    else (if key in w.cache then Some(w.cache[key]) else None, w.(lookups := w.lookups + [key]))
  }

  /** `put_to_cache`: overwrites the entry, or does nothing without a table. */
  function CacheWrite(env: Env, w: World, key: string, value: string): World {
    if !env.tableConfigured then w else w.(cache := w.cache[key := value])
  }

  /** `invoke_bedrock_agent`: the guard, then one backend call. */
  function InvokeStep(env: Env, w: World, agentId: string, sessionId: string, inputText: string, errorId: string): (Outcome, World) {
    if !AgentIdOk(agentId) then (InvalidAgentId, w)
    else
      var call := Invocation(agentId, sessionId, inputText);
      (CallOutcome(env.backend(|w.calls|, call), errorId), w.(calls := w.calls + [call]))
  }

  /** A validated request: cache lookup, then routing, invocation and the cache write on status 200. */
  function Serve(env: Env, cfg: RoutingConfig, st: Stamps, req: Request, w: World): (Outcome, World) {
    var key := KeyOf(env.prims, req);
    var app := Some(JStr(req.appName));
    var (cached, w1) := CacheRead(env, w, key);
    if cached.Some? && cached.value != "" then (Outcome(200, Text(cached.value), true, app), w1)
    else
      var route := RouteRequest(cfg, req.appName);
      if route.agentId.None? || route.agentId.value == "" then
        (BadRequest("No agent configured for app: " + req.appName, app), w1)
      else
        var (response, w2) := InvokeStep(env, w1, route.agentId.value, req.sessionId, req.inputText, st.errorId);
        var w3 := if response.statusCode == 200 then CacheWrite(env, w2, key, response.body.text) else w2;
        (response.(appName := app), w3)
  }

  /** One iteration of the loop over the records. */
  function Step(env: Env, cfg: RoutingConfig, st: Stamps, rec: Record, w: World): (Outcome, World) {
    match Intake(env.prims, st, rec)
    case Reject(outcome) => (outcome, w)
    case Accept(req) => Serve(env, cfg, st, req, w)
  }

  /** The loop over `records`: the results in order and the world afterwards. */
  function Run(env: Env, cfg: RoutingConfig, st: Stamps, records: seq<Record>, w: World): (seq<Outcome>, World) {
    if records == [] then ([], w)
    else
      var n := |records| - 1;
      var (results, w1) := Run(env, cfg, st, records[..n], w);
      var (outcome, w2) := Step(env, cfg, st, records[n], w1);
      (results + [outcome], w2)
  }

  /** The records a batch processes: the first ten, the rest being dropped. */
  function Batch(records: seq<Record>): seq<Record> {
    if |records| > MaxBatch then records[..MaxBatch] else records
  }

  /** What `handler` returns on the records of one event, and the world after it. */
  function Handled(env: Env, cfg: RoutingConfig, st: Stamps, records: seq<Record>, w: World): (HandlerReply, World) {
    if records == [] then (NoRecords, w)
    else
      var (results, w1) := Run(env, cfg, st, Batch(records), w);
      (Processed(results, |results|), w1)
  }

  // ---------------------------------------------------------------------
  // What one record does

  /** True when `w` holds a non-empty response for `key` in a configured table. */
  predicate Hit(env: Env, w: World, key: string) {
    env.tableConfigured && key in w.cache && w.cache[key] != ""
  }

  /** The effects of serving a validated request: one lookup, and a cache write only on a fresh 200. */
  lemma ServeEffects(env: Env, cfg: RoutingConfig, st: Stamps, req: Request, w: World)
    ensures var (o, w') := Serve(env, cfg, st, req, w);
      var key := KeyOf(env.prims, req);
      && w'.lookups == w.lookups + (if env.tableConfigured then [key] else [])
      && (o.statusCode != 200 || o.cached ==> w'.cache == w.cache)
      && (w'.cache != w.cache ==>
            env.tableConfigured && o.statusCode == 200 && !o.cached && o.body.Text? && w'.cache == w.cache[key := o.body.text])
      && (o.cached <==> Hit(env, w, key))
  {
    var key := KeyOf(env.prims, req);
    var (cached, w1) := CacheRead(env, w, key);
    assert w1.lookups == w.lookups + (if env.tableConfigured then [key] else []) && w1.cache == w.cache;
    if !(cached.Some? && cached.value != "") {
      var route := RouteRequest(cfg, req.appName);
      if route.agentId.Some? && route.agentId.value != "" {
        var (response, w2) := InvokeStep(env, w1, route.agentId.value, req.sessionId, req.inputText, st.errorId);
        assert w2.lookups == w1.lookups && w2.cache == w1.cache;
        assert !response.cached;
      }
    }
  }

  /** Serving calls the backend at most once: on a miss routed to an agent id that passes the guard. */
  lemma ServeCalls(env: Env, cfg: RoutingConfig, st: Stamps, req: Request, w: World)
    ensures var w' := Serve(env, cfg, st, req, w).1;
      || w'.calls == w.calls
      || (&& !Hit(env, w, KeyOf(env.prims, req))
          && var agent := RouteRequest(cfg, req.appName).agentId;
          && agent.Some? && AgentIdOk(agent.value)
          && w'.calls == w.calls + [Invocation(agent.value, req.sessionId, req.inputText)])
  {
    var key := KeyOf(env.prims, req);
    var (cached, w1) := CacheRead(env, w, key);
    assert w1.calls == w.calls;
    if !(cached.Some? && cached.value != "") {
      var route := RouteRequest(cfg, req.appName);
      if route.agentId.Some? && route.agentId.value != "" {
        var (response, w2) := InvokeStep(env, w1, route.agentId.value, req.sessionId, req.inputText, st.errorId);
        assert w2.calls == w1.calls || w2.calls == w1.calls + [Invocation(route.agentId.value, req.sessionId, req.inputText)];
      }
    }
  }

  /** Serving yields 200 with text, 400 with an error and no id, or 500 with the error id. */
  lemma ServeStatus(env: Env, cfg: RoutingConfig, st: Stamps, req: Request, w: World)
    ensures var o := Serve(env, cfg, st, req, w).0;
      && o.statusCode in {200, 400, 500}
      && (o.statusCode == 200 <==> o.body.Text?)
      && (o.statusCode == 500 ==> o.body.Error? && o.body.errorId == Some(st.errorId))
      && (o.statusCode == 400 ==> o.body.Error? && o.body.errorId == None)
  {
    var key := KeyOf(env.prims, req);
    var (cached, w1) := CacheRead(env, w, key);
    if !(cached.Some? && cached.value != "") {
      var route := RouteRequest(cfg, req.appName);
      if route.agentId.Some? && route.agentId.value != "" {
        var (response, w2) := InvokeStep(env, w1, route.agentId.value, req.sessionId, req.inputText, st.errorId);
        assert response.statusCode in {200, 400, 500};
      }
    }
  }

  /**
   * The cache is read only for a request that passed validation, once, under
   * that request's key; a rejected record leaves no trace at all.
   */
  lemma LookupOnlyAfterValidation(env: Env, cfg: RoutingConfig, st: Stamps, rec: Record, w: World)
    ensures var (o, w') := Step(env, cfg, st, rec, w);
      match Intake(env.prims, st, rec)
      case Reject(outcome) => o == outcome && w' == w
      case Accept(req) =>
        w'.lookups == w.lookups + (if env.tableConfigured then [KeyOf(env.prims, req)] else [])
  {
    match Intake(env.prims, st, rec)
    case Reject(_) =>
    case Accept(req) =>
      ServeEffects(env, cfg, st, req, w);
  }

  /**
   * A hit is answered from the cache: status 200, the stored text, `cached`
   * set, and neither the backend nor the cache is touched.
   */
  lemma HitIsServedFromCache(env: Env, cfg: RoutingConfig, st: Stamps, rec: Record, w: World)
    requires Intake(env.prims, st, rec).Accept?
    requires Hit(env, w, KeyOf(env.prims, Intake(env.prims, st, rec).req))
    ensures var req := Intake(env.prims, st, rec).req;
      var (o, w') := Step(env, cfg, st, rec, w);
      && o == Outcome(200, Text(w.cache[KeyOf(env.prims, req)]), true, Some(JStr(req.appName)))
      && w'.cache == w.cache && w'.calls == w.calls
  {
  }

  /**
   * A stored empty response does not count as a hit: the record is served as
   * a miss would be, with the same result and the same backend calls as when
   * the entry is absent.
   */
  lemma EmptyEntryIsMiss(env: Env, cfg: RoutingConfig, st: Stamps, rec: Record, w: World)
    requires Intake(env.prims, st, rec).Accept?
    requires KeyOf(env.prims, Intake(env.prims, st, rec).req) in w.cache
    requires w.cache[KeyOf(env.prims, Intake(env.prims, st, rec).req)] == ""
    ensures !Step(env, cfg, st, rec, w).0.cached
    ensures var absent := w.(cache := w.cache - {KeyOf(env.prims, Intake(env.prims, st, rec).req)});
      && Step(env, cfg, st, rec, w).0 == Step(env, cfg, st, rec, absent).0
      && Step(env, cfg, st, rec, w).1.calls == Step(env, cfg, st, rec, absent).1.calls
  {
    var req := Intake(env.prims, st, rec).req;
    ServeEffects(env, cfg, st, req, w);
    EmptyEntryServedAsAbsent(env, cfg, st, req, w);
  }

  /** Serving with an empty entry under the key is serving with no entry there. */
  lemma EmptyEntryServedAsAbsent(env: Env, cfg: RoutingConfig, st: Stamps, req: Request, w: World)
    requires KeyOf(env.prims, req) in w.cache && w.cache[KeyOf(env.prims, req)] == ""
    ensures var absent := w.(cache := w.cache - {KeyOf(env.prims, req)});
      && Serve(env, cfg, st, req, w).0 == Serve(env, cfg, st, req, absent).0
      && Serve(env, cfg, st, req, w).1.calls == Serve(env, cfg, st, req, absent).1.calls
  {
    var key := KeyOf(env.prims, req);
    var absent := w.(cache := w.cache - {key});
    var (c1, w1) := CacheRead(env, w, key);
    var (c2, a1) := CacheRead(env, absent, key);
    assert !(c1.Some? && c1.value != "") && c2.None?;
    assert w1.calls == a1.calls == w.calls;
  }

  /**
   * The backend is called at most once per record, and only for a validated
   * request that missed the cache and was routed to an agent id that passes
   * the guard; the call carries that agent id, the session id and the input text.
   */
  lemma CallOnlyWhenRouted(env: Env, cfg: RoutingConfig, st: Stamps, rec: Record, w: World)
    ensures var (o, w') := Step(env, cfg, st, rec, w);
      || w'.calls == w.calls
      || (&& Intake(env.prims, st, rec).Accept?
          && var req := Intake(env.prims, st, rec).req;
          && !Hit(env, w, KeyOf(env.prims, req))
          && var agent := RouteRequest(cfg, req.appName).agentId;
          && agent.Some? && AgentIdOk(agent.value)
          && w'.calls == w.calls + [Invocation(agent.value, req.sessionId, req.inputText)])
  {
    match Intake(env.prims, st, rec)
    case Reject(_) =>
    case Accept(req) =>
      ServeCalls(env, cfg, st, req, w);
  }

  /**
   * Routing failures: with no agent (missing or empty) the result is the
   * 400 'No agent configured' one, and with an agent id that fails the guard
   * it is the 400 'Invalid agent_id' one; in both cases no call is made and
   * the cache is unchanged.
   */
  lemma UnroutableMakesNoCall(env: Env, cfg: RoutingConfig, st: Stamps, rec: Record, w: World)
    requires Intake(env.prims, st, rec).Accept?
    requires !Hit(env, w, KeyOf(env.prims, Intake(env.prims, st, rec).req))
    requires var agent := RouteRequest(cfg, Intake(env.prims, st, rec).req.appName).agentId;
      agent.None? || !AgentIdOk(agent.value)
    ensures var req := Intake(env.prims, st, rec).req;
      var agent := RouteRequest(cfg, req.appName).agentId;
      var (o, w') := Step(env, cfg, st, rec, w);
      && w'.calls == w.calls && w'.cache == w.cache
      && (agent.None? || agent.value == "" ==>
            o == BadRequest("No agent configured for app: " + req.appName, Some(JStr(req.appName))))
      && (agent.Some? && agent.value != "" ==> o == InvalidAgentId.(appName := Some(JStr(req.appName))))
  {
  }

  /**
   * The cache changes only when a freshly invoked request succeeds: then the
   * entry for its key is set to the response text and nothing else changes.
   * Every other result, and every non-200 result in particular, leaves it as it was.
   */
  lemma CacheWrittenOnlyOnSuccess(env: Env, cfg: RoutingConfig, st: Stamps, rec: Record, w: World)
    ensures var (o, w') := Step(env, cfg, st, rec, w);
      && (o.statusCode != 200 || o.cached ==> w'.cache == w.cache)
      && (w'.cache != w.cache ==>
            && env.tableConfigured && Intake(env.prims, st, rec).Accept?
            && o.statusCode == 200 && !o.cached && o.body.Text?
            && w'.cache == w.cache[KeyOf(env.prims, Intake(env.prims, st, rec).req) := o.body.text])
  {
    match Intake(env.prims, st, rec)
    case Reject(_) =>
    case Accept(req) =>
      ServeEffects(env, cfg, st, req, w);
  }

  /**
   * Every result is 200, 400 or 500; a 500 is either an internal error or a
   * backend error, and carries the batch's error id.
   */
  lemma StatusCodes(env: Env, cfg: RoutingConfig, st: Stamps, rec: Record, w: World)
    ensures var o := Step(env, cfg, st, rec, w).0;
      && o.statusCode in {200, 400, 500}
      && (o.statusCode == 200 <==> o.body.Text?)
      && (o.statusCode == 500 ==> o.body.Error? && o.body.errorId == Some(st.errorId))
      && (o.statusCode == 400 ==> o.body.Error? && o.body.errorId == None)
  {
    match Intake(env.prims, st, rec)
    case Reject(_) =>
    case Accept(req) =>
      ServeStatus(env, cfg, st, req, w);
  }

  /**
   * The 'No input text provided' result is never produced: a request that
   * passes validation always has a non-empty input text.
   */
  lemma NoInputTextIsUnreachable(p: Prims, st: Stamps, rec: Record)
    ensures var r := Intake(p, st, rec);
      r.Reject? ==> r.outcome.body != Error("No input text provided", None)
  {
    var text := BodyText(rec);
    if Utf8.ByteLen(text) <= MaxBodyBytes && p.loads(text).Some? && p.loads(text).value.JObj? {
      var body := p.loads(text).value.entries;
      var inputText := InputTextField(RequestField(body));
      if ValidateInput(p, AppNameField(body), inputText, SessionIdField(body, st)) == Valid {
        assert Truthy(inputText);
      }
    }
  }

  /**
   * Responses are shared across sessions: once a request has been answered
   * and cached, a later record of any session with the same app name and
   * the same request dict, its entries in any insertion order, is answered
   * from the cache with the same text, without a backend call. This holds in the model because its cache calls never fail
   * and its entries never expire; the code swallows cache errors and its
   * entries carry a TTL.
   */
  lemma CachedAcrossSessions(env: Env, cfg: RoutingConfig, st1: Stamps, rec1: Record, st2: Stamps, rec2: Record, w: World)
    requires env.tableConfigured
    requires Intake(env.prims, st1, rec1).Accept? && Intake(env.prims, st2, rec2).Accept?
    requires Intake(env.prims, st1, rec1).req.appName == Intake(env.prims, st2, rec2).req.appName
    requires var r1, r2 := Intake(env.prims, st1, rec1).req.request, Intake(env.prims, st2, rec2).req.request;
      || r1 == r2
      || (DistinctKeys(r1) && DistinctKeys(r2) && multiset(r1) == multiset(r2))
    requires var o := Step(env, cfg, st1, rec1, w).0; o.statusCode == 200 && o.body.text != ""
    ensures var (o1, w1) := Step(env, cfg, st1, rec1, w);
      var (o2, w2) := Step(env, cfg, st2, rec2, w1);
      && o2 == o1.(cached := true)
      && w2.calls == w1.calls && w2.cache == w1.cache
  {
    var req, req2 := Intake(env.prims, st1, rec1).req, Intake(env.prims, st2, rec2).req;
    var key := KeyOf(env.prims, req);
    if req.request != req2.request {
      KeyIgnoresOrder(env.prims, req.request, req2.request, req.appName);
    }
    assert KeyOf(env.prims, req2) == key;
    var (o1, w1) := Step(env, cfg, st1, rec1, w);
    assert key in w1.cache && w1.cache[key] == o1.body.text;
  }

  /**
   * Sending the same record twice: the second answer is the first one, now
   * marked cached, when neither cache call fails and the entry has not expired.
   */
  lemma RepeatIsIdempotent(env: Env, cfg: RoutingConfig, st: Stamps, rec: Record, w: World)
    requires env.tableConfigured && Intake(env.prims, st, rec).Accept?
    requires var o := Step(env, cfg, st, rec, w).0; o.statusCode == 200 && o.body.text != ""
    ensures var (o1, w1) := Step(env, cfg, st, rec, w);
      Step(env, cfg, st, rec, w1).0 == o1.(cached := true)
  {
    CachedAcrossSessions(env, cfg, st, rec, st, rec, w);
  }

  /**
   * Cache entries are per app: two validated requests of different apps
   * hash different texts, so they can share a key only through a SHA-256
   * collision.
   */
  lemma AppsDoNotShareKeyText(p: Prims, st1: Stamps, rec1: Record, st2: Stamps, rec2: Record)
    requires AsciiFaithful(p)
    requires Intake(p, st1, rec1).Accept? && Intake(p, st2, rec2).Accept?
    requires Intake(p, st1, rec1).req.appName != Intake(p, st2, rec2).req.appName
    ensures var req1, req2 := Intake(p, st1, rec1).req, Intake(p, st2, rec2).req;
      KeyText(p, req1.request, req1.appName) != KeyText(p, req2.request, req2.appName)
  {
    var req1, req2 := Intake(p, st1, rec1).req, Intake(p, st2, rec2).req;
    AcceptedIsValid(p, st1, rec1);
    AcceptedIsValid(p, st2, rec2);
    IdentifierHasNoColon(p, req1.appName, MaxAppNameLen);
    IdentifierHasNoColon(p, req2.appName, MaxAppNameLen);
    if KeyText(p, req1.request, req1.appName) == KeyText(p, req2.request, req2.appName) {
      KeyTextInjective(p, req1.request, req1.appName, req2.request, req2.appName);
    }
  }

  // ---------------------------------------------------------------------
  // What a batch does

  /** One more turn of the loop: the next record's result is appended, in the world the earlier ones left. */
  lemma RunSnoc(env: Env, cfg: RoutingConfig, st: Stamps, records: seq<Record>, i: nat, w: World)
    requires i < |records|
    ensures var (results, w1) := Run(env, cfg, st, records[..i], w);
      var (outcome, w2) := Step(env, cfg, st, records[i], w1);
      Run(env, cfg, st, records[..i + 1], w) == (results + [outcome], w2)
  {
    assert records[..i + 1][..i] == records[..i];
  }

  /**
   * The loop yields one result per record, in order, each being what its
   * record gives in the world left by the records before it.
   */
  lemma {:induction false} RunInOrder(env: Env, cfg: RoutingConfig, st: Stamps, records: seq<Record>, w: World)
    ensures |Run(env, cfg, st, records, w).0| == |records|
    ensures forall i :: 0 <= i < |records| ==>
      Run(env, cfg, st, records, w).0[i] == Step(env, cfg, st, records[i], Run(env, cfg, st, records[..i], w).1).0
  {
    if records != [] {
      var n := |records| - 1;
      var prefix := records[..n];
      RunInOrder(env, cfg, st, prefix, w);
      forall i | 0 <= i < |records|
        ensures Run(env, cfg, st, records, w).0[i] == Step(env, cfg, st, records[i], Run(env, cfg, st, records[..i], w).1).0
      {
        if i < n {
          assert prefix[..i] == records[..i];
          assert prefix[i] == records[i];
        }
      }
    }
  }

  /**
   * The loop only adds: no cache entry is removed, and the lookups and the
   * backend calls of earlier records stay as they were, at most one call
   * being added per record.
   */
  lemma {:induction false} RunOnlyAdds(env: Env, cfg: RoutingConfig, st: Stamps, records: seq<Record>, w: World)
    ensures var w' := Run(env, cfg, st, records, w).1;
      && w.cache.Keys <= w'.cache.Keys
      && w.lookups <= w'.lookups
      && w.calls <= w'.calls
      && |w'.calls| <= |w.calls| + |records|
  {
    if records != [] {
      var n := |records| - 1;
      RunOnlyAdds(env, cfg, st, records[..n], w);
      var w1 := Run(env, cfg, st, records[..n], w).1;
      CallOnlyWhenRouted(env, cfg, st, records[n], w1);
      LookupOnlyAfterValidation(env, cfg, st, records[n], w1);
      CacheWrittenOnlyOnSuccess(env, cfg, st, records[n], w1);
    }
  }

  /**
   * `handler`: no records gives the 400 'No records found' reply and touches
   * nothing; otherwise the first ten records are processed in order, one
   * result each, `processedCount` is the number of results, and records past
   * the tenth are never looked at.
   */
  lemma HandledShape(env: Env, cfg: RoutingConfig, st: Stamps, records: seq<Record>, w: World)
    ensures var (reply, w') := Handled(env, cfg, st, records, w);
      && (records == [] ==> reply == NoRecords && reply.StatusCode() == 400 && w' == w)
      && (records != [] ==>
            && reply.Processed? && reply.StatusCode() == 200
            && |reply.results| == reply.processedCount == (if |records| > MaxBatch then MaxBatch else |records|)
            && (forall i :: 0 <= i < |reply.results| ==>
                  reply.results[i] == Step(env, cfg, st, records[i], Run(env, cfg, st, records[..i], w).1).0))
    ensures |records| > MaxBatch ==> Handled(env, cfg, st, records, w) == Handled(env, cfg, st, records[..MaxBatch], w)
  {
    if records != [] {
      var batch := Batch(records);
      RunInOrder(env, cfg, st, batch, w);
      forall i | 0 <= i < |batch| ensures batch[..i] == records[..i] && batch[i] == records[i] {
      }
    }
  }

  // ---------------------------------------------------------------------
  // The container

  /**
   * The routing function in its container: the collaborators it was set up
   * with and the cache table it reads and writes. `lookups` and `calls`
   * record its cache reads and backend calls; the length of `calls` is what
   * tells the backend which call it is answering.
   */
  class RoutingFunction {
    const env: Env
    var cache: map<string, string>
    ghost var lookups: seq<string>
    var calls: seq<Invocation>

    ghost function State(): World
      reads this
    {
      World(cache, lookups, calls)
    }

    constructor (env: Env, cache: map<string, string>)
      ensures this.env == env && State() == World(cache, [], [])
    {
      this.env := env;
      this.cache := cache;
      lookups := [];
      calls := [];
    }

    method GetFromCache(key: string) returns (value: Option<string>)
      modifies this`lookups
      ensures (value, State()) == CacheRead(env, old(State()), key)
    {
      if !env.tableConfigured {
        return None;
      }
      lookups := lookups + [key];
      value := if key in cache then Some(cache[key]) else None;
    }

    method PutToCache(key: string, value: string)
      modifies this`cache
      ensures State() == CacheWrite(env, old(State()), key, value)
    {
      if env.tableConfigured {
        cache := cache[key := value];
      }
    }

    method InvokeAgent(agentId: string, sessionId: string, inputText: string, errorId: string) returns (response: Outcome)
      modifies this`calls
      ensures (response, State()) == InvokeStep(env, old(State()), agentId, sessionId, inputText, errorId)
    {
      if agentId == "" || |agentId| > MaxAgentIdLen {
        return InvalidAgentId;
      }
      var call := Invocation(agentId, sessionId, inputText);
      var reply := env.backend(|calls|, call);
      calls := calls + [call];
      if reply.Raised? {
        return Outcome(500, Error("Bedrock service error", Some(errorId)), false, None);
      }
      var text := AssembleCompletion(reply.events);
      if text.None? {
        return Outcome(500, Error("Bedrock service error", Some(errorId)), false, None);
      }
      response := Outcome(200, Text(text.value), false, None);
    }

    /** The body of the loop over records, for one record. */
    method ProcessRecord(cfg: RoutingConfig, st: Stamps, rec: Record) returns (outcome: Outcome)
      modifies this
      ensures (outcome, State()) == Step(env, cfg, st, rec, old(State()))
    {
      var intake := Intake(env.prims, st, rec);
      if intake.Reject? {
        return intake.outcome;
      }
      var req := intake.req;
      var app := Some(JStr(req.appName));
      var key := KeyOf(env.prims, req);
      var cached := GetFromCache(key);
      if cached.Some? && cached.value != "" {
        return Outcome(200, Text(cached.value), true, app);
      }
      var route := RouteRequest(cfg, req.appName);
      if route.agentId.None? || route.agentId.value == "" {
        return BadRequest("No agent configured for app: " + req.appName, app);
      }
      var response := InvokeAgent(route.agentId.value, req.sessionId, req.inputText, st.errorId);
      if response.statusCode == 200 {
        PutToCache(key, response.body.text);
      }
      outcome := response.(appName := app);
    }

    /** `handler`. */
    method Handle(cfg: RoutingConfig, st: Stamps, records: seq<Record>) returns (reply: HandlerReply)
      modifies this
      ensures (reply, State()) == Handled(env, cfg, st, records, old(State()))
    {
      if records == [] {
        return NoRecords;
      }
      var batch := records;
      if |batch| > MaxBatch {
        batch := batch[..MaxBatch];
      }
      var results: seq<Outcome> := [];
      var i := 0;
      while i < |batch|
        invariant 0 <= i <= |batch|
        invariant (results, State()) == Run(env, cfg, st, batch[..i], old(State()))
      {
        RunSnoc(env, cfg, st, batch, i, old(State()));
        var outcome := ProcessRecord(cfg, st, batch[i]);
        results := results + [outcome];
        i := i + 1;
      }
      assert batch[..i] == batch;
      reply := Processed(results, |results|);
    }
  }
}
