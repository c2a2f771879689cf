/** The adviser endpoints of api_v1.py: `post_advise_python` (token gate,
    runtime-environment and constraints parsing, library-usage sorting, the
    timestamped cache with callback handling, dispatch and the writes after
    it) and the lookups of an adviser run. */
module Advise {
  import opened Common
  import opened Json
  import opened Digest
  import opened Reconcile
  import opened Dispatch

  /** The request: the JSON body and the query arguments. */
  datatype Request = Request(
    input: map<string, Value>,
    recommendationType: Option<string>,
    sourceType: Option<string>,
    debug: bool,
    force: bool,
    dev: bool,
    origin: Option<string>,
    token: Option<string>)

  /** The foreign parsers: `RuntimeEnvironment.from_dict(...).to_dict()`,
      `Constraints.from_string(...).to_dict()`, and `Project.from_strings`
      given the application stack, the parsed runtime environment and the
      parsed constraints, yielding `project.to_dict()`. */
  datatype Parsers = Parsers(
    runtimeEnvironment: Value -> Parsed<Value>,
    constraints: Value -> Parsed<Value>,
    project: (Value, Value, Value) -> Parsed<Params>)

  /** The body fields lifted into the parameters before the token check. */
  const BodyFields: set<string> :=
    {"application_stack", "justification", "stack_info", "kebechet_metadata", "labels", "callback_info"}

  function Field(req: Request, k: string): Value {
    GetOr(req.input, k, Null)
  }

  /** `str.upper()` on ASCII letters. */
  function Upper(s: string): (r: string)
    ensures |r| == |s|
    ensures forall i :: 0 <= i < |s| ==> ('a' <= s[i] <= 'z' <==> r[i] != s[i])
    ensures forall i :: 0 <= i < |s| && 'a' <= s[i] <= 'z' ==> r[i] == (s[i] as int - 32) as char
    ensures forall i :: 0 <= i < |s| ==> !('a' <= r[i] <= 'z')
  {
    if |s| == 0 then ""
    else [if 'a' <= s[0] <= 'z' then (s[0] as int - 32) as char else s[0]] + Upper(s[1..])
  }

  /** Upper-casing twice is upper-casing once. */
  lemma UpperIdempotent(s: string)
    ensures Upper(Upper(s)) == Upper(s)
  {
    var u := Upper(s);
    assert forall i :: 0 <= i < |u| ==> Upper(u)[i] == u[i];
  }

  /** Upper-casing works character by character: it distributes over
      concatenation. */
  lemma {:induction false} UpperAppend(a: string, b: string)
    ensures Upper(a + b) == Upper(a) + Upper(b)
  {
    if |a| > 0 {
      assert (a + b)[1..] == a[1..] + b;
      UpperAppend(a[1..], b);
    }
  }

  /** `source_type.upper() if source_type else None` */
  function SourceType(req: Request): Value {
    if TruthyStr(req.sourceType) then Str(Upper(req.sourceType.value)) else Null
  }

  /** `parameters` after the body fields are lifted and the token dropped. */
  function Translated(req: Request): map<string, Value>
  {
    map[
      "input" := Object(req.input - BodyFields),
      "recommendation_type" := OptStr(req.recommendationType),
      "source_type" := OptStr(req.sourceType),
      "debug" := Bool(req.debug),
      "force" := Bool(req.force),
      "dev" := Bool(req.dev),
      "origin" := OptStr(req.origin),
      "application_stack" := Field(req, "application_stack"),
      "justification" := Field(req, "justification"),
      "stack_info" := Field(req, "stack_info"),
      "kebechet_metadata" := Field(req, "kebechet_metadata"),
      "labels" := Field(req, "labels"),
      "callback_info" := Field(req, "callback_info")]
  }

  /** `input.pop("constraints", None) or ""` */
  function ConstraintsText(req: Request): Value {
    var c := Field(req, "constraints");
    if Truthy(c) then c else Str("")
  }

  /** `parameters` once `input` and `force` are gone and the parsed
      runtime environment and the (sorted) library usage are in. */
  function Parameters(req: Request, runtimeEnvironment: Value, libraryUsage: Value): (p: map<string, Value>)
    ensures "input" !in p && "force" !in p
    ensures HasField(Object(p), "library_usage", libraryUsage)
  {
    (Translated(req) - {"input", "force"})["runtime_environment" := runtimeEnvironment]["library_usage" := libraryUsage]
  }

  /** The keys digested with the project, and their values, for an
      anonymous request. */
  function AnonymousExtras(req: Request, libraryUsage: Value): (e: Params)
    ensures UniqueKeys(e)
    ensures forall i :: 0 <= i < |e| ==> e[i].0 != "origin"
  {
    [("library_usage", libraryUsage), ("recommendation_type", OptStr(req.recommendationType)),
     ("dev", Bool(req.dev)), ("debug", Bool(req.debug)), ("labels", Field(req, "labels"))]
  }

  /** An authenticated request adds `origin`, the upper-cased `source_type`
      and `kebechet_metadata`. */
  function AuthenticatedExtras(req: Request, libraryUsage: Value): (e: Params)
    ensures UniqueKeys(e)
    ensures |e| > 2 && e[2].0 == "origin"
  {
    [("library_usage", libraryUsage), ("recommendation_type", OptStr(req.recommendationType)),
     ("origin", OptStr(req.origin)), ("source_type", SourceType(req)),
     ("dev", Bool(req.dev)), ("debug", Bool(req.debug)),
     ("kebechet_metadata", Field(req, "kebechet_metadata")), ("labels", Field(req, "labels"))]
  }

  /** The dictionary the cache key digests. */
  function DigestInput(project: Params, req: Request, authenticated: bool, libraryUsage: Value): Result<Params>
  {
    Extend(project,
      if authenticated then AuthenticatedExtras(req, libraryUsage) else AnonymousExtras(req, libraryUsage))
  }

  /** `post_advise_python(input, recommendation_type, source_type, debug,
      force, dev, origin, token)` */
  function Handle(cfg: Config, env: Env, fx: Parsers, w: World, req: Request): (h: Handled)
    ensures h.reply.Ok? ==> h.reply.value.status in {202, 400, 401}
  {
    match TokenGate(req.token, cfg.apiToken, Field(req, "kebechet_metadata"))
    case Some(refusal) => Handled(Ok(refusal), w)
    case None => Admitted(cfg, env, fx, w, req)
  }

  /** The handler past the token check: parse, sort, digest, then reuse or
      schedule. */
  function Admitted(cfg: Config, env: Env, fx: Parsers, w: World, req: Request): (h: Handled)
    ensures h.reply.Ok? ==> h.reply.value.status in {202, 400}
  {
    var authenticated := req.token.Some?;
    var input := req.input - BodyFields;
    var env1 := fx.runtimeEnvironment(GetOr(req.input, "runtime_environment", Object(map[])));
    if !env1.Parsed? then
      var parameters := Translated(req)["input" := Object(input - {"runtime_environment"})];
      Handled(Ok(Reply(Object(map["parameters" := Object(parameters),
        "error" := Str("Failed to parse runtime environment: " + env1.message)]), 400)), w)
    else
      var constraints := fx.constraints(ConstraintsText(req));
      if !constraints.Parsed? then
        var parameters := Translated(req)["input" := Object(input - {"runtime_environment", "constraints"})]
                                         ["runtime_environment" := env1.value];
        Handled(Ok(Reply(Object(map["parameters" := Object(parameters),
          "error" := Str("Invalid constraints supplied: " + constraints.message)]), 400)), w)
      else
        match NormalizeLibraryUsage(Field(req, "library_usage"))
        case Raise(e) => Handled(Raise(e), w)
        case Ok(usage) =>
          var parameters := Parameters(req, env1.value, usage);
          var project := fx.project(Field(req, "application_stack"), env1.value, constraints.value);
          if !project.Parsed? then Handled(Ok(InvalidStack(project, parameters)), w)
          else
            match DigestInput(project.value, req, authenticated, usage)
            case Raise(e) => Handled(Raise(e), w)
            case Ok(items) =>
              var key := DigestParams(items);
              if Reusable(w.adviserCache, key, req.force, env.now) then
                Reuse(cfg, w, w.adviserCache[key].analysisId, authenticated, Field(req, "callback_info"), parameters)
              else
                Schedule(cfg, env, w, key, authenticated, Field(req, "callback_info"),
                         parameters["source_type" := SourceType(req)]["constraints" := constraints.value])
  }

  /** A fresh record is reused. With a `callback_info`, the earlier run is
      looked up: still running (202) registers the callback for it; any
      other answer is forwarded to the callback at once, stripped of its
      request metadata when finished. */
  function Reuse(cfg: Config, w: World, id: string, authenticated: bool, callbackInfo: Value,
                 parameters: map<string, Value>): (h: Handled)
    ensures h.world == w || h.world == w.(callbacks := h.world.callbacks)
    ensures StoresUnchanged(w, h.world) && h.world.published == w.published
    ensures h.reply.Ok? ==> h.reply == Ok(CachedReply(id, authenticated, parameters))
    ensures !Truthy(callbackInfo) ==> h == Handled(Ok(CachedReply(id, authenticated, parameters)), w)
  {
    var cached := Ok(CachedReply(id, authenticated, parameters));
    if !Truthy(callbackInfo) then Handled(cached, w)
    else
      match GetDocument(w.advisers, w.orchestrator, id, Some("adviser-"), Some(cfg.backendNamespace))
      case Raise(e) => Handled(Raise(e), w)
      case Ok(doc) =>
        if doc.status == 202 then
          // `callback_info["url"]` is the first argument evaluated
          match Index(callbackInfo, "url")
          case Raise(e) => Handled(Raise(e), w)
          case Ok(_) => Handled(cached, w.(callbacks := w.callbacks + [Registered(id, callbackInfo)]))
        else
          match ForwardedResult(doc)
          case Raise(e) => Handled(Raise(e), w)
          case Ok(result) =>
            // `.get("client_data")` and `.get("authorization")` come before `["url"]`
            match Get(callbackInfo, "client_data")
            case Raise(e) => Handled(Raise(e), w)
            case Ok(_) =>
              match Index(callbackInfo, "url")
              case Raise(e) => Handled(Raise(e), w)
              case Ok(_) => Handled(cached, w.(callbacks := w.callbacks + [Forwarded(callbackInfo, result)]))
  }

  /** The document a callback is sent at once: a finished one (200) without
      its request metadata, any other answer as it came. */
  function ForwardedResult(doc: Reply): (r: Result<Reply>)
    ensures doc.status != 200 ==> r == Ok(doc)
    ensures r.Ok? ==> r.value.status == doc.status
  {
    if doc.status != 200 then Ok(doc)
    else
      match DropRequestMetadata(doc.body)
      case Raise(e) => Raise(e)
      case Ok(body) => Ok(Reply(body, 200))
  }

  /** A truthy `callback_info` that is not a dictionary fails the way the
      source's first use of it fails: indexing it (TypeError) when the
      earlier run is still going, calling `.get` on it (AttributeError) when
      its result is forwarded. */
  lemma CallbackInfoErrors(cfg: Config, w: World, id: string, authenticated: bool, callbackInfo: Value,
                           parameters: map<string, Value>)
    requires Truthy(callbackInfo) && !callbackInfo.Object?
    requires GetDocument(w.advisers, w.orchestrator, id, Some("adviser-"), Some(cfg.backendNamespace)).Ok?
    ensures var doc := GetDocument(w.advisers, w.orchestrator, id, Some("adviser-"), Some(cfg.backendNamespace)).value;
      var h := Reuse(cfg, w, id, authenticated, callbackInfo, parameters);
      && (doc.status == 202 ==> h == Handled(Raise(TypeError), w))
      && (doc.status != 202 && ForwardedResult(doc).Ok? ==> h == Handled(Raise(AttributeError), w))
  {
  }

  /** The fields that travel by object storage rather than in the message. */
  const CephFields: set<string> := {"application_stack", "runtime_environment", "library_usage", "labels", "constraints"}

  /** Dispatch: a new job id, the message without the bulky fields, then
      the cache record, the callback secret and the stored request, in that
      order. */
  function Schedule(cfg: Config, env: Env, w: World, key: Fingerprint, authenticated: bool, callbackInfo: Value,
                    parameters: map<string, Value>): (h: Handled)
    ensures !env.busAccepts ==> h == Handled(Raise(PublishError), w)
    ensures env.busAccepts ==>
      var jobId := GenerateId("adviser", env.suffix(0));
      && |h.world.published| == |w.published| + 1
      && h.world.published[..|w.published|] == w.published
      && h.world.published[|w.published|].topic == Adviser
      && HasField(Object(h.world.published[|w.published|].contents), "job_id", Str(jobId))
      && h.world.published[|w.published|].contents.Keys !! CephFields
      && h.world.adviserCache == w.adviserCache[key := CacheRecord(jobId, env.now)]
      && (h.reply.Ok? <==> !Truthy(callbackInfo) || Index(callbackInfo, "url").Ok?)
      && (h.reply.Ok? ==>
            && ReplyOk(h)
            && HasField(h.reply.value.body, "analysis_id", Str(jobId))
            && HasField(h.reply.value.body, "cached", Bool(false))
            && h.world.advisers.requests == w.advisers.requests[jobId := Object(parameters["job_id" := Str(jobId)])]
            && h.world.callbacks ==
                 w.callbacks + (if Truthy(callbackInfo) then [Registered(jobId, callbackInfo)] else []))
  {
    var jobId := GenerateId("adviser", env.suffix(0));
    var sent := Publish(cfg, env, w, jobId, authenticated, parameters);
    if !ReplyOk(sent) then sent
    else AfterPublish(sent, key, jobId, env.now, callbackInfo, parameters["job_id" := Str(jobId)])
  }

  /** The message of a new run: the parameters with the job id and the
      authentication flag, without the fields kept in object storage. */
  function Publish(cfg: Config, env: Env, w: World, jobId: string, authenticated: bool,
                   parameters: map<string, Value>): (h: Handled)
    ensures !env.busAccepts ==> h == Handled(Raise(PublishError), w)
    ensures env.busAccepts ==>
      && ReplyOk(h)
      && HasField(h.reply.value.body, "analysis_id", Str(jobId))
      && HasField(h.reply.value.body, "cached", Bool(false))
      && |h.world.published| == |w.published| + 1
      && h.world.published[..|w.published|] == w.published
      && h.world.published[|w.published|].topic == Adviser
      && HasField(Object(h.world.published[|w.published|].contents), "job_id", Str(jobId))
      && h.world.published[|w.published|].contents.Keys !! CephFields
      && h.world == w.(published := h.world.published)
  {
    var m := AdviserMessage(jobId, authenticated, parameters);
    StampedAdviserMessage(cfg, m, jobId);
    SendScheduleMessage(cfg, env, w, m, Adviser, true, authenticated)
  }

  /** Stamping adds no field kept in object storage and keeps the job id. */
  lemma StampedAdviserMessage(cfg: Config, m: map<string, Value>, jobId: string)
    requires m.Keys !! CephFields && HasField(Object(m), "job_id", Str(jobId))
    ensures Stamp(cfg, m).Keys !! CephFields
    ensures HasField(Object(Stamp(cfg, m)), "job_id", Str(jobId))
  {
    StampKeeps(cfg, m, "job_id", Str(jobId));
  }

  /** The contents of the adviser message before stamping. */
  function AdviserMessage(jobId: string, authenticated: bool, parameters: map<string, Value>): (m: map<string, Value>)
    ensures m.Keys !! CephFields
    ensures HasField(Object(m), "job_id", Str(jobId))
    ensures HasField(Object(m), "authenticated", Bool(authenticated))
    ensures forall k :: k in parameters && k !in CephFields && k != "job_id" && k != "authenticated" ==> k in m && m[k] == parameters[k]
  {
    parameters["job_id" := Str(jobId)]["authenticated" := Bool(authenticated)] - CephFields
  }

  /** The writes once the bus took the message: the cache record, the
      callback registration (whose `url` must be present), and the stored
      request. */
  function AfterPublish(sent: Handled, key: Fingerprint, jobId: string, now: int, callbackInfo: Value,
                        parameters: map<string, Value>): (h: Handled)
    ensures h.world.published == sent.world.published
    ensures h.world.adviserCache == sent.world.adviserCache[key := CacheRecord(jobId, now)]
    ensures h.reply.Ok? <==> sent.reply.Ok? && (!Truthy(callbackInfo) || Index(callbackInfo, "url").Ok?)
    ensures h.reply.Ok? ==>
      && h.reply == sent.reply
      && h.world.advisers.requests == sent.world.advisers.requests[jobId := Object(parameters)]
      && h.world.callbacks ==
           sent.world.callbacks + (if Truthy(callbackInfo) then [Registered(jobId, callbackInfo)] else [])
  {
    var w1 := sent.world.(adviserCache := sent.world.adviserCache[key := CacheRecord(jobId, now)]);
    if Truthy(callbackInfo) && Index(callbackInfo, "url").Raise? then
      Handled(Raise(Index(callbackInfo, "url").exc), w1)
    else
      var w2 := if Truthy(callbackInfo) then w1.(callbacks := w1.callbacks + [Registered(jobId, callbackInfo)]) else w1;
      Handled(sent.reply, w2.(advisers := w2.advisers.(requests := w2.advisers.requests[jobId := Object(parameters)])))
  }

  /** The token is checked before anything else: a refused request gets
      401 whatever the stores, the clock, the parsers or the bus, and leaves
      the world as it was. */
  lemma GateRunsFirst(cfg: Config, env1: Env, env2: Env, fx1: Parsers, fx2: Parsers, w1: World, w2: World, req: Request)
    requires TokenGate(req.token, cfg.apiToken, Field(req, "kebechet_metadata")).Some?
    ensures Handle(cfg, env1, fx1, w1, req).reply == Handle(cfg, env2, fx2, w2, req).reply
    ensures Handle(cfg, env1, fx1, w1, req).reply.value.status == 401
    ensures Handle(cfg, env1, fx1, w1, req).world == w1
  {
  }

  /** The request as far as its cache key: the parses succeeded and the
      digest input was built. */
  predicate Keyed(cfg: Config, fx: Parsers, req: Request, usage: Value, items: Params) {
    && TokenGate(req.token, cfg.apiToken, Field(req, "kebechet_metadata")).None?
    && fx.runtimeEnvironment(GetOr(req.input, "runtime_environment", Object(map[]))).Parsed?
    && fx.constraints(ConstraintsText(req)).Parsed?
    && NormalizeLibraryUsage(Field(req, "library_usage")) == Ok(usage)
    && fx.project(Field(req, "application_stack"),
                  fx.runtimeEnvironment(GetOr(req.input, "runtime_environment", Object(map[]))).value,
                  fx.constraints(ConstraintsText(req)).value).Parsed?
    && DigestInput(fx.project(Field(req, "application_stack"),
                              fx.runtimeEnvironment(GetOr(req.input, "runtime_environment", Object(map[]))).value,
                              fx.constraints(ConstraintsText(req)).value).value,
                   req, req.token.Some?, usage) == Ok(items)
  }

  /** A fresh record is reused: its id comes back as cached with 202 and
      nothing is published or stored; only a callback can be registered or
      forwarded. */
  lemma CacheHit(cfg: Config, env: Env, fx: Parsers, w: World, req: Request, usage: Value, items: Params)
    requires Keyed(cfg, fx, req, usage, items)
    requires Reusable(w.adviserCache, DigestParams(items), req.force, env.now)
    ensures var h := Handle(cfg, env, fx, w, req);
      var id := w.adviserCache[DigestParams(items)].analysisId;
      && h.world.published == w.published
      && StoresUnchanged(w, h.world)
      && (h.reply.Ok? ==> ReplyOk(h) && HasField(h.reply.value.body, "analysis_id", Str(id))
                          && HasField(h.reply.value.body, "cached", Bool(true)))
      && (!Truthy(Field(req, "callback_info")) ==> h.world == w && h.reply.Ok?)
  {
    var h := Handle(cfg, env, fx, w, req);
    var re := fx.runtimeEnvironment(GetOr(req.input, "runtime_environment", Object(map[]))).value;
    var key := DigestParams(items);
    assert h == Reuse(cfg, w, w.adviserCache[key].analysisId, req.token.Some?, Field(req, "callback_info"),
                      Parameters(req, re, usage));
  }

  /** Otherwise a new job is scheduled: one message is published and the
      cache record is written with the current time. */
  lemma Dispatched(cfg: Config, env: Env, fx: Parsers, w: World, req: Request, usage: Value, items: Params)
    requires Keyed(cfg, fx, req, usage, items)
    requires !Reusable(w.adviserCache, DigestParams(items), req.force, env.now)
    requires env.busAccepts
    ensures var h := Handle(cfg, env, fx, w, req);
      var jobId := GenerateId("adviser", env.suffix(0));
      && |h.world.published| == |w.published| + 1
      && h.world.published[|w.published|].topic == Adviser
      && h.world.adviserCache == w.adviserCache[DigestParams(items) := CacheRecord(jobId, env.now)]
      && (!Truthy(Field(req, "callback_info")) ==> ReplyOk(h) && jobId in h.world.advisers.requests)
  {
    var h := Handle(cfg, env, fx, w, req);
    assert h == Admitted(cfg, env, fx, w, req);
  }

  /** Authenticated and anonymous advice for the same project never share a
      cache entry: only the authenticated digest input holds `origin`. */
  lemma AuthenticatedKeyDiffers(project: Params, req: Request, usage: Value)
    requires UniqueKeys(project)
    requires DigestInput(project, req, true, usage).Ok? && DigestInput(project, req, false, usage).Ok?
    ensures DigestParams(DigestInput(project, req, true, usage).value)
         != DigestParams(DigestInput(project, req, false, usage).value)
  {
    var extraA := AuthenticatedExtras(req, usage);
    var extraU := AnonymousExtras(req, usage);
    var a := DigestInput(project, req, true, usage).value;
    var u := DigestInput(project, req, false, usage).value;
    ExtendKeepsUnique(project, extraA);
    ExtendKeepsUnique(project, extraU);
    ToMapKeys(a, "origin");
    ToMapKeys(u, "origin");
    assert a[|project| + 2].0 == "origin";
    assert "origin" in ToMap(a) && "origin" !in ToMap(u);
    if DigestParams(a) == DigestParams(u) {
      DigestDeterminesContent(a, u);
    }
  }

  /** `get_advise_python(analysis_id)` */
  function GetResult(cfg: Config, w: World, id: string): (r: Result<Reply>)
    ensures !StartsWith(id, "adviser-") ==> r == Ok(Reply(ErrorBody("Wrong analysis id provided", id), 400))
    ensures r.Ok? && r.value.status == 200 ==>
      id in w.advisers.documents && DropRequestMetadata(w.advisers.documents[id]) == Ok(r.value.body)
  {
    GetWithoutMetadata(w.advisers, w.orchestrator, id, Some("adviser-"), Some(cfg.backendNamespace))
  }

  /** `get_advise_python_status(analysis_id)` */
  function GetStatus(cfg: Config, w: World, id: string): (r: Reply)
    ensures r.status == 404 <==> ("advise", id, cfg.backendNamespace) !in w.orchestrator.nodeStatus && !w.advisers.RequestExists(id)
  {
    StatusWithQueuedCases(w.advisers, w.orchestrator, "advise", id, cfg.backendNamespace);
    GetStatusWithQueued(w.advisers, w.orchestrator, "advise", id, cfg.backendNamespace)
  }

  /** `get_advise_python_log(analysis_id)` */
  function GetLogOf(cfg: Config, w: World, id: string): (r: Reply)
    ensures r.status == 404 <==> ("advise", id, cfg.backendNamespace) !in w.orchestrator.nodeLogs && id !in w.workflowLogs
  {
    LogSources(w.orchestrator, w.workflowLogs, "advise", id, cfg.backendNamespace);
    GetLog(w.orchestrator, w.workflowLogs, "advise", id, cfg.backendNamespace)
  }
}
