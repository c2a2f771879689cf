/** The provenance-check endpoints of api_v1.py: `post_provenance_python`
    (token gate, stack parsing, the timestamped cache, dispatch and the
    writes after it) and the three lookups of a provenance check. */
module Provenance {
  import opened Common
  import opened Json
  import opened Digest
  import opened Reconcile
  import opened Dispatch

  /** The request: the JSON body and the query arguments. */
  datatype Request = Request(
    input: map<string, Value>,
    debug: bool,
    force: bool,
    origin: Option<string>,
    token: Option<string>)

  /** The body fields the handler lifts into its parameters. */
  const BodyFields: set<string> := {"application_stack", "justification", "stack_info", "kebechet_metadata"}

  function KebechetMetadata(req: Request): Value {
    GetOr(req.input, "kebechet_metadata", Null)
  }

  function Stack(req: Request): Value {
    GetOr(req.input, "application_stack", Null)
  }

  /** `parameters` once the body fields are lifted out of `input` and the
      token is dropped. */
  function Translated(req: Request): map<string, Value>
  {
    map[
      "input" := Object(req.input - BodyFields),
      "debug" := Bool(req.debug),
      "force" := Bool(req.force),
      "origin" := OptStr(req.origin),
      "application_stack" := Stack(req),
      "justification" := GetOr(req.input, "justification", Null),
      "stack_info" := GetOr(req.input, "stack_info", Null),
      "kebechet_metadata" := KebechetMetadata(req)]
  }

  /** `parameters` once the index URLs are added and `input`, `force` are
      dropped: what cached replies echo and what is stored for
      traceability. */
  function Parameters(req: Request, sources: Value): (p: map<string, Value>)
    ensures p.Keys == {"debug", "origin", "application_stack", "justification", "stack_info",
                       "kebechet_metadata", "whitelisted_sources"}
  {
    (Translated(req) - {"input", "force"})["whitelisted_sources" := sources]
  }

  /** The dictionary the cache key digests: the project with the index URLs
      and `debug`, and `origin` first when the request is authenticated. */
  function DigestInput(project: Params, req: Request, authenticated: bool, sources: Value): Result<Params>
  {
    var common := [("whitelisted_sources", sources), ("debug", Bool(req.debug))];
    Extend(project, if authenticated then [("origin", OptStr(req.origin))] + common else common)
  }

  /** The traceability and cache writes made once the check is scheduled. */
  function RecordDispatch(w: World, key: Fingerprint, jobId: string, now: int, parameters: map<string, Value>): World
  {
    w.(provenanceCache := w.provenanceCache[key := CacheRecord(jobId, now)],
       provenance := w.provenance.(requests := w.provenance.requests[jobId := Object(parameters)]))
  }

  /** `post_provenance_python(input, debug, force, origin, token)`, with
      `Project.from_strings` as `parse` and the graph's index URLs as
      `sources`. */
  function Handle(cfg: Config, env: Env, parse: Value -> Parsed<Params>, sources: Value,
                  w: World, req: Request): (h: Handled)
    ensures h.reply.Ok? ==> h.reply.value.status in {202, 400, 401}
    ensures StoresUnchanged(w, h.world) || ReplyOk(h)
    ensures !env.busAccepts ==> h.world == w
    ensures h.world.callbacks == w.callbacks
  {
    match TokenGate(req.token, cfg.apiToken, KebechetMetadata(req))
    case Some(refusal) => Handled(Ok(refusal), w)
    case None => Admitted(cfg, env, parse, sources, w, req)
  }

  /** The handler once the token gate let the request through: parse the
      stack, digest the cache key, reuse a fresh record or schedule. */
  function Admitted(cfg: Config, env: Env, parse: Value -> Parsed<Params>, sources: Value,
                    w: World, req: Request): (h: Handled)
    ensures h.reply.Ok? ==> h.reply.value.status in {202, 400}
    ensures StoresUnchanged(w, h.world) || ReplyOk(h)
    ensures !env.busAccepts ==> h.world == w
    ensures h.world.callbacks == w.callbacks
  {
    var parsed := parse(Stack(req));
    if !parsed.Parsed? then Handled(Ok(InvalidStack(parsed, Translated(req))), w)
    else
      var authenticated := req.token.Some?;
      Lookup(cfg, env, w, DigestInput(parsed.value, req, authenticated, sources), authenticated, req.force,
             Parameters(req, sources))
  }

  /** The handler once the stack parsed and its digest input was built:
      reuse a fresh record or schedule. */
  function Lookup(cfg: Config, env: Env, w: World, digested: Result<Params>, authenticated: bool, force: bool,
                  parameters: map<string, Value>): (h: Handled)
    ensures h.reply.Ok? ==> h.reply.value.status == 202
    ensures StoresUnchanged(w, h.world) || ReplyOk(h)
    ensures !env.busAccepts ==> h.world == w
    ensures h.world.callbacks == w.callbacks
  {
    match digested
    case Raise(e) => Handled(Raise(e), w)
    case Ok(items) =>
      var key := DigestParams(items);
      if Reusable(w.provenanceCache, key, force, env.now) then
        Handled(Ok(CachedReply(w.provenanceCache[key].analysisId, authenticated, parameters)), w)
      else Schedule(cfg, env, w, key, authenticated, parameters)
  }

  /** The dispatch half of the handler: a new job id, the message without
      the application stack (it travels by object storage), and the writes
      once the bus took it. */
  function Schedule(cfg: Config, env: Env, w: World, key: Fingerprint, authenticated: bool,
                    parameters: map<string, Value>): (h: Handled)
    ensures StoresUnchanged(w, h.world) || ReplyOk(h)
    ensures !env.busAccepts ==> h.world == w
    ensures h.world.callbacks == w.callbacks
    ensures env.busAccepts ==>
      var jobId := GenerateId("provenance-checker", env.suffix(0));
      && ReplyOk(h)
      && HasField(h.reply.value.body, "analysis_id", Str(jobId))
      && HasField(h.reply.value.body, "cached", Bool(false))
      && |h.world.published| == |w.published| + 1
      && h.world.published[..|w.published|] == w.published
      && h.world.published[|w.published|].topic == ProvenanceChecker
      && HasField(Object(h.world.published[|w.published|].contents), "job_id", Str(jobId))
      && "application_stack" !in h.world.published[|w.published|].contents
      && h.world.provenanceCache == w.provenanceCache[key := CacheRecord(jobId, env.now)]
      && h.world.provenance.documents == w.provenance.documents
      && h.world.orchestrator == w.orchestrator
      && h.world.provenance.requests == w.provenance.requests[jobId := Object(parameters["job_id" := Str(jobId)])]
  {
    var jobId := GenerateId("provenance-checker", env.suffix(0));
    var parameters := parameters["job_id" := Str(jobId)];
    var message := parameters["authenticated" := Bool(authenticated)] - {"application_stack"};
    var sent := SendScheduleMessage(cfg, env, w, message, ProvenanceChecker, true, authenticated);
    if ReplyOk(sent) then Handled(sent.reply, RecordDispatch(sent.world, key, jobId, env.now, parameters))
    else sent
  }

  /** The token is checked before anything else: a refused request gets
      401 whatever the stores, the clock, the parser or the bus, and leaves
      the world as it was. */
  lemma GateRunsFirst(cfg: Config, env1: Env, env2: Env, parse1: Value -> Parsed<Params>, parse2: Value -> Parsed<Params>,
                      sources1: Value, sources2: Value, w1: World, w2: World, req: Request)
    requires TokenGate(req.token, cfg.apiToken, KebechetMetadata(req)).Some?
    ensures Handle(cfg, env1, parse1, sources1, w1, req).reply == Handle(cfg, env2, parse2, sources2, w2, req).reply
    ensures Handle(cfg, env1, parse1, sources1, w1, req).reply.value.status == 401
    ensures Handle(cfg, env1, parse1, sources1, w1, req).world == w1
  {
  }

  /** A fresh cache record is reused: the stored id comes back as cached
      with 202, nothing is published and nothing is written. */
  lemma CacheHit(cfg: Config, env: Env, parse: Value -> Parsed<Params>, sources: Value,
                 w: World, req: Request, project: Params, items: Params)
    requires TokenGate(req.token, cfg.apiToken, KebechetMetadata(req)).None?
    requires parse(Stack(req)) == Parsed(project)
    requires DigestInput(project, req, req.token.Some?, sources) == Ok(items)
    requires Reusable(w.provenanceCache, DigestParams(items), req.force, env.now)
    ensures var h := Handle(cfg, env, parse, sources, w, req);
      && h.world == w
      && h.reply == Ok(CachedReply(w.provenanceCache[DigestParams(items)].analysisId, req.token.Some?,
                                   Parameters(req, sources)))
  {
  }

  /** With `force`, on a miss, or on a stale record, a new job id is made,
      exactly one message carrying it is published, and its id is recorded
      with the current time and the request stored under it. */
  lemma Dispatched(cfg: Config, env: Env, parse: Value -> Parsed<Params>, sources: Value,
                   w: World, req: Request, project: Params, items: Params)
    requires TokenGate(req.token, cfg.apiToken, KebechetMetadata(req)).None?
    requires parse(Stack(req)) == Parsed(project)
    requires DigestInput(project, req, req.token.Some?, sources) == Ok(items)
    requires !Reusable(w.provenanceCache, DigestParams(items), req.force, env.now)
    requires env.busAccepts
    ensures var h := Handle(cfg, env, parse, sources, w, req);
      var jobId := GenerateId("provenance-checker", env.suffix(0));
      && ReplyOk(h)
      && HasField(h.reply.value.body, "analysis_id", Str(jobId))
      && HasField(h.reply.value.body, "cached", Bool(false))
      && |h.world.published| == |w.published| + 1
      && h.world.published[..|w.published|] == w.published
      && h.world.published[|w.published|].topic == ProvenanceChecker
      && HasField(Object(h.world.published[|w.published|].contents), "job_id", Str(jobId))
      && "application_stack" !in h.world.published[|w.published|].contents
      && h.world.provenanceCache == w.provenanceCache[DigestParams(items) := CacheRecord(jobId, env.now)]
      && h.world.provenance.documents == w.provenance.documents
      && h.world.orchestrator == w.orchestrator
      && h.world.provenance.requests == w.provenance.requests[jobId := Object(Parameters(req, sources)["job_id" := Str(jobId)])]
  {
    HandleSchedules(cfg, env, parse, sources, w, req, project, items);
  }

  /** A request that passes the gate, parses and misses the cache is
      handed to `Schedule`. */
  lemma HandleSchedules(cfg: Config, env: Env, parse: Value -> Parsed<Params>, sources: Value,
                        w: World, req: Request, project: Params, items: Params)
    requires TokenGate(req.token, cfg.apiToken, KebechetMetadata(req)).None?
    requires parse(Stack(req)) == Parsed(project)
    requires DigestInput(project, req, req.token.Some?, sources) == Ok(items)
    requires !Reusable(w.provenanceCache, DigestParams(items), req.force, env.now)
    ensures Handle(cfg, env, parse, sources, w, req)
         == Schedule(cfg, env, w, DigestParams(items), req.token.Some?, Parameters(req, sources))
  {
    var parameters := Parameters(req, sources);
    assert Handle(cfg, env, parse, sources, w, req) == Admitted(cfg, env, parse, sources, w, req);
    assert Admitted(cfg, env, parse, sources, w, req)
        == Lookup(cfg, env, w, Ok(items), req.token.Some?, req.force, parameters);
  }

  /** When the bus refuses the message the request fails and no cache entry
      or stored request appears, so a retry dispatches again. */
  lemma BusFailureLeavesNoTrace(cfg: Config, env: Env, parse: Value -> Parsed<Params>, sources: Value,
                                w: World, req: Request)
    requires !env.busAccepts
    ensures var h := Handle(cfg, env, parse, sources, w, req);
      h.world == w && (h.reply.Ok? ==> h.reply.value.status in {202, 400, 401})
  {
  }

  /** Authenticated and anonymous checks of the same project never share a
      cache entry: only the authenticated digest input holds `origin`. */
  lemma AuthenticatedKeyDiffers(project: Params, req: Request, sources: Value)
    requires UniqueKeys(project)
    requires DigestInput(project, req, true, sources).Ok? && DigestInput(project, req, false, sources).Ok?
    ensures DigestParams(DigestInput(project, req, true, sources).value)
         != DigestParams(DigestInput(project, req, false, sources).value)
  {
    var common := [("whitelisted_sources", sources), ("debug", Bool(req.debug))];
    var extraA := [("origin", OptStr(req.origin))] + common;
    var a := DigestInput(project, req, true, sources).value;
    var u := DigestInput(project, req, false, sources).value;
    ExtendKeepsUnique(project, extraA);
    ExtendKeepsUnique(project, common);
    ToMapKeys(a, "origin");
    ToMapKeys(u, "origin");
    assert a[|project|].0 == "origin";
    assert "origin" in ToMap(a) && "origin" !in ToMap(u);
    if DigestParams(a) == DigestParams(u) {
      DigestDeterminesContent(a, u);
    }
  }

  /** `get_provenance_python(analysis_id)` */
  function GetResult(cfg: Config, w: World, id: string): (r: Result<Reply>)
    ensures !StartsWith(id, "provenance-checker-") ==> r == Ok(Reply(ErrorBody("Wrong analysis id provided", id), 400))
    ensures r.Ok? && r.value.status == 200 ==>
      id in w.provenance.documents && DropRequestMetadata(w.provenance.documents[id]) == Ok(r.value.body)
  {
    GetWithoutMetadata(w.provenance, w.orchestrator, id, Some("provenance-checker-"), Some(cfg.backendNamespace))
  }

  /** `get_provenance_python_status(analysis_id)` */
  function GetStatus(cfg: Config, w: World, id: string): (r: Reply)
    ensures r.status == 404 <==> ("provenance-check", id, cfg.backendNamespace) !in w.orchestrator.nodeStatus && !w.provenance.RequestExists(id)
  {
    StatusWithQueuedCases(w.provenance, w.orchestrator, "provenance-check", id, cfg.backendNamespace);
    GetStatusWithQueued(w.provenance, w.orchestrator, "provenance-check", id, cfg.backendNamespace)
  }

  /** `get_provenance_python_log(analysis_id)` */
  function GetLogOf(cfg: Config, w: World, id: string): (r: Reply)
    ensures r.status == 404 <==> ("provenance-check", id, cfg.backendNamespace) !in w.orchestrator.nodeLogs && id !in w.workflowLogs
  {
    LogSources(w.orchestrator, w.workflowLogs, "provenance-check", id, cfg.backendNamespace);
    GetLog(w.orchestrator, w.workflowLogs, "provenance-check", id, cfg.backendNamespace)
  }

  /** A freshly scheduled check that the orchestrator does not know yet is
      reported as queued by both the result and the status endpoint
      (`HandleSchedules` says when the handler schedules). */
  lemma ScheduledIsQueued(cfg: Config, env: Env, w: World, key: Fingerprint, authenticated: bool,
                          parameters: map<string, Value>)
    requires env.busAccepts && cfg.backendNamespace != ""
    requires var jobId := GenerateId("provenance-checker", env.suffix(0));
      && jobId !in w.provenance.documents
      && (cfg.backendNamespace, jobId) !in w.orchestrator.reports
      && ("provenance-check", jobId, cfg.backendNamespace) !in w.orchestrator.nodeStatus
    ensures var h := Schedule(cfg, env, w, key, authenticated, parameters);
      var jobId := GenerateId("provenance-checker", env.suffix(0));
      && GetResult(cfg, h.world, jobId) == Ok(Reply(ConstructStatusQueued(jobId), 202))
      && GetStatus(cfg, h.world, jobId) == Reply(ConstructStatusQueued(jobId), 200)
  {
    var h := Schedule(cfg, env, w, key, authenticated, parameters);
    QueuedOnceRequested(cfg, h.world, GenerateId("provenance-checker", env.suffix(0)));
  }

  /** A check whose request is stored but that has no document and that
      the orchestrator does not know is queued for both endpoints. */
  lemma QueuedOnceRequested(cfg: Config, w: World, jobId: string)
    requires StartsWith(jobId, "provenance-checker-") && cfg.backendNamespace != ""
    requires jobId in w.provenance.requests && jobId !in w.provenance.documents
    requires (cfg.backendNamespace, jobId) !in w.orchestrator.reports
    requires ("provenance-check", jobId, cfg.backendNamespace) !in w.orchestrator.nodeStatus
    ensures GetResult(cfg, w, jobId) == Ok(Reply(ConstructStatusQueued(jobId), 202))
    ensures GetStatus(cfg, w, jobId) == Reply(ConstructStatusQueued(jobId), 200)
  {
    QueuedAgreesAcrossEndpoints(w.provenance, w.orchestrator, "provenance-check", jobId,
                                Some("provenance-checker-"), cfg.backendNamespace);
  }
}
