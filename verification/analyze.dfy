/** The image-analysis endpoints of api_v1.py: `post_analyze` (metadata
    first, the untimed cache keyed by image digest and parameters, dispatch,
    the analysis-by-digest record and the writes after dispatch) and the
    lookups of an analysis. */
module Analyze {
  import opened Common
  import opened Json
  import opened Digest
  import opened Reconcile
  import opened Dispatch
  import Image

  /** The request's query arguments. */
  datatype Request = Request(
    image: string,
    debug: bool,
    registryUser: Option<string>,
    registryPassword: Option<string>,
    environmentType: Option<string>,
    origin: Option<string>,
    verifyTls: bool,
    force: bool)

  /** The handler's parameters (`locals()` without `force`) with a given
      `environment_type`, plus `is_external`. */
  function ParametersWith(req: Request, environmentType: Value): (p: Params)
    ensures UniqueKeys(p)
  {
    [("image", Str(req.image)), ("debug", Bool(req.debug)),
     ("registry_user", OptStr(req.registryUser)), ("registry_password", OptStr(req.registryPassword)),
     ("environment_type", environmentType), ("origin", OptStr(req.origin)),
     ("verify_tls", Bool(req.verifyTls)), ("is_external", Bool(true))]
  }

  /** As written: `parameters.get("runtime_environment") or "runtime"`
      looks up a key the parameters never have, so the environment type is
      always `runtime`. */
  function ParametersAsWritten(req: Request): (p: Params)
    ensures UniqueKeys(p) && ("environment_type", Str("runtime")) in p && ("is_external", Bool(true)) in p
  {
    ParametersWith(req, Str("runtime"))
  }

  /** Corrected: the requested environment type, `runtime` when none is
      given. */
  function Parameters(req: Request): (p: Params)
    ensures UniqueKeys(p) && ("is_external", Bool(true)) in p
    ensures TruthyStr(req.environmentType) ==> ("environment_type", Str(req.environmentType.value)) in p
    ensures !TruthyStr(req.environmentType) ==> ("environment_type", Str("runtime")) in p
  {
    ParametersWith(req, if TruthyStr(req.environmentType) then Str(req.environmentType.value) else Str("runtime"))
  }

  lemma ParametersWithMap(req: Request, e: Value)
    ensures ToMap(ParametersWith(req, e)) == ToMap(ParametersAsWritten(req))["environment_type" := e]
    ensures HasField(Object(ToMap(ParametersWith(req, e))), "environment_type", e)
  {
    assert ParametersWith(req, e) == ParametersAsWritten(req)[4 := ("environment_type", e)];
    ToMapUpdateAt(ParametersAsWritten(req), 4, e);
  }

  /** The requested environment type never reaches the analysis as written:
      whatever is asked for, `runtime` is used; asking for `buildtime` shows
      the difference to the corrected parameters. */
  lemma EnvironmentTypeDiscarded(req: Request)
    ensures HasField(Object(ToMap(ParametersAsWritten(req))), "environment_type", Str("runtime"))
    ensures req.environmentType == Some("buildtime") ==>
      HasField(Object(ToMap(Parameters(req))), "environment_type", Str("buildtime"))
  {
    ParametersWithMap(req, Str("runtime"));
    assert ParametersWith(req, Str("runtime")) == ParametersAsWritten(req);
    ParametersWithMap(req, if TruthyStr(req.environmentType) then Str(req.environmentType.value) else Str("runtime"));
  }

  /** The corrected parameters carry the requested environment type and
      default to `runtime` only when none is given; they agree with the
      written ones on every other key. */
  lemma EnvironmentTypeKept(req: Request)
    ensures TruthyStr(req.environmentType) ==>
      HasField(Object(ToMap(Parameters(req))), "environment_type", Str(req.environmentType.value))
    ensures !TruthyStr(req.environmentType) ==>
      HasField(Object(ToMap(Parameters(req))), "environment_type", Str("runtime"))
    ensures ToMap(Parameters(req)) - {"environment_type"} == ToMap(ParametersAsWritten(req)) - {"environment_type"}
  {
    var e := if TruthyStr(req.environmentType) then Str(req.environmentType.value) else Str("runtime");
    ParametersWithMap(req, e);
    var m := ToMap(ParametersAsWritten(req));
    assert m["environment_type" := e] - {"environment_type"} == m - {"environment_type"};
  }

  /** `metadata["digest"]`, which must be a string to be joined with `+`. */
  function ImageDigest(metadata: Value): (r: Result<string>)
    ensures r.Ok? <==> HasField(metadata, "digest", Str(if r.Ok? then r.value else ""))
  {
    match Index(metadata, "digest")
    case Raise(e) => Raise(e)
    case Ok(d) => if d.Str? then Ok(d.s) else Raise(TypeError)
  }

  /** The reply for an analysis found in the cache. */
  function CachedAnalysis(id: string, parameters: map<string, Value>): Reply {
    Reply(Object(map["analysis_id" := Str(id), "cached" := Bool(true), "parameters" := Object(parameters)]), 202)
  }

  /** `post_analyze(image, debug, registry_user, registry_password,
      environment_type, origin, verify_tls, force)`, with skopeo as `run`,
      as written: the parameters sent, cached and fingerprinted are
      `ParametersAsWritten`. */
  function Handle(cfg: Config, env: Env, run: string -> Image.CommandResult, w: World, req: Request): (h: Handled)
    ensures h.world.callbacks == w.callbacks && h.world.graph == w.graph
  {
    HandleWith(cfg, env, run, w, req, ParametersAsWritten(req))
  }

  /** The handler with the corrected parameters, which keep the requested
      environment type. */
  function HandleCorrected(cfg: Config, env: Env, run: string -> Image.CommandResult, w: World, req: Request): (h: Handled)
    ensures h.world.callbacks == w.callbacks && h.world.graph == w.graph
  {
    HandleWith(cfg, env, run, w, req, Parameters(req))
  }

  /** The body of `post_analyze` once its parameter dictionary is built. */
  function HandleWith(cfg: Config, env: Env, run: string -> Image.CommandResult, w: World, req: Request,
                      params: Params): (h: Handled)
    ensures h.world.callbacks == w.callbacks && h.world.graph == w.graph
  {
    match Image.DoGetImageMetadata(req.image, req.registryUser, req.registryPassword, req.verifyTls, run)
    case Raise(e) => Handled(Raise(e), w)
    case Ok(meta) =>
      if meta.status != 200 then Handled(Ok(meta), w)
      else
        match ImageDigest(meta.body)
        case Raise(e) => Handled(Raise(e), w)
        case Ok(digest) =>
          var parameters := ToMap(params);
          var key := (digest, DigestParams(params));
          if !req.force && key in w.analysesCache then
            Handled(Ok(CachedAnalysis(w.analysesCache[key], parameters)), w)
          else Schedule(cfg, env, w, digest, key, parameters)
  }

  /** As written, the requested environment type has no effect on the
      handler: asking for any type answers as asking for none. */
  lemma EnvironmentTypeIgnored(cfg: Config, env: Env, run: string -> Image.CommandResult, w: World, req: Request)
    ensures Handle(cfg, env, run, w, req) == Handle(cfg, env, run, w, req.(environmentType := None))
    ensures Handle(cfg, env, run, w, req) == HandleCorrected(cfg, env, run, w, req.(environmentType := None))
  {
    assert ParametersAsWritten(req) == ParametersAsWritten(req.(environmentType := None));
    assert Parameters(req.(environmentType := None)) == ParametersAsWritten(req);
  }

  /** The correction changes nothing for a request that asks for no
      environment type or for `runtime`. */
  lemma CorrectedAgreesOnRuntime(cfg: Config, env: Env, run: string -> Image.CommandResult, w: World, req: Request)
    requires !TruthyStr(req.environmentType) || req.environmentType == Some("runtime")
    ensures HandleCorrected(cfg, env, run, w, req) == Handle(cfg, env, run, w, req)
  {
    assert Parameters(req) == ParametersAsWritten(req);
  }

  /** Dispatch: the message is the parameters themselves, so the stamp
      `_send_schedule_message` adds ends up in the stored request too. The
      reply is recorded by image digest whatever its status; the cache and
      the stored request only after a 202. */
  function Schedule(cfg: Config, env: Env, w: World, digest: string, key: (string, Fingerprint),
                    parameters: map<string, Value>): (h: Handled)
    ensures !env.busAccepts ==> h == Handled(Raise(PublishError), w)
    ensures env.busAccepts ==>
      var jobId := GenerateId("package-extract", env.suffix(0));
      var stamped := Stamp(cfg, parameters["job_id" := Str(jobId)]);
      && ReplyOk(h)
      && HasField(h.reply.value.body, "analysis_id", Str(jobId))
      && HasField(h.reply.value.body, "cached", Bool(false))
      && h.world.published == w.published + [Message(PackageExtract, stamped)]
      && h.world.analysisByDigest == w.analysisByDigest[digest := h.reply.value.body]
      && h.world.analysesCache == w.analysesCache[key := jobId]
      && h.world.analyses.requests == w.analyses.requests[jobId := Object(stamped)]
    ensures h.world.callbacks == w.callbacks && h.world.graph == w.graph
  {
    var jobId := GenerateId("package-extract", env.suffix(0));
    var parameters := parameters["job_id" := Str(jobId)];
    var sent := SendScheduleMessage(cfg, env, w, parameters, PackageExtract, false, false);
    if sent.reply.Raise? then sent
    else
      var response := sent.reply.value;
      var w1 := sent.world.(analysisByDigest := sent.world.analysisByDigest[digest := response.body]);
      if response.status != 202 then Handled(sent.reply, w1)
      else
        var stamped := Stamp(cfg, parameters);
        Handled(sent.reply, w1.(analysesCache := w1.analysesCache[key := jobId],
                                analyses := w1.analyses.(requests := w1.analyses.requests[jobId := Object(stamped)])))
  }

  /** Metadata comes first: when skopeo reports an error the handler
      returns that reply and nothing is looked up, published or written. */
  lemma MetadataFailureFirst(cfg: Config, env: Env, run: string -> Image.CommandResult, w: World, req: Request)
    requires var m := Image.DoGetImageMetadata(req.image, req.registryUser, req.registryPassword, req.verifyTls, run);
      m.Ok? && m.value.status != 200
    ensures var h := Handle(cfg, env, run, w, req);
      && h.world == w
      && h.reply == Image.DoGetImageMetadata(req.image, req.registryUser, req.registryPassword, req.verifyTls, run)
      && h.reply.value.status in {400, 401, 403}
  {
  }

  /** Without `force` a known (digest, parameters) pair is answered from the
      cache: no message, no write. */
  lemma CacheHit(cfg: Config, env: Env, run: string -> Image.CommandResult, w: World, req: Request,
                 metadata: Value, digest: string)
    requires Image.DoGetImageMetadata(req.image, req.registryUser, req.registryPassword, req.verifyTls, run)
             == Ok(Reply(metadata, 200))
    requires ImageDigest(metadata) == Ok(digest)
    requires !req.force && (digest, DigestParams(ParametersAsWritten(req))) in w.analysesCache
    ensures var h := Handle(cfg, env, run, w, req);
      && h.world == w
      && h.reply == Ok(CachedAnalysis(w.analysesCache[(digest, DigestParams(ParametersAsWritten(req)))], ToMap(ParametersAsWritten(req))))
  {
  }

  /** With `force` or on a miss, one message is published and the reply is
      recorded by image digest; the new id is cached and the request
      stored. */
  lemma Dispatched(cfg: Config, env: Env, run: string -> Image.CommandResult, w: World, req: Request,
                   metadata: Value, digest: string)
    requires Image.DoGetImageMetadata(req.image, req.registryUser, req.registryPassword, req.verifyTls, run)
             == Ok(Reply(metadata, 200))
    requires ImageDigest(metadata) == Ok(digest)
    requires req.force || (digest, DigestParams(ParametersAsWritten(req))) !in w.analysesCache
    requires env.busAccepts
    ensures var h := Handle(cfg, env, run, w, req);
      var jobId := GenerateId("package-extract", env.suffix(0));
      && ReplyOk(h)
      && |h.world.published| == |w.published| + 1
      && h.world.analysisByDigest == w.analysisByDigest[digest := h.reply.value.body]
      && h.world.analysesCache == w.analysesCache[(digest, DigestParams(ParametersAsWritten(req))) := jobId]
      && jobId in h.world.analyses.requests
  {
    assert Handle(cfg, env, run, w, req)
        == Schedule(cfg, env, w, digest, (digest, DigestParams(ParametersAsWritten(req))), ToMap(ParametersAsWritten(req)));
  }

  /** `get_analyze(analysis_id)` */
  function GetResult(cfg: Config, w: World, id: string): (r: Result<Reply>)
    ensures !StartsWith(id, "package-extract-") ==> r == Ok(Reply(ErrorBody("Wrong analysis id provided", id), 400))
    ensures StartsWith(id, "package-extract-") && id in w.analyses.documents ==> r == Ok(Reply(w.analyses.documents[id], 200))
  {
    GetDocument(w.analyses, w.orchestrator, id, Some("package-extract-"), Some(cfg.middletierNamespace))
  }

  /** `get_analyze_status(analysis_id)` */
  function GetStatus(cfg: Config, w: World, id: string): (r: Reply)
    ensures r.status == 404 <==> ("extract-packages", id, cfg.middletierNamespace) !in w.orchestrator.nodeStatus && !w.analyses.RequestExists(id)
  {
    StatusWithQueuedCases(w.analyses, w.orchestrator, "extract-packages", id, cfg.middletierNamespace);
    GetStatusWithQueued(w.analyses, w.orchestrator, "extract-packages", id, cfg.middletierNamespace)
  }

  /** `get_analyze_log(analysis_id)` */
  function GetLogOf(cfg: Config, w: World, id: string): (r: Reply)
    ensures r.status == 404 <==> ("extract-packages", id, cfg.middletierNamespace) !in w.orchestrator.nodeLogs && id !in w.workflowLogs
  {
    LogSources(w.orchestrator, w.workflowLogs, "extract-packages", id, cfg.middletierNamespace);
    GetLog(w.orchestrator, w.workflowLogs, "extract-packages", id, cfg.middletierNamespace)
  }
}
