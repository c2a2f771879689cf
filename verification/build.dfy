/** The build-analysis endpoint of api_v1.py, `post_build`: it stores the
    build log, extracts metadata of the base and the output image, reuses
    cached image analyses, publishes one build-analysis message and records
    the ids it handed out. */
module Build {
  import opened Common
  import opened Json
  import opened Digest
  import opened Dispatch
  import Analyze

  /** `_do_get_image_metadata(image, registry_user, registry_password,
      verify_tls)`: the metadata reply, or the exception it raises. The
      service's own is `Image.DoGetImageMetadata` with its command runner;
      the handler's properties hold for any. */
  type Metadata = (string, Option<string>, Option<string>, bool) -> Result<Reply>

  /** The fields of the request body. */
  datatype BuildDetail = BuildDetail(outputImage: Option<string>, baseImage: Option<string>, buildLog: Value)

  /** Registry access for one image. */
  datatype Registry = Registry(user: Option<string>, password: Option<string>, verifyTls: bool)

  datatype Request = Request(
    detail: BuildDetail,
    base: Registry,
    output: Registry,
    debug: bool,
    environmentType: Option<string>,
    force: bool,
    origin: Option<string>)

  /** `_store_build_log(build_log, force)`: look the log up in the
      build-log cache unless forced, then store it; gives the stored
      document's id and the cached analysis id, if any. */
  function StoreBuildLog(env: Env, w: World, log: Value, force: bool): (r: (string, Option<string>, World))
    ensures r.0 == env.logDocumentId && r.2 == w.(buildLogs := w.buildLogs[env.logDocumentId := log])
    ensures r.1.Some? <==> !force && DigestValue(log) in w.buildLogsCache
    ensures r.1.Some? ==> r.1.value == w.buildLogsCache[DigestValue(log)]
  {
    var cached := if !force && DigestValue(log) in w.buildLogsCache then Some(w.buildLogsCache[DigestValue(log)]) else None;
    (env.logDocumentId, cached, w.(buildLogs := w.buildLogs[env.logDocumentId := log]))
  }

  /** The analysis of one image of the build: its id, whether it came from
      the cache, its cache key and the record returned and stored for it. */
  datatype ImageAnalysis = ImageAnalysis(id: string, cached: bool, key: (string, Fingerprint), record: Value)

  /** A step of the handler either ends it or carries on with a new world. */
  datatype Step = Stop(handled: Handled) | Next(analysis: Option<ImageAnalysis>, world: World)

  /** The record of an image analysis; the credentials are left out. */
  function AnalysisRecord(id: string, cached: bool, field: string, image: string, verifyTls: bool): Value {
    Object(map["analysis_id" := Str(id), "cached" := Bool(cached),
               "parameters" := Object(map[field := Str(image), "registry_verify_tls" := Bool(verifyTls)])])
  }

  /** The handling of the base or the output image: metadata (whose error
      reply ends the request), the cache key of image digest and image name,
      a new `package-extract` id unless the cache has one and the request is
      not forced, and the record stored by image digest right away. */
  function AnalyseImage(env: Env, metadata: Metadata, w: World, image: Option<string>,
                        reg: Registry, force: bool, field: string, suffix: string): (s: Step)
    ensures !TruthyStr(image) ==> s == Next(None, w)
    ensures s.Next? ==> (s.analysis.Some? <==> TruthyStr(image))
    ensures s.Next? && s.analysis.None? ==> s.world == w
    ensures s.Stop? ==> s.handled.world == w && (s.handled.reply.Ok? ==> s.handled.reply.value.status != 200)
    ensures s.Next? && s.analysis.Some? ==>
      var a := s.analysis.value;
      && TruthyStr(image)
      && (a.cached <==> !force && a.key in w.analysesCache)
      && (a.cached ==> a.id == w.analysesCache[a.key])
      && (!a.cached ==> a.id == GenerateId("package-extract", suffix))
      && s.world == w.(analysisByDigest := w.analysisByDigest[a.key.0 := a.record])
  {
    if !TruthyStr(image) then Next(None, w)
    else
      var name := image.value;
      match metadata(name, reg.user, reg.password, reg.verifyTls)
      case Raise(e) => Stop(Handled(Raise(e), w))
      case Ok(meta) =>
        if meta.status != 200 then Stop(Handled(Ok(meta), w))
        else
          match Analyze.ImageDigest(meta.body)
          case Raise(e) => Stop(Handled(Raise(e), w))
          case Ok(digest) =>
            var key := (digest, DigestValue(Str(name)));
            var cached := !force && key in w.analysesCache;
            var id := if cached then w.analysesCache[key] else GenerateId("package-extract", suffix);
            var record := AnalysisRecord(id, cached, field, name, reg.verifyTls);
            Next(Some(ImageAnalysis(id, cached, key, record)),
                 w.(analysisByDigest := w.analysisByDigest[digest := record]))
  }

  /** The id sent for an image: only a fresh analysis is triggered. */
  function TriggeredId(a: Option<ImageAnalysis>): (v: Value)
    ensures v == Null <==> a.None? || a.value.cached
    ensures v != Null ==> v == Str(a.value.id)
  {
    if a.Some? && !a.value.cached then Str(a.value.id) else Null
  }

  /** The message of a build analysis. */
  function MessageParameters(req: Request, base: Option<ImageAnalysis>, output: Option<ImageAnalysis>,
                             documentId: Option<string>, parserId: Value, jobId: string): (m: map<string, Value>)
    ensures HasField(Object(m), "base_image_analysis_id", Null) <==> base.None? || base.value.cached
    ensures HasField(Object(m), "output_image_analysis_id", Null) <==> output.None? || output.value.cached
    ensures HasField(Object(m), "job_id", Str(jobId)) && HasField(Object(m), "buildlog_parser_id", parserId)
  {
    map[
      "base_image" := OptStr(req.detail.baseImage),
      "base_registry_password" := OptStr(req.base.password),
      "base_registry_user" := OptStr(req.base.user),
      "base_registry_verify_tls" := Bool(req.base.verifyTls),
      "output_image" := OptStr(req.detail.outputImage),
      "output_registry_password" := OptStr(req.output.password),
      "output_registry_user" := OptStr(req.output.user),
      "output_registry_verify_tls" := Bool(req.output.verifyTls),
      "environment_type" := OptStr(req.environmentType),
      "buildlog_document_id" := OptStr(documentId),
      "origin" := OptStr(req.origin),
      "debug" := Bool(req.debug),
      "base_image_analysis_id" := TriggeredId(base),
      "output_image_analysis_id" := TriggeredId(output),
      "buildlog_parser_id" := parserId,
      "job_id" := Str(jobId)]
  }

  /** `buildlog_parser_id`: a new id unless the log's analysis is cached. */
  function ParserId(env: Env, logCached: Option<string>): Value {
    if TruthyStr(logCached) then Null else Str(GenerateId("buildlog-parser", env.suffix(0)))
  }

  /** `post_build(build_detail, ...)` */
  function Handle(cfg: Config, env: Env, metadata: Metadata, w: World, req: Request): (h: Handled)
    ensures !TruthyStr(req.detail.outputImage) && !TruthyStr(req.detail.baseImage) && !Truthy(req.detail.buildLog) ==>
      h == Handled(Ok(ErrorReply("No base, output nor build log provided", 400)), w)
    ensures h.world.callbacks == w.callbacks && h.world.graph == w.graph
  {
    var d := req.detail;
    if !TruthyStr(d.outputImage) && !TruthyStr(d.baseImage) && !Truthy(d.buildLog) then
      Handled(Ok(ErrorReply("No base, output nor build log provided", 400)), w)
    else Images(cfg, env, metadata, Stored(env, w, req).2, req, DocumentId(env, req), Stored(env, w, req).1)
  }

  /** The build log stored, when there is one: `_store_build_log`'s
      result, or no document and no cached analysis. */
  function Stored(env: Env, w: World, req: Request): (string, Option<string>, World) {
    if Truthy(req.detail.buildLog) then StoreBuildLog(env, w, req.detail.buildLog, req.force) else ("", None, w)
  }

  /** `buildlog_document_id`: set only when a build log was given. */
  function DocumentId(env: Env, req: Request): Option<string> {
    if Truthy(req.detail.buildLog) then Some(env.logDocumentId) else None
  }

  /** The two images, base first, once the build log is stored. */
  function Images(cfg: Config, env: Env, metadata: Metadata, w: World, req: Request,
                  documentId: Option<string>, logCached: Option<string>): (h: Handled)
    ensures h.world.callbacks == w.callbacks && h.world.graph == w.graph
  {
    match AnalyseImage(env, metadata, w, req.detail.baseImage, req.base, req.force, "base_image", env.suffix(2))
    case Stop(h) => h
    case Next(base, w1) =>
      match AnalyseImage(env, metadata, w1, req.detail.outputImage, req.output, req.force, "output_image", env.suffix(3))
      case Stop(h) => h
      case Next(output, w2) => Trigger(cfg, env, w2, req, base, output, documentId, logCached)
  }

  /** The message and, once it is published, the ids recorded and the
      reply. Only fresh analyses are triggered; a cached build-log analysis
      is reported with its id and gets no parser. */
  function Trigger(cfg: Config, env: Env, w: World, req: Request, base: Option<ImageAnalysis>,
                    output: Option<ImageAnalysis>, documentId: Option<string>, logCached: Option<string>): (h: Handled)
    ensures !env.busAccepts ==> h == Handled(Raise(PublishError), w)
    ensures env.busAccepts ==>
      var m := BuildMessage(cfg, env, req, base, output, documentId, logCached);
      && ReplyOk(h)
      && h.world.published == w.published + [Message(BuildAnalysis, m)]
      && h.reply == Ok(Reply(Response(base, output, logCached, ParserId(env, logCached), documentId), 202))
      && h.world == RecordIds(w.(published := w.published + [Message(BuildAnalysis, m)]), req.detail.buildLog,
                              base, output, logCached, ParserId(env, logCached))
    ensures h.world.callbacks == w.callbacks && h.world.graph == w.graph
  {
    var parserId := ParserId(env, logCached);
    var jobId := GenerateId("build-analysis", env.suffix(1));
    var message := MessageParameters(req, base, output, documentId, parserId, jobId);
    var sent := SendScheduleMessage(cfg, env, w, message, BuildAnalysis, false, false);
    if !ReplyOk(sent) then sent
    else Handled(Ok(Reply(Response(base, output, logCached, parserId, documentId), 202)),
                 RecordIds(sent.world, req.detail.buildLog, base, output, logCached, parserId))
  }

  /** The build-analysis message as published: only fresh image analyses
      are named in it, and the build log's parser id is there. */
  function BuildMessage(cfg: Config, env: Env, req: Request, base: Option<ImageAnalysis>,
                        output: Option<ImageAnalysis>, documentId: Option<string>, logCached: Option<string>)
    : (m: map<string, Value>)
    ensures HasField(Object(m), "base_image_analysis_id", Null) <==> base.None? || base.value.cached
    ensures HasField(Object(m), "output_image_analysis_id", Null) <==> output.None? || output.value.cached
    ensures HasField(Object(m), "buildlog_parser_id", ParserId(env, logCached))
  {
    var parameters := MessageParameters(req, base, output, documentId, ParserId(env, logCached),
                                        GenerateId("build-analysis", env.suffix(1)));
    StampKeeps(cfg, parameters, "base_image_analysis_id", Null);
    StampKeeps(cfg, parameters, "output_image_analysis_id", Null);
    StampKeeps(cfg, parameters, "buildlog_parser_id", ParserId(env, logCached));
    Stamp(cfg, parameters)
  }

  /** The ids handed out, recorded once the message is sent: both image
      cache entries, the build log's parser id when it was not cached, and
      the image analysis records as requests. */
  function RecordIds(w: World, log: Value, base: Option<ImageAnalysis>, output: Option<ImageAnalysis>,
                     logCached: Option<string>, parserId: Value): (w': World)
    ensures w'.published == w.published && w'.analysisByDigest == w.analysisByDigest && w'.buildLogs == w.buildLogs
    ensures base.Some? ==> base.value.key in w'.analysesCache
    ensures output.Some? ==>
              output.value.key in w'.analysesCache && w'.analysesCache[output.value.key] == output.value.id
    ensures base.Some? && (output.None? || output.value.key != base.value.key) ==>
              w'.analysesCache[base.value.key] == base.value.id
    ensures forall k :: k in w'.analysesCache ==> k in w.analysesCache || k in KeysOf(base, output)
    ensures !Truthy(log) || TruthyStr(logCached) ==> w'.buildLogsCache == w.buildLogsCache
    ensures Truthy(log) && !TruthyStr(logCached) && parserId.Str? ==>
              w'.buildLogsCache == w.buildLogsCache[DigestValue(log) := parserId.s]
  {
    var c1 := if base.Some? then w.analysesCache[base.value.key := base.value.id] else w.analysesCache;
    var c2 := if output.Some? then c1[output.value.key := output.value.id] else c1;
    var logs := if Truthy(log) && !TruthyStr(logCached) && parserId.Str?
                then w.buildLogsCache[DigestValue(log) := parserId.s] else w.buildLogsCache;
    var r1 := if base.Some? && base.value.id != "" then w.analyses.requests[base.value.id := base.value.record]
              else w.analyses.requests;
    var r2 := if output.Some? then r1[output.value.id := output.value.record] else r1;
    w.(analysesCache := c2, buildLogsCache := logs, analyses := w.analyses.(requests := r2))
  }

  /** The cache keys of the analysed images. */
  function KeysOf(base: Option<ImageAnalysis>, output: Option<ImageAnalysis>): set<(string, Fingerprint)> {
    (if base.Some? then {base.value.key} else {}) + (if output.Some? then {output.value.key} else {})
  }

  function OptRecord(a: Option<ImageAnalysis>): Value {
    if a.Some? then a.value.record else Null
  }

  /** The 202 reply of a build analysis. */
  function Response(base: Option<ImageAnalysis>, output: Option<ImageAnalysis>, logCached: Option<string>,
                    parserId: Value, documentId: Option<string>): (r: Value)
    ensures TruthyStr(logCached) ==>
      HasField(r, "buildlog_analysis", Object(map["analysis_id" := Str(logCached.value), "cached" := Bool(true)]))
    ensures logCached.None? ==>
      HasField(r, "buildlog_analysis", Object(map["analysis_id" := parserId, "cached" := Bool(false)]))
    ensures HasField(r, "base_image_analysis", OptRecord(base)) && HasField(r, "output_image_analysis", OptRecord(output))
    ensures HasField(r, "buildlog_document_id", OptStr(documentId))
  {
    Object(map[
      "base_image_analysis" := OptRecord(base),
      "output_image_analysis" := OptRecord(output),
      "buildlog_analysis" := Object(map[
        "analysis_id" := if TruthyStr(logCached) then Str(logCached.value) else parserId,
        "cached" := Bool(logCached.Some?)]),
      "buildlog_document_id" := OptStr(documentId)])
  }

  /** A request with no base image, no output image and no build log is
      refused with 400 before anything is stored or published. */
  lemma EmptyRequestRejected(cfg: Config, env: Env, metadata: Metadata, w: World, req: Request)
    requires !TruthyStr(req.detail.outputImage) && !TruthyStr(req.detail.baseImage) && !Truthy(req.detail.buildLog)
    ensures Handle(cfg, env, metadata, w, req) == Handled(Ok(ErrorReply("No base, output nor build log provided", 400)), w)
  {
  }

  /** The request as far as the message: both image steps carried on. */
  predicate ReachesMessage(env: Env, metadata: Metadata, w: World, req: Request) {
    && (TruthyStr(req.detail.outputImage) || TruthyStr(req.detail.baseImage) || Truthy(req.detail.buildLog))
    && BaseStep(env, metadata, w, req).Next?
    && OutputStep(env, metadata, w, req).Next?
  }

  function BaseStep(env: Env, metadata: Metadata, w: World, req: Request): Step {
    AnalyseImage(env, metadata, Stored(env, w, req).2, req.detail.baseImage, req.base, req.force, "base_image", env.suffix(2))
  }

  function OutputStep(env: Env, metadata: Metadata, w: World, req: Request): Step
    requires BaseStep(env, metadata, w, req).Next?
  {
    AnalyseImage(env, metadata, BaseStep(env, metadata, w, req).world, req.detail.outputImage, req.output, req.force,
                 "output_image", env.suffix(3))
  }

  /** A request that gets past both images ends in the message. */
  lemma HandleTriggers(cfg: Config, env: Env, metadata: Metadata, w: World, req: Request)
    requires ReachesMessage(env, metadata, w, req)
    ensures Handle(cfg, env, metadata, w, req)
         == Trigger(cfg, env, OutputStep(env, metadata, w, req).world, req, BaseStep(env, metadata, w, req).analysis,
                    OutputStep(env, metadata, w, req).analysis, DocumentId(env, req), Stored(env, w, req).1)
  {
  }

  /** A cached image analysis is not triggered again: the message carries
      `None` for it while the reply reports the cached analysis; a fresh one
      is triggered with its new id. Exactly one message is published. */
  lemma CachedImageNotRetriggered(cfg: Config, env: Env, metadata: Metadata, w: World, req: Request)
    requires ReachesMessage(env, metadata, w, req) && env.busAccepts
    requires TruthyStr(req.detail.baseImage)
    ensures var h := Handle(cfg, env, metadata, w, req);
      var base := BaseStep(env, metadata, w, req).analysis;
      && ReplyOk(h)
      && |h.world.published| == |w.published| + 1
      && base.Some?
      && (HasField(Object(h.world.published[|w.published|].contents), "base_image_analysis_id", Null)
          <==> base.value.cached)
      && (base.value.cached <==> !req.force && base.value.key in w.analysesCache)
      && (base.value.cached ==> base.value.id == w.analysesCache[base.value.key])
      && HasField(h.reply.value.body, "base_image_analysis", base.value.record)
  {
    HandleTriggers(cfg, env, metadata, w, req);
    assert Stored(env, w, req).2.analysesCache == w.analysesCache;
    var base := BaseStep(env, metadata, w, req).analysis;
    assert base.Some?;
    var w2 := OutputStep(env, metadata, w, req).world;
    assert w2.published == w.published;
    TriggerPublishes(cfg, env, w2, req, base, OutputStep(env, metadata, w, req).analysis, DocumentId(env, req),
                     Stored(env, w, req).1);
  }

  /** With the bus up, `Trigger` answers 202 with the image records and
      appends exactly the build-analysis message. */
  lemma TriggerPublishes(cfg: Config, env: Env, w: World, req: Request, base: Option<ImageAnalysis>,
                         output: Option<ImageAnalysis>, documentId: Option<string>, logCached: Option<string>)
    requires env.busAccepts
    ensures var h := Trigger(cfg, env, w, req, base, output, documentId, logCached);
      && ReplyOk(h)
      && |h.world.published| == |w.published| + 1
      && h.world.published[|w.published|].contents == BuildMessage(cfg, env, req, base, output, documentId, logCached)
      && HasField(h.reply.value.body, "base_image_analysis", OptRecord(base))
      && HasField(h.reply.value.body, "output_image_analysis", OptRecord(output))
  {
    var h := Trigger(cfg, env, w, req, base, output, documentId, logCached);
    var m := BuildMessage(cfg, env, req, base, output, documentId, logCached);
    assert h.world.published == w.published + [Message(BuildAnalysis, m)];
  }

  /** A build log whose analysis is cached gets no new parser: the reply
      reports the cached id as cached, and the build-log cache is left as
      it is. */
  lemma CachedBuildLogReused(cfg: Config, env: Env, metadata: Metadata, w: World, req: Request)
    requires ReachesMessage(env, metadata, w, req) && env.busAccepts
    requires Truthy(req.detail.buildLog) && !req.force && DigestValue(req.detail.buildLog) in w.buildLogsCache
    requires w.buildLogsCache[DigestValue(req.detail.buildLog)] != ""
    ensures var h := Handle(cfg, env, metadata, w, req);
      var id := w.buildLogsCache[DigestValue(req.detail.buildLog)];
      && ReplyOk(h)
      && |h.world.published| == |w.published| + 1
      && HasField(h.reply.value.body, "buildlog_analysis",
                  Object(map["analysis_id" := Str(id), "cached" := Bool(true)]))
      && HasField(Object(h.world.published[|w.published|].contents), "buildlog_parser_id", Null)
      && h.world.buildLogsCache == w.buildLogsCache
  {
    HandleTriggers(cfg, env, metadata, w, req);
    var w2 := OutputStep(env, metadata, w, req).world;
    assert w2.published == w.published;
    assert w2.buildLogsCache == w.buildLogsCache;
    assert Stored(env, w, req).1 == Some(w.buildLogsCache[DigestValue(req.detail.buildLog)]);
    TriggerPublishes(cfg, env, w2, req, BaseStep(env, metadata, w, req).analysis, OutputStep(env, metadata, w, req).analysis,
                     DocumentId(env, req), Stored(env, w, req).1);
  }

  /** A new build log is stored, handed to a new parser, and that parser's
      id is cached under the log's fingerprint once the message is sent. */
  lemma NewBuildLogParsed(cfg: Config, env: Env, metadata: Metadata, w: World, req: Request)
    requires ReachesMessage(env, metadata, w, req) && env.busAccepts
    requires Truthy(req.detail.buildLog) && (req.force || DigestValue(req.detail.buildLog) !in w.buildLogsCache)
    ensures var h := Handle(cfg, env, metadata, w, req);
      var parser := GenerateId("buildlog-parser", env.suffix(0));
      && ReplyOk(h)
      && HasField(h.reply.value.body, "buildlog_analysis",
                  Object(map["analysis_id" := Str(parser), "cached" := Bool(false)]))
      && HasField(h.reply.value.body, "buildlog_document_id", Str(env.logDocumentId))
      && h.world.buildLogs == w.buildLogs[env.logDocumentId := req.detail.buildLog]
      && h.world.buildLogsCache == w.buildLogsCache[DigestValue(req.detail.buildLog) := parser]
  {
    HandleTriggers(cfg, env, metadata, w, req);
    assert Stored(env, w, req).1 == None;
    assert OutputStep(env, metadata, w, req).world.buildLogsCache == w.buildLogsCache;
    assert OutputStep(env, metadata, w, req).world.buildLogs == w.buildLogs[env.logDocumentId := req.detail.buildLog];
  }

  /** When the output image's metadata fails after the base image was
      handled, the request ends with that error and nothing is published or
      cached, yet the stored build log and the base image's analysis-by-digest
      record stay. */
  lemma OutputFailureKeepsEarlierWrites(cfg: Config, env: Env, metadata: Metadata, w: World,
                                        req: Request)
    requires TruthyStr(req.detail.baseImage) && TruthyStr(req.detail.outputImage) && Truthy(req.detail.buildLog)
    requires var stored := StoreBuildLog(env, w, req.detail.buildLog, req.force);
      var s1 := AnalyseImage(env, metadata, stored.2, req.detail.baseImage, req.base, req.force, "base_image", env.suffix(2));
      && s1.Next?
      && AnalyseImage(env, metadata, s1.world, req.detail.outputImage, req.output, req.force, "output_image", env.suffix(3)).Stop?
    ensures var h := Handle(cfg, env, metadata, w, req);
      var stored := StoreBuildLog(env, w, req.detail.buildLog, req.force);
      var s1 := AnalyseImage(env, metadata, stored.2, req.detail.baseImage, req.base, req.force, "base_image", env.suffix(2));
      && s1.analysis.Some?
      && h.world == s1.world
      && h.world.published == w.published
      && h.world.analysesCache == w.analysesCache
      && h.world.buildLogs == w.buildLogs[env.logDocumentId := req.detail.buildLog]
      && h.world.analysisByDigest == w.analysisByDigest[s1.analysis.value.key.0 := s1.analysis.value.record]
      && (h.reply.Ok? ==> h.reply.value.status != 200)
  {
  }
}
