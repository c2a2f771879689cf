/** What the POST handlers of api_v1.py share: the state they read and
    write, the bus they publish to (`_send_schedule_message`), the token gate
    in front of authenticated requests, and the freshness rule of the
    time-limited caches. The stores, caches and the bus are values; a
    handler takes the world and gives back its reply and the new world. */
module Dispatch {
  import opened Common
  import opened Json
  import opened Digest
  import opened Reconcile
  import opened PyRepr

  /** `THOTH_CACHE_EXPIRATION` at its default, in seconds. */
  const CacheExpiration := 10800

  /** Deployment settings: the API token requests are checked against
      (the shipped `Configuration` class declares none, see
      `TokenGateAsWritten`; `None` admits no token), the service version and
      component name stamped on every message, and
      `THOTH_BACKEND_NAMESPACE`, `THOTH_MIDDLETIER_NAMESPACE`. */
  datatype Config = Config(
    apiToken: Option<string>,
    serviceVersion: string,
    componentName: string,
    backendNamespace: string,
    middletierNamespace: string)

  /** The per-request inputs that come from outside the program: the clock
      (`time.mktime(utcnow())`), the random part of every id that
      `OpenShift.generate_id` makes (one per call site), whether the message
      bus accepts the message, and the id the build-log store gives a newly
      stored log. */
  datatype Env = Env(now: int, suffix: nat -> string, busAccepts: bool, logDocumentId: string)

  /** The bus topics messages are published to. */
  datatype Topic = PackageExtract | ProvenanceChecker | Adviser | BuildAnalysis | KebechetTrigger | ThothRepoInit

  datatype Message = Message(topic: Topic, contents: map<string, Value>)

  /** A record of the time-limited caches: `{"analysis_id": ..., "timestamp": ...}`. */
  datatype CacheRecord = CacheRecord(analysisId: string, timestamp: int)

  /** What the adviser handler does with a `callback_info`: register a
      callback secret for a running analysis, or forward a result right away
      (`requests.post`). */
  datatype Callback = Registered(analysisId: string, info: Value) | Forwarded(info: Value, result: Reply)

  /** A GitHub application installation change the webhook filter asks the
      graph database for, one per repository record: create the installation,
      or mark it inactive. */
  datatype GraphEffect = Installed(repository: Value) | Removed(repository: Value)

  /** Everything the handlers read or write.
      - `analysesCache` maps `image_digest + "+" + parameters_digest` (kept
        as the pair) to an analysis id; it has no expiry.
      - `provenanceCache`, `adviserCache` map a request fingerprint to a
        timestamped record.
      - `buildLogsCache` maps a build log's fingerprint to an analysis id.
      - `analysisByDigest` maps an image digest to the latest analysis reply.
      - the three result stores hold documents and traceability requests;
        `buildLogs` holds stored build logs by document id; `workflowLogs`
        is the durable store of workflow logs, by analysis id.
      - `published` is the message bus, in publishing order; `callbacks` and
        `graph` are the side effects on callback secrets and on the graph
        database. */
  datatype World = World(
    analysesCache: map<(string, Fingerprint), string>,
    provenanceCache: map<Fingerprint, CacheRecord>,
    adviserCache: map<Fingerprint, CacheRecord>,
    buildLogsCache: map<Fingerprint, string>,
    analysisByDigest: map<string, Value>,
    analyses: ResultStore,
    provenance: ResultStore,
    advisers: ResultStore,
    buildLogs: map<string, Value>,
    workflowLogs: map<string, string>,
    orchestrator: Orchestrator,
    published: seq<Message>,
    callbacks: seq<Callback>,
    graph: seq<GraphEffect>)

  /** A handler's reply (or the exception it raises) and the world after it:
      writes made before an exception stay made. */
  datatype Handled = Handled(reply: Result<Reply>, world: World)

  /** `OpenShift.generate_id(prefix)` */
  function GenerateId(prefix: string, suffix: string): (id: string)
    ensures StartsWith(id, prefix + "-")
  {
    prefix + "-" + suffix
  }

  /** The message contents after `_send_schedule_message` stamps them. */
  function Stamp(cfg: Config, contents: map<string, Value>): (r: map<string, Value>)
    ensures r.Keys == contents.Keys + {"service_version", "component_name"}
    ensures HasField(Object(r), "service_version", Str(cfg.serviceVersion))
    ensures HasField(Object(r), "component_name", Str(cfg.componentName))
    ensures forall k :: k in contents && k != "service_version" && k != "component_name" ==> r[k] == contents[k]
  {
    contents["service_version" := Str(cfg.serviceVersion)]["component_name" := Str(cfg.componentName)]
  }

  /** Stamping leaves every other field as it was. */
  lemma StampKeeps(cfg: Config, contents: map<string, Value>, k: string, x: Value)
    requires k != "service_version" && k != "component_name"
    ensures HasField(Object(Stamp(cfg, contents)), k, x) <==> HasField(Object(contents), k, x)
  {
  }

  /** `_send_schedule_message(contents, message_type, ..., with_authentication,
      authenticated)`: stamp, publish, and only then insist on a `job_id`. */
  function SendScheduleMessage(cfg: Config, env: Env, w: World, contents: map<string, Value>, topic: Topic,
                               withAuthentication: bool, authenticated: bool): (h: Handled)
    ensures !env.busAccepts ==> h == Handled(Raise(PublishError), w)
    ensures env.busAccepts ==> h.world == w.(published := w.published + [Message(topic, Stamp(cfg, contents))])
    ensures env.busAccepts && "job_id" !in contents ==> h.reply == Raise(ValueError)
    ensures env.busAccepts && "job_id" in contents ==>
      && h.reply.Ok? && h.reply.value.status == 202
      && HasField(h.reply.value.body, "analysis_id", contents["job_id"])
      && HasField(h.reply.value.body, "cached", Bool(false))
      && HasField(h.reply.value.body, "parameters", Object(Stamp(cfg, contents)))
      && (withAuthentication <==> "authenticated" in h.reply.value.body.fields)
      && (withAuthentication ==> HasField(h.reply.value.body, "authenticated", Bool(authenticated)))
  {
    if !env.busAccepts then Handled(Raise(PublishError), w)
    else
      var stamped := Stamp(cfg, contents);
      var w' := w.(published := w.published + [Message(topic, stamped)]);
      if "job_id" !in stamped then Handled(Raise(ValueError), w')
      else
        var body :=
          if withAuthentication then
            map["analysis_id" := stamped["job_id"], "cached" := Bool(false),
                "authenticated" := Bool(authenticated), "parameters" := Object(stamped)]
          else
            map["analysis_id" := stamped["job_id"], "parameters" := Object(stamped), "cached" := Bool(false)];
        Handled(Ok(Reply(Object(body), 202)), w')
  }

  /** The only field that needs a token (`_ADVISE_PROTECTED_FIELDS`,
      `_PROVENANCE_CHECK_PROTECTED_FIELDS`). */
  const ProtectedField := "kebechet_metadata"

  function ErrorReply(message: string, status: int): Reply {
    Reply(Object(map["error" := Str(message)]), status)
  }

  /** The token check of the advise and provenance handlers: a refusal, or
      `None` to let the request through. */
  function TokenGate(token: Option<string>, apiToken: Option<string>, kebechetMetadata: Value): (r: Option<Reply>)
    ensures r.None? <==> (token.Some? && apiToken == token) || (token.None? && kebechetMetadata == Null)
    ensures r.Some? ==> r.value.status == 401
    ensures token.Some? && apiToken != token ==> r == Some(ErrorReply("Bad token supplied", 401))
  {
    if token.Some? then
      if apiToken != token then Some(ErrorReply("Bad token supplied", 401)) else None
    else if kebechetMetadata != Null then
      Some(ErrorReply("Parameter " + Repr(ProtectedField) + " requires token to be set to perform authenticated request", 401))
    else None
  }

  /** The token check as written: `Configuration.API_TOKEN` is read only
      when a token is supplied, and the class declares no such attribute,
      so every supplied token raises AttributeError; without a token the
      protected-field check runs as in `TokenGate`. */
  function TokenGateAsWritten(token: Option<string>, kebechetMetadata: Value): (r: Result<Option<Reply>>)
    ensures r.Raise? <==> token.Some?
    ensures r.Raise? ==> r.exc == AttributeError
    ensures r.Ok? ==> (r.value.None? <==> kebechetMetadata == Null)
  {
    if token.Some? then Raise(AttributeError)
    else Ok(TokenGate(token, None, kebechetMetadata))
  }

  /** Without a token both gates agree; with one, even the token the
      deployment means to accept raises as written, where the corrected
      gate lets it through. */
  lemma SuppliedTokenRaises(token: string, apiToken: Option<string>, kebechetMetadata: Value)
    ensures TokenGateAsWritten(None, kebechetMetadata) == Ok(TokenGate(None, apiToken, kebechetMetadata))
    ensures TokenGateAsWritten(Some(token), kebechetMetadata) == Raise(AttributeError)
    ensures TokenGate(Some(token), Some(token), kebechetMetadata) == None
  {
  }

  /** `cache_record["timestamp"] + THOTH_CACHE_EXPIRATION > timestamp_now` */
  predicate Fresh(rec: CacheRecord, now: int) {
    rec.timestamp + CacheExpiration > now
  }

  /** A record is reused for exactly `THOTH_CACHE_EXPIRATION` seconds: at
      its own time and up to one second before expiry, but not at expiry. */
  lemma FreshWindow(rec: CacheRecord, now: int)
    ensures rec.timestamp <= now < rec.timestamp + CacheExpiration ==> Fresh(rec, now)
    ensures now >= rec.timestamp + CacheExpiration ==> !Fresh(rec, now)
  {
  }

  /** Whether a time-limited cache has a record to reuse. */
  predicate Reusable(cache: map<Fingerprint, CacheRecord>, key: Fingerprint, force: bool, now: int) {
    !force && key in cache && Fresh(cache[key], now)
  }

  /** The reply to a request answered from cache. */
  function CachedReply(analysisId: string, authenticated: bool, parameters: map<string, Value>): (r: Reply)
    ensures r.status == 202
    ensures HasField(r.body, "analysis_id", Str(analysisId)) && HasField(r.body, "cached", Bool(true))
  {
    Reply(Object(map["analysis_id" := Str(analysisId), "cached" := Bool(true),
                     "authenticated" := Bool(authenticated), "parameters" := Object(parameters)]), 202)
  }

  /** The handler accepted the request (202). */
  predicate ReplyOk(h: Handled) {
    h.reply.Ok? && h.reply.value.status == 202
  }

  /** A failure of the foreign parsers (`Project.from_strings`,
      `RuntimeEnvironment.from_dict`, `Constraints.from_string`): `Rejected`
      for the library's own error (`ThothPythonExceptionError`), `Crashed`
      for any other exception; both carry `str(exc)`. */
  datatype Parsed<+T> = Parsed(value: T) | Rejected(message: string) | Crashed(message: string)

  /** The 400 reply for an application stack that does not parse. */
  function InvalidStack<T>(p: Parsed<T>, parameters: map<string, Value>): (r: Reply)
    requires !p.Parsed?
    ensures r.status == 400 && HasField(r.body, "parameters", Object(parameters))
  {
    var message := if p.Rejected? then "Invalid application stack supplied: " + p.message
                   else "Invalid application stack supplied";
    Reply(Object(map["parameters" := Object(parameters), "error" := Str(message)]), 400)
  }

  /** Nothing any handler writes to has changed, except the bus and the
      callbacks (which the lemmas below track separately). */
  predicate StoresUnchanged(w: World, w': World) {
    && w'.analysesCache == w.analysesCache
    && w'.provenanceCache == w.provenanceCache
    && w'.adviserCache == w.adviserCache
    && w'.buildLogsCache == w.buildLogsCache
    && w'.analysisByDigest == w.analysisByDigest
    && w'.analyses == w.analyses
    && w'.provenance == w.provenance
    && w'.advisers == w.advisers
    && w'.buildLogs == w.buildLogs
    && w'.workflowLogs == w.workflowLogs
    && w'.orchestrator == w.orchestrator
    && w'.graph == w.graph
  }
}
