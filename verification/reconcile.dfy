/** Status reconciliation (api_v1.py): how the service answers "where is my
    analysis?" from three sources, the result store (documents and the stored
    requests), the workflow orchestrator, and the durable log store. All of
    them are plain values here; the answers are pure functions of them. */
module Reconcile {
  import opened Common
  import opened Json
  import opened PyRepr

  /** A result store: finished documents and the requests stored for
      traceability, both keyed by analysis id. */
  datatype ResultStore = ResultStore(documents: map<string, Value>, requests: map<string, Value>)
  {
    /** `adapter.request_exists(analysis_id)` */
    predicate RequestExists(id: string) { id in requests }
  }

  /** The workflow orchestrator as seen through its queries:
      workflow status reports by (namespace, analysis id), and node statuses
      and node logs by (node name, analysis id, namespace). A missing entry is
      `OpenShiftNotFound`. */
  datatype Orchestrator = Orchestrator(
    reports: map<(string, string), Value>,
    nodeStatus: map<(string, string, string), Value>,
    nodeLogs: map<(string, string, string), string>)

  function IdParameters(id: string): Value {
    Object(map["analysis_id" := Str(id)])
  }

  function ErrorBody(message: string, id: string): Value {
    Object(map["error" := Str(message), "parameters" := IdParameters(id)])
  }

  function StatusBody(message: string, status: Value, id: string): Value {
    Object(map["error" := Str(message), "status" := status, "parameters" := IdParameters(id)])
  }

  /** `_construct_status_queued(analysis_id)`: a pending status with no
      timestamps and no reason. */
  function ConstructStatusQueued(id: string): (v: Value)
    ensures v.Object? && v.fields.Keys == {"error", "status", "parameters"}
    ensures HasField(v, "parameters", IdParameters(id))
    ensures var status := v.fields["status"];
      && HasField(status, "state", Str("pending"))
      && HasField(status, "started_at", Null)
      && HasField(status, "finished_at", Null)
      && HasField(status, "reason", Null)
  {
    var status := Object(map[
      "finished_at" := Null, "reason" := Null, "started_at" := Null, "state" := Str("pending")]);
    StatusBody("Analysis " + Repr(id) + " is being queued and scheduled for processing", status, id)
  }

  /** The id passes the `name_prefix` check. */
  predicate PrefixAccepted(id: string, namePrefix: Option<string>) {
    !TruthyStr(namePrefix) || StartsWith(id, namePrefix.value)
  }

  function NotFoundBody(id: string): Value {
    ErrorBody("Requested result for analysis " + Repr(id) + " was not found", id)
  }

  /** The answer derived from a workflow status report. */
  function FromReport(status: Value, id: string): (r: Result<Reply>)
    ensures r.Ok? ==> r.value.status == 202 || r.value.status == 400
  {
    match Index(status, "state")
    case Raise(e) => Raise(e)
    case Ok(state) =>
      if state == Str("running") then
        Ok(Reply(StatusBody("Analysis is still in progress", status, id), 202))
      else if state == Str("failed") || state == Str("error") then
        Ok(Reply(StatusBody("Analysis was not successful", status, id), 400))
      else if state == Str("pending") then
        Ok(Reply(StatusBody("Analysis is being scheduled", status, id), 202))
      else Raise(ValueError)
  }

  /** `_get_document(adapter, analysis_id, name_prefix, namespace)` */
  function GetDocument(store: ResultStore, orch: Orchestrator, id: string,
                       namePrefix: Option<string>, namespace: Option<string>): (r: Result<Reply>)
    ensures r.Ok? ==> r.value.status in {200, 202, 400, 404}
    ensures !PrefixAccepted(id, namePrefix) ==> r == Ok(Reply(ErrorBody("Wrong analysis id provided", id), 400))
    ensures PrefixAccepted(id, namePrefix) && id in store.documents ==> r == Ok(Reply(store.documents[id], 200))
  {
    if !PrefixAccepted(id, namePrefix) then
      Ok(Reply(ErrorBody("Wrong analysis id provided", id), 400))
    else if id in store.documents then
      Ok(Reply(store.documents[id], 200))
    else if TruthyStr(namespace) && (namespace.value, id) in orch.reports then
      FromReport(orch.reports[(namespace.value, id)], id)
    else if TruthyStr(namespace) && store.RequestExists(id) then
      Ok(Reply(ConstructStatusQueued(id), 202))
    else
      Ok(Reply(NotFoundBody(id), 404))
  }

  /** A wrong id prefix is answered before any store or the orchestrator is
      consulted: the answer does not depend on them. */
  lemma PrefixCheckFirst(s1: ResultStore, o1: Orchestrator, s2: ResultStore, o2: Orchestrator,
                         id: string, namePrefix: Option<string>, namespace: Option<string>)
    requires TruthyStr(namePrefix) && !StartsWith(id, namePrefix.value)
    ensures GetDocument(s1, o1, id, namePrefix, namespace) == GetDocument(s2, o2, id, namePrefix, namespace)
    ensures GetDocument(s1, o1, id, namePrefix, namespace).value.status == 400
  {
  }

  /** A stored document wins over whatever the orchestrator reports. */
  lemma StoredDocumentWins(store: ResultStore, o1: Orchestrator, o2: Orchestrator,
                           id: string, namePrefix: Option<string>, namespace: Option<string>)
    requires PrefixAccepted(id, namePrefix) && id in store.documents
    ensures GetDocument(store, o1, id, namePrefix, namespace) == GetDocument(store, o2, id, namePrefix, namespace)
    ensures GetDocument(store, o1, id, namePrefix, namespace).value.status == 200
  {
  }

  /** With no document yet, the workflow state decides: `running` and
      `pending` give 202, `failed` and `error` give 400, any other state is
      an internal error. */
  lemma WorkflowStateDecides(store: ResultStore, orch: Orchestrator, id: string,
                             namePrefix: Option<string>, ns: string, state: string)
    requires PrefixAccepted(id, namePrefix) && id !in store.documents && ns != ""
    requires (ns, id) in orch.reports
    requires orch.reports[(ns, id)].Object? && "state" in orch.reports[(ns, id)].fields
    requires orch.reports[(ns, id)].fields["state"] == Str(state)
    ensures var r := GetDocument(store, orch, id, namePrefix, Some(ns));
      && (r.Ok? && r.value.status == 202 <==> state == "running" || state == "pending")
      && (r.Ok? && r.value.status == 400 <==> state == "failed" || state == "error")
      && (r.Raise? <==> state !in {"running", "pending", "failed", "error"})
      && (r.Ok? ==> HasField(r.value.body, "status", orch.reports[(ns, id)]))
  {
  }

  /** With no document and no workflow known to the orchestrator, a stored
      request means the analysis is queued (202); otherwise it is unknown
      (404). */
  lemma QueuedOrNotFound(store: ResultStore, orch: Orchestrator, id: string,
                         namePrefix: Option<string>, ns: string)
    requires PrefixAccepted(id, namePrefix) && id !in store.documents && ns != ""
    requires (ns, id) !in orch.reports
    ensures var r := GetDocument(store, orch, id, namePrefix, Some(ns));
      && r.Ok?
      && (store.RequestExists(id) ==> r.value == Reply(ConstructStatusQueued(id), 202))
      && (!store.RequestExists(id) ==> r.value == Reply(NotFoundBody(id), 404))
  {
  }

  /** Exactly when a document lookup ends in 404. */
  lemma NotFoundExactly(store: ResultStore, orch: Orchestrator, id: string,
                        namePrefix: Option<string>, namespace: Option<string>)
    ensures var r := GetDocument(store, orch, id, namePrefix, namespace);
      (r.Ok? && r.value.status == 404)
      <==>
      (&& PrefixAccepted(id, namePrefix)
       && id !in store.documents
       && (!TruthyStr(namespace) || ((namespace.value, id) !in orch.reports && !store.RequestExists(id))))
  {
  }

  /** `_get_status(node_name, analysis_id, namespace)` */
  function GetStatus(orch: Orchestrator, node: string, id: string, ns: string): (r: Reply)
    ensures r.status == 200 || r.status == 404
    ensures r.status == 200 <==> (node, id, ns) in orch.nodeStatus
    ensures r.status == 200 ==> HasField(r.body, "status", orch.nodeStatus[(node, id, ns)])
  {
    if (node, id, ns) in orch.nodeStatus then
      Reply(Object(map["parameters" := IdParameters(id), "status" := orch.nodeStatus[(node, id, ns)]]), 200)
    else
      Reply(ErrorBody("Status for analysis " + id + " was not found or it has not started yet", id), 404)
  }

  /** `_get_status_with_queued(adapter, node_name, analysis_id, namespace)` */
  function GetStatusWithQueued(store: ResultStore, orch: Orchestrator, node: string, id: string, ns: string): (r: Reply)
    ensures r.status == 200 || r.status == 404
  {
    var plain := GetStatus(orch, node, id, ns);
    if plain.status == 404 && store.RequestExists(id) then Reply(ConstructStatusQueued(id), 200)
    else plain
  }

  /** A status lookup is 404 only when the orchestrator has no status and no
      request was stored; a stored request turns the miss into a pending
      status with 200; a known status passes through unchanged. */
  lemma StatusWithQueuedCases(store: ResultStore, orch: Orchestrator, node: string, id: string, ns: string)
    ensures var r := GetStatusWithQueued(store, orch, node, id, ns);
      && (r.status == 404 <==> (node, id, ns) !in orch.nodeStatus && !store.RequestExists(id))
      && ((node, id, ns) in orch.nodeStatus ==> r == GetStatus(orch, node, id, ns))
      && ((node, id, ns) !in orch.nodeStatus && store.RequestExists(id) ==>
            r == Reply(ConstructStatusQueued(id), 200))
  {
  }

  /** A queued analysis is reported as pending by the status endpoint (200)
      and by the document endpoint (202): the two agree on the payload and
      differ in the status code. */
  lemma QueuedAgreesAcrossEndpoints(store: ResultStore, orch: Orchestrator, node: string,
                                    id: string, namePrefix: Option<string>, ns: string)
    requires PrefixAccepted(id, namePrefix) && ns != ""
    requires id !in store.documents && store.RequestExists(id)
    requires (ns, id) !in orch.reports && (node, id, ns) !in orch.nodeStatus
    ensures GetDocument(store, orch, id, namePrefix, Some(ns)) == Ok(Reply(ConstructStatusQueued(id), 202))
    ensures GetStatusWithQueued(store, orch, node, id, ns) == Reply(ConstructStatusQueued(id), 200)
  {
  }

  /** `_get_log(node_name, analysis_id, namespace)`: the orchestrator's node
      log first, then the durable log store. */
  function GetLog(orch: Orchestrator, logs: map<string, string>, node: string, id: string, ns: string): (r: Reply)
    ensures r.status == 200 || r.status == 404
  {
    if (node, id, ns) in orch.nodeLogs then
      Reply(Object(map["parameters" := IdParameters(id), "log" := Str(orch.nodeLogs[(node, id, ns)])]), 200)
    else if id in logs then
      Reply(Object(map["parameters" := IdParameters(id), "log" := Str(logs[id])]), 200)
    else
      Reply(ErrorBody("Log for analysis " + id + " was not found or it has not started yet", id), 404)
  }

  /** A log is missing only when both sources miss, and the orchestrator's
      copy is preferred over the durable one. */
  lemma LogSources(orch: Orchestrator, logs: map<string, string>, node: string, id: string, ns: string)
    ensures var r := GetLog(orch, logs, node, id, ns);
      && (r.status == 404 <==> (node, id, ns) !in orch.nodeLogs && id !in logs)
      && ((node, id, ns) in orch.nodeLogs ==> HasField(r.body, "log", Str(orch.nodeLogs[(node, id, ns)])))
      && ((node, id, ns) !in orch.nodeLogs && id in logs ==> HasField(r.body, "log", Str(logs[id])))
  {
  }

  /** `result["metadata"]["arguments"]["thoth-adviser"].pop("metadata", None)`:
      drop the request metadata (origin, GitHub application details) from a
      finished adviser or provenance document. A document without that path
      raises as Python's indexing does; a list at the end has no keyword
      `pop` (TypeError), any other non-dictionary no `pop` at all. */
  function DropRequestMetadata(doc: Value): (r: Result<Value>)
  {
    match Index(doc, "metadata")
    case Raise(e) => Raise(e)
    case Ok(m) =>
      match Index(m, "arguments")
      case Raise(e) => Raise(e)
      case Ok(a) =>
        match Index(a, "thoth-adviser")
        case Raise(e) => Raise(e)
        case Ok(t) =>
          if t.Object? then
            Ok(Object(doc.fields["metadata" := Object(m.fields["arguments" :=
              Object(a.fields["thoth-adviser" := Object(t.fields - {"metadata"})])])]))
          else if t.List? then Raise(TypeError)
          else Raise(AttributeError)
  }

  /** The adviser section of a document, if it has the nested shape. */
  function AdviserSection(doc: Value): Option<Value>
  {
    if && doc.Object? && "metadata" in doc.fields
       && doc.fields["metadata"].Object? && "arguments" in doc.fields["metadata"].fields
       && doc.fields["metadata"].fields["arguments"].Object?
       && "thoth-adviser" in doc.fields["metadata"].fields["arguments"].fields
    then Some(doc.fields["metadata"].fields["arguments"].fields["thoth-adviser"])
    else None
  }

  /** Dropping succeeds exactly on documents whose adviser section is a
      dictionary; it removes `metadata` there and nothing else: the other
      keys of every level are kept, and so is the rest of the adviser
      section. Dropping again changes nothing. */
  lemma DropRequestMetadataSpec(doc: Value)
    ensures var r := DropRequestMetadata(doc);
      && (r.Ok? <==> AdviserSection(doc).Some? && AdviserSection(doc).value.Object?)
      && (r.Ok? ==>
            && r.value.Object? && r.value.fields.Keys == doc.fields.Keys
            && (forall k :: k in doc.fields && k != "metadata" ==> r.value.fields[k] == doc.fields[k])
            && AdviserSection(r.value).Some?
            && AdviserSection(r.value).value == Object(AdviserSection(doc).value.fields - {"metadata"})
            && DropRequestMetadata(r.value) == r)
  {
    var r := DropRequestMetadata(doc);
    if r.Ok? {
      var m := doc.fields["metadata"].fields;
      var a := m["arguments"].fields;
      var t := a["thoth-adviser"].fields - {"metadata"};
      var a' := a["thoth-adviser" := Object(t)];
      var m' := m["arguments" := Object(a')];
      assert r.value == Object(doc.fields["metadata" := Object(m')]);
      assert AdviserSection(r.value) == Some(Object(t));
      assert t - {"metadata"} == t;
      assert a'["thoth-adviser" := Object(t)] == a';
      assert m'["arguments" := Object(a')] == m';
      assert r.value.fields["metadata" := Object(m')] == r.value.fields;
    }
  }

  /** A result lookup that hides the request metadata of finished documents
      (`get_advise_python`, `get_provenance_python`); other answers pass
      through. */
  function GetWithoutMetadata(store: ResultStore, orch: Orchestrator, id: string,
                              namePrefix: Option<string>, namespace: Option<string>): (r: Result<Reply>)
    ensures GetDocument(store, orch, id, namePrefix, namespace).Ok?
            && GetDocument(store, orch, id, namePrefix, namespace).value.status != 200 ==>
            r == GetDocument(store, orch, id, namePrefix, namespace)
    ensures r.Ok? && r.value.status == 200 ==>
            PrefixAccepted(id, namePrefix) && id in store.documents
            && DropRequestMetadata(store.documents[id]) == Ok(r.value.body)
  {
    match GetDocument(store, orch, id, namePrefix, namespace)
    case Raise(e) => Raise(e)
    case Ok(reply) =>
      if reply.status != 200 then Ok(reply)
      else
        match DropRequestMetadata(reply.body)
        case Raise(e) => Raise(e)
        case Ok(body) => Ok(Reply(body, 200))
  }
}
