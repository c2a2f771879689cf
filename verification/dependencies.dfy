/** The argument check of `get_python_package_dependencies` in api_v1.py:
    the operating system is given completely or not at all, and a marker
    evaluation result only makes sense for a fully given environment. The
    graph query behind it is not part of this model. */
module Dependencies {
  import opened Common
  import opened Json

  datatype Query = Query(
    name: string,
    version: string,
    index: string,
    osName: Option<string>,
    osVersion: Option<string>,
    pythonVersion: Option<string>,
    markerEvaluationResult: Option<bool>)

  function OptBool(o: Option<bool>): Value {
    if o.Some? then Bool(o.value) else Null
  }

  /** The handler's `locals()`. */
  function Parameters(q: Query): map<string, Value> {
    map["name" := Str(q.name), "version" := Str(q.version), "index" := Str(q.index),
        "os_name" := OptStr(q.osName), "os_version" := OptStr(q.osVersion),
        "python_version" := OptStr(q.pythonVersion),
        "marker_evaluation_result" := OptBool(q.markerEvaluationResult)]
  }

  const PartialOs := "Operating system is not fully specified"
  const MarkerNeedsEnvironment :=
    "Operating system and Python interpreter version need to be specified to obtain dependencies dependent on marker evaluation result"

  function Refusal(message: string, q: Query): Reply {
    Reply(Object(map["error" := Str(message), "parameters" := Object(Parameters(q))]), 400)
  }

  /** The refusal of a query, or `None` when the graph is to be asked. */
  function Check(q: Query): (r: Option<Reply>)
    ensures r.Some? ==> r.value.status == 400 && HasField(r.value.body, "parameters", Object(Parameters(q)))
  {
    if (q.osName.None? && q.osVersion.Some?) || (q.osName.Some? && q.osVersion.None?) then
      Some(Refusal(PartialOs, q))
    else if q.markerEvaluationResult.Some? && (q.osName.None? || q.osVersion.None? || q.pythonVersion.None?) then
      Some(Refusal(MarkerNeedsEnvironment, q))
    else None
  }

  /** The environment of a query is either absent or complete. */
  predicate WellSpecified(q: Query) {
    && (q.osName.Some? <==> q.osVersion.Some?)
    && (q.markerEvaluationResult.Some? ==> q.osName.Some? && q.pythonVersion.Some?)
  }

  /** A query reaches the graph exactly when it is well specified; a half
      given operating system is reported before a marker without an
      environment. */
  lemma CheckAcceptsWellSpecified(q: Query)
    ensures Check(q).None? <==> WellSpecified(q)
    ensures (q.osName.Some? != q.osVersion.Some?) ==> Check(q) == Some(Refusal(PartialOs, q))
    ensures (q.osName.Some? == q.osVersion.Some?) && !WellSpecified(q) ==>
      Check(q) == Some(Refusal(MarkerNeedsEnvironment, q))
  {
  }
}
