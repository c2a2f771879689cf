/** The webhook filter of payload_filter.py: it decides whether a webhook is
    worth a Kebechet run, and records GitHub application installations and
    removals in the graph database on the way. */
module PayloadFilter {
  import opened Common
  import opened Json
  import opened Dispatch

  /** `webhook_payload` as the webhook endpoint builds it: the event name
      from the header, the request body and the service. */
  datatype WebhookPayload = WebhookPayload(event: string, payload: Value, service: string)

  /** What `process` decides: the payload to run Kebechet on (`None` to
      drop it) and the graph-database calls it made. */
  datatype Outcome = Outcome(forward: Option<WebhookPayload>, effects: seq<GraphEffect>)

  const SupportedActions: seq<string> := ["opened", "edited"]
  const EventTypes: seq<string> := ["issues", "pull_request", "installation"]
  const DeprecatedEvents: seq<string> := ["integration_installation", "integration_installation_repositories"]
  const BotBranch := "refs/heads/kebechet-"

  /** The repository records of `for repo in repos`: iterating a list gives
      its items, a dictionary its keys and a string its characters (neither
      has a `get`, so no call is made for them); anything else cannot be
      iterated. Only dictionaries reach the graph database; the error of any
      other item is caught and logged. */
  function Repositories(repos: Value): (r: Result<seq<Value>>)
    ensures r.Raise? <==> !(repos.List? || repos.Object? || repos.Str?)
    ensures r.Raise? ==> r.exc == TypeError
    ensures r.Ok? && !repos.List? ==> r.value == []
    ensures r.Ok? ==> forall i :: 0 <= i < |r.value| ==> r.value[i].Object? && r.value[i] in repos.items
  {
    match repos
    case List(items) => Ok(Records(items))
    case Object(_) => Ok([])
    case Str(_) => Ok([])
    case _ => Raise(TypeError)
  }

  /** The dictionaries among `items`, in order. */
  function Records(items: seq<Value>): (r: seq<Value>)
    ensures forall i :: 0 <= i < |r| ==> r[i].Object? && r[i] in items
    ensures forall i :: 0 <= i < |items| && items[i].Object? ==> items[i] in r
    ensures |r| <= |items|
  {
    if items == [] then []
    else (if items[0].Object? then [items[0]] else []) + Records(items[1..])
  }

  /** `_install_event(repos)`: one installation per repository record. */
  function InstallEvent(repos: Value): (r: Result<seq<GraphEffect>>)
    ensures r.Ok? <==> Repositories(repos).Ok?
    ensures r.Ok? ==>
      && |r.value| == |Repositories(repos).value|
      && forall i :: 0 <= i < |r.value| ==> r.value[i] == Installed(Repositories(repos).value[i])
  {
    match Repositories(repos)
    case Raise(e) => Raise(e)
    case Ok(records) => Ok(seq(|records|, i requires 0 <= i < |records| => Installed(records[i])))
  }

  /** `_remove_event(repos)`: one deactivation per repository record. */
  function RemoveEvent(repos: Value): (r: Result<seq<GraphEffect>>)
    ensures r.Ok? <==> Repositories(repos).Ok?
    ensures r.Ok? ==>
      && |r.value| == |Repositories(repos).value|
      && forall i :: 0 <= i < |r.value| ==> r.value[i] == Removed(Repositories(repos).value[i])
  {
    match Repositories(repos)
    case Raise(e) => Raise(e)
    case Ok(records) => Ok(seq(|records|, i requires 0 <= i < |records| => Removed(records[i])))
  }

  /** Drop the payload after some graph-database calls. */
  function Dropped(effects: Result<seq<GraphEffect>>): Result<Outcome> {
    match effects
    case Raise(e) => Raise(e)
    case Ok(es) => Ok(Outcome(None, es))
  }

  /** `PayloadProcess().process(webhook_payload)`: only GitHub payloads are
      looked at. `payload.get` fails on a body that is not a dictionary and
      `ref.startswith` on a `ref` that is not a string. The filter never
      edits a payload: it passes the very payload it was given, without
      graph-database calls, or drops it. */
  function Process(wp: WebhookPayload): (r: Result<Outcome>)
    ensures r.Ok? && r.value.forward.Some? ==> r.value.forward.value == wp && r.value.effects == []
    ensures r.Ok? && r.value.effects != [] ==> wp.event == "installation_repositories"
  {
    if wp.service != "github" then Ok(Outcome(Some(wp), []))
    else if wp.event in DeprecatedEvents then Ok(Outcome(None, []))
    else if wp.event == "installation_repositories" then
      match Get(wp.payload, "action")
      case Raise(e) => Raise(e)
      case Ok(action) =>
        if action == Str("added") then Dropped(InstallEvent(Get(wp.payload, "repositories_added").value))
        else if action == Str("removed") then Dropped(RemoveEvent(Get(wp.payload, "repositories_removed").value))
        else Ok(Outcome(Some(wp), []))
    else if wp.event == "push" then
      match Get(wp.payload, "ref")
      case Raise(e) => Raise(e)
      case Ok(ref) =>
        if ref == Null then Ok(Outcome(None, []))
        else if !ref.Str? then Raise(AttributeError)
        else if StartsWith(ref.s, BotBranch) then Ok(Outcome(None, []))
        else Ok(Outcome(Some(wp), []))
    else if wp.event in EventTypes then
      match Get(wp.payload, "action")
      case Raise(e) => Raise(e)
      case Ok(action) =>
        if wp.event == "installation" then Ok(Outcome(None, []))
        else if !(action.Str? && action.s in SupportedActions) then Ok(Outcome(None, []))
        else Ok(Outcome(Some(wp), []))
    else Ok(Outcome(Some(wp), []))
  }

  /** The action of a payload, when it is a dictionary. */
  function Action(wp: WebhookPayload): Value
    requires wp.payload.Object?
  {
    GetOr(wp.payload.fields, "action", Null)
  }

  /** Which webhooks Kebechet runs on, stated event by event. */
  predicate Relevant(wp: WebhookPayload)
    requires wp.payload.Object?
  {
    var fields := wp.payload.fields;
    || wp.service != "github"
    || (&& wp.event !in DeprecatedEvents
        && wp.event != "installation"
        && (wp.event == "installation_repositories" ==> Action(wp) != Str("added") && Action(wp) != Str("removed"))
        && (wp.event == "push" ==>
              "ref" in fields && fields["ref"].Str? && !StartsWith(fields["ref"].s, BotBranch))
        && (wp.event in {"issues", "pull_request"} ==>
              Action(wp) == Str("opened") || Action(wp) == Str("edited")))
  }

  /** For a dictionary body the filter fails only on a push whose `ref` is
      neither missing nor a string, or on repository lists that cannot be
      iterated; otherwise it passes exactly the relevant webhooks. */
  lemma ProcessPassesRelevant(wp: WebhookPayload)
    requires wp.payload.Object?
    ensures var r := Process(wp);
      r.Ok? ==> (r.value.forward.Some? <==> Relevant(wp))
    ensures (&& wp.service == "github" && wp.event == "push" && "ref" in wp.payload.fields
             && wp.payload.fields["ref"] != Null && !wp.payload.fields["ref"].Str?)
            ==> Process(wp) == Raise(AttributeError)
  {
    assert "installation" in EventTypes;
  }

  /** Payloads from services other than GitHub are passed untouched. */
  lemma NonGithubPassed(wp: WebhookPayload)
    requires wp.service != "github"
    ensures Process(wp) == Ok(Outcome(Some(wp), []))
  {
  }

  /** Deprecated installation events are dropped. */
  lemma DeprecatedDropped(wp: WebhookPayload)
    requires wp.service == "github" && wp.event in DeprecatedEvents
    ensures Process(wp) == Ok(Outcome(None, []))
  {
  }

  /** An added or removed application installation is recorded, one call
      per repository record of the matching list, and the webhook dropped. */
  lemma InstallationRecorded(wp: WebhookPayload)
    requires wp.service == "github" && wp.event == "installation_repositories" && wp.payload.Object?
    ensures Action(wp) == Str("added") ==>
      Process(wp) == Dropped(InstallEvent(GetOr(wp.payload.fields, "repositories_added", Null)))
    ensures Action(wp) == Str("removed") ==>
      Process(wp) == Dropped(RemoveEvent(GetOr(wp.payload.fields, "repositories_removed", Null)))
    ensures Action(wp) != Str("added") && Action(wp) != Str("removed") ==> Process(wp) == Ok(Outcome(Some(wp), []))
  {
  }

  /** A push to one of Kebechet's own branches, or without a `ref`, does not
      start Kebechet again. */
  lemma BotPushDropped(wp: WebhookPayload, branch: string)
    requires wp.service == "github" && wp.event == "push" && wp.payload.Object?
    requires "ref" !in wp.payload.fields || wp.payload.fields["ref"] == Str(BotBranch + branch)
    ensures Process(wp) == Ok(Outcome(None, []))
  {
    assert "ref" in wp.payload.fields ==> wp.payload.fields["ref"].s[..|BotBranch|] == BotBranch;
  }
}
