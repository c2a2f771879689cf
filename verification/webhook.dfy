/** The two endpoints of api_v1.py that start Kebechet workflows:
    `schedule_kebechet_webhook`, which filters a Git forge webhook and
    publishes it, and `initialize_repo`, which accepts only a GitHub
    repository URL of the form `https://github.com/<owner>/<repository>`. */
module Webhook {
  import opened Common
  import opened Json
  import opened Dispatch
  import PayloadFilter
  import Url

  /** The request headers as the web framework looks them up (its rules
      for case and for `-` against `_` are its own). */
  type Headers = string -> Option<string>

  /** `schedule_kebechet_webhook(body)` */
  function ScheduleKebechetWebhook(cfg: Config, env: Env, w: World, headers: Headers, body: Value): (h: Handled)
    ensures headers("X-GitHub-Event").None? && headers("X_GitLab_Event").None? ==>
      && h.world == w
      && h.reply.Ok? && h.reply.value.status == 501
      && (headers("X_Pagure_Topic").Some? <==> h.reply.value == ErrorReply("Pagure is currently not supported", 501))
    ensures |h.world.graph| >= |w.graph| && h.world.graph[..|w.graph|] == w.graph
    ensures StoresUnchanged(w, h.world.(graph := w.graph)) && h.world.callbacks == w.callbacks
  {
    var wp :=
      if headers("X-GitHub-Event").Some? then Some(PayloadFilter.WebhookPayload(headers("X-GitHub-Event").value, body, "github"))
      else if headers("X_GitLab_Event").Some? then Some(PayloadFilter.WebhookPayload(headers("X_GitLab_Event").value, body, "gitlab"))
      else None;
    if wp.None? then
      if headers("X_Pagure_Topic").Some? then Handled(Ok(ErrorReply("Pagure is currently not supported", 501)), w)
      else
        assert "This webhook is not supported"[0] != "Pagure is currently not supported"[0];
        assert ErrorReply("This webhook is not supported", 501).body.fields["error"]
            != ErrorReply("Pagure is currently not supported", 501).body.fields["error"];
        Handled(Ok(ErrorReply("This webhook is not supported", 501)), w)
    else Forward(cfg, env, w, wp.value)
  }

  /** The filtered webhook: the graph-database calls the filter made are
      kept; a dropped webhook is answered with an empty 200, a kept one is
      published for Kebechet with a new `kebechet-job` id. */
  function Forward(cfg: Config, env: Env, w: World, wp: PayloadFilter.WebhookPayload): (h: Handled)
    ensures |h.world.graph| >= |w.graph| && h.world.graph[..|w.graph|] == w.graph
    ensures StoresUnchanged(w, h.world.(graph := w.graph)) && h.world.callbacks == w.callbacks
  {
    match PayloadFilter.Process(wp)
    case Raise(e) => Handled(Raise(e), w)
    case Ok(outcome) => Act(cfg, env, w, wp, outcome)
  }

  /** The filter's verdict carried out: its graph calls recorded, then the
      webhook answered or published. */
  function Act(cfg: Config, env: Env, w: World, wp: PayloadFilter.WebhookPayload, outcome: PayloadFilter.Outcome): (h: Handled)
    ensures h.world.graph == w.graph + outcome.effects
    ensures StoresUnchanged(w, h.world.(graph := w.graph)) && h.world.callbacks == w.callbacks
    ensures outcome.forward.None? ==> h.reply == Ok(Reply(Object(map[]), 200)) && h.world.published == w.published
  {
    var w1 := w.(graph := w.graph + outcome.effects);
    assert StoresUnchanged(w, w1.(graph := w.graph));
    if outcome.forward.None? then Handled(Ok(Reply(Object(map[]), 200)), w1)
    else
      var sent := SendScheduleMessage(cfg, env, w1, KebechetMessage(env, wp), KebechetTrigger, false, false);
      assert sent.world == w1 || sent.world == w1.(published := sent.world.published);
      sent
  }

  /** The message that starts Kebechet on a webhook. */
  function KebechetMessage(env: Env, wp: PayloadFilter.WebhookPayload): (m: map<string, Value>)
    ensures HasField(Object(m), "job_id", Str(GenerateId("kebechet-job", env.suffix(0))))
    ensures m.Keys == {"webhook_payload", "job_id"}
  {
    map["webhook_payload" := Object(map["event" := Str(wp.event), "payload" := wp.payload, "service" := Str(wp.service)]),
        "job_id" := Str(GenerateId("kebechet-job", env.suffix(0)))]
  }

  /** A webhook Kebechet should act on is published once, as it came. */
  lemma RelevantWebhookPublished(cfg: Config, env: Env, w: World, headers: Headers, body: Value)
    requires headers("X-GitHub-Event").Some? && body.Object? && env.busAccepts
    requires PayloadFilter.Relevant(PayloadFilter.WebhookPayload(headers("X-GitHub-Event").value, body, "github"))
    requires PayloadFilter.Process(PayloadFilter.WebhookPayload(headers("X-GitHub-Event").value, body, "github")).Ok?
    ensures var h := ScheduleKebechetWebhook(cfg, env, w, headers, body);
      && ReplyOk(h)
      && h.world.graph == w.graph
      && |h.world.published| == |w.published| + 1
      && h.world.published[|w.published|].topic == KebechetTrigger
      && HasField(Object(h.world.published[|w.published|].contents), "webhook_payload",
                  Object(map["event" := Str(headers("X-GitHub-Event").value), "payload" := body, "service" := Str("github")]))
  {
    var wp := PayloadFilter.WebhookPayload(headers("X-GitHub-Event").value, body, "github");
    PayloadFilter.ProcessPassesRelevant(wp);
  }

  /** A webhook the filter drops is answered with an empty 200 and nothing
      is published. */
  lemma IrrelevantWebhookDropped(cfg: Config, env: Env, w: World, headers: Headers, body: Value)
    requires headers("X-GitHub-Event").Some? && body.Object?
    requires !PayloadFilter.Relevant(PayloadFilter.WebhookPayload(headers("X-GitHub-Event").value, body, "github"))
    requires PayloadFilter.Process(PayloadFilter.WebhookPayload(headers("X-GitHub-Event").value, body, "github")).Ok?
    ensures var h := ScheduleKebechetWebhook(cfg, env, w, headers, body);
      && h.reply == Ok(Reply(Object(map[]), 200))
      && h.world.published == w.published
  {
    var wp := PayloadFilter.WebhookPayload(headers("X-GitHub-Event").value, body, "github");
    PayloadFilter.ProcessPassesRelevant(wp);
  }

  const GithubDomains: seq<string> := ["github.com", "www.github.com"]

  /** `url_obj.path[1:]` */
  function DropFirst(s: string): string {
    if s == [] then [] else s[1..]
  }

  /** `initialize_repo(body)`: `body["project_url"]` stripped of slashes
      must parse, have a path of exactly two segments and a GitHub network
      location. */
  function InitializeRepo(cfg: Config, env: Env, w: World, body: Value): (h: Handled)
    ensures ReplyOk(h) ==>
      && body.Object? && "project_url" in body.fields && body.fields["project_url"].Str?
      && RepoUrlAccepted(cfg, env, w, Strip(body.fields["project_url"].s, '/'), h)
    ensures !ReplyOk(h) ==> h.world == w
  {
    match Index(body, "project_url")
    case Raise(e) => Handled(Raise(e), w)
    case Ok(v) =>
      if !v.Str? then Handled(Raise(AttributeError), w)
      else InitializeUrl(cfg, env, w, Strip(v.s, '/'))
  }

  /** A stripped URL `initialize_repo` accepts: it parses, its path has
      two segments and its network location is GitHub's. */
  predicate GithubRepoUrl(url: string) {
    && Url.Parse(url).Ok?
    && |Split(DropFirst(Url.Parse(url).value.path), "/")| == 2
    && Url.Parse(url).value.netloc in GithubDomains
  }

  /** What an accepted repository URL satisfies, and what is published. */
  predicate RepoUrlAccepted(cfg: Config, env: Env, w: World, url: string, h: Handled) {
    && GithubRepoUrl(url)
    && h.world.published == w.published + [Message(ThothRepoInit, Stamp(cfg, RepoInitMessage(env, url)))]
  }

  /** The error message the checks on a stripped URL answer with, in the
      order they are made, or `None` when the URL passes them all. */
  function UrlProblem(url: string): (r: Option<string>)
    ensures r.None? <==> GithubRepoUrl(url)
    ensures Url.Parse(url).Raise? ==> r == Some("Error processing project_url")
  {
    match Url.Parse(url)
    case Raise(_) => Some("Error processing project_url")
    case Ok(parsed) =>
      if |Split(DropFirst(parsed.path), "/")| != 2 then Some("project_url path does not have a length of 2")
      else if parsed.netloc !in GithubDomains then Some("project url is not from github.com")
      else None
  }

  /** The checks on the stripped URL, then the message. */
  function InitializeUrl(cfg: Config, env: Env, w: World, url: string): (h: Handled)
    ensures ReplyOk(h) ==> RepoUrlAccepted(cfg, env, w, url, h)
    ensures !ReplyOk(h) ==> h.world == w
  {
    match UrlProblem(url)
    case Some(problem) => Handled(Ok(ErrorReply(problem, 400)), w)
    case None =>
      var sent := SendScheduleMessage(cfg, env, w, RepoInitMessage(env, url), ThothRepoInit, false, false);
      if ReplyOk(sent) then sent else Handled(sent.reply, w)
  }

  /** The message that starts the repository initialisation. */
  function RepoInitMessage(env: Env, url: string): (m: map<string, Value>)
    ensures HasField(Object(m), "project_url", Str(url))
    ensures HasField(Object(m), "job_id", Str(GenerateId("thoth-repo-init", env.suffix(0))))
  {
    map["project_url" := Str(url), "job_id" := Str(GenerateId("thoth-repo-init", env.suffix(0)))]
  }

  /** `a/b` splits into `a` and `b` when neither holds a slash. */
  lemma SplitTwo(a: string, b: string)
    requires Url.Free(a, {'/'}) && Url.Free(b, {'/'})
    ensures Split(a + "/" + b, "/") == [a, b]
  {
    var s := a + "/" + b;
    assert OccursAt(s, "/", |a|);
    forall j | 0 <= j < |a| ensures !OccursAt(s, "/", j) {
      assert s[j] == a[j];
    }
    assert Find(s, "/") == Some(|a|);
    assert s[|a| + 1..] == b;
    forall j ensures !OccursAt(b, "/", j) {
      if 0 <= j < |b| { assert b[j..j + 1] == [b[j]]; }
    }
    assert Find(b, "/") == None;
  }

  /** A segment of a GitHub repository URL: no slash, no query, fragment
      or parameter delimiter, nothing the parser removes. */
  predicate Segment(s: string) {
    s != [] && Url.Free(s, {'/', '?', '#', ';', '\t', '\r', '\n'})
  }

  /** Stripping slashes leaves a URL that neither starts nor ends with one,
      and takes off one trailing slash. */
  lemma StripKeeps(u: string)
    requires |u| > 0 && u[0] != '/' && u[|u| - 1] != '/'
    ensures Strip(u, '/') == u && Strip(u + "/", '/') == u
  {
    assert (u + "/")[..|u|] == u;
    assert StripLeft(u + "/", '/') == u + "/";
    assert StripRight(u + "/", '/') == StripRight(u, '/');
  }

  lemma HttpsGithub()
    ensures Url.PlainScheme("https")
    ensures Url.Free("github.com", {'/', '?', '#', '[', ']'} + Url.Unsafe)
  {
    assert forall i :: 0 <= i < |"https"| ==> "https"[i] in {'h', 't', 'p', 's'};
    assert 'h' in Url.SchemeChars && 't' in Url.SchemeChars && 'p' in Url.SchemeChars && 's' in Url.SchemeChars;
    assert forall i :: 0 <= i < |"github.com"| ==> "github.com"[i] in {'g', 'i', 't', 'h', 'u', 'b', '.', 'c', 'o', 'm'};
  }

  /** The path `/<owner>/<repository>` has no query, fragment or parameter
      delimiter and starts with a slash. */
  lemma SegmentsPath(owner: string, repository: string)
    requires Segment(owner) && Segment(repository)
    ensures var path := "/" + owner + "/" + repository;
      && path[0] == '/'
      && Url.Free(path, {'?', '#', ';'} + Url.Unsafe)
      && DropFirst(path) == owner + "/" + repository
  {
    var path := "/" + owner + "/" + repository;
    forall i | 0 <= i < |path| ensures path[i] !in {'?', '#', ';'} + Url.Unsafe {
      if 1 <= i < 1 + |owner| { assert path[i] == owner[i - 1]; }
      else if 2 + |owner| <= i { assert path[i] == repository[i - 2 - |owner|]; }
    }
    assert path[1..] == owner + "/" + repository;
  }

  /** The checks of `initialize_repo` on a GitHub repository URL. */
  lemma GithubUrlChecks(owner: string, repository: string, slash: bool)
    requires Segment(owner) && Segment(repository)
    ensures var url := "https://github.com/" + owner + "/" + repository;
      && Strip(if slash then url + "/" else url, '/') == url
      && GithubRepoUrl(url)
  {
    GithubUrlStripped(owner, repository, slash);
    GithubUrlParsed(owner, repository);
  }

  /** Stripping slashes removes just the optional trailing one. */
  lemma GithubUrlStripped(owner: string, repository: string, slash: bool)
    requires Segment(owner) && Segment(repository)
    ensures var url := "https://github.com/" + owner + "/" + repository;
      Strip(if slash then url + "/" else url, '/') == url
  {
    var url := "https://github.com/" + owner + "/" + repository;
    assert url[|url| - 1] == repository[|repository| - 1];
    assert url[0] == 'h';
    StripKeeps(url);
  }

  /** The URL parses with the GitHub host and a two-segment path. */
  lemma GithubUrlParsed(owner: string, repository: string)
    requires Segment(owner) && Segment(repository)
    ensures var url := "https://github.com/" + owner + "/" + repository;
      && Url.Parse(url).Ok?
      && |Split(DropFirst(Url.Parse(url).value.path), "/")| == 2
      && Url.Parse(url).value.netloc in GithubDomains
  {
    var path := "/" + owner + "/" + repository;
    var url := "https://github.com/" + owner + "/" + repository;
    assert url == "https" + "://" + "github.com" + path;
    SegmentsPath(owner, repository);
    HttpsGithub();
    Url.ParseComposed("https", "github.com", path);
    Url.FreeWithin(owner, {'/', '?', '#', ';', '\t', '\r', '\n'}, {'/'});
    Url.FreeWithin(repository, {'/', '?', '#', ';', '\t', '\r', '\n'}, {'/'});
    SplitTwo(owner, repository);
  }

  /** `https://github.com/<owner>/<repository>`, with or without a trailing
      slash, is accepted and published as the URL without the slash. */
  lemma GithubRepositoryAccepted(cfg: Config, env: Env, w: World, owner: string, repository: string, slash: bool)
    requires Segment(owner) && Segment(repository) && env.busAccepts
    ensures var url := "https://github.com/" + owner + "/" + repository;
      var h := InitializeRepo(cfg, env, w, Object(map["project_url" := Str(if slash then url + "/" else url)]));
      && ReplyOk(h)
      && h.world.published == w.published + [Message(ThothRepoInit, Stamp(cfg, RepoInitMessage(env, url)))]
  {
    GithubUrlChecks(owner, repository, slash);
  }
}
