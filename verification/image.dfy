/** Image inspection (image.py) and its HTTP wrapper `_do_get_image_metadata`
    (api_v1.py): the credential check, the skopeo command line, the renaming
    of skopeo's keys to snake case, the classification of skopeo's error
    output, and the status code each error is answered with. Running the
    command is a parameter. */
module Image {
  import opened Common
  import opened Json
  import opened PyRepr

  /** The image errors named in api_v1.py. exceptions.py defines only
      `ImageError`, `ImageManifestUnknownError` and
      `ImageAuthenticationRequired`; the others are taken as named. */
  datatype ImageErrorKind =
    | BadRequest
    | InvalidCredentials
    | ManifestUnknown
    | AuthenticationRequired
    | Generic

  datatype ImageError = ImageError(kind: ImageErrorKind, message: string)

  /** A call that returns a value, raises one of the image errors, or raises
      another Python exception (which no handler here catches). */
  datatype Outcome<+T> = Success(value: T) | Failure(error: ImageError) | Raised(exc: Exception)

  /** What `run_command(..., is_json=True, raise_on_error=False)` gives back. */
  datatype CommandResult = CommandResult(returnCode: int, stdout: Value, stderr: string)

  /** An inspection request once the credentials are checked. */
  datatype Inspect = Inspect(image: string, creds: Option<(string, string)>, verifyTls: bool)

  const MissingCredentialMessage :=
    "Both parameters registry_user and registry_password have to be supplied for registry authentication"

  /** Both credentials or neither (by Python truthiness); one alone is a bad
      request. */
  function CheckCredentials(user: Option<string>, password: Option<string>): (r: Outcome<Option<(string, string)>>)
    ensures r.Failure? <==> TruthyStr(user) != TruthyStr(password)
    ensures r.Failure? ==> r.error == ImageError(BadRequest, MissingCredentialMessage)
    ensures !r.Raised?
    ensures r.Success? && r.value.Some? ==>
      TruthyStr(user) && TruthyStr(password) && r.value.value == (user.value, password.value)
    ensures r.Success? && r.value.None? ==> !TruthyStr(user) && !TruthyStr(password)
  {
    if TruthyStr(user) && TruthyStr(password) then Success(Some((user.value, password.value)))
    else if TruthyStr(user) || TruthyStr(password) then Failure(ImageError(BadRequest, MissingCredentialMessage))
    else Success(None)
  }

  const Prefix := "skopeo inspect "
  const CredsFlag := "--creds="
  const NoTlsFlag := "--tls-verify=false "
  const Scheme := "docker://"

  function CredsPart(creds: Option<(string, string)>): string {
    match creds
    case None => ""
    case Some((u, p)) => CredsFlag + u + ":" + p + " "
  }

  function TlsPart(verifyTls: bool): string {
    if verifyTls then "" else NoTlsFlag
  }

  /** The command line built by `get_image_metadata`. */
  function CommandFor(req: Inspect): string {
    Prefix + CredsPart(req.creds) + TlsPart(req.verifyTls) + Scheme + Repr(req.image)
  }

  /** The command for a request as received: credentials checked first. */
  function BuildCommand(image: string, user: Option<string>, password: Option<string>, verifyTls: bool): (r: Outcome<string>)
    ensures r.Failure? <==> TruthyStr(user) != TruthyStr(password)
    ensures r.Failure? ==> r.error.kind == BadRequest
    ensures !r.Raised?
  {
    match CheckCredentials(user, password)
    case Success(creds) => Success(CommandFor(Inspect(image, creds, verifyTls)))
    case Failure(e) => Failure(e)
    case Raised(e) => Raised(e)
  }

  /* ---- reading a command back ---- */

  /** The text after the first occurrence of `c`, and before it. */
  function SplitAtChar(s: string, c: char): Option<(string, string)>
  {
    match Find(s, [c])
    case None => None
    case Some(i) => Some((s[..i], s[i + 1..]))
  }

  /** Recover the request from a command built without quoting the
      credentials: the credentials run up to the first space, the user name
      up to the first colon. */
  function ParseCommand(cmd: string): Option<Inspect>
  {
    if !StartsWith(cmd, Prefix) then None
    else
      var a := cmd[|Prefix|..];
      if StartsWith(a, CredsFlag) then
        match SplitAtChar(a[|CredsFlag|..], ' ')
        case None => None
        case Some((word, b)) =>
          match SplitAtChar(word, ':')
          case None => None
          case Some((u, p)) => ParseTail(b, Some((u, p)))
      else ParseTail(a, None)
  }

  function ParseTail(b: string, creds: Option<(string, string)>): Option<Inspect>
  {
    var verifyTls := !StartsWith(b, NoTlsFlag);
    ParseImage(if verifyTls then b else b[|NoTlsFlag|..], creds, verifyTls)
  }

  /** The `docker://` reference and the quoted image name. */
  function ParseImage(c: string, creds: Option<(string, string)>, verifyTls: bool): Option<Inspect>
  {
    if !StartsWith(c, Scheme) then None
    else
      match Unrepr(c[|Scheme|..])
      case None => None
      case Some(image) => Some(Inspect(image, creds, verifyTls))
  }

  /** `c` occurs first right after `x`. */
  lemma FindAfter(x: string, c: char, y: string)
    requires c !in x
    ensures Find(x + [c] + y, [c]) == Some(|x|)
  {
    var s := x + [c] + y;
    assert OccursAt(s, [c], |x|) by {
      assert s[|x|..|x| + 1] == [c];
    }
    forall j | 0 <= j < |x|
      ensures !OccursAt(s, [c], j)
    {
      assert s[j] == x[j];
    }
  }

  lemma SplitAtCharAfter(x: string, c: char, y: string)
    requires c !in x
    ensures SplitAtChar(x + [c] + y, c) == Some((x, y))
  {
    FindAfter(x, c, y);
    var s := x + [c] + y;
    assert s[..|x|] == x;
    assert s[|x| + 1..] == y;
  }

  lemma ParseTailOf(req: Inspect)
    ensures ParseTail(TlsPart(req.verifyTls) + Scheme + Repr(req.image), req.creds) == Some(req)
  {
    if req.verifyTls {
      ParseTailOfVerified(req);
    } else {
      ParseTailOfNotVerified(req);
    }
  }

  lemma ParseTailOfVerified(req: Inspect)
    requires req.verifyTls
    ensures ParseTail(TlsPart(req.verifyTls) + Scheme + Repr(req.image), req.creds) == Some(req)
  {
    var c := Scheme + Repr(req.image);
    ParseImageOf(req);
    assert TlsPart(req.verifyTls) + Scheme + Repr(req.image) == TlsPart(true) + c;
    PrefixOf(Scheme, Repr(req.image));
    TlsVerified(c, req.creds);
  }

  lemma ParseTailOfNotVerified(req: Inspect)
    requires !req.verifyTls
    ensures ParseTail(TlsPart(req.verifyTls) + Scheme + Repr(req.image), req.creds) == Some(req)
  {
    var c := Scheme + Repr(req.image);
    ParseImageOf(req);
    assert TlsPart(req.verifyTls) + Scheme + Repr(req.image) == TlsPart(false) + c;
    TlsNotVerified(c, req.creds);
  }

  /** Without the flag the tail is read as it is, with TLS verified. */
  lemma TlsVerified(c: string, creds: Option<(string, string)>)
    requires StartsWith(c, Scheme)
    ensures ParseTail(TlsPart(true) + c, creds) == ParseImage(c, creds, true)
  {
    assert TlsPart(true) + c == c;
    assert c[0] == 'd';
    assert !StartsWith(c, NoTlsFlag);
  }

  /** With the flag the tail after it is read, with TLS not verified. */
  lemma TlsNotVerified(c: string, creds: Option<(string, string)>)
    ensures ParseTail(TlsPart(false) + c, creds) == ParseImage(c, creds, false)
  {
    PrefixOf(NoTlsFlag, c);
  }

  lemma ParseImageOf(req: Inspect)
    ensures ParseImage(Scheme + Repr(req.image), req.creds, req.verifyTls) == Some(req)
  {
    var c := Scheme + Repr(req.image);
    assert StartsWith(c, Scheme) by {
      assert c[..|Scheme|] == Scheme;
    }
    assert c[|Scheme|..] == Repr(req.image);
    ReprRoundTrip(req.image);
  }

  /** Credentials free of spaces, and a user name free of colons. */
  predicate PlainCredentials(creds: Option<(string, string)>) {
    creds.Some? ==> ' ' !in creds.value.0 && ':' !in creds.value.0 && ' ' !in creds.value.1
  }

  lemma PrefixOf(p: string, a: string)
    ensures StartsWith(p + a, p) && (p + a)[|p|..] == a
  {
    assert (p + a)[..|p|] == p;
  }

  /** What follows the credentials never looks like a credentials flag. */
  lemma TailNotCreds(req: Inspect)
    ensures !StartsWith(TlsPart(req.verifyTls) + Scheme + Repr(req.image), CredsFlag)
  {
    var tail := TlsPart(req.verifyTls) + Scheme + Repr(req.image);
    if req.verifyTls {
      assert tail[0] == 'd';
    } else {
      assert tail[2] == 't';
    }
  }

  lemma ParsePlainCreds(u: string, p: string, tail: string)
    requires PlainCredentials(Some((u, p)))
    ensures ParseCommand(Prefix + CredsPart(Some((u, p))) + tail) == ParseTail(tail, Some((u, p)))
  {
    var word := u + ":" + p;
    var a := CredsFlag + (word + [' '] + tail);
    assert Prefix + CredsPart(Some((u, p))) + tail == Prefix + a;
    PrefixOf(Prefix, a);
    PrefixOf(CredsFlag, word + [' '] + tail);
    assert ' ' !in word;
    SplitAtCharAfter(word, ' ', tail);
    assert word == u + [':'] + p;
    SplitAtCharAfter(u, ':', p);
  }

  /** With plain credentials the command determines the request. */
  lemma ParseCommandOf(req: Inspect)
    requires PlainCredentials(req.creds)
    ensures ParseCommand(CommandFor(req)) == Some(req)
  {
    ParseTailOf(req);
    if req.creds.None? {
      ParseNoCreds(req);
    } else {
      ParseWithCreds(req);
    }
  }

  lemma ParseWithCreds(req: Inspect)
    requires PlainCredentials(req.creds) && req.creds.Some?
    ensures ParseCommand(CommandFor(req)) == ParseTail(TlsPart(req.verifyTls) + Scheme + Repr(req.image), req.creds)
  {
    var tail := TlsPart(req.verifyTls) + Scheme + Repr(req.image);
    var (u, p) := req.creds.value;
    assert CommandFor(req) == Prefix + CredsPart(req.creds) + tail;
    ParsePlainCreds(u, p, tail);
  }

  lemma ParseNoCreds(req: Inspect)
    requires req.creds.None?
    ensures ParseCommand(CommandFor(req)) == ParseTail(TlsPart(req.verifyTls) + Scheme + Repr(req.image), None)
    ensures ParseQuotedCommand(QuotedCommandFor(req)) == ParseTail(TlsPart(req.verifyTls) + Scheme + Repr(req.image), None)
  {
    var tail := TlsPart(req.verifyTls) + Scheme + Repr(req.image);
    assert CommandFor(req) == Prefix + tail;
    assert QuotedCommandFor(req) == Prefix + tail;
    PrefixOf(Prefix, tail);
    TailNotCreds(req);
  }

  /** A password holding a space smuggles further options into the command:
      these two different requests run the very same command, so a password
      can switch off TLS verification. */
  lemma CredentialsInjectOptions(image: string, user: string, password: string)
    ensures CommandFor(Inspect(image, Some((user, password + " --tls-verify=false")), true))
         == CommandFor(Inspect(image, Some((user, password)), false))
  {
    var tail := Scheme + Repr(image);
    var credsA := CredsPart(Some((user, password + " --tls-verify=false")));
    var credsB := CredsPart(Some((user, password)));
    OptionMovesIntoPassword(user, password);
    assert CommandFor(Inspect(image, Some((user, password + " --tls-verify=false")), true))
        == Prefix + (credsA + TlsPart(true)) + tail;
    assert CommandFor(Inspect(image, Some((user, password)), false))
        == Prefix + (credsB + TlsPart(false)) + tail;
  }

  /** The credentials-and-TLS part of the command reads the same when the
      TLS option is appended to the password instead. */
  lemma OptionMovesIntoPassword(user: string, password: string)
    ensures CredsPart(Some((user, password + " --tls-verify=false"))) + TlsPart(true)
         == CredsPart(Some((user, password))) + TlsPart(false)
  {
    var x := " --tls-verify=false";
    var h := CredsFlag + user + ":";
    assert x + " " == " " + NoTlsFlag;
    assert CredsPart(Some((user, password + x))) + TlsPart(true) == (h + password) + (x + " ");
    assert CredsPart(Some((user, password))) + TlsPart(false) == (h + password) + (" " + NoTlsFlag);
  }

  /* ---- the command with the credentials quoted ---- */

  function QuotedCredsPart(creds: Option<(string, string)>): string {
    match creds
    case None => ""
    case Some((u, p)) => CredsFlag + Repr(u) + ":" + Repr(p) + " "
  }

  /** The command line with user name and password quoted like the image
      name already is. */
  function QuotedCommandFor(req: Inspect): string {
    Prefix + QuotedCredsPart(req.creds) + TlsPart(req.verifyTls) + Scheme + Repr(req.image)
  }

  function ParseQuotedCommand(cmd: string): Option<Inspect>
  {
    if !StartsWith(cmd, Prefix) then None
    else
      var a := cmd[|Prefix|..];
      if StartsWith(a, CredsFlag) then ParseQuotedUser(a[|CredsFlag|..])
      else ParseTail(a, None)
  }

  /** After `--creds=`: a quoted user, a colon, then the password. */
  function ParseQuotedUser(s: string): Option<Inspect>
  {
    match ReadRepr(s)
    case None => None
    case Some((u, b)) =>
      if !StartsWith(b, ":") then None else ParseQuotedPassword(u, b[1..])
  }

  /** After the colon: a quoted password, a space, then the rest. */
  function ParseQuotedPassword(u: string, s: string): Option<Inspect>
  {
    match ReadRepr(s)
    case None => None
    case Some((p, c)) =>
      if !StartsWith(c, " ") then None else ParseTail(c[1..], Some((u, p)))
  }

  lemma ParseQuotedCreds(u: string, p: string, tail: string)
    ensures ParseQuotedCommand(Prefix + QuotedCredsPart(Some((u, p))) + tail) == ParseTail(tail, Some((u, p)))
  {
    var rest := Repr(u) + (":" + (Repr(p) + (" " + tail)));
    QuotedCredsShape(u, p, tail);
    ParseQuotedFlag(rest);
    ParseQuotedUserOf(u, p, tail);
  }

  lemma QuotedCredsShape(u: string, p: string, tail: string)
    ensures Prefix + QuotedCredsPart(Some((u, p))) + tail
         == Prefix + (CredsFlag + (Repr(u) + (":" + (Repr(p) + (" " + tail)))))
  {
    FiveRegroup(CredsFlag, Repr(u), ":", Repr(p), " ", tail);
    Regroup(Prefix, QuotedCredsPart(Some((u, p))), tail);
  }

  lemma Regroup(a: string, b: string, c: string)
    ensures a + b + c == a + (b + c)
  {
  }

  lemma FiveRegroup(a: string, b: string, c: string, d: string, e: string, t: string)
    ensures a + b + c + d + e + t == a + (b + (c + (d + (e + t))))
  {
    Regroup(a + b + c + d, e, t);
    Regroup(a + b + c, d, e + t);
    Regroup(a + b, c, d + (e + t));
    Regroup(a, b, c + (d + (e + t)));
  }

  lemma ParseQuotedFlag(rest: string)
    ensures ParseQuotedCommand(Prefix + (CredsFlag + rest)) == ParseQuotedUser(rest)
  {
    PrefixOf(Prefix, CredsFlag + rest);
    PrefixOf(CredsFlag, rest);
  }

  lemma ParseQuotedUserOf(u: string, p: string, tail: string)
    ensures ParseQuotedUser(Repr(u) + (":" + (Repr(p) + (" " + tail)))) == ParseTail(tail, Some((u, p)))
  {
    var c := " " + tail;
    ReadReprOf(u, ":" + (Repr(p) + c));
    PrefixOf(":", Repr(p) + c);
    ReadReprOf(p, c);
    PrefixOf(" ", tail);
  }

  /** With quoting, every request is recovered from its command. */
  lemma ParseQuotedCommandOf(req: Inspect)
    ensures ParseQuotedCommand(QuotedCommandFor(req)) == Some(req)
  {
    var tail := TlsPart(req.verifyTls) + Scheme + Repr(req.image);
    ParseTailOf(req);
    if req.creds.None? {
      ParseNoCreds(req);
    } else {
      var (u, p) := req.creds.value;
      assert QuotedCommandFor(req) == Prefix + QuotedCredsPart(req.creds) + tail;
      ParseQuotedCreds(u, p, tail);
    }
  }

  /** So different requests never share a quoted command. */
  lemma QuotedCommandInjective(r1: Inspect, r2: Inspect)
    requires QuotedCommandFor(r1) == QuotedCommandFor(r2)
    ensures r1 == r2
  {
    ParseQuotedCommandOf(r1);
    ParseQuotedCommandOf(r2);
  }

  /* ---- skopeo's answer ---- */

  /** `_TRANSLATION_TABLE`: skopeo's keys to the API's snake case. */
  const TranslationTable: map<string, string> := map[
    "Name" := "name",
    "Tag" := "tag",
    "Digest" := "digest",
    "RepoTags" := "repo_tags",
    "Created" := "created",
    "DockerVersion" := "docker_version",
    "Labels" := "labels",
    "Architecture" := "architecture",
    "Os" := "os",
    "Layers" := "layers"]

  /** The table read backwards. */
  const ReverseTable: map<string, string> := map[
    "name" := "Name",
    "tag" := "Tag",
    "digest" := "Digest",
    "repo_tags" := "RepoTags",
    "created" := "Created",
    "docker_version" := "DockerVersion",
    "labels" := "Labels",
    "architecture" := "Architecture",
    "os" := "Os",
    "layers" := "Layers"]

  lemma TablesInverse()
    ensures forall k :: k in TranslationTable ==> ReverseTable[TranslationTable[k]] == k
    ensures forall t :: t in ReverseTable ==> TranslationTable[ReverseTable[t]] == t
  {
  }

  /** `result_dict[_TRANSLATION_TABLE[key]] = value` for every key of
      skopeo's JSON output: an unknown key raises KeyError, output that is
      not an object has no `items`. */
  function TranslateKeys(stdout: Value): (r: Outcome<Value>)
    ensures !r.Failure?
    ensures r.Success? <==> stdout.Object? && stdout.fields.Keys <= TranslationTable.Keys
    ensures r.Raised? && stdout.Object? ==> r.exc == KeyError
    ensures r.Success? ==>
      && r.value.Object?
      && r.value.fields.Keys == (set k | k in stdout.fields :: TranslationTable[k])
      && (forall k :: k in stdout.fields ==> r.value.fields[TranslationTable[k]] == stdout.fields[k])
  {
    if !stdout.Object? then Raised(AttributeError)
    else if !(stdout.fields.Keys <= TranslationTable.Keys) then Raised(KeyError)
    else
      TablesInverse();
      var out := map t | t in ReverseTable && ReverseTable[t] in stdout.fields :: stdout.fields[ReverseTable[t]];
      assert forall k :: k in stdout.fields ==> TranslationTable[k] in out;
      Success(Object(out))
  }

  /** Renaming loses nothing: reading the snake-case keys back through the
      table gives skopeo's output again. */
  lemma TranslateKeysRoundTrip(stdout: Value)
    requires stdout.Object? && stdout.fields.Keys <= TranslationTable.Keys
    ensures var out := TranslateKeys(stdout).value.fields;
      (map t | t in out :: ReverseTable[t] := out[t]) == stdout.fields
  {
    TablesInverse();
  }

  const ManifestUnknownText := "manifest unknown"
  const AuthRequiredText := "unauthorized: authentication required"
  const UnknownAuthorityText := "x509: certificate signed by unknown authority"

  const ManifestUnknownMessage := "Unknown manifest for the given image"
  const AuthRequiredMessage := "There is required authentication in order to pull image and image details"
  const UnknownAuthorityMessage :=
    "There was an error with x509 certification check: certificate signed by unknown authority"
  const GenericMessage :=
    "There was an error when extracting image information, please contact administrator for more details"

  /** The error raised for skopeo's error output, first match wins. */
  function ClassifyFailure(stderr: string): (e: ImageError)
    ensures e.kind == ManifestUnknown <==> Contains(stderr, ManifestUnknownText)
    ensures e.kind == AuthenticationRequired <==>
      && !Contains(stderr, ManifestUnknownText)
      && (Contains(stderr, AuthRequiredText) || Contains(stderr, UnknownAuthorityText))
    ensures e.kind == Generic <==>
      && !Contains(stderr, ManifestUnknownText)
      && !Contains(stderr, AuthRequiredText)
      && !Contains(stderr, UnknownAuthorityText)
    ensures e.kind != BadRequest && e.kind != InvalidCredentials
  {
    if Contains(stderr, ManifestUnknownText) then ImageError(ManifestUnknown, ManifestUnknownMessage)
    else if Contains(stderr, AuthRequiredText) then ImageError(AuthenticationRequired, AuthRequiredMessage)
    else if Contains(stderr, UnknownAuthorityText) then ImageError(AuthenticationRequired, UnknownAuthorityMessage)
    else ImageError(Generic, GenericMessage)
  }

  /** `get_image_metadata(image_name, registry_user=..., registry_password=...,
      verify_tls=...)`, with `run` standing for `run_command`. */
  function GetImageMetadata(image: string, user: Option<string>, password: Option<string>, verifyTls: bool,
                            run: string -> CommandResult): (r: Outcome<Value>)
    ensures BuildCommand(image, user, password, verifyTls).Failure? ==>
      r == Failure(ImageError(BadRequest, MissingCredentialMessage))
    ensures BuildCommand(image, user, password, verifyTls).Success? ==>
      var res := run(BuildCommand(image, user, password, verifyTls).value);
      && (res.returnCode == 0 ==> r == TranslateKeys(res.stdout))
      && (res.returnCode != 0 ==> r == Failure(ClassifyFailure(res.stderr)))
  {
    match BuildCommand(image, user, password, verifyTls)
    case Failure(e) => Failure(e)
    case Raised(e) => Raised(e)
    case Success(cmd) =>
      var res := run(cmd);
      if res.returnCode == 0 then TranslateKeys(res.stdout)
      else Failure(ClassifyFailure(res.stderr))
  }

  /** One credential without the other is refused before any command runs:
      the answer is the same whatever running a command would do. */
  lemma CredentialCheckFirst(image: string, user: Option<string>, password: Option<string>, verifyTls: bool,
                             run1: string -> CommandResult, run2: string -> CommandResult)
    requires TruthyStr(user) != TruthyStr(password)
    ensures GetImageMetadata(image, user, password, verifyTls, run1)
         == GetImageMetadata(image, user, password, verifyTls, run2)
    ensures GetImageMetadata(image, user, password, verifyTls, run1).Failure?
  {
  }

  /** The HTTP status `_do_get_image_metadata` gives each error. */
  function StatusFor(kind: ImageErrorKind): (status: int)
    ensures status in {400, 401, 403}
    ensures status == 401 <==> kind == AuthenticationRequired
    ensures status == 403 <==> kind == InvalidCredentials
  {
    match kind
    case BadRequest => 400
    case InvalidCredentials => 403
    case ManifestUnknown => 400
    case AuthenticationRequired => 401
    case Generic => 400
  }

  /** `_do_get_image_metadata(...)`: the metadata with 200, or the error
      message with the request's local variables (credentials included) and
      the error's status; other exceptions propagate. */
  function DoGetImageMetadata(image: string, user: Option<string>, password: Option<string>, verifyTls: bool,
                              run: string -> CommandResult): (r: Result<Reply>)
    ensures r.Ok? ==> r.value.status in {200, 400, 401, 403}
  {
    match GetImageMetadata(image, user, password, verifyTls, run)
    case Success(metadata) => Ok(Reply(metadata, 200))
    case Raised(e) => Raise(e)
    case Failure(err) =>
      var status := StatusFor(err.kind);
      var locals := Object(map[
        "image" := Str(image),
        "registry_user" := OptStr(user),
        "registry_password" := OptStr(password),
        "verify_tls" := Bool(verifyTls),
        "status_code" := Num(status),
        "error_str" := Str(err.message)]);
      Ok(Reply(Object(map["error" := Str(err.message), "parameters" := locals]), status))
  }

  /** The wrapper answers 200 exactly when the inspection succeeded, and
      otherwise with the status of the inspection's error. */
  lemma MetadataStatus(image: string, user: Option<string>, password: Option<string>, verifyTls: bool,
                       run: string -> CommandResult)
    ensures var m := GetImageMetadata(image, user, password, verifyTls, run);
      var r := DoGetImageMetadata(image, user, password, verifyTls, run);
      && (r.Ok? <==> !m.Raised?)
      && (m.Success? ==> r.value == Reply(m.value, 200))
      && (m.Failure? ==> r.value.status == StatusFor(m.error.kind)
                         && HasField(r.value.body, "error", Str(m.error.message)))
  {
  }
}
