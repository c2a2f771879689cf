/** `urllib.parse.urlparse` as `initialize_repo` uses it, following the
    Python 3.9 standard library: tab, carriage return and line feed are
    removed, a scheme is taken off when everything before the first `:`
    is a scheme character, a network location follows `//`, the fragment
    and the query are cut off, and for the schemes that use parameters the
    path loses its last `;` part. */
module Url {
  import opened Common

  datatype Parsed = Parsed(scheme: string, netloc: string, path: string, params: string, query: string,
                           fragment: string)

  /** `urllib.parse.scheme_chars` */
  const SchemeChars: set<char> :=
    set c: char | ('a' <= c <= 'z') || ('A' <= c <= 'Z') || ('0' <= c <= '9') || c in {'+', '-', '.'}

  /** `urllib.parse.uses_params` */
  const UsesParams: seq<string> :=
    ["", "ftp", "hdl", "prospero", "http", "imap", "https", "shttp", "rtsp", "rtspu", "sip", "sips", "mms",
     "sftp", "tel"]

  /** `_UNSAFE_URL_BYTES_TO_REMOVE` */
  const Unsafe: set<char> := {'\t', '\r', '\n'}

  function LowerChar(c: char): char {
    if 'A' <= c <= 'Z' then (c as int + 32) as char else c
  }

  /** `s.lower()` on ASCII letters. */
  function Lower(s: string): (r: string)
    ensures |r| == |s| && forall i :: 0 <= i < |s| ==> r[i] == LowerChar(s[i])
  {
    seq(|s|, i requires 0 <= i < |s| => LowerChar(s[i]))
  }

  /** `s` without the characters of `cs`. */
  function Remove(s: string, cs: set<char>): (r: string)
    ensures forall i :: 0 <= i < |r| ==> r[i] !in cs
    ensures (forall i :: 0 <= i < |s| ==> s[i] !in cs) ==> r == s
  {
    if s == [] then []
    else (if s[0] in cs then [] else [s[0]]) + Remove(s[1..], cs)
  }

  /** The first position at or after `start` that holds a character of
      `cs`, or `|s|` when there is none. */
  function FirstOf(s: string, start: nat, cs: set<char>): (r: nat)
    requires start <= |s|
    ensures start <= r <= |s|
    ensures r < |s| ==> s[r] in cs
    ensures forall j :: start <= j < r ==> s[j] !in cs
    decreases |s| - start
  {
    if start == |s| then |s|
    else if s[start] in cs then start
    else FirstOf(s, start + 1, cs)
  }

  /** `s.split(c, 1)` where `c in s`, or `(s, "")` where it is not. */
  function SplitFirst(s: string, c: char): (r: (string, string))
    ensures c in s ==> r.0 + [c] + r.1 == s && c !in r.0
    ensures c !in s ==> r == (s, "")
  {
    var i := FirstOf(s, 0, {c});
    if i == |s| then (s, "")
    else
      assert s == s[..i] + [c] + s[i + 1..];
      (s[..i], s[i + 1..])
  }

  /** The scheme, lower-cased, and the rest, when every character before
      the first `:` is a scheme character; otherwise no scheme. */
  function SplitScheme(url: string): (r: (string, string))
    ensures r.0 != "" ==> forall i :: 0 <= i < |r.0| ==> LowerChar(r.0[i]) == r.0[i]
    ensures r.0 == "" ==> r.1 == url
  {
    var i := FirstOf(url, 0, {':'});
    if 0 < i < |url| && forall j :: 0 <= j < i ==> url[j] in SchemeChars then
      (Lower(url[..i]), url[i + 1..])
    else ("", url)
  }

  /** `_splitparams(path)`: the parameters start at the first `;` after the
      last `/`. */
  function SplitParams(path: string): (r: (string, string))
    ensures |r.0| <= |path| && r.0 == path[..|r.0|]
  {
    match LastIndexOf(path, '/')
    case Some(k) =>
      var i := FirstOf(path, k, {';'});
      if i == |path| then (path, "") else (path[..i], path[i + 1..])
    case None =>
      var i := FirstOf(path, 0, {';'});
      (path[..i], if i == |path| then "" else path[i + 1..])
  }

  /** `_splitnetloc(url, 2)` after a leading `//`: the network location
      runs up to the first `/`, `?` or `#`. */
  function SplitNetloc(rest: string): (r: (string, string))
    ensures r.0 + r.1 == rest || (|rest| >= 2 && rest[..2] == "//" && "//" + r.0 + r.1 == rest)
  {
    if |rest| >= 2 && rest[..2] == "//" then
      var d := FirstOf(rest, 2, {'/', '?', '#'});
      assert rest == "//" + rest[2..d] + rest[d..];
      (rest[2..d], rest[d..])
    else ("", rest)
  }

  /** A network location with one square bracket but not the other. */
  predicate Unbalanced(netloc: string) {
    ('[' in netloc && ']' !in netloc) || (']' in netloc && '[' !in netloc)
  }

  /** The fragment, the query and the parameters cut off what follows the
      network location. */
  function SplitPath(scheme: string, rest: string): (r: (string, string, string, string))
  {
    var (rest, fragment) := SplitFirst(rest, '#');
    var (path, query) := SplitFirst(rest, '?');
    var (path, params) := if scheme in UsesParams && ';' in path then SplitParams(path) else (path, "");
    (path, params, query, fragment)
  }

  /** `urlparse(url)`: a network location with one square bracket but not
      the other raises `ValueError`. */
  function Parse(url: string): (r: Result<Parsed>)
    ensures r.Raise? <==> Unbalanced(SplitNetloc(SplitScheme(Remove(url, Unsafe)).1).0)
    ensures r.Raise? ==> r.exc == ValueError
  {
    var (scheme, rest) := SplitScheme(Remove(url, Unsafe));
    var (netloc, rest) := SplitNetloc(rest);
    if Unbalanced(netloc) then Raise(ValueError)
    else
      var (path, params, query, fragment) := SplitPath(scheme, rest);
      Ok(Parsed(scheme, netloc, path, params, query, fragment))
  }

  /** A scheme of lower-case scheme characters. */
  predicate PlainScheme(s: string) {
    s != [] && forall i :: 0 <= i < |s| ==> s[i] in SchemeChars && !('A' <= s[i] <= 'Z')
  }

  /** No character of `cs` occurs in `s`. */
  predicate Free(s: string, cs: set<char>) {
    forall i :: 0 <= i < |s| ==> s[i] !in cs
  }

  /** The scheme of `scheme:rest` is split off unchanged. */
  lemma SchemeSplitOff(scheme: string, rest: string)
    requires PlainScheme(scheme)
    ensures SplitScheme(scheme + ":" + rest) == (scheme, rest)
  {
    var url := scheme + ":" + rest;
    assert forall j :: 0 <= j < |scheme| ==> url[j] == scheme[j] && url[j] in SchemeChars;
    assert url[|scheme|] == ':';
    assert FirstOf(url, 0, {':'}) == |scheme|;
    assert url[..|scheme|] == scheme;
    assert Lower(scheme) == scheme;
    assert url[|scheme| + 1..] == rest;
  }

  /** The network location of `//netloc/path` ends where the path starts. */
  lemma NetlocSplitOff(netloc: string, path: string)
    requires Free(netloc, {'/', '?', '#'})
    requires path == [] || path[0] == '/'
    ensures SplitNetloc("//" + netloc + path) == (netloc, path)
  {
    var rest := "//" + netloc + path;
    assert forall j :: 2 <= j < 2 + |netloc| ==> rest[j] == netloc[j - 2];
    assert |path| > 0 ==> rest[2 + |netloc|] == path[0];
    assert FirstOf(rest, 2, {'/', '?', '#'}) == 2 + |netloc|;
    assert rest[..2] == "//";
    assert rest[2..2 + |netloc|] == netloc;
    assert rest[2 + |netloc|..] == path;
  }

  lemma FreeOfChar(s: string, cs: set<char>, c: char)
    requires Free(s, cs) && c in cs
    ensures c !in s
  {
    assert forall k :: 0 <= k < |s| ==> s[k] != c;
  }

  lemma FreeWithin(s: string, cs: set<char>, ds: set<char>)
    requires Free(s, cs) && ds <= cs
    ensures Free(s, ds)
  {
  }

  lemma FreeOfComposed(a: string, b: string, cs: set<char>)
    requires Free(a, cs) && Free(b, cs)
    ensures Free(a + b, cs)
  {
    assert forall i :: |a| <= i < |a + b| ==> (a + b)[i] == b[i - |a|];
  }

  /** What follows the network location, free of delimiters, is all path. */
  lemma PathSplitOff(scheme: string, path: string)
    requires Free(path, {'?', '#', ';'})
    ensures SplitPath(scheme, path) == (path, "", "", "")
  {
    FreeOfChar(path, {'?', '#', ';'}, '#');
    FreeOfChar(path, {'?', '#', ';'}, '?');
    FreeOfChar(path, {'?', '#', ';'}, ';');
  }

  /** Parsing takes apart what `scheme://netloc/path` puts together when
      the network location has no delimiter or bracket and the path no
      query, fragment or parameter delimiter. */
  lemma ParseComposed(scheme: string, netloc: string, path: string)
    requires PlainScheme(scheme)
    requires Free(netloc, {'/', '?', '#', '[', ']'} + Unsafe)
    requires path == [] || path[0] == '/'
    requires Free(path, {'?', '#', ';'} + Unsafe)
    ensures Parse(scheme + "://" + netloc + path) == Ok(Parsed(scheme, netloc, path, "", "", ""))
  {
    var rest := "//" + netloc + path;
    var url := scheme + ":" + rest;
    assert scheme + "://" + netloc + path == url;
    FreeOfComposed(scheme, ":" + "//", Unsafe);
    FreeOfComposed(scheme + ":" + "//", netloc, Unsafe);
    FreeOfComposed(scheme + ":" + "//" + netloc, path, Unsafe);
    assert scheme + ":" + "//" + netloc + path == url;
    assert Remove(url, Unsafe) == url;
    SchemeSplitOff(scheme, rest);
    NetlocSplitOff(netloc, path);
    FreeOfChar(netloc, {'/', '?', '#', '[', ']'} + Unsafe, '[');
    FreeOfChar(netloc, {'/', '?', '#', '[', ']'} + Unsafe, ']');
    assert !Unbalanced(netloc);
    PathSplitOff(scheme, path);
  }
}
