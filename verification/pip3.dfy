/** The pip build-log parser of thoth_user_api/parsing/handlers/pip3.py:
    it reads the lines pip prints while installing and reports, per
    package, the version asked for, where the requirement came from, the
    artifact downloaded and the version finally installed. The regular
    expressions that recognise a line are parameters (`Patterns`). */
module Pip3 {
  import opened Common

  /** A requirement: a package and the version specifier written after it. */
  datatype Spec = Spec(package: string, versionSpecified: Option<string>)

  /** A dictionary entry that may be missing, hold `None`, or hold a value. */
  datatype Slot<+T> = Absent | NoneValue | Given(value: T)

  datatype Artifact = Artifact(name: string, size: Option<string>)

  /** The dictionary reported for one package. */
  datatype Dependency = Dependency(
    package: string,
    versionSpecified: Option<string>,
    versionInstalled: Option<string>,
    alreadySatisfied: Option<string>,
    from: Slot<seq<Spec>>,
    artifact: Slot<Artifact>)

  /** The line classifiers: escape-sequence removal and the groups of the
      `Collecting ... (from ...)`, `Collecting ...`, `Requirement already
      satisfied: ... in ... (from ...)`, `Collecting ... from ...` and
      `  Downloading ...( (size))` patterns, each `None` when the line does
      not match as a whole. */
  datatype Patterns = Patterns(
    removeEscapes: string -> string,
    collectingFrom: string -> Option<(string, string)>,
    collecting: string -> Option<string>,
    alreadySatisfied: string -> Option<(string, string, string)>,
    collectingRemote: string -> Option<string>,
    downloading: string -> Option<(string, Option<string>)>)

  /** The version specifier operators of PEP 440, section "Version
      specifiers", in the order they are tried. */
  const Operators: seq<string> := ["~=", "!=", "===", "==", "<=", ">=", ">", "<"]

  /** Some operator of `ops` starts at position `i` of `s`. */
  predicate OperatorAt(s: string, ops: seq<string>, i: int) {
    exists k :: 0 <= k < |ops| && OccursAt(s, ops[k], i)
  }

  /** The smallest position at which one of `ops` occurs, trying them in
      order and keeping the first one found at the smallest position. */
  function EarliestOperator(s: string, ops: seq<string>): (r: Option<nat>)
    ensures r.Some? ==> OperatorAt(s, ops, r.value)
    ensures r.Some? ==> forall j :: 0 <= j < r.value ==> !OperatorAt(s, ops, j)
    ensures r.None? ==> forall j :: !OperatorAt(s, ops, j)
  {
    if ops == [] then None
    else
      var first := Find(s, ops[0]);
      var rest := EarliestOperator(s, ops[1..]);
      assert forall j :: OperatorAt(s, ops, j) <==> OccursAt(s, ops[0], j) || OperatorAt(s, ops[1..], j) by {
        forall j ensures OperatorAt(s, ops, j) <==> OccursAt(s, ops[0], j) || OperatorAt(s, ops[1..], j) {
          if OperatorAt(s, ops, j) && !OccursAt(s, ops[0], j) {
            var k :| 0 <= k < |ops| && OccursAt(s, ops[k], j);
            assert ops[1..][k - 1] == ops[k];
          }
          if OperatorAt(s, ops[1..], j) {
            var k :| 0 <= k < |ops[1..]| && OccursAt(s, ops[1..][k], j);
            assert ops[k + 1] == ops[1..][k];
          }
        }
      }
      if first.None? then rest
      else if rest.None? || first.value <= rest.value then first
      else rest
  }

  /** `_do_parse_package(package_specifier)`: a `git+` URL is split at its
      last `@` into the package and the revision (`master` when there is
      none); anything else at the earliest operator, unless there is none
      or it starts the string. */
  function DoParsePackage(spec: string): (r: Spec)
    ensures StartsWith(spec, "git+") && '@' !in spec ==> r == Spec(spec, Some("master"))
    ensures StartsWith(spec, "git+") && '@' in spec ==>
      r.versionSpecified.Some? && r.package + ['@'] + r.versionSpecified.value == spec && '@' !in r.versionSpecified.value
    ensures !StartsWith(spec, "git+") && r.versionSpecified.Some? ==>
      && r.package + r.versionSpecified.value == spec
      && |r.package| > 0
      && OperatorAt(spec, Operators, |r.package|)
      && forall j :: 0 <= j < |r.package| ==> !OperatorAt(spec, Operators, j)
    ensures !StartsWith(spec, "git+") ==>
      (r.versionSpecified.None? <==> OperatorAt(spec, Operators, 0) || forall j :: !OperatorAt(spec, Operators, j))
    ensures !StartsWith(spec, "git+") && r.versionSpecified.None? ==> r.package == spec
  {
    if StartsWith(spec, "git+") then
      var parts := RSplitOnce(spec, '@');
      if |parts| == 2 then Spec(parts[0], Some(parts[1])) else Spec(spec, Some("master"))
    else
      match EarliestOperator(spec, Operators)
      case Some(i) =>
        if i != 0 then
          assert i <= |spec| by { assert OperatorAt(spec, Operators, i); }
          assert spec[..i] + spec[i..] == spec;
          Spec(spec[..i], Some(spec[i..]))
        else Spec(spec, None)
      case None => Spec(spec, None)
  }

  /** `_parse_package(spec)`: the package's dictionary, not yet installed. */
  function ParsePackage(spec: string): (d: Dependency)
    ensures d.versionInstalled.None? && d.alreadySatisfied.None?
    ensures Spec(d.package, d.versionSpecified) == DoParsePackage(spec)
  {
    var s := DoParsePackage(spec);
    Dependency(s.package, s.versionSpecified, None, None, Absent, Absent)
  }

  /** `_parse_package(spec, is_from=True)`: one requirement per `->`
      separated segment, in order. */
  function ParseFrom(spec: string): (r: seq<Spec>)
    ensures |r| == |Split(spec, "->")| >= 1
    ensures forall i :: 0 <= i < |r| ==> r[i] == DoParsePackage(Split(spec, "->")[i])
  {
    var parts := Split(spec, "->");
    seq(|parts|, i requires 0 <= i < |parts| => DoParsePackage(parts[i]))
  }

  /** `s[2:-1]` */
  function TrimSize(s: string): string {
    if |s| >= 3 then s[2..|s| - 1] else ""
  }

  /** `_parse_artifact(line)`: the artifact's name and its size without the
      leading ` (` and the closing `)`. */
  function ParseArtifact(p: Patterns, line: string): (r: Slot<Artifact>)
    ensures p.downloading(line).None? <==> r == NoneValue
    ensures p.downloading(line).Some? ==> r.Given? && r.value.name == p.downloading(line).value.0
    ensures p.downloading(line).Some? && p.downloading(line).value.1.Some? ==>
      forall x :: p.downloading(line).value.1.value == " (" + x + ")" ==> r.value.size == Some(x)
    ensures p.downloading(line).Some? && (p.downloading(line).value.1 == None || p.downloading(line).value.1 == Some("")) ==>
      r.value.size == None
  {
    match p.downloading(line)
    case None => NoneValue
    case Some((name, size)) =>
      Given(Artifact(name, if size.Some? && size.value != "" then Some(TrimSize(size.value)) else None))
  }

  /** `_check_entry(result, package_name, package_version)`: the installed
      version is recorded on exactly the entries of that package. */
  function CheckEntry(result: seq<Dependency>, name: string, version: string): (r: seq<Dependency>)
    ensures |r| == |result|
    ensures forall i :: 0 <= i < |r| && result[i].package == name ==>
      r[i] == result[i].(versionInstalled := Some(version))
    ensures forall i :: 0 <= i < |r| && result[i].package != name ==> r[i] == result[i]
  {
    seq(|result|, i requires 0 <= i < |result| =>
      if result[i].package == name then result[i].(versionInstalled := Some(version)) else result[i])
  }

  /** The packages of the entries, in order. */
  function Packages(result: seq<Dependency>): (r: seq<string>)
    ensures |r| == |result| && forall i :: 0 <= i < |r| ==> r[i] == result[i].package
  {
    seq(|result|, i requires 0 <= i < |result| => result[i].package)
  }

  /** The tokens of `Successfully installed ...`, each split at its last
      `-` into package and version; a token without `-` cannot be unpacked
      into two names. */
  function Installed(result: seq<Dependency>, tokens: seq<string>): (r: Result<seq<Dependency>>)
    ensures r.Ok? <==> forall i :: 0 <= i < |tokens| ==> '-' in tokens[i]
    ensures r.Raise? ==> r.exc == ValueError
    ensures r.Ok? ==> Packages(r.value) == Packages(result)
    decreases |tokens|
  {
    if tokens == [] then Ok(result)
    else
      var parts := RSplitOnce(tokens[0], '-');
      if |parts| != 2 then Raise(ValueError)
      else
        var next := CheckEntry(result, parts[0], parts[1]);
        assert Packages(next) == Packages(result);
        var r := Installed(next, tokens[1..]);
        assert forall i :: 1 <= i < |tokens| ==> tokens[i] == tokens[1..][i - 1];
        r
  }

  const InstalledPrefix := "Successfully installed "

  /** The dictionary of a `Collecting` line, its artifact read from the
      next line, which must exist. */
  function Collected(p: Patterns, lines: seq<string>, index: nat, package: string, from: Slot<seq<Spec>>)
    : (r: Result<Dependency>)
    requires index < |lines|
    ensures r.Raise? <==> index + 1 == |lines|
    ensures r.Raise? ==> r.exc == IndexError
    ensures r.Ok? ==> r.value.package == DoParsePackage(package).package && r.value.from == from
  {
    if index + 1 >= |lines| then Raise(IndexError)
    else Ok(ParsePackage(package).(from := from, artifact := ParseArtifact(p, lines[index + 1])))
  }

  /** The entries after one line of the log: a `Collecting` line adds its
      package, an `already satisfied` line adds its package (and may also be
      a remote `Collecting` line, adding another), a `Successfully
      installed` line records installed versions; anything else is skipped.
      Earlier entries keep their package and their order. */
  function Step(p: Patterns, lines: seq<string>, index: nat, result: seq<Dependency>): (r: Result<seq<Dependency>>)
    requires index < |lines|
    ensures r.Ok? ==> |r.value| >= |result| && Packages(r.value)[..|result|] == Packages(result)
  {
    var line := p.removeEscapes(lines[index]);
    if p.collectingFrom(line).Some? then
      var (package, from) := p.collectingFrom(line).value;
      Append(result, Collected(p, lines, index, package, Given(ParseFrom(from))))
    else if p.collecting(line).Some? then
      Append(result, Collected(p, lines, index, p.collecting(line).value, NoneValue))
    else
      var result :=
        if p.alreadySatisfied(line).Some? then
          var (package, location, from) := p.alreadySatisfied(line).value;
          result + [ParsePackage(package).(from := Given(ParseFrom(from)), alreadySatisfied := Some(location))]
        else result;
      assert Packages(result)[..|result|] == Packages(result);
      if p.collectingRemote(line).Some? then
        Append(result, Collected(p, lines, index, p.collectingRemote(line).value, Absent))
      else if StartsWith(line, InstalledPrefix) then Installed(result, Split(line[|InstalledPrefix|..], " "))
      else Ok(result)
  }

  /** `result.append(d)` once `d` is built. */
  function Append(result: seq<Dependency>, d: Result<Dependency>): (r: Result<seq<Dependency>>)
    ensures r.Ok? <==> d.Ok?
    ensures r.Ok? ==> r.value == result + [d.value] && Packages(r.value)[..|result|] == Packages(result)
  {
    match d
    case Raise(e) => Raise(e)
    case Ok(d) =>
      assert Packages(result + [d])[..|result|] == Packages(result);
      Ok(result + [d])
  }

  /** The loop of `run` from line `index` on, with the entries found so
      far; every line advances the index by one. */
  function Scan(p: Patterns, lines: seq<string>, index: nat, result: seq<Dependency>): (r: Result<seq<Dependency>>)
    ensures index >= |lines| ==> r == Ok(result)
    ensures r.Ok? ==> |r.value| >= |result|
    decreases |lines| - index
  {
    if index >= |lines| then Ok(result)
    else
      match Step(p, lines, index, result)
      case Raise(e) => Raise(e)
      case Ok(next) => Scan(p, lines, index + 1, next)
  }

  /** `PIP3().run(input_text)` */
  function Run(p: Patterns, text: string): (r: Result<seq<Dependency>>)
    ensures (forall k :: 0 <= k < |Split(text, "\n")| ==> Unrecognised(p, Split(text, "\n")[k])) ==> r == Ok([])
  {
    var lines := Split(text, "\n");
    if forall k :: 0 <= k < |lines| ==> Unrecognised(p, lines[k]) then
      UnrecognisedSkipped(p, lines, 0, []);
      Scan(p, lines, 0, [])
    else Scan(p, lines, 0, [])
  }

  /** A line that none of the patterns recognises. */
  predicate Unrecognised(p: Patterns, line: string) {
    var l := p.removeEscapes(line);
    && p.collectingFrom(l).None? && p.collecting(l).None? && p.alreadySatisfied(l).None?
    && p.collectingRemote(l).None? && !StartsWith(l, InstalledPrefix)
  }

  /** A log of unrecognised lines adds nothing. */
  lemma {:induction false} UnrecognisedSkipped(p: Patterns, lines: seq<string>, index: nat, result: seq<Dependency>)
    requires forall k :: index <= k < |lines| ==> Unrecognised(p, lines[k])
    ensures Scan(p, lines, index, result) == Ok(result)
    decreases |lines| - index
  {
    if index < |lines| {
      OtherLineSkipped(p, lines, index, result);
      UnrecognisedSkipped(p, lines, index + 1, result);
    }
  }

  /** The loop only appends: the packages found before a line are still
      reported, in the same order, at the end. */
  lemma {:induction false} ScanExtends(p: Patterns, lines: seq<string>, index: nat, result: seq<Dependency>)
    ensures var r := Scan(p, lines, index, result);
      r.Ok? ==> |r.value| >= |result| && Packages(r.value)[..|result|] == Packages(result)
    decreases |lines| - index
  {
    if index < |lines| {
      var s := Step(p, lines, index, result);
      if s.Ok? {
        ScanExtends(p, lines, index + 1, s.value);
        var r := Scan(p, lines, index + 1, s.value);
        if r.Ok? {
          assert Packages(r.value)[..|result|] == Packages(r.value)[..|s.value|][..|result|];
        }
      }
    }
  }

  /** A `Collecting` line with nothing after it has no artifact line to
      read: the parse fails with an index error. */
  lemma CollectingLastLineFails(p: Patterns, lines: seq<string>, result: seq<Dependency>)
    requires |lines| > 0
    requires var line := p.removeEscapes(lines[|lines| - 1]);
      p.collectingFrom(line).Some? || p.collecting(line).Some?
    ensures Scan(p, lines, |lines| - 1, result) == Raise(IndexError)
  {
  }

  /** A line of neither kind is skipped: the entries stay as they are. */
  lemma OtherLineSkipped(p: Patterns, lines: seq<string>, index: nat, result: seq<Dependency>)
    requires index < |lines| && Unrecognised(p, lines[index])
    ensures Scan(p, lines, index, result) == Scan(p, lines, index + 1, result)
  {
  }
}
