/** The yum build-log handler (`parsing/handlers/yum.py`, present in the
    package twice with the same logic): find yum's installed-package tables
    in a build log and report one record per table row. */
module Yum {
  import opened Common

  /** The width of the rule yum draws above and below its table. */
  const RuleWidth := 80

  /** `line == '=' * 80` */
  predicate IsRule(line: string) {
    |line| == RuleWidth && forall k :: 0 <= k < |line| ==> line[k] == '='
  }

  /** `line.startswith('=' * 80)` */
  predicate StartsWithRule(line: string) {
    |line| >= RuleWidth && forall k :: 0 <= k < RuleWidth ==> line[k] == '='
  }

  /** The column titles of the table. */
  const HeaderItems: seq<string> := ["Package", "Arch", "Version", "Repository", "Size"]

  /** One reported package: the dictionary a table row becomes. */
  datatype Package = Package(
    name: string,
    arch: string,
    version: string,
    epoch: Option<nat>,
    repository: string,
    size: string,
    dependency: bool,
    upgrading: bool)

  // ---------------------------------------------------------------------
  // Tokens of a line built from words

  /** `[item for item in line.split(' ') if item]`: the space-separated
      tokens of a line, runs of spaces acting as one separator. */
  function Tokens(line: string): seq<string> {
    NonEmpty(Split(line, " "))
  }

  /** The non-empty pieces, in order. */
  function NonEmpty(parts: seq<string>): seq<string> {
    if |parts| == 0 then []
    else if parts[0] == "" then NonEmpty(parts[1..])
    else [parts[0]] + NonEmpty(parts[1..])
  }

  /** Splitting at a one-character separator cuts off a first piece that
      does not contain it. */
  lemma SplitCons(a: string, sep: string, b: string)
    requires |sep| == 1 && !Contains(a, sep)
    ensures Split(a + sep + b, sep) == [a] + Split(b, sep)
  {
    var s := a + sep + b;
    assert OccursAt(s, sep, |a|) by { assert s[|a|..|a| + 1] == sep; }
    forall j | 0 <= j < |a|
      ensures !OccursAt(s, sep, j)
    {
      assert s[j..j + 1] == a[j..j + 1];
      assert !OccursAt(a, sep, j);
    }
    assert Find(s, sep) == Some(|a|);
    assert s[..|a|] == a;
    assert s[|a| + 1..] == b;
  }

  /** A piece without the separator splits into itself. */
  lemma SplitSingle(a: string, sep: string)
    requires |sep| == 1 && !Contains(a, sep)
    ensures Split(a, sep) == [a]
  {
  }

  /** `sep.join(parts).split(sep) == parts` when no part holds the
      separator. */
  lemma {:induction false} SplitJoin(parts: seq<string>, sep: string)
    requires |sep| == 1 && |parts| >= 1
    requires forall i :: 0 <= i < |parts| ==> !Contains(parts[i], sep)
    ensures Split(Join(parts, sep), sep) == parts
    decreases |parts|
  {
    if |parts| == 1 {
      SplitSingle(parts[0], sep);
    } else {
      SplitJoin(parts[1..], sep);
      SplitCons(parts[0], sep, Join(parts[1..], sep));
    }
  }

  /** Dropping empty pieces leaves a sequence of non-empty words alone. */
  lemma {:induction false} NonEmptyKeeps(words: seq<string>)
    requires forall i :: 0 <= i < |words| ==> words[i] != ""
    ensures NonEmpty(words) == words
  {
    if |words| > 0 {
      NonEmptyKeeps(words[1..]);
    }
  }

  /** Words that are non-empty and free of spaces. */
  predicate Words(words: seq<string>) {
    forall i :: 0 <= i < |words| ==> words[i] != "" && !Contains(words[i], " ")
  }

  /** A line of words joined by single spaces has exactly those words as
      its tokens; so has the same line indented by one space. */
  lemma TokensOfJoin(words: seq<string>)
    requires Words(words)
    ensures Tokens(Join(words, " ")) == words
    ensures Tokens(" " + Join(words, " ")) == words
  {
    var line := Join(words, " ");
    if |words| == 0 {
      assert Split("", " ") == [""] by { SplitSingle("", " "); }
      SplitCons("", " ", "");
    } else {
      SplitJoin(words, " ");
      NonEmptyKeeps(words);
      assert Tokens(line) == words;
      SplitIndented(line);
      NonEmptySkipsEmpty(Split(line, " "));
    }
  }

  /** One leading space splits off an empty first piece. */
  lemma SplitIndented(line: string)
    ensures Split(" " + line, " ") == [""] + Split(line, " ")
  {
    assert "" + " " + line == " " + line;
    SplitCons("", " ", line);
  }

  /** An empty first piece is dropped. */
  lemma NonEmptySkipsEmpty(parts: seq<string>)
    ensures NonEmpty([""] + parts) == NonEmpty(parts)
  {
    assert ([""] + parts)[1..] == parts;
  }

  lemma HeaderWords()
    ensures Words(HeaderItems)
  {
    forall i | 0 <= i < |HeaderItems|
      ensures !Contains(HeaderItems[i], " ")
    {
      NotContainsChar(HeaderItems[i], ' ');
    }
  }

  // ---------------------------------------------------------------------
  // The heading

  /** `_parse_yum_table_heading(lines, start)`: 1 when the line at `start`
      holds the five column titles, 2 when it and the next line hold them
      between them, 0 otherwise; reading past the end raises. */
  function Heading(lines: seq<string>, start: nat): (r: Result<nat>)
    ensures r.Ok? ==> r.value <= 2
    ensures r.Raise? ==> r.exc == IndexError
    ensures r == Raise(IndexError) <==>
      start >= |lines| || (Tokens(lines[start]) != HeaderItems && start + 1 >= |lines|)
    ensures r == Ok(1) <==> start < |lines| && Tokens(lines[start]) == HeaderItems
  {
    if start >= |lines| then Raise(IndexError)
    else if Tokens(lines[start]) == HeaderItems then Ok(1)
    else if start + 1 >= |lines| then Raise(IndexError)
    else if Tokens(lines[start]) + Tokens(lines[start + 1]) == HeaderItems then Ok(2)
    else Ok(0)
  }

  /** The titles on one line, however yum spaces them, are a one-line
      heading. */
  lemma HeadingOneLine(lines: seq<string>, start: nat)
    requires start < |lines| && lines[start] == Join(HeaderItems, " ")
    ensures Heading(lines, start) == Ok(1)
  {
    HeaderWords();
    TokensOfJoin(HeaderItems);
  }

  /** The titles split over two lines at any column are a two-line
      heading. */
  lemma HeadingTwoLines(lines: seq<string>, start: nat, k: nat)
    requires start + 1 < |lines| && k < |HeaderItems|
    requires lines[start] == Join(HeaderItems[..k], " ")
    requires lines[start + 1] == Join(HeaderItems[k..], " ")
    ensures Heading(lines, start) == Ok(2)
  {
    var first, second := HeaderItems[..k], HeaderItems[k..];
    HeaderHalves(k);
    TokensOfJoin(first);
    TokensOfJoin(second);
    assert Tokens(lines[start]) == first && Tokens(lines[start + 1]) == second;
    HeadingOfTokens(lines, start);
  }

  /** Both parts of the titles cut at `k` are words, and the first part
      alone is not the whole heading. */
  lemma HeaderHalves(k: nat)
    requires k < |HeaderItems|
    ensures Words(HeaderItems[..k]) && Words(HeaderItems[k..])
    ensures HeaderItems[..k] + HeaderItems[k..] == HeaderItems
    ensures HeaderItems[..k] != HeaderItems
  {
    HeaderWords();
    assert |HeaderItems[..k]| != |HeaderItems|;
  }

  /** Titles that only the next line completes make a two-line heading. */
  lemma HeadingOfTokens(lines: seq<string>, start: nat)
    requires start + 1 < |lines| && Tokens(lines[start]) != HeaderItems
    requires Tokens(lines[start]) + Tokens(lines[start + 1]) == HeaderItems
    ensures Heading(lines, start) == Ok(2)
  {
  }

  // ---------------------------------------------------------------------
  // Epoch and version

  predicate IsDigit(c: char) {
    '0' <= c <= '9'
  }

  predicate AllDigits(s: string) {
    forall i :: 0 <= i < |s| ==> IsDigit(s[i])
  }

  /** `int(ds)` for a string of ASCII digits. */
  function Decimal(ds: string): nat
    requires AllDigits(ds)
  {
    if |ds| == 0 then 0
    else Decimal(ds[..|ds| - 1]) * 10 + (ds[|ds| - 1] as int - '0' as int)
  }

  /** The decimal numeral of `n`, for stating what `Decimal` inverts. */
  function Numeral(n: nat): (s: string)
    ensures |s| >= 1 && AllDigits(s)
  {
    var d := ['0' + (n % 10) as char];
    if n < 10 then d else Numeral(n / 10) + d
  }

  lemma {:induction false} DecimalOfNumeral(n: nat)
    ensures Decimal(Numeral(n)) == n
  {
    var s := Numeral(n);
    assert s[..|s| - 1] == (if n < 10 then "" else Numeral(n / 10));
    if n >= 10 {
      DecimalOfNumeral(n / 10);
    }
  }

  /** `_RE_EPOCH_VERSION.fullmatch(version)` with `([0-9]+):(.+)`: digits up
      to the first colon give the epoch and what follows (at least one
      character, no line break) the version; otherwise there is no epoch
      and the version stays as it is. */
  function EpochVersion(v: string): (r: (Option<nat>, string))
    ensures r.0.None? ==> r.1 == v
    ensures r.0.Some? ==> exists i :: 0 < i < |v| && v[i] == ':' && r.1 == v[i + 1..] && r.1 != ""
  {
    match Find(v, ":")
    case None => (None, v)
    case Some(i) =>
      if 0 < i && AllDigits(v[..i]) && i + 1 < |v| && !Contains(v[i + 1..], "\n") then
        (Some(Decimal(v[..i])), v[i + 1..])
      else (None, v)
  }

  /** `"<epoch>:<version>"` splits back into its parts; a version without a
      colon has no epoch. */
  lemma EpochRoundTrip(n: nat, rest: string)
    requires rest != "" && !Contains(rest, "\n")
    ensures EpochVersion(Numeral(n) + ":" + rest) == (Some(n), rest)
  {
    var d := Numeral(n);
    var v := d + ":" + rest;
    assert OccursAt(v, ":", |d|) by { assert v[|d|..|d| + 1] == ":"; }
    forall j | 0 <= j < |d|
      ensures !OccursAt(v, ":", j)
    {
      assert v[j..j + 1][0] == d[j];
    }
    assert Find(v, ":") == Some(|d|);
    assert v[..|d|] == d && v[|d| + 1..] == rest;
    DecimalOfNumeral(n);
  }

  lemma NoColonNoEpoch(v: string)
    requires forall i :: 0 <= i < |v| ==> v[i] != ':'
    ensures EpochVersion(v) == (None, v)
  {
    NotContainsChar(v, ':');
  }

  // ---------------------------------------------------------------------
  // Table rows

  /** The record for a row's six tokens; the size is the last two joined
      (yum writes `1.5 M`). */
  function Row(items: seq<string>, dependency: bool, upgrading: bool): Package
    requires |items| == 6
  {
    var ev := EpochVersion(items[2]);
    Package(items[0], items[1], ev.1, ev.0, items[3], items[4] + items[5], dependency, upgrading)
  }

  predicate IsRow(line: string) {
    StartsWith(line, " ") && |Tokens(line)| == 6
  }

  predicate DependencyHeading(line: string) {
    StartsWith(line, "Installing dependencies:") || StartsWith(line, "Installing for dependencies:")
  }

  /** The closing rule is neither a row nor a dependency heading. */
  lemma RuleIsPlain(line: string)
    ensures IsRule(line) ==> !StartsWith(line, " ") && !IsRow(line) && !DependencyHeading(line)
    ensures IsRule(line) ==> StartsWithRule(line)
  {
    if StartsWith(line, " ") {
      StartsWithFirst(line, " ");
    }
    if StartsWith(line, "Installing dependencies:") {
      StartsWithFirst(line, "Installing dependencies:");
    }
    if StartsWith(line, "Installing for dependencies:") {
      StartsWithFirst(line, "Installing for dependencies:");
    }
  }

  /** The loop of `_parse_yum_table` from line `i` on: the rows it reports
      and the index it stops at. */
  function Rows(lines: seq<string>, i: nat, dependency: bool, upgrading: bool): (r: (seq<Package>, nat))
    requires i <= |lines|
    ensures i <= r.1 <= |lines|
    ensures |r.0| <= r.1 - i
    decreases |lines| - i
  {
    if i == |lines| then ([], i)
    else
      var line := lines[i];
      if IsRow(line) then
        var rest := Rows(lines, i + 1, dependency, upgrading);
        ([Row(Tokens(line), dependency, upgrading)] + rest.0, rest.1)
      else if DependencyHeading(line) then Rows(lines, i + 1, true, upgrading)
      else if IsRule(line) then ([], i + 1)
      else Rows(lines, i + 1, dependency, upgrading)
  }

  /** A row line starts with a space, a dependency heading with `I`: no
      line is both. */
  lemma RowIsNotHeading(line: string)
    ensures IsRow(line) ==> !DependencyHeading(line)
  {
    if StartsWith(line, " ") {
      StartsWithFirst(line, " ");
    }
    if StartsWith(line, "Installing dependencies:") {
      StartsWithFirst(line, "Installing dependencies:");
    }
    if StartsWith(line, "Installing for dependencies:") {
      StartsWithFirst(line, "Installing for dependencies:");
    }
  }

  /** The dependency flag after reading `line`. */
  function AfterLine(dependency: bool, line: string): (d: bool)
    ensures d <==> dependency || DependencyHeading(line)
  {
    dependency || DependencyHeading(line)
  }

  /** One line of the loop: a line other than the closing rule adds its row
      (if it is one) and the loop goes on with the next line. */
  lemma RowsStep(lines: seq<string>, i: nat, dependency: bool, upgrading: bool)
    requires i < |lines| && !IsRule(lines[i])
    ensures var r := Rows(lines, i, dependency, upgrading);
      var next := Rows(lines, i + 1, AfterLine(dependency, lines[i]), upgrading);
      && r.1 == next.1
      && r.0 == (if IsRow(lines[i]) then [Row(Tokens(lines[i]), dependency, upgrading)] else []) + next.0
  {
    RowIsNotHeading(lines[i]);
  }

  /** The closing rule ends the loop. */
  lemma RowsAtRule(lines: seq<string>, i: nat, dependency: bool, upgrading: bool)
    requires i < |lines| && IsRule(lines[i])
    ensures Rows(lines, i, dependency, upgrading) == ([], i + 1)
  {
    RuleIsPlain(lines[i]);
  }

  /** The rows end one past the first closing rule, or at the end of the
      input when there is none. */
  lemma {:induction false} RowsEnd(lines: seq<string>, i: nat, dependency: bool, upgrading: bool)
    requires i <= |lines|
    ensures var r := Rows(lines, i, dependency, upgrading);
      && (r.1 == |lines| || (i < r.1 && IsRule(lines[r.1 - 1])))
      && forall j :: i <= j < r.1 - 1 ==> !IsRule(lines[j])
    decreases |lines| - i
  {
    if i < |lines| && !IsRule(lines[i]) {
      RowsStep(lines, i, dependency, upgrading);
      RowsEnd(lines, i + 1, AfterLine(dependency, lines[i]), upgrading);
    } else if i < |lines| {
      RowsAtRule(lines, i, dependency, upgrading);
    }
  }

  /** Every row after a dependency heading is a dependency; without such a
      heading no row is. */
  lemma {:induction false} RowsDependency(lines: seq<string>, i: nat, dependency: bool, upgrading: bool)
    requires i <= |lines|
    ensures var r := Rows(lines, i, dependency, upgrading);
      && (dependency ==> forall k :: 0 <= k < |r.0| ==> r.0[k].dependency)
      && ((forall j :: i <= j < |lines| ==> !DependencyHeading(lines[j])) ==>
            forall k :: 0 <= k < |r.0| ==> r.0[k].dependency == dependency)
    decreases |lines| - i
  {
    if i < |lines| && !IsRule(lines[i]) {
      RowsStep(lines, i, dependency, upgrading);
      RowsDependency(lines, i + 1, AfterLine(dependency, lines[i]), upgrading);
    } else if i < |lines| {
      RowsAtRule(lines, i, dependency, upgrading);
    }
  }

  /** Every row of a table carries the table's `upgrading`. */
  lemma {:induction false} RowsUpgrading(lines: seq<string>, i: nat, dependency: bool, upgrading: bool)
    requires i <= |lines|
    ensures var r := Rows(lines, i, dependency, upgrading);
      forall k :: 0 <= k < |r.0| ==> r.0[k].upgrading == upgrading
    decreases |lines| - i
  {
    if i < |lines| && !IsRule(lines[i]) {
      RowsStep(lines, i, dependency, upgrading);
      RowsUpgrading(lines, i + 1, AfterLine(dependency, lines[i]), upgrading);
    } else if i < |lines| {
      RowsAtRule(lines, i, dependency, upgrading);
    }
  }

  /** A row line of six words becomes the record of those words. */
  lemma RowOfWords(lines: seq<string>, i: nat, words: seq<string>, dependency: bool, upgrading: bool)
    requires i < |lines| && |words| == 6 && Words(words)
    requires lines[i] == " " + Join(words, " ")
    ensures var r := Rows(lines, i, dependency, upgrading);
      && |r.0| >= 1
      && r.0[0] == Package(words[0], words[1], EpochVersion(words[2]).1, EpochVersion(words[2]).0,
                           words[3], words[4] + words[5], dependency, upgrading)
  {
    TokensOfJoin(words);
  }

  // ---------------------------------------------------------------------
  // A table

  /** `_parse_yum_table(lines, start)` for a rule at `start`: the rows and
      the index one past the table, or `([], 0)` when what follows is not a
      heading, a rule and an `Installing:` or `Upgrading:` line. */
  function ParseTable(lines: seq<string>, start: nat): (r: Result<(seq<Package>, nat)>)
    ensures r.Raise? ==> r.exc == IndexError
    ensures r.Ok? && r.value.1 == 0 ==> r.value.0 == []
    ensures r.Ok? && r.value.1 != 0 ==> start + 4 <= r.value.1 <= |lines|
    ensures start + 1 >= |lines| ==> r == Raise(IndexError)
  {
    match Heading(lines, start + 1)
    case Raise(e) => Raise(e)
    case Ok(offset) => if offset == 0 then Ok(([], 0)) else TableAt(lines, start + offset)
  }

  /** The table whose heading ends at line `s`: the rule and the
      `Installing:` or `Upgrading:` line must follow. */
  function TableAt(lines: seq<string>, s: nat): (r: Result<(seq<Package>, nat)>)
    ensures r.Raise? ==> r.exc == IndexError
    ensures r.Ok? && r.value.1 == 0 ==> r.value.0 == []
    ensures r.Ok? && r.value.1 != 0 ==> s + 3 <= r.value.1 <= |lines|
  {
    if s + 1 >= |lines| then Raise(IndexError)
    else if !IsRule(lines[s + 1]) then Ok(([], 0))
    else if s + 2 >= |lines| then Raise(IndexError)
    else if StartsWith(lines[s + 2], "Installing:") then Ok(Rows(lines, s + 3, false, false))
    else if StartsWith(lines[s + 2], "Upgrading:") then Ok(Rows(lines, s + 3, false, true))
    else Ok(([], 0))
  }

  /** Once the heading is recognised, what follows it decides the table. */
  lemma ParseTableAt(lines: seq<string>, start: nat, offset: nat)
    requires Heading(lines, start + 1) == Ok(offset) && offset > 0
    ensures ParseTable(lines, start) == TableAt(lines, start + offset)
  {
  }

  /** A table is read only when the heading is followed by a rule and an
      `Installing:` or `Upgrading:` line, which decides `upgrading`. */
  lemma TableShape(lines: seq<string>, s: nat)
    requires s + 2 < |lines|
    ensures !IsRule(lines[s + 1]) ==> TableAt(lines, s) == Ok(([], 0))
    ensures IsRule(lines[s + 1]) && StartsWith(lines[s + 2], "Installing:") ==>
      TableAt(lines, s) == Ok(Rows(lines, s + 3, false, false))
    ensures IsRule(lines[s + 1]) && !StartsWith(lines[s + 2], "Installing:") ==>
      (StartsWith(lines[s + 2], "Upgrading:") ==> TableAt(lines, s) == Ok(Rows(lines, s + 3, false, true)))
      && (!StartsWith(lines[s + 2], "Upgrading:") ==> TableAt(lines, s) == Ok(([], 0)))
  {
  }

  /** A rule on the last line starts a table that reads past the end. */
  lemma RuleOnLastLine(lines: seq<string>)
    requires |lines| > 0
    ensures ParseTable(lines, |lines| - 1) == Raise(IndexError)
  {
  }

  // ---------------------------------------------------------------------
  // The scan

  /** The step after a table: as written, `index += table_end_idx or 1`
      adds the table's absolute end to the index it started at. */
  function NextAsWritten(index: nat, end: nat): (r: nat)
    ensures r > index
    ensures end != 0 ==> r == index + end
  {
    index + (if end == 0 then 1 else end)
  }

  /** Corrected: continue at the table's end, or at the next line when no
      table was read. */
  function Next(index: nat, end: nat): (r: nat)
    requires end == 0 || end > index
    ensures r > index
    ensures end != 0 ==> r == end
  {
    if end == 0 then index + 1 else end
  }

  /** The loop of `run` from `index` on, as written. */
  function ScanAsWritten(lines: seq<string>, index: nat): (r: Result<seq<Package>>)
    ensures r.Raise? ==> r.exc == IndexError
    ensures index >= |lines| ==> r == Ok([])
    decreases |lines| - index
  {
    if index >= |lines| then Ok([])
    else if !StartsWithRule(lines[index]) then ScanAsWritten(lines, index + 1)
    else
      match ParseTable(lines, index)
      case Raise(e) => Raise(e)
      case Ok(table) =>
        match ScanAsWritten(lines, NextAsWritten(index, table.1))
        case Raise(e) => Raise(e)
        case Ok(rest) => Ok(table.0 + rest)
  }

  /** The loop of `run` from `index` on, resuming after each table. */
  function Scan(lines: seq<string>, index: nat): (r: Result<seq<Package>>)
    ensures r.Raise? ==> r.exc == IndexError
    ensures index >= |lines| ==> r == Ok([])
    decreases |lines| - index
  {
    if index >= |lines| then Ok([])
    else if !StartsWithRule(lines[index]) then Scan(lines, index + 1)
    else
      match ParseTable(lines, index)
      case Raise(e) => Raise(e)
      case Ok(table) =>
        match Scan(lines, Next(index, table.1))
        case Raise(e) => Raise(e)
        case Ok(rest) => Ok(table.0 + rest)
  }

  /** `YUM.run(input_text)` as written. */
  function RunAsWritten(text: string): (r: Result<seq<Package>>)
    ensures r.Raise? ==> r.exc == IndexError
    ensures NoRuleBetween(Split(text, "\n"), 0, |Split(text, "\n")|) ==> r == Ok([])
  {
    var lines := Split(text, "\n");
    if NoRuleBetween(lines, 0, |lines|) then
      ScansSkipPlainLines(lines, 0, |lines|);
      ScanAsWritten(lines, 0)
    else ScanAsWritten(lines, 0)
  }

  /** `YUM.run(input_text)`, corrected. */
  function Run(text: string): (r: Result<seq<Package>>)
    ensures r.Raise? ==> r.exc == IndexError
    ensures NoRuleBetween(Split(text, "\n"), 0, |Split(text, "\n")|) ==> r == Ok([])
  {
    var lines := Split(text, "\n");
    if NoRuleBetween(lines, 0, |lines|) then
      ScansSkipPlainLines(lines, 0, |lines|);
      Scan(lines, 0)
    else Scan(lines, 0)
  }

  /** No line in `[i, j)` opens with a rule. */
  predicate NoRuleBetween(lines: seq<string>, i: nat, j: nat) {
    forall k :: i <= k < j && k < |lines| ==> !StartsWithRule(lines[k])
  }

  /** Only lines that open with a rule start a table: the scans pass every
      other line by. */
  lemma {:induction false} ScansSkipPlainLines(lines: seq<string>, i: nat, j: nat)
    requires i <= j <= |lines| && NoRuleBetween(lines, i, j)
    ensures Scan(lines, i) == Scan(lines, j)
    ensures ScanAsWritten(lines, i) == ScanAsWritten(lines, j)
    decreases j - i
  {
    if i < j {
      ScansSkipPlainLines(lines, i + 1, j);
    }
  }

  /** A log whose only rule is on its last line raises `IndexError`. */
  lemma RuleAtEndRaises(lines: seq<string>)
    requires |lines| > 0 && NoRuleBetween(lines, 0, |lines| - 1)
    requires StartsWithRule(lines[|lines| - 1])
    ensures Scan(lines, 0) == Raise(IndexError)
    ensures ScanAsWritten(lines, 0) == Raise(IndexError)
  {
    var last := |lines| - 1;
    ScansSkipPlainLines(lines, 0, last);
    ScanAtLastRule(lines);
    assert Scan(lines, last) == Raise(IndexError);
  }

  /** A rule on the last line opens a table with no heading after it. */
  lemma ScanAtLastRule(lines: seq<string>)
    requires |lines| > 0 && StartsWithRule(lines[|lines| - 1])
    ensures Scan(lines, |lines| - 1) == Raise(IndexError)
    ensures ScanAsWritten(lines, |lines| - 1) == Raise(IndexError)
  {
    RuleOnLastLine(lines);
  }

  /** After a table read from `index` the corrected scan goes on at the
      table's end; the written one at `index` lines past it. */
  lemma ScanResumes(lines: seq<string>, index: nat, pkgs: seq<Package>, end: nat)
    requires index < |lines| && StartsWithRule(lines[index])
    requires ParseTable(lines, index) == Ok((pkgs, end)) && end != 0
    ensures Scan(lines, index).Ok? <==> Scan(lines, end).Ok?
    ensures Scan(lines, end).Ok? ==> Scan(lines, index).value == pkgs + Scan(lines, end).value
    ensures ScanAsWritten(lines, index).Ok? <==> ScanAsWritten(lines, index + end).Ok?
    ensures ScanAsWritten(lines, index + end).Ok? ==>
      ScanAsWritten(lines, index).value == pkgs + ScanAsWritten(lines, index + end).value
  {
  }

  /** A table with a one-line heading and no rows ends one past its
      closing rule. */
  lemma TableOfNoRows(lines: seq<string>, i: nat)
    requires i + 4 < |lines| && Tokens(lines[i + 1]) == HeaderItems
    requires IsRule(lines[i + 2]) && StartsWith(lines[i + 3], "Installing:") && IsRule(lines[i + 4])
    ensures ParseTable(lines, i) == Ok(([], i + 5))
  {
    assert Heading(lines, i + 1) == Ok(1);
    ParseTableAt(lines, i, 1);
    TableShape(lines, i + 1);
    assert TableAt(lines, i + 1) == Ok(Rows(lines, i + 4, false, false));
    RowsAtRule(lines, i + 4, false, false);
  }

  /** A table with a one-line heading and one row reports that row. */
  lemma TableOfOneRow(lines: seq<string>, i: nat)
    requires i + 5 < |lines| && Tokens(lines[i + 1]) == HeaderItems
    requires IsRule(lines[i + 2]) && StartsWith(lines[i + 3], "Installing:")
    requires IsRow(lines[i + 4]) && IsRule(lines[i + 5])
    ensures ParseTable(lines, i) == Ok(([Row(Tokens(lines[i + 4]), false, false)], i + 6))
  {
    assert Heading(lines, i + 1) == Ok(1);
    ParseTableAt(lines, i, 1);
    TableShape(lines, i + 1);
    assert TableAt(lines, i + 1) == Ok(Rows(lines, i + 4, false, false));
    RuleIsPlain(lines[i + 4]);
    RowIsNotHeading(lines[i + 4]);
    assert !IsRule(lines[i + 4]) && !AfterLine(false, lines[i + 4]);
    RowsStep(lines, i + 4, false, false);
    RowsAtRule(lines, i + 5, false, false);
    var row := Row(Tokens(lines[i + 4]), false, false);
    assert Rows(lines, i + 4, false, false) == ([row] + [], i + 6);
    assert [row] + [] == [row];
  }

  // ---------------------------------------------------------------------
  // A log that shows the difference

  /** Six blank lines, an empty table (lines 6-10), then a table with one
      row (lines 11-16), for any heading line, row line and rule. */
  function TwoTables(heading: string, row: string, rule: string): seq<string> {
    ["", "", "", "", "", "",
     rule, heading, rule, "Installing:", rule,
     rule, heading, rule, "Installing:", row, rule]
  }

  const RowWords: seq<string> := ["a", "x", "1", "r", "1", "k"]
  const RowPackage := Package("a", "x", "1", None, "r", "1k", false, false)

  /** What the log needs of its heading line, row line and rule. */
  predicate ExampleLines(heading: string, row: string, rule: string) {
    && Tokens(heading) == HeaderItems
    && StartsWith(row, " ") && Tokens(row) == RowWords
    && IsRule(rule)
    && (forall k :: 0 <= k < |heading| ==> heading[k] != '\n')
    && (forall k :: 0 <= k < |row| ==> row[k] != '\n')
  }

  /** yum's heading line, `Package Arch Version Repository Size`. */
  lemma HeadingExample(heading: string)
    requires heading == Join(HeaderItems, " ")
    ensures Tokens(heading) == HeaderItems
  {
    HeaderWords();
    TokensOfJoin(HeaderItems);
  }

  /** The row line ` a x 1 r 1 k`. */
  lemma RowExample(row: string)
    requires row == " " + Join(RowWords, " ")
    ensures StartsWith(row, " ") && Tokens(row) == RowWords
  {
    forall i | 0 <= i < |RowWords|
      ensures !Contains(RowWords[i], " ")
    {
      NotContainsChar(RowWords[i], ' ');
    }
    TokensOfJoin(RowWords);
  }

  /** A character in no word and not in the separator is not in the line. */
  lemma {:induction false} JoinAvoids(words: seq<string>, sep: string, c: char)
    requires c !in sep && forall i :: 0 <= i < |words| ==> c !in words[i]
    ensures c !in Join(words, sep)
  {
    if |words| >= 2 {
      JoinAvoids(words[1..], sep, c);
    }
  }

  lemma HeadingHasNoNewline()
    ensures '\n' !in Join(HeaderItems, " ")
  {
    forall i | 0 <= i < |HeaderItems|
      ensures '\n' !in HeaderItems[i]
    {
    }
    JoinAvoids(HeaderItems, " ", '\n');
  }

  lemma RowHasNoNewline()
    ensures '\n' !in " " + Join(RowWords, " ")
  {
    forall i | 0 <= i < |RowWords|
      ensures '\n' !in RowWords[i]
    {
    }
    JoinAvoids(RowWords, " ", '\n');
  }

  /** Such lines exist: yum's own heading, a row for package `a` and the
      rule of 80 `=`. */
  lemma ExampleLinesExist(heading: string, row: string, rule: string)
    requires heading == Join(HeaderItems, " ") && row == " " + Join(RowWords, " ")
    requires rule == seq(RuleWidth, _ => '=')
    ensures ExampleLines(heading, row, rule)
  {
    HeadingExample(heading);
    RowExample(row);
    assert IsRule(rule);
    HeadingHasNoNewline();
    RowHasNoNewline();
    assert forall k :: 0 <= k < |heading| ==> heading[k] != '\n';
    assert forall k :: 0 <= k < |row| ==> row[k] != '\n';
  }

  lemma RowWordsPackage()
    ensures Row(RowWords, false, false) == RowPackage
  {
    NoColonNoEpoch("1");
  }

  /** How the example log parses: line 6 opens an empty table that ends at
      11, line 11 a table with one row that ends at 17. */
  lemma TwoTablesParse(heading: string, row: string, rule: string)
    requires ExampleLines(heading, row, rule)
    ensures var lines := TwoTables(heading, row, rule);
      && |lines| == 17 && NoRuleBetween(lines, 0, 6)
      && StartsWithRule(lines[6]) && StartsWithRule(lines[11])
      && ParseTable(lines, 6) == Ok(([], 11))
      && ParseTable(lines, 11) == Ok(([RowPackage], 17))
  {
    var lines := TwoTables(heading, row, rule);
    RuleIsPlain(rule);
    FirstTableEmpty(heading, row, rule);
    SecondTableOneRow(heading, row, rule);
  }

  lemma FirstTableEmpty(heading: string, row: string, rule: string)
    requires ExampleLines(heading, row, rule)
    ensures ParseTable(TwoTables(heading, row, rule), 6) == Ok(([], 11))
  {
    var lines := TwoTables(heading, row, rule);
    assert lines[7] == heading && lines[8] == rule && lines[9] == "Installing:" && lines[10] == rule;
    assert StartsWith("Installing:", "Installing:");
    TableOfNoRows(lines, 6);
  }

  lemma SecondTableOneRow(heading: string, row: string, rule: string)
    requires ExampleLines(heading, row, rule)
    ensures ParseTable(TwoTables(heading, row, rule), 11) == Ok(([RowPackage], 17))
  {
    var lines := TwoTables(heading, row, rule);
    assert lines[12] == heading && lines[13] == rule && lines[14] == "Installing:";
    assert lines[15] == row && lines[16] == rule;
    assert StartsWith("Installing:", "Installing:");
    assert IsRow(row);
    TableOfOneRow(lines, 11);
    RowWordsPackage();
  }

  /** The first table (lines 6-10) ends at 11; the scan as written then
      goes on at 6 + 11 = 17, the end of the log, and never reads the second
      table at line 11. */
  lemma SecondTableSkipped(heading: string, row: string, rule: string)
    requires ExampleLines(heading, row, rule)
    ensures ScanAsWritten(TwoTables(heading, row, rule), 0) == Ok([])
  {
    var lines := TwoTables(heading, row, rule);
    TwoTablesParse(heading, row, rule);
    ScansSkipPlainLines(lines, 0, 6);
    assert ScanAsWritten(lines, 17) == Ok([]);
    ScanResumes(lines, 6, [], 11);
    var none: seq<Package> := [];
    assert none + none == none;
  }

  /** The corrected scan goes on at line 11 and reports the second table's
      row. */
  lemma SecondTableFound(heading: string, row: string, rule: string)
    requires ExampleLines(heading, row, rule)
    ensures Scan(TwoTables(heading, row, rule), 0) == Ok([RowPackage])
  {
    var lines := TwoTables(heading, row, rule);
    TwoTablesParse(heading, row, rule);
    ScansSkipPlainLines(lines, 0, 6);
    assert Scan(lines, 17) == Ok([]);
    ScanResumes(lines, 11, [RowPackage], 17);
    assert Scan(lines, 11) == Ok([RowPackage] + []);
    ScanResumes(lines, 6, [], 11);
    assert [RowPackage] + [] == [RowPackage] && [] + [RowPackage] == [RowPackage];
  }

  /** The same log as build-log text: its lines are exactly the lines
      above. */
  lemma TwoTablesAsText(heading: string, row: string, rule: string)
    requires ExampleLines(heading, row, rule)
    ensures RunAsWritten(Join(TwoTables(heading, row, rule), "\n")) == Ok([])
    ensures Run(Join(TwoTables(heading, row, rule), "\n")) == Ok([RowPackage])
  {
    var lines := TwoTables(heading, row, rule);
    forall i | 0 <= i < |lines|
      ensures !Contains(lines[i], "\n")
    {
      NotContainsChar(lines[i], '\n');
    }
    SplitJoin(lines, "\n");
    SecondTableSkipped(heading, row, rule);
    SecondTableFound(heading, row, rule);
  }
}
