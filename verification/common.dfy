/** Shared vocabulary: optional values, Python-style outcomes, and the few
    string operations (`startswith`, `find`, `split`, `join`, `rsplit`,
    `strip`) that the modelled Python code relies on. */
module Common {

  datatype Option<+T> = None | Some(value: T)

  /** The Python exceptions the modelled code can raise. One that nothing
      catches ends the HTTP request with a server error. */
  datatype Exception =
    | IndexError
    | KeyError
    | ValueError
    | TypeError
    | AttributeError
    | ZeroDivisionError
    | PublishError   // building or publishing a bus message failed

  /** The value a Python call returns, or the exception it raises. */
  datatype Result<+T> = Ok(value: T) | Raise(exc: Exception)

  /** `s.startswith(p)` */
  predicate StartsWith(s: string, p: string) {
    |p| <= |s| && s[..|p|] == p
  }

  /** A string starts with the first character of any non-empty prefix of
      it. */
  lemma StartsWithFirst(s: string, p: string)
    requires StartsWith(s, p) && |p| > 0
    ensures |s| > 0 && s[0] == p[0]
  {
    assert s[..|p|][0] == s[0];
  }

  predicate OccursAt(s: string, p: string, i: int) {
    0 <= i && i + |p| <= |s| && s[i..i + |p|] == p
  }

  /** `p in s` for strings */
  predicate Contains(s: string, p: string) {
    Find(s, p).Some?
  }

  /** A string none of whose characters is `c` does not contain `[c]`. */
  lemma NotContainsChar(s: string, c: char)
    requires forall i :: 0 <= i < |s| ==> s[i] != c
    ensures !Contains(s, [c])
  {
    forall j
      ensures !OccursAt(s, [c], j)
    {
      if 0 <= j && j + 1 <= |s| {
        assert s[j..j + 1][0] == s[j];
      }
    }
  }

  /** `s.find(p)`: the first position at which `p` occurs in `s`. */
  function Find(s: string, p: string): (r: Option<nat>)
    ensures r.Some? ==> OccursAt(s, p, r.value)
    ensures r.Some? ==> forall j :: 0 <= j < r.value ==> !OccursAt(s, p, j)
    ensures r.None? ==> forall j :: !OccursAt(s, p, j)
  {
    FindFrom(s, p, 0)
  }

  function FindFrom(s: string, p: string, i: nat): (r: Option<nat>)
    ensures r.Some? ==> i <= r.value && OccursAt(s, p, r.value)
    ensures r.Some? ==> forall j :: i <= j < r.value ==> !OccursAt(s, p, j)
    ensures r.None? ==> forall j :: i <= j ==> !OccursAt(s, p, j)
    decreases |s| + 1 - i
  {
    if i + |p| > |s| then None
    else if s[i..i + |p|] == p then Some(i)
    else FindFrom(s, p, i + 1)
  }

  /** An occurrence inside a prefix of `s` is an occurrence in `s`. */
  lemma OccursInPrefix(s: string, p: string, n: nat, j: int)
    requires n <= |s|
    requires OccursAt(s[..n], p, j)
    ensures OccursAt(s, p, j)
  {
    assert s[..n][j..j + |p|] == s[j..j + |p|];
  }

  /** `sep.join(parts)` */
  function Join(parts: seq<string>, sep: string): string
  {
    if |parts| == 0 then ""
    else if |parts| == 1 then parts[0]
    else parts[0] + sep + Join(parts[1..], sep)
  }

  /** `s.split(sep)` for a non-empty separator: cut at every occurrence,
      scanning left to right, keeping empty pieces. */
  function Split(s: string, sep: string): (parts: seq<string>)
    requires |sep| > 0
    ensures |parts| >= 1
    ensures Join(parts, sep) == s
    ensures forall i :: 0 <= i < |parts| ==> !Contains(parts[i], sep)
    decreases |s|
  {
    match Find(s, sep)
    case None => [s]
    case Some(i) =>
      var head := s[..i];
      var rest := Split(s[i + |sep|..], sep);
      assert !Contains(head, sep) by {
        if Find(head, sep).Some? {
          OccursInPrefix(s, sep, i, Find(head, sep).value);
        }
      }
      assert s == head + sep + s[i + |sep|..];
      assert ([head] + rest)[1..] == rest;
      [head] + rest
  }

  /** The last position at which character `c` occurs in `s`. */
  function LastIndexOf(s: string, c: char): (r: Option<nat>)
    ensures r.Some? ==> r.value < |s| && s[r.value] == c
    ensures r.Some? ==> forall j :: r.value < j < |s| ==> s[j] != c
    ensures r.None? ==> c !in s
  {
    if |s| == 0 then None
    else if s[|s| - 1] == c then Some(|s| - 1)
    else LastIndexOf(s[..|s| - 1], c)
  }

  /** `s.rsplit(c, maxsplit=1)` */
  function RSplitOnce(s: string, c: char): (parts: seq<string>)
    ensures 1 <= |parts| <= 2
    ensures |parts| == 1 <==> c !in s
    ensures |parts| == 1 ==> parts[0] == s
    ensures |parts| == 2 ==> parts[0] + [c] + parts[1] == s && c !in parts[1]
  {
    match LastIndexOf(s, c)
    case None => [s]
    case Some(i) =>
      assert s == s[..i] + [c] + s[i + 1..];
      [s[..i], s[i + 1..]]
  }

  /** `s.strip(c)` for a single character `c`: the infix of `s` left after
      removing every leading and trailing `c`. */
  function Strip(s: string, c: char): (r: string)
    ensures |r| == 0 || (r[0] != c && r[|r| - 1] != c)
    ensures exists i, j ::
              && 0 <= i <= j <= |s| && r == s[i..j]
              && (forall k :: 0 <= k < i ==> s[k] == c)
              && (forall k :: j <= k < |s| ==> s[k] == c)
  {
    var left := StripLeft(s, c);
    var r := StripRight(left, c);
    var i := |s| - |left|;
    assert r == s[i..i + |r|];
    forall k | i + |r| <= k < |s|
      ensures s[k] == c
    {
      assert s[k] == left[k - i];
    }
    r
  }

  function StripLeft(s: string, c: char): (r: string)
    ensures |r| <= |s| && s[|s| - |r|..] == r
    ensures |r| == 0 || r[0] != c
    ensures forall k :: 0 <= k < |s| - |r| ==> s[k] == c
  {
    if |s| > 0 && s[0] == c then
      var r := StripLeft(s[1..], c);
      assert forall k :: 1 <= k < |s| - |r| ==> s[k] == s[1..][k - 1];
      r
    else s
  }

  function StripRight(s: string, c: char): (r: string)
    ensures |r| <= |s| && s[..|r|] == r
    ensures |r| == 0 || r[|r| - 1] != c
    ensures |s| == 0 || s[0] != c ==> |r| == 0 || r[0] != c
    ensures forall k :: |r| <= k < |s| ==> s[k] == c
  {
    if |s| > 0 && s[|s| - 1] == c then StripRight(s[..|s| - 1], c) else s
  }

  /** Stripping from the left stops at the first character other than `c`. */
  lemma {:induction false} StripLeftAt(s: string, c: char, i: nat)
    requires i <= |s| && (forall k :: 0 <= k < i ==> s[k] == c) && (i == |s| || s[i] != c)
    ensures StripLeft(s, c) == s[i..]
    decreases i
  {
    if i > 0 {
      assert forall k :: 0 <= k < i - 1 ==> s[1..][k] == s[k + 1];
      StripLeftAt(s[1..], c, i - 1);
      assert s[1..][i - 1..] == s[i..];
    }
  }

  /** Stripping from the right stops at the last character other than `c`. */
  lemma {:induction false} StripRightAt(s: string, c: char, m: nat)
    requires m <= |s| && (forall k :: m <= k < |s| ==> s[k] == c) && (m == 0 || s[m - 1] != c)
    ensures StripRight(s, c) == s[..m]
    decreases |s| - m
  {
    if m < |s| {
      var t := s[..|s| - 1];
      assert forall k :: m <= k < |t| ==> t[k] == s[k];
      StripRightAt(t, c, m);
      assert t[..m] == s[..m];
    }
  }

  /** The strip is exactly the infix between a run of `c` at each end, when
      that infix neither starts nor ends with `c`: an independent account of
      what `strip` keeps. */
  lemma StripExactly(s: string, c: char, i: nat, j: nat)
    requires i <= j <= |s|
    requires forall k :: 0 <= k < i ==> s[k] == c
    requires forall k :: j <= k < |s| ==> s[k] == c
    requires i < j ==> s[i] != c && s[j - 1] != c
    ensures Strip(s, c) == s[i..j]
  {
    StripUnfold(s, c);
    if i < j {
      StripLeftAt(s, c, i);
      StripRightOfSuffix(s, c, i, j);
    } else {
      assert forall k :: 0 <= k < |s| ==> s[k] == c;
      StripLeftAt(s, c, |s|);
    }
  }

  lemma StripUnfold(s: string, c: char)
    ensures Strip(s, c) == StripRight(StripLeft(s, c), c)
  {
  }

  lemma StripRightOfSuffix(s: string, c: char, i: nat, j: nat)
    requires i < j <= |s|
    requires forall k :: j <= k < |s| ==> s[k] == c
    requires s[j - 1] != c
    ensures StripRight(s[i..], c) == s[i..j]
  {
    var t := s[i..];
    assert forall k :: j - i <= k < |t| ==> t[k] == s[k + i];
    StripRightAt(t, c, j - i);
    assert t[..j - i] == s[i..j];
  }

  /** Stripping twice is stripping once. */
  lemma StripIdempotent(s: string, c: char)
    ensures Strip(Strip(s, c), c) == Strip(s, c)
  {
    var r := Strip(s, c);
    StripExactly(r, c, 0, |r|);
  }

  /** Python's `a // b` (floor division), `b != 0`. */
  function FloorDiv(a: int, b: int): int
    requires b != 0
  {
    if b > 0 then a / b
    else if a % b == 0 then a / b
    else a / b - 1
  }

  /** Python's `a % b` (the result takes the sign of `b`), `b != 0`. */
  function PyMod(a: int, b: int): (r: int)
    requires b != 0
    ensures b > 0 ==> 0 <= r < b
    ensures b < 0 ==> b < r <= 0
    ensures a == b * FloorDiv(a, b) + r
  {
    if b > 0 then a % b
    else if a % b == 0 then 0
    else a % b + b
  }
}
