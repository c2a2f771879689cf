/** Python's string ordering (code point by code point, a proper prefix first)
    and a sort by string key, with the fact that makes sorting a canonical
    form: two sorted sequences holding the same elements are equal. */
module Ordering {

  /** `a <= b` for Python strings. */
  predicate LexLe(a: string, b: string)
    decreases |a|
  {
    |a| == 0 || (|b| > 0 && (a[0] < b[0] || (a[0] == b[0] && LexLe(a[1..], b[1..]))))
  }

  lemma {:induction false} LexLeTotal(a: string, b: string)
    ensures LexLe(a, b) || LexLe(b, a)
    decreases |a|
  {
    if |a| > 0 && |b| > 0 && a[0] == b[0] {
      LexLeTotal(a[1..], b[1..]);
    }
  }

  lemma {:induction false} LexLeAntisymmetric(a: string, b: string)
    requires LexLe(a, b) && LexLe(b, a)
    ensures a == b
    decreases |a|
  {
    if |a| > 0 {
      LexLeAntisymmetric(a[1..], b[1..]);
      assert a == [a[0]] + a[1..];
      assert b == [b[0]] + b[1..];
    }
  }

  lemma {:induction false} LexLeTransitive(a: string, b: string, c: string)
    requires LexLe(a, b) && LexLe(b, c)
    ensures LexLe(a, c)
    decreases |a|
  {
    if |a| > 0 && a[0] == b[0] && b[0] == c[0] {
      LexLeTransitive(a[1..], b[1..], c[1..]);
    }
  }

  ghost predicate SortedBy<T>(s: seq<T>, key: T -> string) {
    forall i, j :: 0 <= i < j < |s| ==> LexLe(key(s[i]), key(s[j]))
  }

  /** Every element of `s` has a key no smaller than `k`. */
  ghost predicate AllAbove<T>(k: string, s: seq<T>, key: T -> string) {
    forall i :: 0 <= i < |s| ==> LexLe(k, key(s[i]))
  }

  /** Insert `x` before the first element whose key is not smaller. */
  function Insert<T>(x: T, s: seq<T>, key: T -> string): (r: seq<T>)
    ensures multiset(r) == multiset(s) + multiset{x}
    ensures |r| == |s| + 1
  {
    if |s| == 0 then [x]
    else if LexLe(key(x), key(s[0])) then
      assert s == [s[0]] + s[1..];
      [x] + s
    else
      assert s == [s[0]] + s[1..];
      [s[0]] + Insert(x, s[1..], key)
  }

  lemma InsertAbove<T>(k: string, x: T, s: seq<T>, key: T -> string)
    requires LexLe(k, key(x)) && AllAbove(k, s, key)
    ensures AllAbove(k, Insert(x, s, key), key)
  {
    var r := Insert(x, s, key);
    forall i | 0 <= i < |r|
      ensures LexLe(k, key(r[i]))
    {
      assert r[i] in multiset(r);
      if r[i] != x {
        assert r[i] in multiset(s);
        var j :| 0 <= j < |s| && s[j] == r[i];
      }
    }
  }

  lemma {:induction false} InsertSorted<T>(x: T, s: seq<T>, key: T -> string)
    requires SortedBy(s, key)
    ensures SortedBy(Insert(x, s, key), key)
  {
    if |s| == 0 {
    } else if LexLe(key(x), key(s[0])) {
      var r := [x] + s;
      forall i, j | 0 <= i < j < |r|
        ensures LexLe(key(r[i]), key(r[j]))
      {
        if i == 0 && j > 1 {
          LexLeTransitive(key(x), key(s[0]), key(s[j - 1]));
        }
      }
    } else {
      LexLeTotal(key(x), key(s[0]));
      InsertSorted(x, s[1..], key);
      assert AllAbove(key(s[0]), s[1..], key);
      InsertAbove(key(s[0]), x, s[1..], key);
      var rest := Insert(x, s[1..], key);
      var r := [s[0]] + rest;
      forall i, j | 0 <= i < j < |r|
        ensures LexLe(key(r[i]), key(r[j]))
      {
        if i > 0 {
          assert r[i] == rest[i - 1] && r[j] == rest[j - 1];
        }
      }
    }
  }

  /** Insertion sort by key (stable). */
  function SortBy<T>(s: seq<T>, key: T -> string): (r: seq<T>)
    ensures multiset(r) == multiset(s)
    ensures |r| == |s|
  {
    if |s| == 0 then []
    else
      assert s == [s[0]] + s[1..];
      Insert(s[0], SortBy(s[1..], key), key)
  }

  lemma {:induction false} SortBySorted<T>(s: seq<T>, key: T -> string)
    ensures SortedBy(SortBy(s, key), key)
  {
    if |s| > 0 {
      SortBySorted(s[1..], key);
      InsertSorted(s[0], SortBy(s[1..], key), key);
    }
  }

  /* ---- integer keys: Python's order on numbers ---- */

  ghost predicate SortedByInt<T>(s: seq<T>, key: T -> int) {
    forall i, j :: 0 <= i < j < |s| ==> key(s[i]) <= key(s[j])
  }

  /** Insert `x` before the first element whose key is not smaller. */
  function InsertByInt<T>(x: T, s: seq<T>, key: T -> int): (r: seq<T>)
    ensures multiset(r) == multiset(s) + multiset{x}
    ensures |r| == |s| + 1
  {
    if |s| == 0 then [x]
    else if key(x) <= key(s[0]) then
      assert s == [s[0]] + s[1..];
      [x] + s
    else
      assert s == [s[0]] + s[1..];
      [s[0]] + InsertByInt(x, s[1..], key)
  }

  lemma InsertByIntAbove<T>(k: int, x: T, s: seq<T>, key: T -> int)
    requires k <= key(x) && forall i :: 0 <= i < |s| ==> k <= key(s[i])
    ensures forall i :: 0 <= i < |InsertByInt(x, s, key)| ==> k <= key(InsertByInt(x, s, key)[i])
  {
    var r := InsertByInt(x, s, key);
    forall i | 0 <= i < |r|
      ensures k <= key(r[i])
    {
      assert r[i] in multiset(r);
      if r[i] != x {
        assert r[i] in multiset(s);
        var j :| 0 <= j < |s| && s[j] == r[i];
      }
    }
  }

  lemma {:induction false} InsertByIntSorted<T>(x: T, s: seq<T>, key: T -> int)
    requires SortedByInt(s, key)
    ensures SortedByInt(InsertByInt(x, s, key), key)
  {
    if |s| > 0 && key(x) > key(s[0]) {
      InsertByIntSorted(x, s[1..], key);
      InsertByIntAbove(key(s[0]), x, s[1..], key);
      var rest := InsertByInt(x, s[1..], key);
      var r := [s[0]] + rest;
      forall i, j | 0 <= i < j < |r|
        ensures key(r[i]) <= key(r[j])
      {
        if i > 0 {
          assert r[i] == rest[i - 1];
        }
        assert r[j] == rest[j - 1];
      }
    }
  }

  /** Insertion sort by integer key (stable). */
  function SortByInt<T>(s: seq<T>, key: T -> int): (r: seq<T>)
    ensures multiset(r) == multiset(s)
    ensures |r| == |s|
  {
    if |s| == 0 then []
    else
      assert s == [s[0]] + s[1..];
      InsertByInt(s[0], SortByInt(s[1..], key), key)
  }

  lemma {:induction false} SortByIntSorted<T>(s: seq<T>, key: T -> int)
    ensures SortedByInt(SortByInt(s, key), key)
  {
    if |s| > 0 {
      SortByIntSorted(s[1..], key);
      InsertByIntSorted(s[0], SortByInt(s[1..], key), key);
    }
  }

  /* ---- the keys of a dictionary in order ---- */

  /** `m` is the least string of `s`. */
  predicate IsMin(m: string, s: set<string>) {
    m in s && forall x :: x in s ==> LexLe(m, x)
  }

  lemma MinOfTwo(m: string, y: string, s: set<string>)
    requires y in s && IsMin(m, s - {y}) && !LexLe(m, y)
    ensures IsMin(y, s)
  {
    LexLeTotal(m, y);
    LexLeTotal(y, y);
    forall x | x in s
      ensures LexLe(y, x)
    {
      if x != y {
        LexLeTransitive(y, m, x);
      }
    }
  }

  lemma {:induction false} MinExists(s: set<string>)
    requires s != {}
    ensures exists m :: IsMin(m, s)
  {
    var y :| y in s;
    if s == {y} {
      LexLeTotal(y, y);
      assert IsMin(y, s);
    } else {
      MinExists(s - {y});
      var m :| IsMin(m, s - {y});
      if LexLe(m, y) {
        assert IsMin(m, s);
      } else {
        MinOfTwo(m, y, s);
      }
    }
  }

  lemma MinUnique(s: set<string>)
    ensures forall a, b :: IsMin(a, s) && IsMin(b, s) ==> a == b
  {
    forall a, b | IsMin(a, s) && IsMin(b, s)
      ensures a == b
    {
      LexLeAntisymmetric(a, b);
    }
  }

  /** The least string of a non-empty set. */
  function MinKey(s: set<string>): (m: string)
    requires s != {}
    ensures IsMin(m, s)
  {
    MinExists(s);
    MinUnique(s);
    var m :| IsMin(m, s);
    m
  }

  /** A set of strings in ascending order, each once. */
  function SortedKeys(s: set<string>): (r: seq<string>)
    ensures |r| == |s|
    ensures forall x :: x in r <==> x in s
    ensures forall i, j :: 0 <= i < j < |r| ==> LexLe(r[i], r[j]) && r[i] != r[j]
    decreases s
  {
    if s == {} then []
    else
      var m := MinKey(s);
      var rest := SortedKeys(s - {m});
      ConsAscending(m, rest, s);
      [m] + rest
  }

  /** The least key followed by the others in order is the whole set in
      order. */
  lemma ConsAscending(m: string, rest: seq<string>, s: set<string>)
    requires IsMin(m, s)
    requires |rest| == |s - {m}| && forall x :: x in rest <==> x in s - {m}
    requires forall i, j :: 0 <= i < j < |rest| ==> LexLe(rest[i], rest[j]) && rest[i] != rest[j]
    ensures |[m] + rest| == |s| && forall x :: x in [m] + rest <==> x in s
    ensures forall i, j :: 0 <= i < j < |[m] + rest| ==> LexLe(([m] + rest)[i], ([m] + rest)[j]) && ([m] + rest)[i] != ([m] + rest)[j]
  {
    var r := [m] + rest;
    forall i, j | 0 <= i < j < |r|
      ensures LexLe(r[i], r[j]) && r[i] != r[j]
    {
      if i == 0 {
        assert r[j] == rest[j - 1] && r[j] in s - {m};
      } else {
        assert r[i] == rest[i - 1] && r[j] == rest[j - 1];
      }
    }
  }

  /** The first element of a sorted sequence has the least key. */
  lemma FirstIsLeast<T>(b: seq<T>, x: T, key: T -> string)
    requires SortedBy(b, key) && x in multiset(b)
    ensures |b| > 0 && LexLe(key(b[0]), key(x))
  {
    assert x in b;
    var j :| 0 <= j < |b| && b[j] == x;
    if j == 0 {
      LexLeTotal(key(x), key(x));
    }
  }

  /** `key` tells apart any two different elements of `m`. */
  ghost predicate KeyInjectiveOn<T>(m: multiset<T>, key: T -> string) {
    forall x, y :: x in m && y in m && key(x) == key(y) ==> x == y
  }

  lemma TailSorted<T>(a: seq<T>, key: T -> string)
    requires |a| > 0 && SortedBy(a, key)
    ensures SortedBy(a[1..], key)
  {
    forall i, j | 0 <= i < j < |a[1..]|
      ensures LexLe(key(a[1..][i]), key(a[1..][j]))
    {
      assert a[1..][i] == a[i + 1] && a[1..][j] == a[j + 1];
    }
  }

  lemma TailMultiset<T>(a: seq<T>)
    requires |a| > 0
    ensures multiset(a[1..]) == multiset(a) - multiset{a[0]}
  {
    assert a == [a[0]] + a[1..];
  }

  lemma InjectiveOnSmaller<T>(m: multiset<T>, n: multiset<T>, key: T -> string)
    requires n <= m && KeyInjectiveOn(m, key)
    ensures KeyInjectiveOn(n, key)
  {
  }

  /** Two sorted sequences with the same elements start with the same one. */
  lemma HeadsEqual<T>(a: seq<T>, b: seq<T>, key: T -> string)
    requires |a| > 0 && SortedBy(a, key) && SortedBy(b, key)
    requires multiset(a) == multiset(b)
    requires KeyInjectiveOn(multiset(a), key)
    ensures |b| > 0 && a[0] == b[0]
  {
    assert a[0] in multiset(a);
    FirstIsLeast(b, a[0], key);
    assert b[0] in multiset(b);
    FirstIsLeast(a, b[0], key);
    LexLeAntisymmetric(key(a[0]), key(b[0]));
  }

  /** Dropping an equal first element keeps the hypotheses of SortedEqual. */
  lemma TailsAgree<T>(a: seq<T>, b: seq<T>, key: T -> string)
    requires |a| > 0 && |b| > 0 && a[0] == b[0]
    requires SortedBy(a, key) && SortedBy(b, key)
    requires multiset(a) == multiset(b)
    requires KeyInjectiveOn(multiset(a), key)
    ensures SortedBy(a[1..], key) && SortedBy(b[1..], key)
    ensures multiset(a[1..]) == multiset(b[1..])
    ensures KeyInjectiveOn(multiset(a[1..]), key)
  {
    TailMultiset(a);
    TailMultiset(b);
    TailSorted(a, key);
    TailSorted(b, key);
    InjectiveOnSmaller(multiset(a), multiset(a[1..]), key);
  }

  lemma ConsEqual<T>(a: seq<T>, b: seq<T>)
    requires |a| > 0 && |b| > 0 && a[0] == b[0] && a[1..] == b[1..]
    ensures a == b
  {
    assert a == [a[0]] + a[1..];
    assert b == [b[0]] + b[1..];
  }

  /** Sorting is a canonical form: two sorted sequences with the same
      elements are equal, provided equal keys mean equal elements. */
  lemma {:induction false} SortedEqual<T>(a: seq<T>, b: seq<T>, key: T -> string)
    requires SortedBy(a, key) && SortedBy(b, key)
    requires multiset(a) == multiset(b)
    requires KeyInjectiveOn(multiset(a), key)
    ensures a == b
    decreases |a|
  {
    if |a| == 0 {
      assert |b| == |multiset(b)| == 0;
    } else {
      HeadsEqual(a, b, key);
      TailsAgree(a, b, key);
      SortedEqual(a[1..], b[1..], key);
      ConsEqual(a, b);
    }
  }
}
