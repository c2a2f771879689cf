/** The request fingerprint of `_compute_digest_params`: SHA-256 over
    `json.dumps(parameters, sort_keys=True)`. The hash itself and the JSON text
    are not modelled; what the fingerprint keeps is the key-sorted item list of
    the digested dictionary, which is exactly what `sort_keys=True` makes the
    serialisation depend on. The hash is thereby taken to be collision free. */
module Digest {
  import opened Common
  import opened Json
  import opened Ordering

  /** A Python dictionary as built by the handlers, in insertion order. */
  type Params = seq<(string, Value)>

  predicate UniqueKeys(p: Params) {
    forall i, j :: 0 <= i < j < |p| ==> p[i].0 != p[j].0
  }

  /** The dictionary's content. */
  function ToMap(p: Params): map<string, Value>
  {
    if |p| == 0 then map[]
    else ToMap(p[..|p| - 1])[p[|p| - 1].0 := p[|p| - 1].1]
  }

  function ItemKey(item: (string, Value)): string { item.0 }

  /** What a digest is computed from: a dictionary's key-sorted items, or a
      value that is not a top-level dictionary (a string, a nested document). */
  datatype Fingerprint = OfDict(items: Params) | OfValue(value: Value)

  /** `_compute_digest_params(parameters)` for a dictionary. */
  function DigestParams(p: Params): (f: Fingerprint)
    ensures f.OfDict? && multiset(f.items) == multiset(p)
  {
    OfDict(SortBy(p, ItemKey))
  }

  /** `_compute_digest_params(value)` for anything else. */
  function DigestValue(v: Value): Fingerprint
  {
    OfValue(v)
  }

  /** `dict(**base, k1=v1, ...)`: a keyword that repeats a key of `base`
      raises TypeError ("got multiple values for keyword argument"). */
  function Extend(base: Params, extra: Params): (r: Result<Params>)
    ensures r.Ok? <==> forall i, j :: 0 <= i < |base| && 0 <= j < |extra| ==> base[i].0 != extra[j].0
    ensures r.Ok? ==> r.value == base + extra
    ensures r.Raise? ==> r.exc == TypeError
  {
    if exists i, j :: 0 <= i < |base| && 0 <= j < |extra| && base[i].0 == extra[j].0
    then Raise(TypeError)
    else Ok(base + extra)
  }

  lemma ExtendKeepsUnique(base: Params, extra: Params)
    requires UniqueKeys(base) && UniqueKeys(extra) && Extend(base, extra).Ok?
    ensures UniqueKeys(Extend(base, extra).value)
  {
    var p := base + extra;
    forall i, j | 0 <= i < j < |p|
      ensures p[i].0 != p[j].0
    {
      if j >= |base| && i < |base| {
        assert p[j] == extra[j - |base|];
      }
    }
  }

  /** With unique keys, an item belongs to the dictionary exactly when the
      dictionary maps its key to its value. */
  lemma {:induction false} Membership(p: Params, x: (string, Value))
    requires UniqueKeys(p)
    ensures x in multiset(p) <==> x.0 in ToMap(p) && ToMap(p)[x.0] == x.1
    ensures multiset(p)[x] <= 1
  {
    if |p| > 0 {
      var q := p[..|p| - 1];
      var last := p[|p| - 1];
      assert p == q + [last];
      assert UniqueKeys(q);
      Membership(q, x);
      if x in multiset(q) {
        var i :| 0 <= i < |q| && q[i] == x;
        assert x.0 != last.0;
      }
    }
  }

  lemma SameContentSameItems(p1: Params, p2: Params)
    requires UniqueKeys(p1) && UniqueKeys(p2) && ToMap(p1) == ToMap(p2)
    ensures multiset(p1) == multiset(p2)
  {
    forall x
      ensures multiset(p1)[x] == multiset(p2)[x]
    {
      Membership(p1, x);
      Membership(p2, x);
    }
  }

  /** Determinism: the digest depends only on the dictionary's content, not
      on the order in which its keys were inserted. */
  lemma DigestIgnoresInsertionOrder(p1: Params, p2: Params)
    requires UniqueKeys(p1) && UniqueKeys(p2)
    requires ToMap(p1) == ToMap(p2)
    ensures DigestParams(p1) == DigestParams(p2)
  {
    SameContentSameItems(p1, p2);
    var s1 := SortBy(p1, ItemKey);
    var s2 := SortBy(p2, ItemKey);
    SortBySorted(p1, ItemKey);
    SortBySorted(p2, ItemKey);
    forall x, y | x in multiset(s1) && y in multiset(s1) && ItemKey(x) == ItemKey(y)
      ensures x == y
    {
      Membership(p1, x);
      Membership(p1, y);
    }
    SortedEqual(s1, s2, ItemKey);
  }

  /** Separation: equal digests mean equal dictionary contents, so requests
      whose digested dictionaries differ never share a cache entry. */
  lemma DigestDeterminesContent(p1: Params, p2: Params)
    requires UniqueKeys(p1) && UniqueKeys(p2)
    requires DigestParams(p1) == DigestParams(p2)
    ensures ToMap(p1) == ToMap(p2)
  {
    var m1, m2 := ToMap(p1), ToMap(p2);
    assert multiset(p1) == multiset(p2);
    forall k | k in m1
      ensures k in m2 && m2[k] == m1[k]
    {
      Membership(p1, (k, m1[k]));
      Membership(p2, (k, m1[k]));
    }
    forall k | k in m2
      ensures k in m1
    {
      Membership(p2, (k, m2[k]));
      Membership(p1, (k, m2[k]));
    }
  }

  lemma {:induction false} ToMapKeys(p: Params, k: string)
    ensures k in ToMap(p) <==> exists i :: 0 <= i < |p| && p[i].0 == k
  {
    if |p| > 0 {
      var q := p[..|p| - 1];
      ToMapKeys(q, k);
      if exists i :: 0 <= i < |q| && q[i].0 == k {
        var i :| 0 <= i < |q| && q[i].0 == k;
        assert p[i].0 == k;
      }
      if exists i :: 0 <= i < |p| && p[i].0 == k {
        var i :| 0 <= i < |p| && p[i].0 == k;
        if i < |q| { assert q[i].0 == k; }
      }
    }
  }

  /** Replacing the value of one item replaces that key's value in the
      dictionary and nothing else. */
  lemma {:induction false} ToMapUpdateAt(p: Params, i: nat, v: Value)
    requires UniqueKeys(p) && i < |p|
    ensures ToMap(p[i := (p[i].0, v)]) == ToMap(p)[p[i].0 := v]
  {
    var q := p[..|p| - 1];
    var last := p[|p| - 1];
    var p' := p[i := (p[i].0, v)];
    if i == |p| - 1 {
      assert p'[..|p'| - 1] == q;
    } else {
      assert UniqueKeys(q);
      assert p'[..|p'| - 1] == q[i := (q[i].0, v)];
      ToMapUpdateAt(q, i, v);
      assert q[i].0 != last.0;
    }
  }

  /* ---- library usage normalisation (api_v1.py, advise handler) ---- */

  function StrKey(v: Value): string { if v.Str? then v.s else "" }

  predicate AllStrings(l: seq<Value>) {
    forall i :: 0 <= i < |l| ==> l[i].Str?
  }

  predicate IsNumber(v: Value) { v.Num? || v.Bool? }

  /** A number's value; `True` and `False` compare as 1 and 0. */
  function NumKey(v: Value): int {
    match v
    case Bool(b) => if b then 1 else 0
    case Num(n) => n
    case _ => 0
  }

  predicate AllNumbers(l: seq<Value>) {
    forall i :: 0 <= i < |l| ==> IsNumber(l[i])
  }

  /** The lists `sorted` orders: with at most one element nothing is
      compared; otherwise every element must be comparable with every
      other, which among JSON values means all strings or all numbers
      (`None` and dictionaries have no order, and a string and a number
      cannot be compared). */
  predicate OrderableItems(l: seq<Value>) {
    |l| <= 1 || AllStrings(l) || AllNumbers(l)
  }

  /** Iterating over a string yields its characters as one-character strings. */
  function Chars(s: string): (r: seq<Value>)
    ensures |r| == |s| && forall i :: 0 <= i < |s| ==> r[i] == Str([s[i]])
  {
    seq(|s|, i requires 0 <= i < |s| => Str([s[i]]))
  }

  function KeyStrings(ks: seq<string>): (r: seq<Value>)
    ensures |r| == |ks| && forall i :: 0 <= i < |ks| ==> r[i] == Str(ks[i])
  {
    seq(|ks|, i requires 0 <= i < |ks| => Str(ks[i]))
  }

  /** Python's `sorted(value)` on a JSON value: a list is sorted stably, a
      string gives its characters in order, a dictionary its keys in order;
      `None`, booleans and numbers are not iterable. Lists of lists are
      not ordered here. */
  function PySorted(v: Value): (r: Result<seq<Value>>)
    ensures r.Raise? ==> r.exc == TypeError
    ensures r.Ok? <==> v.Str? || v.Object? || (v.List? && OrderableItems(v.items))
    ensures r.Ok? && v.List? ==> multiset(r.value) == multiset(v.items)
    ensures r.Ok? && v.Str? ==> multiset(r.value) == multiset(Chars(v.s))
    ensures r.Ok? && v.Object? ==>
      |r.value| == |v.fields| && forall x :: x in r.value <==> x.Str? && x.s in v.fields
  {
    match v
    case Str(s) => Ok(SortBy(Chars(s), StrKey))
    case Object(fields) =>
      var ks := SortedKeys(fields.Keys);
      assert forall x :: x in KeyStrings(ks) <==> x.Str? && x.s in ks;
      Ok(KeyStrings(ks))
    case List(items) =>
      if |items| <= 1 then Ok(items)
      else if AllStrings(items) then Ok(SortBy(items, StrKey))
      else if AllNumbers(items) then Ok(SortByInt(items, NumKey))
      else Raise(TypeError)
    case _ => Raise(TypeError)
  }

  /** What `sorted` returns is in ascending order: by code point for strings,
      characters and keys, by value for numbers. */
  lemma PySortedOrdered(v: Value)
    requires PySorted(v).Ok?
    ensures v.Str? || v.Object? || (v.List? && AllStrings(v.items)) ==>
      AllStrings(PySorted(v).value) && SortedBy(PySorted(v).value, StrKey)
    ensures v.List? && AllNumbers(v.items) ==>
      AllNumbers(PySorted(v).value) && SortedByInt(PySorted(v).value, NumKey)
  {
    match v
    case Str(s) =>
      SortBySorted(Chars(s), StrKey);
      AllStringsOfMultiset(Chars(s), SortBy(Chars(s), StrKey));
    case Object(fields) =>
    case List(items) =>
      if AllStrings(items) {
        PySortedStrings(items);
        SortBySorted(items, StrKey);
        AllStringsOfMultiset(items, SortBy(items, StrKey));
      } else if AllNumbers(items) {
        PySortedNumbers(items);
        SortByIntSorted(items, NumKey);
        AllNumbersOfMultiset(items, SortByInt(items, NumKey));
      }
    case _ =>
  }

  /** On a list of numbers that are not all strings (so not empty) `sorted`
      is the sort by value. */
  lemma PySortedNumbers(l: seq<Value>)
    requires AllNumbers(l) && !AllStrings(l)
    ensures PySorted(List(l)) == Ok(SortByInt(l, NumKey))
  {
    if |l| == 1 {
      assert l == [l[0]];
      assert SortByInt(l, NumKey) == InsertByInt(l[0], SortByInt([], NumKey), NumKey);
    }
  }

  lemma AllStringsOfMultiset(a: seq<Value>, b: seq<Value>)
    requires AllStrings(a) && multiset(a) == multiset(b)
    ensures AllStrings(b)
  {
    forall i | 0 <= i < |b|
      ensures b[i].Str?
    {
      assert b[i] in multiset(a);
      var j :| 0 <= j < |a| && a[j] == b[i];
    }
  }

  lemma AllNumbersOfMultiset(a: seq<Value>, b: seq<Value>)
    requires AllNumbers(a) && multiset(a) == multiset(b)
    ensures AllNumbers(b)
  {
    forall i | 0 <= i < |b|
      ensures IsNumber(b[i])
    {
      assert b[i] in multiset(a);
      var j :| 0 <= j < |a| && a[j] == b[i];
    }
  }

  lemma SortTwoInts(x: Value, y: Value)
    requires NumKey(x) > NumKey(y)
    ensures SortByInt([x, y], NumKey) == [y, x]
  {
    assert [x, y][1..] == [y];
    assert SortByInt([y], NumKey) == [y];
    assert InsertByInt(x, [y], NumKey) == [y] + InsertByInt(x, [], NumKey);
  }

  /** Numbers are sorted by value, a boolean counting as 0 or 1. */
  lemma SortsNumbers()
    ensures PySorted(List([Num(2), Num(1)])) == Ok([Num(1), Num(2)])
    ensures PySorted(List([Bool(true), Num(0)])) == Ok([Num(0), Bool(true)])
  {
    assert [Num(2), Num(1)][0] == Num(2);
    PySortedNumbers([Num(2), Num(1)]);
    SortTwoInts(Num(2), Num(1));
    assert [Bool(true), Num(0)][0] == Bool(true);
    PySortedNumbers([Bool(true), Num(0)]);
    SortTwoInts(Bool(true), Num(0));
  }

  lemma SortTwoStrings(x: Value, y: Value)
    requires !LexLe(StrKey(x), StrKey(y))
    ensures SortBy([x, y], StrKey) == [y, x]
  {
    assert [x, y][1..] == [y];
    assert SortBy([y], StrKey) == [y];
    assert Insert(x, [y], StrKey) == [y] + Insert(x, [], StrKey);
  }

  /** A string is sorted into its characters. */
  lemma SortsCharacters()
    ensures PySorted(Str("ba")) == Ok([Str("a"), Str("b")])
  {
    assert Chars("ba") == [Str("b"), Str("a")];
    assert !LexLe("b", "a");
    SortTwoStrings(Str("b"), Str("a"));
  }

  /** Nothing is compared in a list of at most one element. */
  lemma SortsShortLists()
    ensures PySorted(List([Null])) == Ok([Null])
    ensures PySorted(List([])) == Ok([])
  {
  }

  /** Elements without a common order, and values that are not iterable,
      raise TypeError. */
  lemma SortRaises()
    ensures PySorted(List([Str("a"), Num(1)])) == Raise(TypeError)
    ensures PySorted(List([Null, Null])) == Raise(TypeError)
    ensures PySorted(Num(3)) == Raise(TypeError)
  {
    assert [Str("a"), Num(1)][0] == Str("a");
    assert [Str("a"), Num(1)][1] == Num(1);
    assert [Null, Null][0] == Null;
  }

  /** On a list of strings `sorted` is the sort by string key. */
  lemma PySortedStrings(l: seq<Value>)
    requires AllStrings(l)
    ensures PySorted(List(l)) == Ok(SortBy(l, StrKey))
  {
    if |l| == 1 {
      assert l == [l[0]];
      assert SortBy(l, StrKey) == Insert(l[0], SortBy([], StrKey), StrKey);
    }
  }

  /** Every entry of the report can be passed to `sorted`. */
  predicate Sortable(report: map<string, Value>) {
    forall k :: k in report ==> PySorted(report[k]).Ok?
  }

  function SortLists(report: map<string, Value>): map<string, Value>
  {
    map k | k in report :: if PySorted(report[k]).Ok? then List(PySorted(report[k]).value) else report[k]
  }

  /** `report[key] = sorted(value)` for every entry: the first entry that
      cannot be sorted raises TypeError; otherwise every entry becomes the
      list `sorted` returns. */
  function SortReport(report: map<string, Value>): (r: Result<map<string, Value>>)
    ensures r.Ok? <==> forall k :: k in report ==> PySorted(report[k]).Ok?
    ensures r.Raise? ==> r.exc == TypeError
    ensures r.Ok? ==> r.value.Keys == report.Keys
    ensures r.Ok? ==> forall k :: k in report ==> r.value[k] == List(PySorted(report[k]).value)
  {
    if Sortable(report) then Ok(SortLists(report))
    else Raise(TypeError)
  }

  /** `if parameters["library_usage"]: for key, value in (... .get("report")
      or {}).items(): report[key] = sorted(value)` */
  function NormalizeLibraryUsage(lu: Value): (r: Result<Value>)
    ensures !Truthy(lu) ==> r == Ok(lu)
    ensures Truthy(lu) && !lu.Object? ==> r == Raise(AttributeError)
    ensures r.Raise? ==> r.exc in {AttributeError, TypeError}
    ensures r.Ok? && Truthy(lu) ==>
      && r.value.Object? && r.value.fields.Keys == lu.fields.Keys
      && r.value.fields - {"report"} == lu.fields - {"report"}
  {
    if !Truthy(lu) then Ok(lu)
    else if !lu.Object? then Raise(AttributeError)
    else
      var report := GetOr(lu.fields, "report", Null);
      if !Truthy(report) then Ok(lu)
      else if !report.Object? then Raise(AttributeError)
      else
        match SortReport(report.fields)
        case Raise(e) => Raise(e)
        case Ok(sorted) =>
          assert "report" in lu.fields;
          Ok(Object(lu.fields["report" := Object(sorted)]))
  }

  lemma StrKeyInjective(l: seq<Value>)
    requires AllStrings(l)
    ensures KeyInjectiveOn(multiset(l), StrKey)
  {
    forall x, y | x in multiset(l) && y in multiset(l) && StrKey(x) == StrKey(y)
      ensures x == y
    {
      var i :| 0 <= i < |l| && l[i] == x;
      var j :| 0 <= j < |l| && l[j] == y;
    }
  }

  /** Sorting a list of strings forgets the order it came in. */
  lemma SortStringsCanonical(l1: seq<Value>, l2: seq<Value>)
    requires AllStrings(l1) && multiset(l1) == multiset(l2)
    ensures SortBy(l1, StrKey) == SortBy(l2, StrKey)
  {
    SortBySorted(l1, StrKey);
    SortBySorted(l2, StrKey);
    StrKeyInjective(l1);
    SortedEqual(SortBy(l1, StrKey), SortBy(l2, StrKey), StrKey);
  }

  lemma UpdateSameOutside(m1: map<string, Value>, m2: map<string, Value>, k: string, v: Value)
    requires k in m1 && k in m2 && m1 - {k} == m2 - {k}
    ensures m1[k := v] == m2[k := v]
  {
    forall j | j in m1 && j != k
      ensures j in m2 && m1[j] == m2[j]
    {
      assert j in m1 - {k};
    }
    forall j | j in m2 && j != k
      ensures j in m1
    {
      assert j in m2 - {k};
    }
  }

  /** Two reports list the same libraries, each with the same symbols, in
      any order. */
  predicate SameReportUpToOrder(r1: map<string, Value>, r2: map<string, Value>) {
    && r1.Keys == r2.Keys
    && forall k :: k in r1 ==>
         && r1[k].List? && r2[k].List?
         && AllStrings(r1[k].items) && AllStrings(r2[k].items)
         && multiset(r1[k].items) == multiset(r2[k].items)
  }

  /** Sorting keeps every library's symbols. */
  lemma SortReportPermutes(report: map<string, Value>, k: string)
    requires SortReport(report).Ok? && k in report
    ensures SortReport(report).value[k].List?
    ensures report[k].List? ==> multiset(SortReport(report).value[k].items) == multiset(report[k].items)
  {
  }

  lemma SameReportSortable(r1: map<string, Value>, r2: map<string, Value>)
    requires SameReportUpToOrder(r1, r2)
    ensures Sortable(r1) && Sortable(r2)
  {
  }

  lemma SortListsAt(r1: map<string, Value>, r2: map<string, Value>, k: string)
    requires SameReportUpToOrder(r1, r2) && k in r1
    ensures k in SortLists(r1) && k in SortLists(r2) && SortLists(r1)[k] == SortLists(r2)[k]
  {
    PySortedStrings(r1[k].items);
    PySortedStrings(r2[k].items);
    SortStringsCanonical(r1[k].items, r2[k].items);
  }

  lemma SortListsKeys(report: map<string, Value>)
    ensures SortLists(report).Keys == report.Keys
  {
  }

  lemma MapsAgree(m1: map<string, Value>, m2: map<string, Value>)
    requires m1.Keys == m2.Keys
    requires forall k :: k in m1 ==> m1[k] == m2[k]
    ensures m1 == m2
  {
  }

  lemma SortReportCanonical(r1: map<string, Value>, r2: map<string, Value>)
    requires SameReportUpToOrder(r1, r2)
    ensures SortLists(r1) == SortLists(r2)
  {
    var s1, s2 := SortLists(r1), SortLists(r2);
    SortListsKeys(r1);
    SortListsKeys(r2);
    forall k | k in s1
      ensures s1[k] == s2[k]
    {
      SortListsAt(r1, r2, k);
    }
    MapsAgree(s1, s2);
  }

  /** Two library-usage documents that differ only in the order of the
      symbols listed per library normalise to the same value, so they reach
      the same adviser cache entry. */
  lemma LibraryUsageOrderIrrelevant(lu1: Value, lu2: Value)
    requires lu1.Object? && lu2.Object?
    requires "report" in lu1.fields && "report" in lu2.fields
    requires lu1.fields - {"report"} == lu2.fields - {"report"}
    requires lu1.fields["report"].Object? && lu2.fields["report"].Object?
    requires SameReportUpToOrder(lu1.fields["report"].fields, lu2.fields["report"].fields)
    ensures NormalizeLibraryUsage(lu1).Ok?
    ensures NormalizeLibraryUsage(lu1) == NormalizeLibraryUsage(lu2)
  {
    var r1, r2 := lu1.fields["report"].fields, lu2.fields["report"].fields;
    if r1 == map[] {
      assert r2.Keys == {};
      UpdateSameOutside(lu1.fields, lu2.fields, "report", Object(map[]));
      assert lu1.fields == lu1.fields["report" := Object(map[])];
      assert lu2.fields == lu2.fields["report" := Object(map[])];
    } else {
      SameReportSortable(r1, r2);
      SortReportCanonical(r1, r2);
      NormalizeSortsReport(lu1);
      NormalizeSortsReport(lu2);
      UpdateSameOutside(lu1.fields, lu2.fields, "report", Object(SortLists(r1)));
    }
  }

  /** A non-empty sortable report is replaced by its sorted lists. */
  lemma NormalizeSortsReport(lu: Value)
    requires lu.Object? && "report" in lu.fields && lu.fields["report"].Object?
    requires lu.fields["report"].fields != map[] && Sortable(lu.fields["report"].fields)
    ensures NormalizeLibraryUsage(lu)
         == Ok(Object(lu.fields["report" := Object(SortLists(lu.fields["report"].fields))]))
  {
    assert lu.fields != map[];
    assert GetOr(lu.fields, "report", Null) == lu.fields["report"];
  }
}
