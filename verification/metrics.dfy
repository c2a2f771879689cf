/** `MetricsValues` of metrics.py: four cache-hit counters, split by
    service (adviser, provenance checker) and by whether the request was
    authenticated. Python integers do not overflow, so neither do these. */
module Metrics {

  datatype Counters = Counters(
    adviserAuth: nat,
    adviserUnauth: nat,
    provenanceAuth: nat,
    provenanceUnauth: nat)

  /** `MetricsValues()`: every counter at zero. */
  function Initial(): (c: Counters)
    ensures Total(c) == 0
  {
    Counters(0, 0, 0, 0)
  }

  function Total(c: Counters): nat {
    c.adviserAuth + c.adviserUnauth + c.provenanceAuth + c.provenanceUnauth
  }

  /** `update_adviser_cache_hit_metric(is_auth)` */
  function UpdateAdviserCacheHit(c: Counters, isAuth: bool): (r: Counters)
    ensures isAuth ==> r == c.(adviserAuth := c.adviserAuth + 1)
    ensures !isAuth ==> r == c.(adviserUnauth := c.adviserUnauth + 1)
    ensures Total(r) == Total(c) + 1
  {
    if isAuth then c.(adviserAuth := c.adviserAuth + 1)
    else c.(adviserUnauth := c.adviserUnauth + 1)
  }

  /** `update_provenance_checker_cache_hit_metric(is_auth)` */
  function UpdateProvenanceCheckerCacheHit(c: Counters, isAuth: bool): (r: Counters)
    ensures isAuth ==> r == c.(provenanceAuth := c.provenanceAuth + 1)
    ensures !isAuth ==> r == c.(provenanceUnauth := c.provenanceUnauth + 1)
    ensures Total(r) == Total(c) + 1
  {
    if isAuth then c.(provenanceAuth := c.provenanceAuth + 1)
    else c.(provenanceUnauth := c.provenanceUnauth + 1)
  }

  datatype Service = Adviser | ProvenanceChecker

  /** One call of an update method. */
  datatype Update = Update(service: Service, isAuth: bool)

  function Apply(c: Counters, u: Update): Counters {
    match u.service
    case Adviser => UpdateAdviserCacheHit(c, u.isAuth)
    case ProvenanceChecker => UpdateProvenanceCheckerCacheHit(c, u.isAuth)
  }

  /** The counters after a sequence of calls, in order. */
  function Replay(c: Counters, us: seq<Update>): Counters
    decreases |us|
  {
    if |us| == 0 then c else Replay(Apply(c, us[0]), us[1..])
  }

  /** The four counters together count every call made. */
  lemma {:induction false} TotalCountsCalls(c: Counters, us: seq<Update>)
    ensures Total(Replay(c, us)) == Total(c) + |us|
    decreases |us|
  {
    if |us| > 0 {
      TotalCountsCalls(Apply(c, us[0]), us[1..]);
    }
  }

  /** Each counter counts exactly the calls of its own kind. */
  lemma {:induction false} CountersCountTheirCalls(c: Counters, us: seq<Update>)
    ensures var r := Replay(c, us);
      && r.adviserAuth == c.adviserAuth + multiset(us)[Update(Adviser, true)]
      && r.adviserUnauth == c.adviserUnauth + multiset(us)[Update(Adviser, false)]
      && r.provenanceAuth == c.provenanceAuth + multiset(us)[Update(ProvenanceChecker, true)]
      && r.provenanceUnauth == c.provenanceUnauth + multiset(us)[Update(ProvenanceChecker, false)]
    decreases |us|
  {
    if |us| > 0 {
      assert us == [us[0]] + us[1..];
      assert multiset(us) == multiset([us[0]]) + multiset(us[1..]);
      CountersCountTheirCalls(Apply(c, us[0]), us[1..]);
    }
  }
}
