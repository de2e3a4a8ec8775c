/**
 The fixed-window rate limiter: one counter and one window start per tenant.
 */
module RateLimit {
  type Tenant = string

  /** Requests counted since `start`, and `start`. */
  datatype Bucket = Bucket(count: int, start: real)

  /** The limiter's answer to one request, and the bucket it leaves. */
  function Decide(limit: int, window: real, known: bool, b: Bucket, now: real): (r: (Bucket, bool)) {
    var b0 := if known then b else Bucket(0, now);
    var b1 := if now - b0.start >= window then Bucket(0, now) else b0;
    if b1.count + 1 > limit then (b1, false) else (Bucket(b1.count + 1, b1.start), true)
  }

  function Step(limit: int, window: real, buckets: map<Tenant, Bucket>, t: Tenant, now: real): (map<Tenant, Bucket>, bool) {
    if t == "" then (buckets, false)
    else
      var (b, ok) := Decide(limit, window, t in buckets, if t in buckets then buckets[t] else Bucket(0, now), now);
      (buckets[t := b], ok)
  }

  class FixedWindowTenantRateLimiter {
    const limit: int
    const windowS: real
    var buckets: map<Tenant, Bucket>

    constructor (limit: int, windowS: real)
      ensures this.limit == limit && this.windowS == windowS && buckets == map[]
    {
      this.limit, this.windowS := limit, windowS;
      buckets := map[];
    }

    method Allow(tenant: Tenant, now: real) returns (ok: bool)
      modifies this
      ensures (buckets, ok) == Step(limit, windowS, old(buckets), tenant, now)
    {
      if tenant == "" { return false; }
      var count, start := 0, now;
      if tenant in buckets {
        count, start := buckets[tenant].count, buckets[tenant].start;
      }
      if now - start >= windowS {
        count, start := 0, now;
      }
      if count + 1 > limit {
        buckets := buckets[tenant := Bucket(count, start)];
        return false;
      }
      buckets := buckets[tenant := Bucket(count + 1, start)];
      return true;
    }
  }

  // ----- Runs -----

  datatype Request = Request(tenant: Tenant, now: real)

  function Run(limit: int, window: real, reqs: seq<Request>): map<Tenant, Bucket> {
    if reqs == [] then map[]
    else
      var l := |reqs| - 1;
      Step(limit, window, Run(limit, window, reqs[..l]), reqs[l].tenant, reqs[l].now).0
  }

  /** Whether the last request of a run was allowed. */
  predicate LastAllowed(limit: int, window: real, reqs: seq<Request>)
    requires reqs != []
  {
    var l := |reqs| - 1;
    Step(limit, window, Run(limit, window, reqs[..l]), reqs[l].tenant, reqs[l].now).1
  }

  /** How many of a tenant's allowed requests fall in `[lo, hi)`. */
  function Allowed(limit: int, window: real, reqs: seq<Request>, t: Tenant, lo: real, hi: real): nat {
    if reqs == [] then 0
    else
      var r := reqs[|reqs| - 1];
      Allowed(limit, window, reqs[..|reqs| - 1], t, lo, hi)
        + if r.tenant == t && lo <= r.now < hi && LastAllowed(limit, window, reqs) then 1 else 0
  }

  /** How many of a tenant's allowed requests came at `lo` or later. */
  function AllowedFrom(limit: int, window: real, reqs: seq<Request>, t: Tenant, lo: real): nat {
    if reqs == [] then 0
    else
      var r := reqs[|reqs| - 1];
      AllowedFrom(limit, window, reqs[..|reqs| - 1], t, lo)
        + if r.tenant == t && lo <= r.now && LastAllowed(limit, window, reqs) then 1 else 0
  }

  predicate ClockNeverGoesBack(reqs: seq<Request>) {
    forall i, j :: 0 <= i < j < |reqs| ==> reqs[i].now <= reqs[j].now
  }

  lemma {:induction false} IntervalAsDifference(limit: int, window: real, reqs: seq<Request>, t: Tenant, lo: real, hi: real)
    requires lo <= hi
    ensures Allowed(limit, window, reqs, t, lo, hi) == AllowedFrom(limit, window, reqs, t, lo) - AllowedFrom(limit, window, reqs, t, hi)
    decreases |reqs|
  {
    if reqs != [] { IntervalAsDifference(limit, window, reqs[..|reqs| - 1], t, lo, hi); }
  }

  /** What the tenant's bucket says about the requests allowed so far. */
  ghost predicate BucketTells(limit: int, window: real, reqs: seq<Request>, t: Tenant, b: Bucket) {
    && 1 <= b.count <= limit
    && b.count == AllowedFrom(limit, window, reqs, t, b.start)
    && (forall x: real :: x >= b.start + window ==> AllowedFrom(limit, window, reqs, t, x) == 0)
    && (forall x: real :: x > b.start ==> AllowedFrom(limit, window, reqs, t, x) < b.count)
    && (forall x: real :: b.start - window < x <= b.start ==> AllowedFrom(limit, window, reqs, t, x) - b.count < limit)
  }

  /** No half-open interval of the window's length holds more than `2 * limit - 1`. */
  ghost predicate Bounded(limit: int, window: real, reqs: seq<Request>, t: Tenant) {
    forall x: real :: AllowedFrom(limit, window, reqs, t, x) - AllowedFrom(limit, window, reqs, t, x + window) < 2 * limit
  }

  lemma {:induction false} NoneInFuture(limit: int, window: real, reqs: seq<Request>, t: Tenant, x: real)
    requires forall i :: 0 <= i < |reqs| ==> reqs[i].now < x
    ensures AllowedFrom(limit, window, reqs, t, x) == 0
    decreases |reqs|
  {
    if reqs != [] { NoneInFuture(limit, window, reqs[..|reqs| - 1], t, x); }
  }

  ghost predicate Tells(limit: int, window: real, reqs: seq<Request>, t: Tenant) {
    var buckets := Run(limit, window, reqs);
    && Bounded(limit, window, reqs, t)
    && (t !in buckets ==> forall x: real :: AllowedFrom(limit, window, reqs, t, x) == 0)
    && (t in buckets ==> BucketTells(limit, window, reqs, t, buckets[t]))
  }

  lemma {:induction false} AlwaysTells(limit: int, window: real, reqs: seq<Request>, t: Tenant)
    requires limit >= 1 && window > 0.0 && t != "" && ClockNeverGoesBack(reqs)
    ensures Tells(limit, window, reqs, t)
    decreases |reqs|
  {
    if reqs != [] {
      var l := |reqs| - 1;
      AlwaysTells(limit, window, reqs[..l], t);
      if reqs[l].tenant == t {
        TellsAfter(limit, window, reqs, t);
      } else {
        assert forall x: real :: AllowedFrom(limit, window, reqs, t, x) == AllowedFrom(limit, window, reqs[..l], t, x);
      }
    }
  }

  lemma TellsAfter(limit: int, window: real, reqs: seq<Request>, t: Tenant)
    requires limit >= 1 && window > 0.0 && t != "" && ClockNeverGoesBack(reqs)
    requires reqs != [] && reqs[|reqs| - 1].tenant == t && Tells(limit, window, reqs[..|reqs| - 1], t)
    ensures Tells(limit, window, reqs, t)
  {
    var init, now := reqs[..|reqs| - 1], reqs[|reqs| - 1].now;
    var buckets := Run(limit, window, init);
    forall x: real | x > now ensures AllowedFrom(limit, window, init, t, x) == 0 { NoneInFuture(limit, window, init, t, x); }
    var b' := Run(limit, window, reqs)[t];
    var ok := LastAllowed(limit, window, reqs);
    forall x: real ensures AllowedFrom(limit, window, reqs, t, x) == AllowedFrom(limit, window, init, t, x) + if x <= now && ok then 1 else 0 {
    }
    if t in buckets && now - buckets[t].start < window {
      SameWindow(limit, window, reqs, init, t, now, buckets[t], b', ok);
    } else {
      NewWindow(limit, window, reqs, init, t, now, b');
    }
  }

  lemma SameWindow(limit: int, window: real, reqs: seq<Request>, init: seq<Request>, t: Tenant, now: real, b: Bucket, b': Bucket, ok: bool)
    requires limit >= 1 && window > 0.0 && Bounded(limit, window, init, t) && BucketTells(limit, window, init, t, b)
    requires now - b.start < window
    requires ok == (b.count + 1 <= limit) && b' == (if ok then Bucket(b.count + 1, b.start) else b)
    requires forall x: real :: x > now ==> AllowedFrom(limit, window, init, t, x) == 0
    requires forall x: real :: AllowedFrom(limit, window, reqs, t, x) == AllowedFrom(limit, window, init, t, x) + if x <= now && ok then 1 else 0
    ensures BucketTells(limit, window, reqs, t, b') && Bounded(limit, window, reqs, t)
  {
    assert b.start > now ==> AllowedFrom(limit, window, init, t, b.start) == 0;
    forall x: real ensures AllowedFrom(limit, window, reqs, t, x) - AllowedFrom(limit, window, reqs, t, x + window) < 2 * limit {
      if x <= now < x + window {
        if x > b.start {
          assert AllowedFrom(limit, window, init, t, x) < b.count;
        }
      }
    }
  }

  lemma NewWindow(limit: int, window: real, reqs: seq<Request>, init: seq<Request>, t: Tenant, now: real, b': Bucket)
    requires limit >= 1 && window > 0.0 && Tells(limit, window, init, t)
    requires var buckets := Run(limit, window, init); t in buckets ==> now - buckets[t].start >= window
    requires b' == Bucket(1, now)
    requires forall x: real :: x > now ==> AllowedFrom(limit, window, init, t, x) == 0
    requires forall x: real :: AllowedFrom(limit, window, reqs, t, x) == AllowedFrom(limit, window, init, t, x) + if x <= now then 1 else 0
    ensures BucketTells(limit, window, reqs, t, b') && Bounded(limit, window, reqs, t)
  {
    var buckets := Run(limit, window, init);
    forall x: real | now - window < x ensures AllowedFrom(limit, window, init, t, x) < limit {
      if t in buckets { assert x > buckets[t].start; }
    }
    assert AllowedFrom(limit, window, init, t, now) == 0;
    forall x: real ensures AllowedFrom(limit, window, reqs, t, x) - AllowedFrom(limit, window, reqs, t, x + window) < 2 * limit {
      if x <= now < x + window { assert now - window < x; }
    }
  }

  /**
   With a clock that never goes back, any half-open interval as long as the
   window holds at most `2 * limit - 1` allowed requests of a tenant, and the
   current counter window at most `limit`.
   */
  lemma IntervalBound(limit: int, window: real, reqs: seq<Request>, t: Tenant, x: real)
    requires window > 0.0 && ClockNeverGoesBack(reqs)
    ensures limit >= 1 ==> Allowed(limit, window, reqs, t, x, x + window) <= 2 * limit - 1
    ensures limit <= 0 || t == "" ==> Allowed(limit, window, reqs, t, x, x + window) == 0
    ensures var buckets := Run(limit, window, reqs);
            limit >= 1 && t != "" && t in buckets ==> AllowedFrom(limit, window, reqs, t, buckets[t].start) == buckets[t].count <= limit
  {
    if limit <= 0 || t == "" {
      NeverAllowed(limit, window, reqs, t, x, x + window);
    } else {
      AlwaysTells(limit, window, reqs, t);
      IntervalAsDifference(limit, window, reqs, t, x, x + window);
    }
  }

  lemma {:induction false} NeverAllowed(limit: int, window: real, reqs: seq<Request>, t: Tenant, lo: real, hi: real)
    requires limit <= 0 || t == ""
    ensures Allowed(limit, window, reqs, t, lo, hi) == 0
    ensures t in Run(limit, window, reqs) ==> Run(limit, window, reqs)[t].count >= 0
    decreases |reqs|
  {
    if reqs != [] { NeverAllowed(limit, window, reqs[..|reqs| - 1], t, lo, hi); }
  }

  // ----- The bound is met -----

  /** `limit` requests at `a`, then at `b` and so on: a run that packs an interval as full as it gets. */
  function Burst(t: Tenant, at: real, n: nat): (r: seq<Request>)
    ensures |r| == n && forall i :: 0 <= i < n ==> r[i] == Request(t, at)
  {
    if n == 0 then [] else Burst(t, at, n - 1) + [Request(t, at)]
  }

  ghost predicate Holds(limit: int, window: real, reqs: seq<Request>, t: Tenant, b: Bucket) {
    t in Run(limit, window, reqs) && Run(limit, window, reqs)[t] == b
  }

  lemma OneMore(limit: int, window: real, reqs: seq<Request>, t: Tenant, at: real, b: Bucket, lo: real, hi: real)
    requires t != "" && Holds(limit, window, reqs, t, b)
    requires at - b.start < window && b.count + 1 <= limit && lo <= at < hi
    ensures Holds(limit, window, reqs + [Request(t, at)], t, Bucket(b.count + 1, b.start))
    ensures Allowed(limit, window, reqs + [Request(t, at)], t, lo, hi) == Allowed(limit, window, reqs, t, lo, hi) + 1
  {
    assert (reqs + [Request(t, at)])[..|reqs|] == reqs;
  }

  /** Adding a burst of `n` to a bucket with room for it admits all of it. */
  lemma {:induction false} BurstAdmitted(limit: int, window: real, reqs: seq<Request>, t: Tenant, at: real, n: nat, b: Bucket, lo: real, hi: real)
    requires t != "" && Holds(limit, window, reqs, t, b)
    requires at - b.start < window && b.count + n <= limit && lo <= at < hi
    ensures Holds(limit, window, reqs + Burst(t, at, n), t, Bucket(b.count + n, b.start))
    ensures Allowed(limit, window, reqs + Burst(t, at, n), t, lo, hi) == Allowed(limit, window, reqs, t, lo, hi) + n
    decreases n
  {
    hide Holds, Allowed;
    if n == 0 {
      assert reqs + Burst(t, at, 0) == reqs;
    } else {
      BurstAdmitted(limit, window, reqs, t, at, n - 1, b, lo, hi);
      OneMore(limit, window, reqs + Burst(t, at, n - 1), t, at, Bucket(b.count + n - 1, b.start), lo, hi);
      assert reqs + Burst(t, at, n) == reqs + Burst(t, at, n - 1) + [Request(t, at)];
    }
  }

  lemma OpensWindow(limit: int, window: real, reqs: seq<Request>, t: Tenant, at: real, lo: real, hi: real)
    requires t != "" && limit >= 1 && window > 0.0
    requires reqs == [] || exists b :: Holds(limit, window, reqs, t, b) && at - b.start >= window
    ensures Holds(limit, window, reqs + [Request(t, at)], t, Bucket(1, at))
    ensures Allowed(limit, window, reqs + [Request(t, at)], t, lo, hi)
         == Allowed(limit, window, reqs, t, lo, hi) + if lo <= at < hi then 1 else 0
  {
    assert (reqs + [Request(t, at)])[..|reqs|] == reqs;
  }

  /**
   The bound is met whatever the window: one request opens a counter window
   at 0, `limit - 1` more come half way through it, and `limit` when it ends;
   the latter all fall within one window's length.
   */
  lemma BoundIsMet(limit: int, window: real, t: Tenant) returns (reqs: seq<Request>, from: real)
    requires limit >= 1 && window > 0.0 && t != ""
    ensures ClockNeverGoesBack(reqs)
    ensures Allowed(limit, window, reqs, t, from, from + window) == 2 * limit - 1
  {
    hide Holds, Allowed, Burst, Run, Step;
    from := window / 2.0;
    var to := from + window;
    var first := [] + [Request(t, 0.0)];
    var second := first + Burst(t, from, limit - 1);
    var third := second + [Request(t, window)];
    reqs := third + Burst(t, window, limit - 1);
    NoneYet(limit, window, t, from, to);
    OpensWindow(limit, window, [], t, 0.0, from, to);
    BurstAdmitted(limit, window, first, t, from, limit - 1, Bucket(1, 0.0), from, to);
    OpensWindow(limit, window, second, t, window, from, to);
    BurstAdmitted(limit, window, third, t, window, limit - 1, Bucket(1, window), from, to);
    InOrder(t, from, window, limit - 1);
  }

  lemma NoneYet(limit: int, window: real, t: Tenant, lo: real, hi: real)
    ensures Allowed(limit, window, [], t, lo, hi) == 0
  {
  }

  lemma InOrder(t: Tenant, half: real, end: real, n: nat)
    requires 0.0 <= half <= end
    ensures ClockNeverGoesBack([] + [Request(t, 0.0)] + Burst(t, half, n) + [Request(t, end)] + Burst(t, end, n))
  {
    hide Burst;
  }

  /** The interval of the window's length that starts at `x` keeps to the limit. */
  ghost predicate KeepsLimit(limit: int, window: real, reqs: seq<Request>, t: Tenant, x: real) {
    Allowed(limit, window, reqs, t, x, x + window) <= if limit > 0 then limit else 0
  }

  /** The limit holds over every interval of the window's length in every run exactly when it is at most one. */
  lemma LimitHoldsExactly(limit: int, window: real, t: Tenant)
    requires window > 0.0 && t != ""
    ensures (forall reqs, x :: ClockNeverGoesBack(reqs) ==> KeepsLimit(limit, window, reqs, t, x)) <==> limit <= 1
  {
    hide Allowed, Run;
    if limit <= 1 {
      forall reqs, x | ClockNeverGoesBack(reqs) ensures KeepsLimit(limit, window, reqs, t, x) {
        IntervalBound(limit, window, reqs, t, x);
      }
    } else {
      var reqs, from := BoundIsMet(limit, window, t);
      assert !KeepsLimit(limit, window, reqs, t, from);
    }
  }

  // ----- Every answer, from the requests alone -----

  /** The request that opened a tenant's present window: its first, or the latest one that came a window or more after the one before it opened. */
  function Opening(window: real, reqs: seq<Request>, t: Tenant): (k: int)
    ensures -1 <= k < |reqs| && (k >= 0 ==> reqs[k].tenant == t)
  {
    if reqs == [] then -1
    else
      var l := |reqs| - 1;
      var k := Opening(window, reqs[..l], t);
      if reqs[l].tenant == t && (k < 0 || reqs[l].now - reqs[k].now >= window) then l else k
  }

  /** How many of the tenant's requests were allowed from request `k` on. */
  function AllowedSince(limit: int, window: real, reqs: seq<Request>, t: Tenant, k: int): nat {
    if reqs == [] || |reqs| <= k then 0
    else
      var l := |reqs| - 1;
      AllowedSince(limit, window, reqs[..l], t, k) + if reqs[l].tenant == t && LastAllowed(limit, window, reqs) then 1 else 0
  }

  /** A tenant's bucket is the time its window opened and what was allowed since. */
  lemma {:induction false} BucketIsWindow(limit: int, window: real, reqs: seq<Request>, t: Tenant)
    requires t != ""
    ensures var buckets, k := Run(limit, window, reqs), Opening(window, reqs, t);
            && (t in buckets <==> k >= 0)
            && (k >= 0 ==> buckets[t] == Bucket(AllowedSince(limit, window, reqs, t, k), reqs[k].now))
    decreases |reqs|
  {
    if reqs != [] {
      var l := |reqs| - 1;
      BucketIsWindow(limit, window, reqs[..l], t);
      NothingSince(limit, window, reqs[..l], t);
    }
  }

  lemma NothingSince(limit: int, window: real, reqs: seq<Request>, t: Tenant)
    ensures AllowedSince(limit, window, reqs, t, |reqs|) == 0
  {
  }

  /** In every run, whatever the clock does: a request is allowed if and only if it names a tenant and fewer than the limit were allowed since its window opened. */
  lemma AllowedExactly(limit: int, window: real, reqs: seq<Request>)
    requires reqs != []
    ensures var l := |reqs| - 1;
            var t := reqs[l].tenant;
            LastAllowed(limit, window, reqs)
            <==> t != "" && AllowedSince(limit, window, reqs[..l], t, Opening(window, reqs, t)) < limit
  {
    var l := |reqs| - 1;
    if reqs[l].tenant != "" {
      BucketIsWindow(limit, window, reqs[..l], reqs[l].tenant);
      NothingSince(limit, window, reqs[..l], reqs[l].tenant);
    }
  }

  // ----- Tenants do not affect each other -----

  function Own(reqs: seq<Request>, t: Tenant): seq<Request> {
    if reqs == [] then []
    else Own(reqs[..|reqs| - 1], t) + if reqs[|reqs| - 1].tenant == t then [reqs[|reqs| - 1]] else []
  }

  /** A tenant's bucket, and so every answer it gets, is that of its own requests alone. */
  lemma {:induction false} TenantsIndependent(limit: int, window: real, reqs: seq<Request>, t: Tenant)
    ensures var all, own := Run(limit, window, reqs), Run(limit, window, Own(reqs, t));
            (t in all <==> t in own) && (t in all ==> all[t] == own[t])
    ensures reqs != [] && reqs[|reqs| - 1].tenant == t ==>
              Own(reqs, t) != [] && (LastAllowed(limit, window, reqs) <==> LastAllowed(limit, window, Own(reqs, t)))
    decreases |reqs|
  {
    if reqs != [] {
      var l := |reqs| - 1;
      TenantsIndependent(limit, window, reqs[..l], t);
      if reqs[l].tenant == t {
        assert Own(reqs, t)[..|Own(reqs, t)| - 1] == Own(reqs[..l], t);
      } else {
        assert Own(reqs, t) == Own(reqs[..l], t);
      }
    }
  }
}
