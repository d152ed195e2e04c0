/** Engine timings of several workers, merged and read as percentiles (internal/obs/engine_report.go,
    MergeEngineReports; internal/obs/snapshot.go, quantileAt and sortedBounds). */
module Histogram {
  import opened Reals

  /** How many observations are at most the edge. */
  type Buckets = map<real, nat>

  datatype Report = Report(buckets: Buckets, count: nat, played: nat, deduped: nat)


  // ---- Observations -------------------------------------------------------------------------------

  function AtMost(obs: seq<real>, x: real): nat {
    if obs == [] then 0 else AtMost(obs[..|obs| - 1], x) + if obs[|obs| - 1] <= x then 1 else 0
  }

  function Under(obs: seq<real>, x: real): nat {
    if obs == [] then 0 else Under(obs[..|obs| - 1], x) + if obs[|obs| - 1] < x then 1 else 0
  }

  /** The buckets a worker with these edges reports for what it observed. */
  ghost predicate Summarizes(b: Buckets, edges: set<real>, obs: seq<real>) {
    b.Keys == edges && forall e | e in b :: b[e] == AtMost(obs, e)
  }

  lemma {:induction false} AtMostOfBoth(s: seq<real>, t: seq<real>, x: real)
    ensures AtMost(s + t, x) == AtMost(s, x) + AtMost(t, x)
  {
    if t == [] {
      assert s + t == s;
    } else {
      assert (s + t)[..|s + t| - 1] == s + t[..|t| - 1];
      AtMostOfBoth(s, t[..|t| - 1], x);
    }
  }

  lemma {:induction false} AtMostGrows(obs: seq<real>, x: real, y: real)
    requires x <= y
    ensures AtMost(obs, x) <= AtMost(obs, y) <= |obs|
    ensures x < y ==> AtMost(obs, x) <= Under(obs, y)
    ensures Under(obs, x) <= AtMost(obs, x)
  {
    if obs != [] { AtMostGrows(obs[..|obs| - 1], x, y); }
  }

  // ---- Merging ------------------------------------------------------------------------------------

  function Of(b: Buckets, e: real): nat { if e in b then b[e] else 0 }

  /** One bucket summed over the reports. */
  function SumAt(reports: seq<Report>, e: real): nat {
    if reports == [] then 0 else SumAt(reports[..|reports| - 1], e) + Of(reports[|reports| - 1].buckets, e)
  }

  function Counts(reports: seq<Report>): (nat, nat, nat) {
    if reports == [] then (0, 0, 0)
    else
      var (c, p, d) := Counts(reports[..|reports| - 1]);
      var r := reports[|reports| - 1];
      (c + r.count, p + r.played, d + r.deduped)
  }

  ghost predicate Summed(merged: Buckets, reports: seq<Report>) {
    && (forall e :: e in merged <==> exists r | r in reports :: e in r.buckets)
    && (forall e | e in merged :: merged[e] == SumAt(reports, e))
  }

  ghost predicate Added(merged: Buckets, into: Buckets, b: Buckets) {
    && (forall e :: e in merged <==> e in into || e in b)
    && (forall e | e in merged :: merged[e] == Of(into, e) + Of(b, e))
  }

  lemma SummedWithOneMore(merged: Buckets, into: Buckets, before: seq<Report>, r: Report)
    requires Summed(into, before) && Added(merged, into, r.buckets)
    ensures Summed(merged, before + [r])
  {
    var reports := before + [r];
    assert reports[..|before|] == before;
    forall e ensures e in merged <==> exists r | r in reports :: e in r.buckets {
      if e in into {
        var r :| r in before && e in r.buckets;
        assert r in reports;
      }
      if e in r.buckets { assert r in reports; }
    }
    forall e | e in merged ensures merged[e] == SumAt(reports, e) {
      if e !in into { NowhereIsZero(before, e); }
    }
  }

  lemma {:induction false} NowhereIsZero(reports: seq<Report>, e: real)
    requires forall r | r in reports :: e !in r.buckets
    ensures SumAt(reports, e) == 0
  {
    if reports != [] { NowhereIsZero(reports[..|reports| - 1], e); }
  }

  method Merge(reports: seq<Report>) returns (merged: Buckets, total: nat, played: nat, deduped: nat)
    ensures Summed(merged, reports) && (total, played, deduped) == Counts(reports)
  {
    merged, total, played, deduped := map[], 0, 0, 0;
    assert Summed(merged, reports[..0]);
    hide Summed, Added, SumAt;
    for i := 0 to |reports|
      invariant Summed(merged, reports[..i]) && (total, played, deduped) == Counts(reports[..i])
    {
      assert reports[..i + 1] == reports[..i] + [reports[i]];
      assert reports[..i + 1][..i] == reports[..i];
      total := total + reports[i].count;
      played := played + reports[i].played;
      deduped := deduped + reports[i].deduped;
      ghost var into := merged;
      merged := AddBuckets(merged, reports[i].buckets);
      SummedWithOneMore(merged, into, reports[..i], reports[i]);
    }
    assert reports[..|reports|] == reports;
  }

  lemma SomeIn(keys: set<real>)
    requires keys != {}
    ensures exists e :: e in keys
  {
    assert (exists e :: e in keys) || keys == {};
  }

  method AddBuckets(into: Buckets, b: Buckets) returns (merged: Buckets)
    ensures Added(merged, into, b)
  {
    merged := into;
    var keys := b.Keys;
    while keys != {}
      invariant keys <= b.Keys
      invariant forall e :: e in merged <==> e in into || (e in b && e !in keys)
      invariant forall e | e in merged && e in keys :: merged[e] == Of(into, e)
      invariant forall e | e in merged && e !in keys :: merged[e] == Of(into, e) + Of(b, e)
      decreases |keys|
    {
      SomeIn(keys);
      var e :| e in keys;
      keys := keys - {e};
      merged := merged[e := (if e in merged then merged[e] else 0) + b[e]];
    }
  }

  function Pooled(all: seq<seq<real>>): seq<real> {
    if all == [] then [] else Pooled(all[..|all| - 1]) + all[|all| - 1]
  }

  /** Summing the cumulative buckets of workers with the same edges is bucketing everything they
      observed together. */
  lemma {:induction false} SumIsPooled(reports: seq<Report>, edges: set<real>, all: seq<seq<real>>, e: real)
    requires |reports| == |all|
    requires forall i | 0 <= i < |all| :: Summarizes(reports[i].buckets, edges, all[i]) && reports[i].count == |all[i]|
    ensures Counts(reports).0 == |Pooled(all)|
    ensures e in edges ==> SumAt(reports, e) == AtMost(Pooled(all), e)
    ensures e !in edges ==> SumAt(reports, e) == 0
  {
    if reports != [] {
      var last := |reports| - 1;
      SumIsPooled(reports[..last], edges, all[..last], e);
      AtMostOfBoth(Pooled(all[..last]), all[last], e);
    }
  }

  lemma MergedSummarizesAll(merged: Buckets, reports: seq<Report>, edges: set<real>, all: seq<seq<real>>)
    requires Summed(merged, reports) && |reports| == |all| > 0
    requires forall i | 0 <= i < |all| :: Summarizes(reports[i].buckets, edges, all[i]) && reports[i].count == |all[i]|
    ensures Summarizes(merged, edges, Pooled(all))
  {
    forall e ensures e in merged <==> e in edges {
      assert reports[0] in reports;
    }
    forall e | e in merged ensures merged[e] == AtMost(Pooled(all), e) {
      SumIsPooled(reports, edges, all, e);
    }
  }

  // ---- Quantiles ----------------------------------------------------------------------------------

  predicate Sorted(bounds: seq<real>) {
    forall i, j | 0 <= i < j < |bounds| :: bounds[i] < bounds[j]
  }

  /** sortedBounds: a map's keys in order. The library sort is an insertion here. */
  method SortedBounds(buckets: Buckets) returns (bounds: seq<real>)
    ensures Sorted(bounds) && forall e :: e in bounds <==> e in buckets
  {
    bounds := [];
    var keys := buckets.Keys;
    while keys != {}
      invariant keys <= buckets.Keys && Sorted(bounds)
      invariant forall e :: e in bounds <==> e in buckets && e !in keys
      decreases |keys|
    {
      SomeIn(keys);
      var e :| e in keys;
      keys := keys - {e};
      bounds := Inserted(bounds, e);
    }
  }

  function Inserted(bounds: seq<real>, e: real): (r: seq<real>)
    requires Sorted(bounds) && e !in bounds
    ensures Sorted(r) && forall x :: x in r <==> x in bounds || x == e
  {
    if bounds == [] then [e]
    else
      var last := bounds[|bounds| - 1];
      assert bounds == bounds[..|bounds| - 1] + [last];
      if last < e then bounds + [e]
      else
        var r := Inserted(bounds[..|bounds| - 1], e);
        assert forall i | 0 <= i < |r| :: r[i] in r && r[i] < last;
        r + [last]
  }

  function IsInf(x: real): bool { x > 1e300 }

  predicate Covered(bounds: seq<real>, cumulative: Buckets) {
    forall i | 0 <= i < |bounds| :: bounds[i] in cumulative
  }

  /** How many bounds the scan passes: those that count fewer than the rank. */
  function Passed(bounds: seq<real>, cumulative: Buckets, rank: real): (n: nat)
    requires Covered(bounds, cumulative)
    ensures n <= |bounds| && (forall i | 0 <= i < n :: cumulative[bounds[i]] as real < rank)
    ensures n < |bounds| ==> cumulative[bounds[n]] as real >= rank
  {
    if bounds == [] || cumulative[bounds[0]] as real >= rank then 0
    else 1 + Passed(bounds[1..], cumulative, rank)
  }

  function Rank(q: real, total: nat): real { q * total as real }

  function Between(from: real, to: real, part: real, span: int): real
    requires span != 0
  {
    from + (to - from) * part / span as real
  }

  function Interpolated(from: real, to: real, below: nat, count: nat, rank: real): real {
    if count == below then to else Between(from, to, rank - below as real, count - below)
  }

  /** The value read off: inside the bucket the rank falls into, or the last finite edge. */
  function Quantile(bounds: seq<real>, cumulative: Buckets, total: nat, q: real): real
    requires Covered(bounds, cumulative)
  {
    var rank := Rank(q, total);
    var n := Passed(bounds, cumulative, rank);
    var from, below := if n == 0 then 0.0 else bounds[n - 1], if n == 0 then 0 else cumulative[bounds[n - 1]];
    if n == |bounds| || IsInf(bounds[n]) then from
    else Interpolated(from, bounds[n], below, cumulative[bounds[n]], rank)
  }

  /** The scan passed n edges, and v lies on the line from the last of them with its count to the next one
      with its count. */
  ghost predicate ReadsOff(bounds: seq<real>, cumulative: Buckets, total: nat, q: real, v: real, n: nat)
    requires Covered(bounds, cumulative) && n <= |bounds|
  {
    var rank := q * total as real;
    var from := if n == 0 then 0.0 else bounds[n - 1];
    var below := if n == 0 then 0 else cumulative[bounds[n - 1]];
    && (forall i | 0 <= i < n :: cumulative[bounds[i]] as real < rank)
    && (n < |bounds| ==> rank <= cumulative[bounds[n]] as real)
    && if n == |bounds| || bounds[n] > 1e300 then v == from
       else if cumulative[bounds[n]] == below then v == bounds[n]
       else (v - from) * (cumulative[bounds[n]] - below) as real == (bounds[n] - from) * (rank - below as real)
  }

  lemma OnTheLine(from: real, to: real, part: real, span: int)
    requires span != 0
    ensures (Between(from, to, part, span) - from) * span as real == (to - from) * part
  {
    var q := (to - from) * part / span as real;
    assert q * span as real == (to - from) * part;
  }

  lemma QuantileReadsOff(bounds: seq<real>, cumulative: Buckets, total: nat, q: real)
    requires Covered(bounds, cumulative)
    ensures exists n | 0 <= n <= |bounds| ::
      ReadsOff(bounds, cumulative, total, q, Quantile(bounds, cumulative, total, q), n)
  {
    var rank := Rank(q, total);
    var n := Passed(bounds, cumulative, rank);
    var from, below := if n == 0 then 0.0 else bounds[n - 1], if n == 0 then 0 else cumulative[bounds[n - 1]];
    if n < |bounds| && cumulative[bounds[n]] != below {
      OnTheLine(from, bounds[n], rank - below as real, cumulative[bounds[n]] - below);
    }
    hide Between;
    assert ReadsOff(bounds, cumulative, total, q, Quantile(bounds, cumulative, total, q), n);
  }

  lemma {:induction false} PassedFrom(bounds: seq<real>, cumulative: Buckets, rank: real, i: nat)
    requires Covered(bounds, cumulative)
    requires i <= |bounds| && (forall j | 0 <= j < i :: cumulative[bounds[j]] as real < rank)
    requires i < |bounds| ==> cumulative[bounds[i]] as real >= rank
    ensures Passed(bounds, cumulative, rank) == i
  {
    var n := Passed(bounds, cumulative, rank);
    assert !(n < i) && !(i < n);
  }

  method QuantileAt(bounds: seq<real>, cumulative: Buckets, total: nat, q: real) returns (v: real)
    requires Covered(bounds, cumulative)
    ensures v == Quantile(bounds, cumulative, total, q)
    ensures exists n | 0 <= n <= |bounds| :: ReadsOff(bounds, cumulative, total, q, v, n)
  {
    QuantileReadsOff(bounds, cumulative, total, q);
    hide Between, Rank;
    var rank := Rank(q, total);
    var prevBound, prevCount := 0.0, 0;
    for i := 0 to |bounds|
      invariant forall j | 0 <= j < i :: cumulative[bounds[j]] as real < rank
      invariant prevBound == (if i == 0 then 0.0 else bounds[i - 1])
      invariant prevCount == if i == 0 then 0 else cumulative[bounds[i - 1]]
    {
      var b := bounds[i];
      var count := cumulative[b];
      if count as real < rank {
        prevBound, prevCount := b, count;
        continue;
      }
      PassedFrom(bounds, cumulative, rank, i);
      if IsInf(b) { return prevBound; }
      var span := count - prevCount;
      if span == 0 { return b; }
      return Between(prevBound, b, rank - prevCount as real, span);
    }
    PassedFrom(bounds, cumulative, rank, |bounds|);
    return prevBound;
  }

  // ---- What a quantile means ----------------------------------------------------------------------

  /** x is the observation of this rank: fewer are below it, and enough are at most it. */
  ghost predicate OfRank(obs: seq<real>, rank: real, x: real) {
    Under(obs, x) as real < rank <= AtMost(obs, x) as real
  }

  /** There is one for every rank up to the number of observations. */
  lemma RankHasObservation(obs: seq<real>, rank: real) returns (x: real)
    requires 0.0 < rank <= |obs| as real
    ensures x in obs && OfRank(obs, rank, x)
  {
    x := Highest(obs);
    while Under(obs, x) as real >= rank
      invariant x in obs && rank <= AtMost(obs, x) as real
      decreases Under(obs, x)
    {
      var y := HighestUnder(obs, x);
      x := y;
    }
  }

  lemma {:induction false} Highest(obs: seq<real>) returns (x: real)
    requires obs != []
    ensures x in obs && AtMost(obs, x) == |obs|
  {
    var last := |obs| - 1;
    x := obs[last];
    if last > 0 {
      var y := Highest(obs[..last]);
      if y > x {
        x := y;
      } else {
        AtMostGrows(obs[..last], y, x);
      }
    }
  }

  /** The greatest observation below x counts as at most itself whatever is under x. */
  lemma {:induction false} HighestUnder(obs: seq<real>, x: real) returns (y: real)
    requires Under(obs, x) > 0
    ensures y in obs && y < x && AtMost(obs, y) == Under(obs, x) && Under(obs, y) < Under(obs, x)
  {
    var last := |obs| - 1;
    var before := obs[..last];
    if Under(before, x) > 0 {
      y := HighestUnder(before, x);
      if obs[last] < x && obs[last] > y {
        AtMostGrows(before, y, obs[last]);
        AtMostGrows(before, obs[last], obs[last]);
        BelowStays(before, obs[last], x);
        y := obs[last];
      }
    } else {
      y := obs[last];
      BelowStays(before, y, x);
      AtMostGrows(before, y, y);
    }
  }

  lemma BelowStays(obs: seq<real>, y: real, x: real)
    requires y < x
    ensures AtMost(obs, y) <= Under(obs, x)
  {
    AtMostGrows(obs, y, x);
  }

  /** x lies above the edge before the n-th, if there is one, and not above the n-th. */
  ghost predicate InBucket(bounds: seq<real>, n: nat, x: real)
    requires n < |bounds|
  {
    (n > 0 ==> bounds[n - 1] < x) && x <= bounds[n]
  }

  ghost predicate Readable(bounds: seq<real>, cumulative: Buckets, obs: seq<real>) {
    && Sorted(bounds) && Covered(bounds, cumulative)
    && (forall i | 0 <= i < |bounds| :: bounds[i] > 0.0 && cumulative[bounds[i]] == AtMost(obs, bounds[i]))
  }

  lemma BetweenIsInside(from: real, to: real, part: real, span: int)
    requires from < to && 0.0 < part <= span as real
    ensures from < Between(from, to, part, span) <= to
  {
    var w, s := to - from, span as real;
    var q := w * part / s;
    assert q * s == w * part;
    ProductOfPositives(w, part);
    if q <= 0.0 { ProductOfPositives(-q, s); }
    if part < s { ProductOfPositives(w, s - part); }
    assert w * (s - part) == w * s - w * part;
    assert (w - q) * s == w * s - q * s;
    if w - q < 0.0 { ProductOfPositives(q - w, s); }
  }

  /** The value read off and the true observation of that rank are in the same bucket, whenever the
      bucket is finite. */
  lemma SameBucket(bounds: seq<real>, cumulative: Buckets, obs: seq<real>, q: real, x: real)
    requires Readable(bounds, cumulative, obs) && Rank(q, |obs|) > 0.0 && OfRank(obs, Rank(q, |obs|), x)
    ensures var n := Passed(bounds, cumulative, Rank(q, |obs|));
      n < |bounds| && !IsInf(bounds[n]) ==>
        InBucket(bounds, n, x) && InBucket(bounds, n, Quantile(bounds, cumulative, |obs|, q))
  {
    var rank := Rank(q, |obs|);
    var n := Passed(bounds, cumulative, rank);
    if n < |bounds| && !IsInf(bounds[n]) {
      var from, below := if n == 0 then 0.0 else bounds[n - 1], if n == 0 then 0 else cumulative[bounds[n - 1]];
      var count := cumulative[bounds[n]];
      hide Rank, Between, AtMost, Under;
      BetweenIsInside(from, bounds[n], rank - below as real, count - below);
      if bounds[n] < x { AtMostGrows(obs, bounds[n], x); }
      if n > 0 && x <= bounds[n - 1] { AtMostGrows(obs, x, bounds[n - 1]); }
    }
  }

  lemma BetweenGrows(from: real, to: real, part: real, more: real, span: int)
    requires from <= to && 0.0 <= part <= more <= span as real && span > 0
    ensures from <= Between(from, to, part, span) <= Between(from, to, more, span) <= to
  {
    var w, s := to - from, span as real;
    QuotientOrder(0.0, w * part, s);
    QuotientOrder(w * part, w * more, s);
    QuotientOrder(w * more, w * s, s);
    if w > 0.0 {
      if part > 0.0 { ProductOfPositives(w, part); }
      if more > part { ProductOfPositives(w, more - part); }
      if s > more { ProductOfPositives(w, s - more); }
    }
    assert w * (more - part) == w * more - w * part && w * (s - more) == w * s - w * more;
  }

  /** The value at rank r, where the scan stopped at n. */
  lemma QuantileIsWithin(bounds: seq<real>, cumulative: Buckets, obs: seq<real>, q: real)
    requires Readable(bounds, cumulative, obs) && Rank(q, |obs|) >= 0.0
    ensures var n := Passed(bounds, cumulative, Rank(q, |obs|));
      var v := Quantile(bounds, cumulative, |obs|, q);
      && (if n == 0 then 0.0 else bounds[n - 1]) <= v
      && (n < |bounds| ==> v <= bounds[n])
  {
    var rank := Rank(q, |obs|);
    var n := Passed(bounds, cumulative, rank);
    if n < |bounds| {
      var from, below := if n == 0 then 0.0 else bounds[n - 1], if n == 0 then 0 else cumulative[bounds[n - 1]];
      var count := cumulative[bounds[n]];
      hide Rank, Between, AtMost, Under;
      if !IsInf(bounds[n]) && count != below {
        BetweenGrows(from, bounds[n], rank - below as real, rank - below as real, count - below);
      }
    }
  }

  lemma PassedGrows(bounds: seq<real>, cumulative: Buckets, r1: real, r2: real)
    requires Covered(bounds, cumulative) && r1 <= r2
    ensures Passed(bounds, cumulative, r1) <= Passed(bounds, cumulative, r2)
  {
    var n, k := Passed(bounds, cumulative, r1), Passed(bounds, cumulative, r2);
    assert !(k < n);
  }

  lemma SameBucketGrows(bounds: seq<real>, cumulative: Buckets, obs: seq<real>, q1: real, q2: real)
    requires Readable(bounds, cumulative, obs) && 0.0 <= Rank(q1, |obs|) <= Rank(q2, |obs|)
    requires Passed(bounds, cumulative, Rank(q1, |obs|)) == Passed(bounds, cumulative, Rank(q2, |obs|))
    ensures Quantile(bounds, cumulative, |obs|, q1) <= Quantile(bounds, cumulative, |obs|, q2)
  {
    var r1, r2 := Rank(q1, |obs|), Rank(q2, |obs|);
    var n := Passed(bounds, cumulative, r1);
    hide Rank, Between, AtMost, Under;
    if n < |bounds| && !IsInf(bounds[n]) {
      var from, below := if n == 0 then 0.0 else bounds[n - 1], if n == 0 then 0 else cumulative[bounds[n - 1]];
      var count := cumulative[bounds[n]];
      if count != below {
        BetweenGrows(from, bounds[n], r1 - below as real, r2 - below as real, count - below);
      }
    }
  }

  /** A higher q never reads lower: P50 <= P95 <= P99. */
  lemma QuantileIsMonotone(bounds: seq<real>, cumulative: Buckets, obs: seq<real>, q1: real, q2: real)
    requires Readable(bounds, cumulative, obs) && 0.0 <= Rank(q1, |obs|) <= Rank(q2, |obs|)
    ensures Quantile(bounds, cumulative, |obs|, q1) <= Quantile(bounds, cumulative, |obs|, q2)
  {
    hide Rank, Quantile, AtMost, Under;
    var n, k := Passed(bounds, cumulative, Rank(q1, |obs|)), Passed(bounds, cumulative, Rank(q2, |obs|));
    PassedGrows(bounds, cumulative, Rank(q1, |obs|), Rank(q2, |obs|));
    if n == k {
      SameBucketGrows(bounds, cumulative, obs, q1, q2);
    } else {
      QuantileIsWithin(bounds, cumulative, obs, q1);
      QuantileIsWithin(bounds, cumulative, obs, q2);
    }
  }

  lemma RanksAreOrdered(q1: real, q2: real, total: nat)
    requires 0.0 <= q1 <= q2
    ensures 0.0 <= Rank(q1, total) <= Rank(q2, total)
  {
    var s := total as real;
    if s > 0.0 {
      if q1 > 0.0 { ProductOfPositives(q1, s); }
      if q2 > q1 { ProductOfPositives(q2 - q1, s); }
      assert (q2 - q1) * s == q2 * s - q1 * s;
    }
  }

  datatype Quantiles = Quantiles(count: nat, p50: real, p95: real, p99: real)

  /** MergeEngineReports. None is the empty answer when nothing was counted. */
  method MergeEngineReports(reports: seq<Report>) returns (q: Quantiles, played: nat, deduped: nat)
    ensures (q.count, played, deduped) == Counts(reports)
    ensures forall edges, all | Pools(reports, edges, all) && |Pooled(all)| > 0 ::
      exists bounds, merged ::
        && Readable(bounds, merged, Pooled(all)) && (forall e :: e in bounds <==> e in edges)
        && q.p50 == Quantile(bounds, merged, |Pooled(all)|, 0.5)
        && q.p95 == Quantile(bounds, merged, |Pooled(all)|, 0.95)
        && q.p99 == Quantile(bounds, merged, |Pooled(all)|, 0.99)
        && q.p50 <= q.p95 <= q.p99
  {
    var merged, total;
    merged, total, played, deduped := Merge(reports);
    q := Quantiles(total, 0.0, 0.0, 0.0);
    forall edges, all | Pools(reports, edges, all) ensures total == |Pooled(all)| {
      SumIsPooled(reports, edges, all, 0.0);
    }
    if total != 0 {
      var bounds := SortedBounds(merged);
      assert Covered(bounds, merged) by { assert forall i | 0 <= i < |bounds| :: bounds[i] in bounds; }
      var p50 := QuantileAt(bounds, merged, total, 0.5);
      var p95 := QuantileAt(bounds, merged, total, 0.95);
      var p99 := QuantileAt(bounds, merged, total, 0.99);
      q := Quantiles(total, p50, p95, p99);
      forall edges, all | Pools(reports, edges, all) && |Pooled(all)| > 0
        ensures Readable(bounds, merged, Pooled(all)) && (forall e :: e in bounds <==> e in edges)
        ensures total == |Pooled(all)| && q.p50 <= q.p95 <= q.p99
      {
        MergedReads(bounds, merged, reports, edges, all);
      }
    }
  }

  /** Each report is what a worker with these positive edges says of its own observations. */
  ghost predicate Pools(reports: seq<Report>, edges: set<real>, all: seq<seq<real>>) {
    && |reports| == |all| && (forall e | e in edges :: e > 0.0)
    && forall i | 0 <= i < |all| :: Summarizes(reports[i].buckets, edges, all[i]) && reports[i].count == |all[i]|
  }

  lemma MergedReads(bounds: seq<real>, merged: Buckets, reports: seq<Report>, edges: set<real>, all: seq<seq<real>>)
    requires Pools(reports, edges, all) && Summed(merged, reports) && |Pooled(all)| > 0
    requires Sorted(bounds) && Covered(bounds, merged) && forall e :: e in bounds <==> e in merged
    ensures Readable(bounds, merged, Pooled(all)) && (forall e :: e in bounds <==> e in edges)
    ensures Counts(reports).0 == |Pooled(all)|
    ensures Quantile(bounds, merged, |Pooled(all)|, 0.5) <= Quantile(bounds, merged, |Pooled(all)|, 0.95)
    ensures Quantile(bounds, merged, |Pooled(all)|, 0.95) <= Quantile(bounds, merged, |Pooled(all)|, 0.99)
  {
    var obs := Pooled(all);
    SumIsPooled(reports, edges, all, 0.0);
    MergedSummarizesAll(merged, reports, edges, all);
    assert forall i | 0 <= i < |bounds| :: bounds[i] in bounds;
    RanksAreOrdered(0.5, 0.95, |obs|);
    RanksAreOrdered(0.95, 0.99, |obs|);
    QuantileIsMonotone(bounds, merged, obs, 0.5, 0.95);
    QuantileIsMonotone(bounds, merged, obs, 0.95, 0.99);
  }
}
