/** The token bucket evaluated inside Redis (internal/store/ratelimit.go). Clocks and token counts are
    reals; the clock is the caller's. */
module RateLimit {
  import opened Options
  import opened Reals

  /** A bucket size and a refill rate in tokens a second. */
  datatype Limit = Limit(capacity: real, refill: real) {
    ghost predicate Valid() {
      capacity >= 0.0 && refill > 0.0
    }
  }

  datatype Bucket = Bucket(tokens: real, ts: real)

  function Min(x: real, y: real): real { if x < y then x else y }

  function Elapsed(from: real, to: real): (r: real)
    ensures r >= 0.0
  {
    if to < from then 0.0 else to - from
  }

  /** The tokens a request finds; a missing bucket is a full one. */
  function Refilled(l: Limit, b: Option<Bucket>, now: real): real {
    match b
    case None => Min(l.capacity, l.capacity + Times(Elapsed(now, now), l.refill))
    case Some(k) => Min(l.capacity, k.tokens + Times(Elapsed(k.ts, now), l.refill))
  }

  /** One request. */
  function Asked(l: Limit, b: Option<Bucket>, now: real, cost: real): (Bucket, bool) {
    var tokens := Refilled(l, b, now);
    (Bucket(if tokens >= cost then tokens - cost else tokens, now), tokens >= cost)
  }

  ghost predicate InRange(l: Limit, b: Option<Bucket>) {
    b.Some? ==> 0.0 <= b.value.tokens <= l.capacity
  }

  lemma RefilledInRange(l: Limit, b: Option<Bucket>, now: real)
    requires l.Valid() && InRange(l, b)
    ensures 0.0 <= Refilled(l, b, now) <= l.capacity
    ensures b.None? ==> Refilled(l, b, now) == l.capacity
    ensures b.Some? ==> Refilled(l, b, now) >= b.value.tokens
  {
    match b
    case None =>
      assert Times(0.0, l.refill) == 0.0;
    case Some(k) =>
      GrowthIsPositive(Elapsed(k.ts, now), l.refill);
  }

  lemma GrowthIsPositive(dt: real, rate: real)
    requires dt >= 0.0 && rate > 0.0
    ensures Times(dt, rate) >= 0.0
  {
    if dt == 0.0 { assert 0.0 * rate == 0.0; }
  }

  /** math.ceil */
  function Ceiling(x: real): (n: int)
    ensures (n - 1) as real < x <= n as real
  {
    -(-x).Floor
  }

  function Ttl(l: Limit): int
    requires l.refill > 0.0
  {
    Ceiling(l.capacity / l.refill) + 1
  }

  /** A key outlives the refill of an empty bucket by at least one second and less than two. */
  lemma TtlOutlivesRefill(l: Limit)
    requires l.refill > 0.0
    ensures l.capacity / l.refill + 1.0 <= Ttl(l) as real < l.capacity / l.refill + 2.0
  {
    assert (Ceiling(l.capacity / l.refill) - 1) as real == Ceiling(l.capacity / l.refill) as real - 1.0;
  }

  /** A stored bucket and when its key expires, by the server's clock. */
  datatype Entry = Entry(bucket: Bucket, expires: real)

  function Unexpired(e: Option<Entry>, at: real): Option<Bucket> {
    if e.Some? && at < e.value.expires then Some(e.value.bucket) else None
  }

  /** What a request at server time `at` leaves under the key. */
  function Renewed(l: Limit, e: Option<Entry>, now: real, at: real, cost: real): Entry
    requires l.refill > 0.0
  {
    Entry(Asked(l, Unexpired(e, at), now, cost).0, at + Ttl(l) as real)
  }

  class Limiter {
    var keys: map<string, Entry>

    constructor ()
      ensures keys == map[]
    {
      keys := map[];
    }

    function Stored(name: string): Option<Entry>
      reads this
    {
      if name in keys then Some(keys[name]) else None
    }

    /** The script and Allow around it, at server time `at`; a failing Redis allows everything. */
    method Allow(name: string, l: Limit, now: real, at: real, cost: real, up: bool) returns (allowed: bool)
      requires l.refill > 0.0
      modifies this
      ensures !up ==> allowed && keys == old(keys)
      ensures up ==>
        && allowed == Asked(l, Unexpired(old(Stored(name)), at), now, cost).1
        && keys == old(keys)[name := Renewed(l, old(Stored(name)), now, at, cost)]
    {
      if !up { return true; }
      var state := Unexpired(Stored(name), at);
      var tokens, ts := l.capacity, now;
      if state.Some? {
        tokens, ts := state.value.tokens, state.value.ts;
      }
      var elapsed := now - ts;
      if elapsed < 0.0 { elapsed := 0.0; }
      tokens := Min(l.capacity, tokens + Times(elapsed, l.refill));
      allowed := false;
      if tokens >= cost {
        tokens := tokens - cost;
        allowed := true;
      }
      keys := keys[name := Entry(Bucket(tokens, now), at + Ttl(l) as real)];
    }
  }

  // ---- The bound ----------------------------------------------------------------------------------

  /** Requests on one bucket that never expires. */
  function After(l: Limit, b: Option<Bucket>, nows: seq<real>, cost: real): Option<Bucket> {
    if nows == [] then b
    else Some(Asked(l, After(l, b, nows[..|nows| - 1], cost), nows[|nows| - 1], cost).0)
  }

  function AllowedIn(l: Limit, b: Option<Bucket>, nows: seq<real>, cost: real): nat {
    if nows == [] then 0
    else
      var before := nows[..|nows| - 1];
      AllowedIn(l, b, before, cost)
        + if Asked(l, After(l, b, before, cost), nows[|nows| - 1], cost).1 then 1 else 0
  }

  /** How far the clocks moved forward from one request to the next, in all; steps back do not count
      against it. */
  function Forward(nows: seq<real>): real {
    if |nows| < 2 then 0.0
    else Forward(nows[..|nows| - 1]) + Elapsed(nows[|nows| - 2], nows[|nows| - 1])
  }

  /** While the key lives, the requests allowed cost no more than the capacity and what the forward
      clock movement refills, whatever was in the bucket and however the clocks step back. */
  lemma {:induction false} EverlastingIsBounded(l: Limit, b: Option<Bucket>, nows: seq<real>, cost: real)
    requires l.Valid() && InRange(l, b) && cost >= 0.0
    ensures InRange(l, After(l, b, nows, cost))
    ensures nows != [] ==>
      var end := After(l, b, nows, cost);
      && end.Some? && end.value.ts == nows[|nows| - 1]
      && Times(AllowedIn(l, b, nows, cost) as real, cost) + end.value.tokens
         <= l.capacity + Times(Forward(nows), l.refill)
    ensures Times(AllowedIn(l, b, nows, cost) as real, cost) <= l.capacity + Times(Forward(nows), l.refill)
  {
    hide Times, Min;
    if nows == [] {
      NoCost(cost);
      NoCost(l.refill);
    } else {
      var before := nows[..|nows| - 1];
      var now := nows[|nows| - 1];
      var held := After(l, b, before, cost);
      EverlastingIsBounded(l, b, before, cost);
      RefilledInRange(l, held, now);
      OneMore(AllowedIn(l, b, before, cost), cost);
      if before == [] {
        NoCost(l.refill);
        NoCost(cost);
      } else {
        RefillsAtMost(l, held.value, now);
        TimesSum(Forward(before), Elapsed(nows[|nows| - 2], now), l.refill);
      }
    }
  }

  lemma NoCost(x: real)
    ensures Times(0.0, x) == 0.0 && Times(0 as real, x) == 0.0
  {
  }

  lemma TimesSum(x: real, y: real, z: real)
    ensures Times(x + y, z) == Times(x, z) + Times(y, z)
  {
  }

  lemma OneMore(n: nat, cost: real)
    ensures Times((n + 1) as real, cost) == Times(n as real, cost) + cost
  {
  }

  lemma RefillsAtMost(l: Limit, k: Bucket, now: real)
    ensures Refilled(l, Some(k), now) <= k.tokens + Times(Elapsed(k.ts, now), l.refill)
  {
  }

  // ---- Clocks that disagree -----------------------------------------------------------------------

  /** How far the clocks stepped back from one request to the next, in all. */
  function Backward(nows: seq<real>): (r: real)
    ensures r >= 0.0
  {
    if |nows| < 2 then 0.0
    else Backward(nows[..|nows| - 1]) + Elapsed(nows[|nows| - 1], nows[|nows| - 2])
  }

  ghost predicate NeverBehind(nows: seq<real>) {
    forall i | 0 < i < |nows| :: nows[i - 1] <= nows[i]
  }

  lemma {:induction false} ForwardLessBackward(nows: seq<real>)
    ensures nows != [] ==> Forward(nows) - Backward(nows) == nows[|nows| - 1] - nows[0]
    ensures NeverBehind(nows) ==> Backward(nows) == 0.0
  {
    if |nows| > 1 {
      ForwardLessBackward(nows[..|nows| - 1]);
    }
  }

  /** Skew costs at most what refills in the time the clocks stepped back: beyond the capacity and the
      refill of the time from the first reading to the last, no window lets more through. So while no
      clock is behind the one before, nothing does. */
  lemma SkewAddsAtMostItsSteps(l: Limit, b: Option<Bucket>, nows: seq<real>, cost: real)
    requires l.Valid() && InRange(l, b) && cost >= 0.0 && nows != []
    ensures var spent := Times(AllowedIn(l, b, nows, cost) as real, cost);
      var span := nows[|nows| - 1] - nows[0];
      && spent <= l.capacity + Times(span, l.refill) + Times(Backward(nows), l.refill)
      && (NeverBehind(nows) ==> spent <= l.capacity + Times(span, l.refill))
  {
    hide AllowedIn, InRange, Times;
    EverlastingIsBounded(l, b, nows, cost);
    ForwardLessBackward(nows);
    TimesSum(nows[|nows| - 1] - nows[0], Backward(nows), l.refill);
    NoCost(l.refill);
  }

  /** Two callers taking turns, one `skew` ahead of the other. */
  function TakingTurns(skew: real, turns: nat): (r: seq<real>)
    ensures |r| == 2 * turns && forall x | x in r :: x == 0.0 || x == skew
  {
    if turns == 0 then [] else TakingTurns(skew, turns - 1) + [skew, 0.0]
  }

  /** One turn of both, from a bucket last asked at 0. */
  lemma OneTurn(l: Limit, b: Option<Bucket>, cost: real, skew: real)
    requires l.Valid() && InRange(l, b) && 0.0 < cost <= l.capacity && skew > 0.0
    requires b.Some? ==> b.value.ts == 0.0
    ensures var (first, ahead) := Asked(l, b, skew, cost);
      var (second, behind) := Asked(l, Some(first), 0.0, cost);
      && InRange(l, Some(second)) && second.ts == 0.0
      && (ahead || (b.Some? && second.tokens == b.value.tokens + Times(skew, l.refill) && second.tokens < cost))
      && (Times(skew, l.refill) >= cost ==> ahead)
  {
    RefilledInRange(l, b, skew);
    var first := Asked(l, b, skew, cost).0;
    RefilledInRange(l, Some(first), 0.0);
    assert Times(0.0, l.refill) == 0.0;
  }

  lemma TurnsAdd(l: Limit, cost: real, skew: real, turns: nat)
    requires turns > 0
    ensures var nows := TakingTurns(skew, turns);
      var held := After(l, None, TakingTurns(skew, turns - 1), cost);
      var (first, ahead) := Asked(l, held, skew, cost);
      var (second, behind) := Asked(l, Some(first), 0.0, cost);
      && After(l, None, nows, cost) == Some(second)
      && AllowedIn(l, None, nows, cost)
         == AllowedIn(l, None, TakingTurns(skew, turns - 1), cost)
            + (if ahead then 1 else 0) + (if behind then 1 else 0)
  {
    hide Asked;
    var before, nows := TakingTurns(skew, turns - 1), TakingTurns(skew, turns);
    assert nows[..|nows| - 1] == before + [skew] && (before + [skew])[..|before|] == before;
  }

  /** Any skew at all does widen the limit: every turn of two callers that far apart lets through its
      share of `skew` times the refill, for ever, though no clock passes `skew`; and once the skew is
      worth a request, every turn lets one through. */
  lemma {:induction false} SkewWidensTheLimit(l: Limit, cost: real, skew: real, turns: nat)
    requires l.Valid() && 0.0 < cost <= l.capacity && skew > 0.0
    ensures var allowed := AllowedIn(l, None, TakingTurns(skew, turns), cost);
      var gain := Min(Times(skew, l.refill), cost);
      && gain > 0.0
      && Times(allowed as real, cost + gain) >= Times(turns as real, gain)
      && (Times(skew, l.refill) >= cost ==> allowed >= turns)
    ensures var end := After(l, None, TakingTurns(skew, turns), cost);
      && InRange(l, end)
      && (end.Some? ==> end.value.ts == 0.0)
      && (turns > 0 ==> end.Some?)
      && Times(AllowedIn(l, None, TakingTurns(skew, turns), cost) as real, cost + Min(Times(skew, l.refill), cost))
         + (if end.Some? then Min(end.value.tokens, cost) else cost)
         >= Times(turns as real, Min(Times(skew, l.refill), cost)) + cost
  {
    hide Asked, TakingTurns, AllowedIn, After, Times;
    var gain := Min(Times(skew, l.refill), cost);
    if turns == 0 {
      NoTurns(l, cost, skew);
      NoCost(gain);
      NoCost(cost + gain);
    } else {
      SkewWidensTheLimit(l, cost, skew, turns - 1);
      var before := AllowedIn(l, None, TakingTurns(skew, turns - 1), cost);
      TurnsAdd(l, cost, skew, turns);
      OneTurn(l, After(l, None, TakingTurns(skew, turns - 1), cost), cost, skew);
      OneMore(before, cost + gain);
      OneMore(before + 1, cost + gain);
      OneMore(turns - 1, gain);
    }
  }

  lemma NoTurns(l: Limit, cost: real, skew: real)
    ensures AllowedIn(l, None, TakingTurns(skew, 0), cost) == 0
    ensures After(l, None, TakingTurns(skew, 0), cost) == None
  {
  }

  /** The clocks of two callers taking turns never leave 0..skew. The limit holds for them, however
      long they go on, exactly when they agree. */
  lemma LimitHoldsExactlyWithoutSkew(l: Limit, cost: real, skew: real)
    requires l.Valid() && 0.0 < cost <= l.capacity && skew >= 0.0
    ensures (forall turns: nat :: Times(AllowedIn(l, None, TakingTurns(skew, turns), cost) as real, cost)
                                  <= l.capacity + Times(skew, l.refill))
        <==> skew == 0.0
  {
    hide AllowedIn, Times, TakingTurns;
    if skew == 0.0 {
      forall turns: nat
        ensures Times(AllowedIn(l, None, TakingTurns(skew, turns), cost) as real, cost)
             <= l.capacity + Times(skew, l.refill)
      {
        var nows := TakingTurns(skew, turns);
        if nows == [] {
          EverlastingIsBounded(l, None, nows, cost);
        } else {
          assert forall i | 0 <= i < |nows| :: nows[i] in nows && nows[i] == 0.0;
          SkewAddsAtMostItsSteps(l, None, nows, cost);
        }
      }
    } else {
      var turns := EnoughTurns(l, cost, skew);
    }
  }

  /** So many turns that what they let through is above the limit. */
  lemma EnoughTurns(l: Limit, cost: real, skew: real) returns (turns: nat)
    requires l.Valid() && 0.0 < cost <= l.capacity && skew > 0.0
    ensures Times(AllowedIn(l, None, TakingTurns(skew, turns), cost) as real, cost)
         > l.capacity + Times(skew, l.refill)
  {
    hide AllowedIn, Times, TakingTurns, After, InRange;
    var gain, limit := Min(Times(skew, l.refill), cost), l.capacity + Times(skew, l.refill);
    SkewWidensTheLimit(l, cost, skew, 0);
    turns := Above(2.0 * limit / gain);
    SkewWidensTheLimit(l, cost, skew, turns);
    var allowed := AllowedIn(l, None, TakingTurns(skew, turns), cost);
    MoreThan(turns as real, gain, limit);
    HalfOf(allowed, cost, gain);
  }

  lemma Above(x: real) returns (n: nat)
    ensures n as real > x
  {
    n := if x < 0.0 then 0 else x.Floor + 1;
  }

  lemma MoreThan(n: real, gain: real, limit: real)
    requires gain > 0.0 && n > 2.0 * limit / gain
    ensures Times(n, gain) > 2.0 * limit
  {
    TimesMonotone(2.0 * limit / gain, n, gain);
    var q := 2.0 * limit / gain;
    assert q * gain == 2.0 * limit;
  }

  lemma HalfOf(n: nat, cost: real, gain: real)
    requires 0.0 < gain <= cost
    ensures Times(n as real, cost + gain) <= 2.0 * Times(n as real, cost)
  {
    if n > 0 { ProductOfPositives(n as real, cost - gain); }
    assert Times(n as real, cost + gain) == n as real * cost + n as real * gain;
    assert Times(n as real, cost) - n as real * gain == n as real * (cost - gain);
  }

  // ---- Expiry -------------------------------------------------------------------------------------

  /** An expired key makes no difference to a request exactly when the bucket it held would have been
      full again by the caller's clock. */
  lemma ExpiryIsHarmless(l: Limit, k: Bucket, now: real, cost: real)
    requires l.Valid() && InRange(l, Some(k))
    ensures Asked(l, None, now, cost) == Asked(l, Some(k), now, cost)
        <==> k.tokens + Times(Elapsed(k.ts, now), l.refill) >= l.capacity
  {
    RefilledInRange(l, None, now);
    RefilledInRange(l, Some(k), now);
  }

  /** A request and the server's time at it. */
  datatype Visit = Visit(now: real, at: real)

  /** The key after some requests, when it expires by itself. */
  function Kept(l: Limit, visits: seq<Visit>, cost: real): Option<Entry>
    requires l.refill > 0.0
  {
    if visits == [] then None
    else
      var v := visits[|visits| - 1];
      Some(Renewed(l, Kept(l, visits[..|visits| - 1], cost), v.now, v.at, cost))
  }

  /** What the last of them finds. */
  function Found(l: Limit, visits: seq<Visit>, cost: real): Option<Bucket>
    requires l.refill > 0.0 && visits != []
  {
    Unexpired(Kept(l, visits[..|visits| - 1], cost), visits[|visits| - 1].at)
  }

  /** Whether the last of them is allowed. */
  predicate Passes(l: Limit, visits: seq<Visit>, cost: real)
    requires l.refill > 0.0 && visits != []
  {
    Asked(l, Found(l, visits, cost), visits[|visits| - 1].now, cost).1
  }

  /** How many of the requests from the i-th on, up to the j-th, are allowed. */
  function Passed(l: Limit, visits: seq<Visit>, i: nat, j: nat, cost: real): nat
    requires l.refill > 0.0 && i <= j <= |visits|
    decreases j
  {
    if i == j then 0
    else Passed(l, visits, i, j - 1, cost) + if Passes(l, visits[..j], cost) then 1 else 0
  }

  function Nows(visits: seq<Visit>): (r: seq<real>)
    ensures |r| == |visits| && forall i | 0 <= i < |r| :: r[i] == visits[i].now
  {
    seq(|visits|, i requires 0 <= i < |visits| => visits[i].now)
  }

  /** Between two requests the callers' clocks moved less than a second short of the server's. */
  ghost predicate LittleSkew(visits: seq<Visit>) {
    forall i | 0 < i < |visits| ::
      visits[i].now - visits[i - 1].now > visits[i].at - visits[i - 1].at - 1.0
  }

  /** With under a second of skew the expiring bucket decides every request as one that never expires
      would: the extra second of the key's lifetime sees to it. */
  lemma {:induction false} ExpiringRefinesEverlasting(l: Limit, visits: seq<Visit>, cost: real)
    requires l.Valid() && cost >= 0.0 && LittleSkew(visits)
    ensures visits != [] ==>
      var before := After(l, None, Nows(visits[..|visits| - 1]), cost);
      Asked(l, Found(l, visits, cost), visits[|visits| - 1].now, cost)
      == Asked(l, before, visits[|visits| - 1].now, cost)
    ensures match Kept(l, visits, cost)
      case None => After(l, None, Nows(visits), cost) == None
      case Some(e) => After(l, None, Nows(visits), cost) == Some(e.bucket)
  {
    hide Asked, Refilled, Ttl, Unexpired, Times, AllowedIn, Forward;
    if visits != [] {
      var last := |visits| - 1;
      var earlier := visits[..last];
      ExpiringRefinesEverlasting(l, earlier, cost);
      EverlastingIsBounded(l, None, Nows(earlier), cost);
      assert Nows(visits)[..last] == Nows(earlier);
      var v := visits[last];
      if last > 0 {
        var e := Kept(l, earlier, cost).value;
        KeptUntil(l, earlier, cost);
        assert e.bucket.ts == visits[last - 1].now;
        SameEitherWay(l, e, v, visits[last - 1], cost);
      } else {
        NothingKept(v.at);
      }
    }
  }

  lemma NothingKept(at: real)
    ensures Unexpired(None, at) == None
  {
  }

  /** A request under a second of skew cannot tell whether the key expired. */
  lemma SameEitherWay(l: Limit, e: Entry, v: Visit, before: Visit, cost: real)
    requires l.Valid() && InRange(l, Some(e.bucket))
    requires e.expires == before.at + Ttl(l) as real && e.bucket.ts == before.now
    requires v.now - before.now > v.at - before.at - 1.0
    ensures Asked(l, Unexpired(Some(e), v.at), v.now, cost) == Asked(l, Some(e.bucket), v.now, cost)
  {
    if v.at >= e.expires {
      LongGone(l, e.bucket, v.now);
    }
  }

  // ---- The bound, expiry included -------------------------------------------------------------------

  /** The last request found the key expired though its bucket would not have been full again. */
  ghost predicate Early(l: Limit, visits: seq<Visit>, cost: real)
    requires l.refill > 0.0 && visits != []
  {
    var v, e := visits[|visits| - 1], Kept(l, visits[..|visits| - 1], cost);
    && e.Some? && v.at >= e.value.expires
    && e.value.bucket.tokens + Times(Elapsed(e.value.bucket.ts, v.now), l.refill) < l.capacity
  }

  /** How often that happened after the i-th request. */
  ghost function EarlyIn(l: Limit, visits: seq<Visit>, i: nat, j: nat, cost: real): nat
    requires l.refill > 0.0 && i <= j <= |visits|
    decreases j
  {
    if j <= i + 1 then 0
    else EarlyIn(l, visits, i, j - 1, cost) + if Early(l, visits[..j], cost) then 1 else 0
  }

  /** One request on a key that may have expired. */
  lemma OneVisit(l: Limit, e: Option<Entry>, now: real, at: real, cost: real)
    requires l.Valid() && cost >= 0.0 && (e.Some? ==> InRange(l, Some(e.value.bucket)))
    ensures var left := Renewed(l, e, now, at, cost).bucket;
      var spent := left.tokens + if Asked(l, Unexpired(e, at), now, cost).1 then cost else 0.0;
      && InRange(l, Some(left)) && left.ts == now && spent <= l.capacity
      && (e.Some? && (at < e.value.expires
                      || e.value.bucket.tokens + Times(Elapsed(e.value.bucket.ts, now), l.refill) >= l.capacity)
          ==> spent <= e.value.bucket.tokens + Times(Elapsed(e.value.bucket.ts, now), l.refill))
  {
    RefilledInRange(l, Unexpired(e, at), now);
    if e.Some? { RefillsAtMost(l, e.value.bucket, now); }
  }

  /** In every window of every run, whatever the clocks do: the requests allowed cost at most the
      capacity, the refill of the forward clock movement, and another capacity for each time the key
      expired early. */
  lemma {:induction false} EarlyExpiryIsTheOnlyExcess(l: Limit, visits: seq<Visit>, i: nat, j: nat, cost: real)
    requires l.Valid() && cost >= 0.0 && i <= j <= |visits|
    ensures j > 0 ==>
      var k := Kept(l, visits[..j], cost);
      && k.Some? && InRange(l, Some(k.value.bucket)) && k.value.bucket.ts == visits[j - 1].now
    ensures var spent := Times(Passed(l, visits, i, j, cost) as real, cost);
      var bound := l.capacity + Times(Forward(Nows(visits[i..j])), l.refill)
                 + Times(EarlyIn(l, visits, i, j, cost) as real, l.capacity);
      && spent <= bound
      && (i < j ==> spent + Kept(l, visits[..j], cost).value.bucket.tokens <= bound)
    decreases j
  {
    hide Times, Renewed, Asked, Unexpired, InRange;
    NoCost(cost);
    NoCost(l.refill);
    NoCost(l.capacity);
    if j > 0 {
      assert visits[..j][..j - 1] == visits[..j - 1];
      EarlyExpiryIsTheOnlyExcess(l, visits, if i < j then i else j - 1, j - 1, cost);
      var held, v := Kept(l, visits[..j - 1], cost), visits[j - 1];
      OneVisit(l, held, v.now, v.at, cost);
      assert Kept(l, visits[..j], cost) == Some(Renewed(l, held, v.now, v.at, cost));
      if i < j {
        OneMore(Passed(l, visits, i, j - 1, cost), cost);
        OneMore(EarlyIn(l, visits, i, j - 1, cost), l.capacity);
        if i < j - 1 {
          assert visits[i..j][..j - 1 - i] == visits[i..j - 1];
          assert Nows(visits[i..j])[..j - 1 - i] == Nows(visits[i..j - 1]);
          TimesSum(Forward(Nows(visits[i..j - 1])), Elapsed(visits[j - 2].now, v.now), l.refill);
          assert visits[j - 2].now == held.value.bucket.ts;
        }
      }
    }
  }

  /** Under a second of skew no key expires early. */
  lemma {:induction false} NoneIsEarly(l: Limit, visits: seq<Visit>, i: nat, j: nat, cost: real)
    requires l.Valid() && cost >= 0.0 && i <= j <= |visits| && LittleSkew(visits)
    ensures EarlyIn(l, visits, i, j, cost) == 0
    decreases j
  {
    hide Renewed, Asked, Unexpired, Times;
    if j > i + 1 {
      NoneIsEarly(l, visits, i, j - 1, cost);
      EarlyExpiryIsTheOnlyExcess(l, visits, i, j - 1, cost);
      assert visits[..j][..j - 1] == visits[..j - 1];
      var k, v := Kept(l, visits[..j - 1], cost).value, visits[j - 1];
      KeptUntil(l, visits[..j - 1], cost);
      if v.at >= k.expires {
        LongGone(l, k.bucket, v.now);
      }
    }
  }

  lemma KeptUntil(l: Limit, visits: seq<Visit>, cost: real)
    requires l.Valid() && visits != []
    ensures Kept(l, visits, cost).value.expires == visits[|visits| - 1].at + Ttl(l) as real
  {
  }

  /** In any window of any run with under a second of skew, keys expiring on their own, the requests
      allowed cost no more than the capacity and what the forward clock movement refills. */
  lemma WindowIsBounded(l: Limit, visits: seq<Visit>, i: nat, j: nat, cost: real)
    requires l.Valid() && cost >= 0.0 && i <= j <= |visits| && LittleSkew(visits)
    ensures Times(Passed(l, visits, i, j, cost) as real, cost)
         <= l.capacity + Times(Forward(Nows(visits[i..j])), l.refill)
  {
    hide Times, Passed, Forward, Nows, EarlyIn;
    EarlyExpiryIsTheOnlyExcess(l, visits, i, j, cost);
    NoneIsEarly(l, visits, i, j, cost);
    NoCost(l.capacity);
  }

  /** Callers whose clocks stand still while the server's moves on by a key's lifetime each time. */
  function StandingStill(l: Limit, n: nat): (r: seq<Visit>)
    requires l.refill > 0.0
    ensures |r| == n && forall i | 0 <= i < n :: r[i] == Visit(0.0, (i * Ttl(l)) as real)
  {
    seq(n, i requires 0 <= i < n => Visit(0.0, (i * Ttl(l)) as real))
  }

  /** Then a key expires with its bucket empty, and requests for a whole bucket all pass: the bound
      fails from the second one on, and so does any other. */
  lemma {:induction false} StillClocksBreakTheBound(l: Limit, n: nat)
    requires l.Valid() && l.capacity > 0.0
    ensures var visits := StandingStill(l, n);
      && Passed(l, visits, 0, n, l.capacity) == n
      && Forward(Nows(visits)) == 0.0
      && (n > 1 ==> !LittleSkew(visits)
                    && Times(n as real, l.capacity) > l.capacity + Times(Forward(Nows(visits)), l.refill))
  {
    hide Passed, Forward, Nows, Times, StandingStill;
    StillPass(l, n);
    NothingForward(l, n);
    if n > 1 {
      NoCost(l.refill);
      TimesMonotone(1.0, n as real, l.capacity);
      assert Times(1.0, l.capacity) == l.capacity;
      LivesASecond(l);
      var visits := StandingStill(l, n);
      assert visits[0] == Visit(0.0, (0 * Ttl(l)) as real) && visits[1] == Visit(0.0, (1 * Ttl(l)) as real);
    }
  }

  lemma StandingFewer(l: Limit, n: nat)
    requires l.refill > 0.0 && n > 0
    ensures StandingStill(l, n)[..n - 1] == StandingStill(l, n - 1)
    ensures n > 1 ==> StandingStill(l, n)[n - 1].at == StandingStill(l, n)[n - 2].at + Ttl(l) as real
    ensures n > 1 ==> StandingStill(l, n - 1)[n - 2] == StandingStill(l, n)[n - 2]
  {
    hide Ttl;
    assert (n - 1) * Ttl(l) == (n - 2) * Ttl(l) + Ttl(l);
  }

  lemma {:induction false} StillPass(l: Limit, n: nat)
    requires l.Valid() && l.capacity > 0.0
    ensures Passed(l, StandingStill(l, n), 0, n, l.capacity) == n
  {
    hide Passes, StandingStill;
    if n > 0 {
      var visits, fewer := StandingStill(l, n), StandingStill(l, n - 1);
      StillPass(l, n - 1);
      StandingFewer(l, n);
      assert visits[..n] == visits == fewer + [visits[n - 1]];
      SamePassed(l, visits, fewer, n - 1, l.capacity);
      FullAgain(l, fewer, visits[n - 1]);
    }
  }

  lemma {:induction false} NothingForward(l: Limit, n: nat)
    requires l.Valid()
    ensures Forward(Nows(StandingStill(l, n))) == 0.0
  {
    hide StandingStill;
    if n > 1 {
      NothingForward(l, n - 1);
      StandingFewer(l, n);
      assert Nows(StandingStill(l, n))[..n - 1] == Nows(StandingStill(l, n - 1));
    }
  }

  lemma LivesASecond(l: Limit)
    requires l.Valid()
    ensures Ttl(l) >= 1
  {
    var q := l.capacity / l.refill;
    assert q * l.refill == l.capacity;
    if q < 0.0 { ProductOfPositives(-q, l.refill); }
  }

  lemma FullAgain(l: Limit, before: seq<Visit>, v: Visit)
    requires l.Valid() && before != [] ==> v.at == before[|before| - 1].at + Ttl(l) as real
    requires l.Valid()
    ensures Passes(l, before + [v], l.capacity)
  {
    assert (before + [v])[..|before|] == before;
    if before != [] { KeptUntil(l, before, l.capacity); }
    RefilledInRange(l, None, v.now);
    hide Refilled;
  }

  lemma {:induction false} SamePassed(l: Limit, visits: seq<Visit>, fewer: seq<Visit>, j: nat, cost: real)
    requires l.refill > 0.0 && j <= |fewer| <= |visits| && visits[..|fewer|] == fewer
    ensures Passed(l, visits, 0, j, cost) == Passed(l, fewer, 0, j, cost)
    decreases j
  {
    hide Passes;
    if j > 0 {
      SamePassed(l, visits, fewer, j - 1, cost);
      assert visits[..j] == fewer[..j];
    }
  }

  /** A clock that moved on by capacity/refill fills any bucket. */
  lemma LongGone(l: Limit, k: Bucket, now: real)
    requires l.Valid() && InRange(l, Some(k)) && now - k.ts >= l.capacity / l.refill
    ensures Refilled(l, Some(k), now) == l.capacity == Refilled(l, None, now)
  {
    var q := l.capacity / l.refill;
    assert q * l.refill == l.capacity;
    assert Times(q, l.refill) == l.capacity;
    TimesMonotone(q, Elapsed(k.ts, now), l.refill);
    RefilledInRange(l, None, now);
  }
}
