/** Weak and strong themes by the Wilson interval (internal/store/weakness.go). */
module Wilson {
  import opened Reals

  const Z: real := 1.96

  function Centre(p: real, n: real): real
    requires n > 0.0
  {
    OnePlus(n);
    (p + Z * Z / (2.0 * n)) / (1.0 + Z * Z / n)
  }

  function UnderRoot(p: real, n: real): real
    requires n > 0.0
  {
    ProductOfPositives(4.0 * n, n);
    p * (1.0 - p) / n + Z * Z / (4.0 * n * n)
  }

  function Spread(m: Maths, p: real, n: real): real
    requires n > 0.0
  {
    OnePlus(n);
    (Z / (1.0 + Z * Z / n)) * m.sqrt(UnderRoot(p, n))
  }

  datatype Interval = Interval(lo: real, hi: real)

  /** The interval of a proportion p of n tries. */
  function Around(m: Maths, p: real, n: real): Interval
    requires n > 0.0
  {
    Interval(Centre(p, n) - Spread(m, p, n), Centre(p, n) + Spread(m, p, n))
  }

  function Bounds(m: Maths, solved: nat, attempts: nat): Interval {
    if attempts == 0 then Interval(0.0, 1.0)
    else Around(m, solved as real / attempts as real, attempts as real)
  }

  /** z^2/n, how much the sample size blurs a proportion. */
  function Blur(n: real): (t: real)
    requires n > 0.0
    ensures t > 0.0
  {
    OnePlus(n);
    Z * Z / n
  }

  /** The squared distance to p less what the score test allows for at x: it rejects x when this is
      positive. */
  function Score(p: real, t: real, x: real): real {
    (x - p) * (x - p) - t * (x * (1.0 - x))
  }

  // ---- Arithmetic ---------------------------------------------------------------------------------

  lemma OnePlus(n: real)
    requires n > 0.0
    ensures Z * Z / n > 0.0 && 1.0 + Z * Z / n > 0.0
  {
    var q := Z * Z / n;
    assert q * n == Z * Z;
    if q <= 0.0 { ProductOfPositives(-q, n); }
  }

  lemma ScoreExpanded(x: real, p: real, t: real, d: real)
    requires d == 1.0 + t
    ensures Score(p, t, x) == d * x * x - x * (2.0 * p + t) + p * p
  {
    assert (x - p) * (x - p) == x * x - 2.0 * p * x + p * p;
    assert t * (x * (1.0 - x)) == t * x - t * x * x;
    assert d * x * x == x * x + t * x * x;
  }

  lemma SquareCompleted(x: real, p: real, t: real, d: real, h: real)
    requires d == 1.0 + t && h == p + t / 2.0
    ensures (d * x - h) * (d * x - h) - (t * (p * (1.0 - p)) + t * t / 4.0)
         == d * (d * x * x - x * (2.0 * p + t) + p * p)
  {
    var q := d * x;
    assert (q - h) * (q - h) == q * q - 2.0 * h * q + h * h;
    assert h * h == p * p + p * t + t * t / 4.0;
    assert t * (p * (1.0 - p)) == t * p - t * p * p;
    assert d * (d * x * x - x * (2.0 * p + t) + p * p) == q * q - q * (2.0 * p + t) + d * p * p;
    assert d * p * p == p * p + t * p * p;
  }

  lemma SquareOrder(y: real, r: real)
    requires r >= 0.0
    ensures y * y <= r * r <==> -r <= y <= r
    ensures y * y == r * r <==> y == r || y == -r
  {
    assert (r - y) * (r + y) == r * r - y * y;
    var a, b := r - y, r + y;
    if a > 0.0 && b > 0.0 { ProductOfPositives(a, b); }
    if a < 0.0 { ProductOfPositives(-a, b); assert -a * b == -(a * b); }
    if b < 0.0 { ProductOfPositives(a, -b); assert a * -b == -(a * b); }
  }

  lemma SignOfMultiple(d: real, s: real, y: real)
    requires d > 0.0 && d * s == y
    ensures (s <= 0.0 <==> y <= 0.0) && (s == 0.0 <==> y == 0.0)
  {
    if s > 0.0 { ProductOfPositives(d, s); }
    if s < 0.0 { ProductOfPositives(d, -s); assert d * -s == -(d * s); }
  }

  /** With d = 1+t, h = d times the centre and r = d times the spread. */
  lemma ScoreSign(x: real, p: real, t: real, d: real, h: real, r: real, y: real)
    requires t > 0.0 && d == 1.0 + t && h == p + t / 2.0 && y == d * x
    requires r >= 0.0 && r * r == t * (p * (1.0 - p)) + t * t / 4.0
    ensures Score(p, t, x) <= 0.0 <==> h - r <= y <= h + r
    ensures Score(p, t, x) == 0.0 <==> y == h - r || y == h + r
  {
    ScoreExpanded(x, p, t, d);
    SquareCompleted(x, p, t, d, h);
    SquareOrder(y - h, r);
    var s := Score(p, t, x);
    hide Score;
    SignOfMultiple(d, s, (y - h) * (y - h) - r * r);
  }

  lemma DividedBy(a: real, n: real, i: real)
    requires n > 0.0 && i * n == 1.0
    ensures a / n == a * i
  {
    assert a * i * n == a * (i * n);
    assert (a / n) * n == a;
    var q, w := a / n, a * i;
    assert q * n == w * n;
    assert (q - w) * n == 0.0;
    SignOfMultiple(n, q - w, 0.0) by { assert n * (q - w) == 0.0; }
  }

  /** z^2 times what is under the root. */
  lemma UnderRootScaled(p: real, n: real)
    requires n > 0.0
    ensures Z * Z * UnderRoot(p, n) == Blur(n) * (p * (1.0 - p)) + Blur(n) * Blur(n) / 4.0
  {
    var i := 1.0 / n;
    assert i * n == 1.0;
    var b, k := p * (1.0 - p), Z * Z;
    DividedBy(k, n, i);
    DividedBy(b, n, i);
    var nn := 4.0 * n * n;
    ProductOfPositives(4.0 * n, n);
    var ii := i * i / 4.0;
    assert ii * nn == (i * n) * (i * n);
    DividedBy(k, nn, ii);
    assert UnderRoot(p, n) == b * i + k * ii;
    assert k * (b * i + k * ii) == (k * i) * b + (k * i) * (k * i) / 4.0;
  }

  lemma UnderRootNotNegative(p: real, n: real)
    requires n > 0.0 && 0.0 <= p <= 1.0
    ensures UnderRoot(p, n) >= 0.0
  {
    var t, b, u := Blur(n), p * (1.0 - p), UnderRoot(p, n);
    UnderRootScaled(p, n);
    if 0.0 < p < 1.0 { ProductOfPositives(p, 1.0 - p); }
    if b > 0.0 { ProductOfPositives(t, b); }
    ProductOfPositives(t, t);
    hide UnderRoot, Blur;
    assert t * b >= 0.0;
    assert Z * Z * u >= 0.0;
    SignOfMultiple(Z * Z, -u, -(Z * Z * u));
  }

  /** d = 1 + t times the ends of the interval. */
  lemma EndsScaled(m: Maths, p: real, n: real) returns (r: real)
    requires Sound(m) && n > 0.0 && 0.0 <= p <= 1.0
    ensures var t := Blur(n);
      && r >= 0.0 && r * r == t * (p * (1.0 - p)) + t * t / 4.0
      && (1.0 + t) * Around(m, p, n).lo == p + t / 2.0 - r
      && (1.0 + t) * Around(m, p, n).hi == p + t / 2.0 + r
  {
    var t, u := Blur(n), UnderRoot(p, n);
    var d := 1.0 + t;
    UnderRootNotNegative(p, n);
    UnderRootScaled(p, n);
    var s := m.sqrt(u);
    assert s >= 0.0 && s * s == u;
    r := Z * s;
    assert r * r == Z * Z * (s * s);
    var c, e := Centre(p, n), Spread(m, p, n);
    HalfBlur(n);
    assert c * d == p + t / 2.0;
    var z := Z / d;
    assert z * d == Z;
    assert e == z * s;
    assert e * d == (z * d) * s;
    assert d * (c - e) == c * d - e * d && d * (c + e) == c * d + e * d;
  }

  lemma HalfBlur(n: real)
    requires n > 0.0
    ensures Z * Z / (2.0 * n) == Blur(n) / 2.0
  {
    var q := Z * Z / n;
    assert q * n == Z * Z;
    assert (q / 2.0) * (2.0 * n) == Z * Z;
  }

  // ---- The interval -------------------------------------------------------------------------------

  lemma Ordered(d: real, x: real, y: real)
    requires d > 0.0
    ensures d * x <= d * y <==> x <= y
    ensures d * x == d * y <==> x == y
  {
    assert d * (y - x) == d * y - d * x;
    if y > x { ProductOfPositives(d, y - x); }
    if y < x { ProductOfPositives(d, x - y); assert d * (x - y) == d * x - d * y; }
  }

  /** The interval is where the score test does not reject, and its ends are the two roots of
      (x-p)^2 = z^2 x(1-x)/n. */
  lemma InsideIffNotRejected(m: Maths, p: real, n: real, x: real)
    requires Sound(m) && n > 0.0 && 0.0 <= p <= 1.0
    ensures Around(m, p, n).lo <= x <= Around(m, p, n).hi <==> Score(p, Blur(n), x) <= 0.0
    ensures x == Around(m, p, n).lo || x == Around(m, p, n).hi <==> Score(p, Blur(n), x) == 0.0
    ensures Around(m, p, n).lo <= Around(m, p, n).hi
  {
    var r := EndsScaled(m, p, n);
    BetweenEnds(x, Around(m, p, n), p, Blur(n), 1.0 + Blur(n), r);
  }

  lemma BetweenEnds(x: real, i: Interval, p: real, t: real, d: real, r: real)
    requires t > 0.0 && d == 1.0 + t && r >= 0.0 && r * r == t * (p * (1.0 - p)) + t * t / 4.0
    requires d * i.lo == p + t / 2.0 - r && d * i.hi == p + t / 2.0 + r
    ensures i.lo <= x <= i.hi <==> Score(p, t, x) <= 0.0
    ensures x == i.lo || x == i.hi <==> Score(p, t, x) == 0.0
    ensures i.lo <= i.hi
  {
    hide Score;
    var y := d * x;
    ScaledEnds(x, i, d, y, p + t / 2.0 - r, p + t / 2.0 + r);
    ScoreSign(x, p, t, d, p + t / 2.0, r, y);
  }

  lemma ScaledEnds(x: real, i: Interval, d: real, y: real, a: real, b: real)
    requires d > 0.0 && d * i.lo == a && d * i.hi == b && d * x == y
    ensures i.lo <= x <= i.hi <==> a <= y <= b
    ensures (x == i.lo <==> y == a) && (x == i.hi <==> y == b)
    ensures i.lo <= i.hi <==> a <= b
  {
    Ordered(d, i.lo, x);
    Ordered(d, x, i.hi);
    Ordered(d, i.lo, i.hi);
  }

  /** 0 <= lo <= p <= hi <= 1. */
  lemma BoundsAreProportions(m: Maths, p: real, n: real)
    requires Sound(m) && n > 0.0 && 0.0 <= p <= 1.0
    ensures 0.0 <= Around(m, p, n).lo <= p <= Around(m, p, n).hi <= 1.0
  {
    var t := Blur(n);
    ScoreAtPoints(p, t);
    InsideIffNotRejected(m, p, n, p);
    InsideIffNotRejected(m, p, n, 0.0);
    InsideIffNotRejected(m, p, n, 1.0);
    var r := EndsScaled(m, p, n);
    var i := Around(m, p, n);
    hide Around, Blur, Score, Sound;
    SpreadIsSmall(p, t, r);
    Ordered(1.0 + t, i.lo, 1.0);
    Ordered(1.0 + t, 0.0, i.hi);
    Ordered(1.0 + t, i.hi, 0.0);
    Ordered(1.0 + t, 1.0, i.lo);
  }

  lemma ScoreAtPoints(p: real, t: real)
    requires t > 0.0 && 0.0 <= p <= 1.0
    ensures Score(p, t, p) <= 0.0 && Score(p, t, 0.0) >= 0.0 && Score(p, t, 1.0) >= 0.0
  {
    if 0.0 < p < 1.0 {
      ProductOfPositives(p, 1.0 - p);
      ProductOfPositives(t, p * (1.0 - p));
    }
    if p > 0.0 { ProductOfPositives(p, p); }
    if p < 1.0 { ProductOfPositives(1.0 - p, 1.0 - p); assert (1.0 - p) * (1.0 - p) == (p - 1.0) * (p - 1.0); }
  }

  /** The lower end is below 1 and the upper end above 0. */
  lemma SpreadIsSmall(p: real, t: real, r: real)
    requires t > 0.0 && 0.0 <= p <= 1.0 && r >= 0.0
    ensures p + t / 2.0 + r > 0.0 && p + t / 2.0 - r < 1.0 + t
  {
  }

  /** More data at the same rate only narrows the interval. */
  lemma MoreDataNests(m: Maths, p: real, n: real, k: real)
    requires Sound(m) && n > 0.0 && 0.0 <= p <= 1.0 && k >= 1.0
    ensures k * n > 0.0
    ensures Around(m, p, n).lo <= Around(m, p, k * n).lo
    ensures Around(m, p, k * n).hi <= Around(m, p, n).hi
  {
    ProductOfPositives(k, n);
    BlurShrinks(n, k);
    var wide, tight := Around(m, p, n), Around(m, p, k * n);
    BoundsAreProportions(m, p, k * n);
    InsideIffNotRejected(m, p, k * n, tight.lo);
    InsideIffNotRejected(m, p, k * n, tight.hi);
    ScoreGrows(p, Blur(k * n), Blur(n), tight.lo);
    ScoreGrows(p, Blur(k * n), Blur(n), tight.hi);
    InsideIffNotRejected(m, p, n, tight.lo);
    InsideIffNotRejected(m, p, n, tight.hi);
  }

  lemma BlurShrinks(n: real, k: real)
    requires n > 0.0 && k >= 1.0 && k * n > 0.0
    ensures Blur(k * n) <= Blur(n)
  {
    var a, b := Z * Z / n, Z * Z / (k * n);
    assert a * n == Z * Z && b * (k * n) == Z * Z;
    assert b * (k * n) == b * k * n;
    Ordered(n, b * k, a);
    assert b * k == b + b * (k - 1.0);
    OnePlus(k * n);
    if k > 1.0 { ProductOfPositives(b, k - 1.0); }
  }

  lemma ScoreGrows(p: real, t: real, u: real, x: real)
    requires t <= u && 0.0 <= x <= 1.0
    ensures Score(p, u, x) <= Score(p, t, x)
  {
    var y := x * (1.0 - x);
    if 0.0 < x < 1.0 { ProductOfPositives(x, 1.0 - x); }
    if t < u && y > 0.0 { ProductOfPositives(u - t, y); }
    assert (u - t) * y == u * y - t * y;
  }

  // ---- Verdicts -----------------------------------------------------------------------------------

  const MIN_BASELINE_ATTEMPTS := 6

  datatype Verdict = Weak | Strong | Unclear

  /** First tries of one theme, or of all. */
  datatype Tries = Tries(attempts: nat, solved: nat) {
    ghost predicate Valid() { solved <= attempts }
  }

  datatype Record = Record(theme: string, tries: Tries, baseline: real, verdict: Verdict)

  function Rate(solved: int, attempts: int): real
    requires attempts != 0
  {
    solved as real / attempts as real
  }

  /** Against everything that is not this theme, if there is enough of it. */
  function Judged(m: Maths, all: Tries, theme: string, r: Tries): Record
    requires all.attempts > 0
  {
    var otherAttempts, otherSolved := all.attempts - r.attempts, all.solved - r.solved;
    if otherAttempts < MIN_BASELINE_ATTEMPTS then Record(theme, r, Rate(all.solved, all.attempts), Unclear)
    else
      var baseline := Rate(otherSolved, otherAttempts);
      var i := Bounds(m, r.solved, r.attempts);
      Record(theme, r, baseline, if i.hi < baseline then Weak else if i.lo > baseline then Strong else Unclear)
  }

  lemma RateIsProportion(solved: int, attempts: int)
    requires attempts > 0 && 0 <= solved <= attempts
    ensures 0.0 <= Rate(solved, attempts) <= 1.0
  {
    var q, n := Rate(solved, attempts), attempts as real;
    assert q * n == solved as real;
    SignOfMultiple(n, -q, -(solved as real));
    SignOfMultiple(n, q - 1.0, solved as real - n);
  }

  /** A theme is called weak or strong exactly when there are enough other tries and the score test at
      z = 1.96 rejects the rate of those, from below or from above. */
  ghost predicate Tested(all: Tries, r: Tries, v: Record)
    requires r.attempts > 0
  {
    var p, n := r.solved as real / r.attempts as real, r.attempts as real;
    if all.attempts - r.attempts < 6 then v.verdict == Unclear
    else
      && v.baseline * (all.attempts - r.attempts) as real == (all.solved - r.solved) as real
      && (v.verdict == Weak <==> Rejected(p, n, v.baseline) && v.baseline > p)
      && (v.verdict == Strong <==> Rejected(p, n, v.baseline) && v.baseline < p)
  }

  /** The score test at z = 1.96 rejects x as the proportion behind p of n tries. */
  ghost predicate Rejected(p: real, n: real, x: real) {
    n * Sq(x - p) > 1.96 * 1.96 * (x * (1.0 - x))
  }

  lemma VerdictIsScoreTest(m: Maths, all: Tries, theme: string, r: Tries)
    requires Sound(m) && all.Valid() && r.Valid() && r.attempts > 0 && all.attempts > 0
    ensures Tested(all, r, Judged(m, all, theme, r))
  {
    hide Around, Score, Blur, Sound, Rejected;
    if r.attempts + MIN_BASELINE_ATTEMPTS <= all.attempts {
      var p, n := Rate(r.solved, r.attempts), r.attempts as real;
      var baseline := Rate(all.solved - r.solved, all.attempts - r.attempts);
      RateIsProportion(r.solved, r.attempts);
      InsideIffNotRejected(m, p, n, baseline);
      ScoreScaled(p, n, baseline);
      BoundsAreProportions(m, p, n);
      ScoreAtPoints(p, Blur(n));
      RateTimes(all.solved - r.solved, all.attempts - r.attempts);
    }
  }

  lemma RateTimes(solved: int, attempts: int)
    requires attempts > 0
    ensures Rate(solved, attempts) * attempts as real == solved as real
  {
  }

  lemma ScoreScaled(p: real, n: real, x: real)
    requires n > 0.0
    ensures Score(p, Blur(n), x) > 0.0 <==> Rejected(p, n, x)
  {
    var t, y := Blur(n), x * (1.0 - x);
    assert t * n == 1.96 * 1.96;
    var s := Score(p, t, x);
    assert s == Sq(x - p) - t * y;
    assert s * n == n * Sq(x - p) - (t * n) * y;
    if s > 0.0 { ProductOfPositives(s, n); } else if s < 0.0 { ProductOfPositives(-s, n); }
  }

  method Weaknesses(m: Maths, all: Tries, rows: seq<(string, Tries)>) returns (themes: seq<Record>)
    ensures all.attempts == 0 ==> themes == []
    ensures all.attempts > 0 ==>
      |themes| == |rows| && forall k | 0 <= k < |rows| :: themes[k] == Judged(m, all, rows[k].0, rows[k].1)
    ensures Sound(m) && all.Valid() && all.attempts > 0 ==>
      forall k | 0 <= k < |rows| && rows[k].1.Valid() && rows[k].1.attempts > 0 :: Tested(all, rows[k].1, themes[k])
  {
    themes := [];
    if all.attempts == 0 { return; }
    var rate := Rate(all.solved, all.attempts);
    for k := 0 to |rows|
      invariant |themes| == k
      invariant forall j | 0 <= j < k :: themes[j] == Judged(m, all, rows[j].0, rows[j].1)
    {
      var (theme, r) := rows[k];
      var otherAttempts := all.attempts - r.attempts;
      var otherSolved := all.solved - r.solved;
      if otherAttempts < MIN_BASELINE_ATTEMPTS {
        themes := themes + [Record(theme, r, rate, Unclear)];
        continue;
      }
      var baseline := Rate(otherSolved, otherAttempts);
      var i := Bounds(m, r.solved, r.attempts);
      var verdict := Unclear;
      if i.hi < baseline {
        verdict := Weak;
      } else if i.lo > baseline {
        verdict := Strong;
      }
      themes := themes + [Record(theme, r, baseline, verdict)];
    }
    if Sound(m) && all.Valid() {
      forall k | 0 <= k < |rows| && rows[k].1.Valid() && rows[k].1.attempts > 0 ensures Tested(all, rows[k].1, themes[k]) {
        VerdictIsScoreTest(m, all, rows[k].0, rows[k].1);
      }
    }
  }
}
