/** Step 5 of the Glicko-2 system: the new volatility (internal/rating/glicko2.go, newVolatility). */
module Volatility {
  import opened Reals

  const CONVERGENCE: real := 0.000001

  /** The inputs of the solver; sigma is the old volatility. */
  datatype Problem = Problem(phi: real, v: real, delta: real, sigma: real, tau: real) {
    ghost predicate Valid() {
      v > 0.0 && sigma > 0.0 && tau > 0.0
    }

    /** What the rating's own uncertainty and the games' leave unexplained. */
    function Excess(): real { Sq(delta) - Sq(phi) - v }

    function Spread(): (r: real)
      ensures v > 0.0 ==> r > 0.0 && Excess() >= -r
    {
      Sq(phi) + v
    }
  }

  // ---- The equation -------------------------------------------------------------------------------

  /** The first term of f at e^x = y. */
  function Pull(y: real, d: real, c: real): real
    requires c > 0.0 && y > 0.0
  {
    y * (d - y) / (2.0 * (c + y) * (c + y))
  }

  lemma Quotient(n: real, d: real)
    requires d > 0.0
    ensures n > 0.0 ==> n / d > 0.0
    ensures n < 0.0 ==> n / d < 0.0
    ensures n == 0.0 ==> n / d == 0.0
    ensures n / d * d == n
  {
  }

  lemma Divided(n: real, q: real, d: real)
    requires d > 0.0 && n == q * d
    ensures n / d == q
  {
  }

  lemma PullSign(y: real, d: real, c: real)
    requires c > 0.0 && y > 0.0
    ensures d > y ==> Pull(y, d, c) > 0.0
    ensures d < y ==> Pull(y, d, c) < 0.0
    ensures d == y ==> Pull(y, d, c) == 0.0
  {
    var n, q := y * (d - y), 2.0 * (c + y) * (c + y);
    assert q > 0.0;
    assert d > y ==> n > 0.0;
    assert d < y ==> n < 0.0;
    Quotient(n, q);
  }

  lemma PullAboveMinusHalf(y: real, d: real, c: real)
    requires c > 0.0 && y > 0.0 && d >= -c
    ensures Pull(y, d, c) > -0.5
  {
    var s := c + y;
    var n, q := y * (d - y), 2.0 * s * s;
    assert s * s > 0.0;
    assert q == 2.0 * (s * s);
    assert n + y * s == y * (d + c);
    assert y * (d + c) >= 0.0;
    assert s * s - y * s == c * s;
    assert c * s > 0.0;
    assert n + 0.5 * q > 0.0;
    assert Pull(y, d, c) == n / q;
    AboveMinusHalf(n, q);
  }

  lemma AboveMinusHalf(n: real, q: real)
    requires q > 0.0 && n + 0.5 * q > 0.0
    ensures n / q > -0.5
  {
    var x := n / q;
    assert x * q == n;
    assert (x + 0.5) * q == n + 0.5 * q;
  }

  /** The second term of f, dx away from the old volatility. */
  function Anchor(dx: real, tau: real): real
    requires tau > 0.0
  {
    dx / Sq(tau)
  }

  lemma AnchorSign(dx: real, tau: real)
    requires tau > 0.0
    ensures dx > 0.0 ==> Anchor(dx, tau) > 0.0
    ensures dx < 0.0 ==> Anchor(dx, tau) < 0.0
    ensures dx == 0.0 ==> Anchor(dx, tau) == 0.0
  {
    Quotient(dx, Sq(tau));
  }

  /** The logarithm of the old variance. */
  function Start(m: Maths, p: Problem): real {
    m.ln(Sq(p.sigma))
  }

  /** k steps of tau below it. */
  function Down(m: Maths, p: Problem, k: nat): real {
    Start(m, p) - k as real * p.tau
  }

  function F(m: Maths, p: Problem, x: real): real
    requires Sound(m) && p.Valid()
  {
    ExpIsPositive(m, x);
    Pull(m.exp(x), p.Excess(), p.Spread()) - Anchor(x - Start(m, p), p.tau)
  }

  /** y is the f of the paper's step 5 at x, its denominators multiplied out. */
  ghost predicate IsF(m: Maths, p: Problem, x: real, y: real) {
    var s := Sq(p.phi) + p.v + m.exp(x);
    Times(2.0 * Sq(s), Times(Sq(p.tau), y) + (x - m.ln(Sq(p.sigma))))
    == Times(Sq(p.tau), Times(m.exp(x), Sq(p.delta) - s))
  }

  lemma FIsF(m: Maths, p: Problem, x: real)
    requires Sound(m) && p.Valid()
    ensures IsF(m, p, x, F(m, p, x))
  {
    hide Sound, Pull, Anchor, Sq, Times;
    ExpIsPositive(m, x);
    var y, c, d, dx := m.exp(x), p.Spread(), p.Excess(), x - Start(m, p);
    PullTimes(y, d, c);
    AnchorTimes(dx, p.tau);
    MultipliedOut(Pull(y, d, c), Anchor(dx, p.tau), 2.0 * Sq(c + y), Sq(p.tau), Times(y, d - y), dx);
  }

  lemma PullTimes(y: real, d: real, c: real)
    requires c > 0.0 && y > 0.0
    ensures Times(Pull(y, d, c), 2.0 * Sq(c + y)) == Times(y, d - y)
  {
    var n, q := y * (d - y), 2.0 * (c + y) * (c + y);
    assert q == 2.0 * Sq(c + y);
    Quotient(n, q);
  }

  lemma AnchorTimes(dx: real, tau: real)
    requires tau > 0.0
    ensures Times(Anchor(dx, tau), Sq(tau)) == dx
  {
    Quotient(dx, Sq(tau));
  }

  lemma MultipliedOut(pull: real, anchor: real, q: real, t: real, n: real, dx: real)
    requires Times(pull, q) == n && Times(anchor, t) == dx
    ensures Times(q, Times(t, pull - anchor) + dx) == Times(t, n)
  {
    assert t * (pull - anchor) + dx == t * pull;
    assert q * (t * pull) == t * (pull * q);
  }

  lemma AnchorDown(dx: real, k: real, tau: real)
    requires tau > 0.0 && dx == -(k * tau)
    ensures Anchor(dx, tau) == -(k / tau)
  {
    var q := k / tau;
    assert q * tau == k;
    assert dx == -(q * Sq(tau));
    Divided(dx, -q, Sq(tau));
  }

  /** f at k steps below the old volatility is above k/tau - 1/2. */
  lemma FBelowIsHigh(m: Maths, p: Problem, k: nat)
    requires Sound(m) && p.Valid()
    ensures F(m, p, Down(m, p, k)) > k as real / p.tau - 0.5
  {
    hide Sound, Pull, Anchor;
    var x := Down(m, p, k);
    ExpIsPositive(m, x);
    PullAboveMinusHalf(m.exp(x), p.Excess(), p.Spread());
    AnchorDown(x - Start(m, p), k as real, p.tau);
  }

  // ---- The bracket --------------------------------------------------------------------------------

  /** The first k for which f is not negative k steps down. The walk ends by k = tau/2. */
  function WalkDown(m: Maths, p: Problem, k: nat): (r: nat)
    requires Sound(m) && p.Valid()
    ensures r >= k && F(m, p, Down(m, p, r)) >= 0.0
    decreases StepsLeft(p.tau, k)
  {
    if F(m, p, Down(m, p, k)) < 0.0 then
      WalkGoesOn(m, p, k);
      WalkDown(m, p, k + 1)
    else k
  }

  function StepsLeft(tau: real, k: nat): nat
    requires tau > 0.0
  {
    if k as real >= tau / 2.0 then 0 else (tau / 2.0 - k as real).Floor + 1
  }

  lemma WalkGoesOn(m: Maths, p: Problem, k: nat)
    requires Sound(m) && p.Valid() && F(m, p, Down(m, p, k)) < 0.0
    ensures StepsLeft(p.tau, k + 1) < StepsLeft(p.tau, k)
  {
    FBelowIsHigh(m, p, k);
    hide Sound, F, Down;
    FewerStepsLeft(p.tau, k);
  }

  lemma FewerStepsLeft(tau: real, k: nat)
    requires tau > 0.0 && k as real / tau - 0.5 < 0.0
    ensures StepsLeft(tau, k + 1) < StepsLeft(tau, k)
  {
    var x := k as real / tau;
    assert x * tau == k as real;
    assert (0.5 - x) * tau > 0.0;
    assert k as real < tau / 2.0;
  }

  /** With tau = 0.5, or any tau up to 2, the loop does not turn once. */
  lemma NoWalk(m: Maths, p: Problem)
    requires Sound(m) && p.Valid() && p.tau <= 2.0
    ensures WalkDown(m, p, 1) == 1
  {
    FBelowIsHigh(m, p, 1);
    OneOver(p.tau);
    hide Sound, F, Down;
  }

  lemma OneOver(tau: real)
    requires 0.0 < tau <= 2.0
    ensures 1 as real / tau >= 0.5
  {
    var x := 1 as real / tau;
    assert x * tau == 1.0;
    assert (x - 0.5) * tau >= 0.0;
  }

  // ---- The bracket and its refinement -------------------------------------------------------------

  datatype Bracket = Bracket(A: real, B: real, fA: real, fB: real)

  function FirstB(m: Maths, p: Problem): real
    requires Sound(m) && p.Valid()
  {
    if Sq(p.delta) > Sq(p.phi) + p.v then m.ln(p.Excess()) else Down(m, p, WalkDown(m, p, 1))
  }

  function First(m: Maths, p: Problem): Bracket
    requires Sound(m) && p.Valid()
  {
    var A, B := Start(m, p), FirstB(m, p);
    Bracket(A, B, F(m, p, A), F(m, p, B))
  }

  ghost predicate SameSign(x: real, y: real) {
    (x > 0.0 && y > 0.0) || (x < 0.0 && y < 0.0) || (x == 0.0 && y == 0.0)
  }

  ghost predicate Opposite(x: real, y: real) {
    (x > 0.0 && y < 0.0) || (x < 0.0 && y > 0.0)
  }

  /** f changes sign from A to B, or vanishes at B alone, or where the ends met; fB is f(B), and fA has
      the sign of f(A), though it may have been halved. */
  ghost predicate Straddles(m: Maths, p: Problem, b: Bracket)
    requires Sound(m) && p.Valid()
  {
    && b.fB == F(m, p, b.B) && SameSign(b.fA, F(m, p, b.A))
    && ((b.A == b.B && b.fB == 0.0) || Opposite(b.fA, b.fB) || (b.fB == 0.0 && b.fA != 0.0))
  }

  predicate Within(x: real, a: real, b: real) {
    a <= x <= b || b <= x <= a
  }

  lemma LnIsMonotone(m: Maths, x: real, y: real)
    requires Sound(m) && x > 0.0 && y > 0.0
    ensures x < y ==> m.ln(x) < m.ln(y)
  {
    assert m.exp(m.ln(x)) == x && m.exp(m.ln(y)) == y;
    if m.ln(x) > m.ln(y) { assert m.exp(m.ln(y)) < m.exp(m.ln(x)); }
  }

  lemma ExpLn(m: Maths, x: real)
    requires Sound(m) && x > 0.0
    ensures m.exp(m.ln(x)) == x
  {
  }

  /** Both start-up branches bracket a root. */
  lemma FirstStraddles(m: Maths, p: Problem)
    requires Sound(m) && p.Valid()
    ensures Straddles(m, p, First(m, p))
    ensures Sq(p.delta) <= Sq(p.phi) + p.v ==> FirstB(m, p) < Start(m, p)
  {
    var a, b, c := Start(m, p), FirstB(m, p), p.Spread();
    if Sq(p.delta) > Sq(p.phi) + p.v {
      ExpLn(m, Sq(p.sigma));
      ExpLn(m, p.Excess());
      LnIsMonotone(m, Sq(p.sigma), p.Excess());
      LnIsMonotone(m, p.Excess(), Sq(p.sigma));
      hide Sound, Pull, Anchor;
      AnchorSign(a - a, p.tau);
      AnchorSign(b - a, p.tau);
      PullSign(Sq(p.sigma), p.Excess(), c);
      PullSign(p.Excess(), p.Excess(), c);
    } else {
      StartIsNegative(m, p);
      DownIsBelow(m, p, WalkDown(m, p, 1));
      hide Sound, F, WalkDown, Down, Start;
    }
  }

  lemma DownIsBelow(m: Maths, p: Problem, k: nat)
    requires p.Valid() && k >= 1
    ensures Down(m, p, k) < Start(m, p)
  {
    assert k as real * p.tau > 0.0;
  }

  lemma StartIsNegative(m: Maths, p: Problem)
    requires Sound(m) && p.Valid() && Sq(p.delta) <= Sq(p.phi) + p.v
    ensures F(m, p, Start(m, p)) < 0.0
  {
    var a := Start(m, p);
    ExpIsPositive(m, a);
    hide Sound, Pull, Anchor;
    AnchorSign(a - a, p.tau);
    PullSign(m.exp(a), p.Excess(), p.Spread());
  }

  /** C cuts the chord between the ends. */
  function Chord(b: Bracket): real
    requires b.fB != b.fA
  {
    b.A + (b.A - b.B) * b.fA / (b.fB - b.fA)
  }

  function Refined(m: Maths, p: Problem, b: Bracket): Bracket
    requires Sound(m) && p.Valid() && b.fB != b.fA
  {
    var C := Chord(b);
    var fC := F(m, p, C);
    if fC * b.fB <= 0.0 then Bracket(b.B, C, b.fB, fC) else Bracket(b.A, C, b.fA / 2.0, fC)
  }

  lemma FactorSign(q: real, e: real)
    requires e > 0.0
    ensures q * e <= 0.0 ==> q <= 0.0
    ensures q * e >= 0.0 ==> q >= 0.0
    ensures q * e == 0.0 ==> q == 0.0
  {
    if q > 0.0 { assert q * e > 0.0; }
    if q < 0.0 { assert -q * e > 0.0; }
  }

  lemma ChordShare(w: real, x: real, y: real, q: real)
    requires Opposite(x, y) || (y == 0.0 && x != 0.0)
    requires q == w * x / (y - x)
    ensures w >= 0.0 ==> -w <= q <= 0.0
    ensures w <= 0.0 ==> 0.0 <= q <= -w
    ensures y == 0.0 ==> q == -w
  {
    var e := if x > 0.0 then x - y else y - x;
    var s := if x > 0.0 then x else -x;
    var r := if x > 0.0 then -y else y;
    assert e > 0.0 && s > 0.0 && r >= 0.0 && e == s + r;
    assert q * (y - x) == w * x;
    assert q * e == -(w * s);
    assert (q + w) * e == w * r;
    assert w >= 0.0 ==> w * s >= 0.0 && w * r >= 0.0;
    assert w <= 0.0 ==> w * s <= 0.0 && w * r <= 0.0;
    FactorSign(q, e);
    FactorSign(q + w, e);
  }

  lemma ChordIsWithin(b: Bracket)
    requires Opposite(b.fA, b.fB) || (b.fB == 0.0 && b.fA != 0.0)
    ensures Within(Chord(b), b.A, b.B)
    ensures b.fB == 0.0 ==> Chord(b) == b.B
  {
    var q := (b.A - b.B) * b.fA / (b.fB - b.fA);
    ChordShare(b.A - b.B, b.fA, b.fB, q);
    assert Chord(b) == b.A + q;
  }

  lemma ProductSign(x: real, y: real)
    ensures x * y <= 0.0 <==> x == 0.0 || y == 0.0 || Opposite(x, y)
  {
    if x > 0.0 && y > 0.0 { assert x * y > 0.0; }
    if x < 0.0 && y < 0.0 { SameFactors(-x, -y); assert -x * -y == x * y; }
    if x > 0.0 && y < 0.0 { SameFactors(x, -y); }
    if x < 0.0 && y > 0.0 { SameFactors(-x, y); }
  }

  lemma SameFactors(x: real, y: real)
    requires x > 0.0 && y > 0.0
    ensures x * y > 0.0
  {
  }

  /** One Illinois step: the denominator is not zero, C is between the ends, the sign change is kept
      although fA may be halved, and the new ends are inside the old ones. */
  lemma StepKeepsBracket(m: Maths, p: Problem, b: Bracket)
    requires Sound(m) && p.Valid() && Straddles(m, p, b) && b.A != b.B
    ensures b.fB != b.fA
    ensures var b' := Refined(m, p, b);
      && Straddles(m, p, b')
      && Within(b'.A, b.A, b.B) && Within(b'.B, b.A, b.B)
  {
    hide Sound, F;
    ChordIsWithin(b);
    ProductSign(F(m, p, Chord(b)), b.fB);
    hide Chord;
  }

  predicate Apart(b: Bracket) {
    b.B - b.A > CONVERGENCE || b.A - b.B > CONVERGENCE
  }

  lemma InsideItself(b: Bracket)
    ensures Within(b.A, b.A, b.B) && Within(b.B, b.A, b.B)
  {
  }

  lemma Inside(b: Bracket, b': Bracket, r: Bracket)
    requires Within(b'.A, b.A, b.B) && Within(b'.B, b.A, b.B)
    requires Within(r.A, b'.A, b'.B) && Within(r.B, b'.A, b'.B)
    ensures Within(r.A, b.A, b.B) && Within(r.B, b.A, b.B)
  {
  }

  /** Illinois steps until the ends meet, at most `fuel` of them. */
  function Solved(m: Maths, p: Problem, b: Bracket, fuel: nat): (r: Bracket)
    requires Sound(m) && p.Valid() && Straddles(m, p, b)
    ensures Straddles(m, p, r) && Within(r.A, b.A, b.B) && Within(r.B, b.A, b.B)
    decreases fuel
  {
    hide Sound, F, Straddles, Refined, Within;
    if fuel == 0 || !Apart(b) then InsideItself(b); b
    else
      StepKeepsBracket(m, p, b);
      var r := Solved(m, p, Refined(m, p, b), fuel - 1);
      Inside(b, Refined(m, p, b), r);
      r
  }

  /** The end newVolatility returns the exponential of. */
  function Root(m: Maths, p: Problem, fuel: nat): (r: real)
    requires Sound(m) && p.Valid()
    ensures Within(r, Start(m, p), FirstB(m, p))
  {
    FirstStraddles(m, p);
    Solved(m, p, First(m, p), fuel).A
  }

  function NewSigma(m: Maths, p: Problem, fuel: nat): (r: real)
    requires Sound(m) && p.Valid()
    ensures r > 0.0
  {
    ExpIsPositive(m, Root(m, p, fuel) / 2.0);
    m.exp(Root(m, p, fuel) / 2.0)
  }

  /** The ends are a millionth apart at most, and f changes sign from one to the other or vanishes at one. */
  ghost predicate Bracketed(m: Maths, p: Problem, A: real, B: real, fA: real, fB: real) {
    && -0.000001 <= B - A <= 0.000001
    && IsF(m, p, A, fA) && IsF(m, p, B, fB)
    && (fA <= 0.0 <= fB || fB <= 0.0 <= fA)
  }

  lemma MetIsBracketed(m: Maths, p: Problem, b: Bracket)
    requires Sound(m) && p.Valid() && Straddles(m, p, b) && !Apart(b)
    ensures Bracketed(m, p, b.A, b.B, F(m, p, b.A), F(m, p, b.B))
  {
    hide Sound, F, IsF;
    FIsF(m, p, b.A);
    FIsF(m, p, b.B);
  }

  /** newVolatility, stopped after `fuel` refinements; `left` of them were not needed. When any were left, f
      changes sign within a millionth of the log-variance returned. */
  method NewVolatility(m: Maths, p: Problem, fuel: nat) returns (sigma: real, ghost left: nat)
    requires Sound(m) && p.Valid()
    ensures sigma == NewSigma(m, p, fuel)
    ensures left > 0 ==>
      exists A, B, fA, fB :: Bracketed(m, p, A, B, fA, fB) && sigma == m.exp(A / 2.0)
  {
    hide Sound, F, Chord, Straddles, StepsLeft, Bracketed, Sq;
    var a := m.ln(Sq(p.sigma));
    var A := a;
    var B;
    if Sq(p.delta) > Sq(p.phi) + p.v {
      B := m.ln(Sq(p.delta) - Sq(p.phi) - p.v);
    } else {
      var k := 1;
      while F(m, p, Down(m, p, k)) < 0.0
        invariant k >= 1 && WalkDown(m, p, 1) == WalkDown(m, p, k)
        decreases StepsLeft(p.tau, k)
      {
        WalkGoesOn(m, p, k);
        k := k + 1;
      }
      B := Down(m, p, k);
    }
    FirstStraddles(m, p);
    var fA, fB := F(m, p, A), F(m, p, B);
    assert Bracket(A, B, fA, fB) == First(m, p);
    var more := fuel;
    while more > 0 && Apart(Bracket(A, B, fA, fB))
      invariant Straddles(m, p, Bracket(A, B, fA, fB))
      invariant Solved(m, p, Bracket(A, B, fA, fB), more) == Solved(m, p, First(m, p), fuel)
      decreases more
    {
      StepKeepsBracket(m, p, Bracket(A, B, fA, fB));
      var C := Chord(Bracket(A, B, fA, fB));
      var fC := F(m, p, C);
      if fC * fB <= 0.0 {
        A, fA := B, fB;
      } else {
        fA := fA / 2.0;
      }
      B, fB := C, fC;
      more := more - 1;
    }
    if more > 0 { MetIsBracketed(m, p, Bracket(A, B, fA, fB)); }
    ExpIsPositive(m, A / 2.0);
    return m.exp(A / 2.0), more;
  }

  // ---- Where the new volatility lies --------------------------------------------------------------

  lemma ExpMonotone(m: Maths, x: real, y: real)
    requires Sound(m)
    ensures x <= y ==> m.exp(x) <= m.exp(y)
  {
  }

  lemma HalfSquared(m: Maths, x: real)
    requires Sound(m)
    ensures Sq(m.exp(x / 2.0)) == m.exp(x)
  {
    ExpAdds(m, x / 2.0, x / 2.0);
    assert x / 2.0 + x / 2.0 == x;
  }

  lemma ExpBelow(m: Maths, x: real, t: real)
    requires Sound(m)
    ensures m.exp(x - t) == m.exp(x) * m.exp(-t)
  {
    ExpAdds(m, x, -t);
  }

  lemma NewVariance(m: Maths, p: Problem, fuel: nat)
    requires Sound(m) && p.Valid()
    ensures m.exp(Start(m, p)) == Sq(p.sigma)
    ensures Within(Sq(NewSigma(m, p, fuel)), Sq(p.sigma), m.exp(FirstB(m, p)))
  {
    HalfSquared(m, Root(m, p, fuel));
    ExpLn(m, Sq(p.sigma));
    ExpWithin(m, Root(m, p, fuel), Start(m, p), FirstB(m, p));
    hide Sound, F, Sq, Root, FirstB;
  }

  /** Where a calm result's walk down ends. */
  lemma CalmBracket(m: Maths, p: Problem)
    requires Sound(m) && p.Valid() && p.Excess() <= 0.0
    ensures m.exp(FirstB(m, p)) <= m.exp(Start(m, p))
  {
    assert Sq(p.delta) <= Sq(p.phi) + p.v;
    hide Sound, F, Sq, Down, WalkDown, Start, FirstB;
    FirstStraddles(m, p);
    ExpMonotone(m, FirstB(m, p), Start(m, p));
  }

  lemma CalmStep(m: Maths, p: Problem)
    requires Sound(m) && p.Valid() && p.Excess() <= 0.0 && p.tau <= 2.0
    ensures m.exp(FirstB(m, p)) == Times(m.exp(Start(m, p)), m.exp(-p.tau))
  {
    hide Sound, F, Sq, Down, WalkDown, Start;
    NoWalk(m, p);
    OneStepDown(m, p);
    ExpBelow(m, Start(m, p), p.tau);
  }

  /** However many refinements are made: when the games surprise more than the rating allows, the new
      variance is between the old one and the excess; when they do not, volatility never rises, and
      with tau up to 2 its variance falls at most by the factor exp(-tau). */
  lemma VolatilityIsBetween(m: Maths, p: Problem, fuel: nat)
    requires Sound(m) && p.Valid()
    ensures var w := Sq(NewSigma(m, p, fuel));
      && (p.Excess() > 0.0 ==> Within(w, Sq(p.sigma), p.Excess()))
      && (p.Excess() <= 0.0 ==> w <= Sq(p.sigma))
      && (p.Excess() <= 0.0 && p.tau <= 2.0 ==> Times(Sq(p.sigma), m.exp(-p.tau)) <= w)
  {
    NewVariance(m, p, fuel);
    if p.Excess() > 0.0 {
      ExpLn(m, p.Excess());
      hide Sound, F, Sq, NewSigma, Start;
    } else {
      CalmBracket(m, p);
      if p.tau <= 2.0 { CalmStep(m, p); }
      hide Sound, F, Sq, NewSigma, Start, FirstB, Times;
    }
  }

  lemma ExpWithin(m: Maths, r: real, a: real, b: real)
    requires Sound(m) && Within(r, a, b)
    ensures Within(m.exp(r), m.exp(a), m.exp(b))
  {
    ExpMonotone(m, a, r);
    ExpMonotone(m, r, a);
    ExpMonotone(m, b, r);
    ExpMonotone(m, r, b);
    hide Sound;
  }

  lemma OneStepDown(m: Maths, p: Problem)
    ensures Down(m, p, 1) == Start(m, p) - p.tau
  {
  }
}
