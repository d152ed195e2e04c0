/** Glicko-2 rating updates (internal/rating/glicko2.go), after Glickman's "Example of the Glicko-2
    system". */
module Glicko {
  import opened Reals
  import V = Volatility

  const DEFAULT_RATING := 1500.0
  const DEFAULT_DEVIATION := 350.0
  const SCALE := 173.7178
  const TAU := 0.5

  datatype Player = Player(rating: real, deviation: real, volatility: real)

  datatype Result = Result(opponentRating: real, opponentDeviation: real, score: real)

  // ---- Steps 2 to 4 -------------------------------------------------------------------------------

  lemma SqrtPositive(m: Maths, x: real)
    requires Sound(m) && x > 0.0
    ensures m.sqrt(x) > 0.0 && Sq(m.sqrt(x)) == x
  {
    var s := m.sqrt(x);
    assert s * s == x;
  }

  function G(m: Maths, phi: real): (r: real)
    requires Sound(m)
    ensures r > 0.0
  {
    var x := 1.0 + 3.0 * Sq(phi) / Sq(m.pi);
    PiShare(phi, m.pi);
    SqrtPositive(m, x);
    OneOverPositive(m.sqrt(x));
    1.0 / m.sqrt(x)
  }

  lemma PiShare(phi: real, pi: real)
    requires pi > 0.0
    ensures Sq(pi) > 0.0 && 1.0 + 3.0 * Sq(phi) / Sq(pi) >= 1.0
  {
    var q := 3.0 * Sq(phi) / Sq(pi);
    assert q * Sq(pi) == 3.0 * Sq(phi);
    if q < 0.0 { ProductOfPositives(-q, Sq(pi)); }
  }

  lemma OneOverPositive(x: real)
    requires x > 0.0
    ensures 1.0 / x > 0.0 && (x > 1.0 ==> 1.0 / x < 1.0)
  {
    Inverse(x);
    if x > 1.0 { InverseBelow(1.0, x); }
  }

  function Logistic(m: Maths, x: real): (r: real)
    requires Sound(m)
    ensures 0.0 < r < 1.0
  {
    ExpIsPositive(m, -x);
    OneOverPositive(1.0 + m.exp(-x));
    1.0 / (1.0 + m.exp(-x))
  }

  function E(m: Maths, mu: real, muJ: real, phiJ: real): (r: real)
    requires Sound(m)
    ensures 0.0 < r < 1.0
  {
    Logistic(m, Times(G(m, phiJ), mu - muJ))
  }

  function Mu(rating: real): real { (rating - DEFAULT_RATING) / SCALE }

  /** What one result adds to 1/v. */
  function Information(m: Maths, mu: real, r: Result): (x: real)
    requires Sound(m)
    ensures x > 0.0
  {
    var phiJ := r.opponentDeviation / SCALE;
    var g, e := G(m, phiJ), E(m, mu, Mu(r.opponentRating), phiJ);
    Times(Sq(g), Times(e, 1.0 - e))
  }

  /** What one result adds to the improvement: the score above the one expected, weighed. */
  function Surprise(m: Maths, mu: real, r: Result): (x: real)
    requires Sound(m)
    ensures r.score >= 1.0 ==> x > 0.0
    ensures r.score <= 0.0 ==> x < 0.0
  {
    var phiJ := r.opponentDeviation / SCALE;
    var g, d := G(m, phiJ), r.score - E(m, mu, Mu(r.opponentRating), phiJ);
    if d < 0.0 then ProductOfPositives(g, -d); Times(g, d) else Times(g, d)
  }

  function VInv(m: Maths, mu: real, results: seq<Result>): (x: real)
    requires Sound(m)
    ensures x >= 0.0 && (results != [] ==> x > 0.0)
  {
    if results == [] then 0.0
    else VInv(m, mu, results[..|results| - 1]) + Information(m, mu, results[|results| - 1])
  }

  function DeltaSum(m: Maths, mu: real, results: seq<Result>): real
    requires Sound(m)
  {
    if results == [] then 0.0
    else DeltaSum(m, mu, results[..|results| - 1]) + Surprise(m, mu, results[|results| - 1])
  }

  // ---- The update ---------------------------------------------------------------------------------

  function WidenedBy(m: Maths, phi: real, sigma: real): real {
    m.sqrt(Sq(phi) + Sq(sigma))
  }

  /** phi' from the widened deviation and the variance of the games. */
  function Contracted(m: Maths, phiStar: real, v: real): (r: real)
    requires Sound(m) && phiStar > 0.0 && v > 0.0
    ensures r > 0.0
  {
    OneOverPositive(Sq(phiStar));
    OneOverPositive(v);
    SqrtPositive(m, 1.0 / Sq(phiStar) + 1.0 / v);
    OneOverPositive(m.sqrt(1.0 / Sq(phiStar) + 1.0 / v));
    1.0 / m.sqrt(1.0 / Sq(phiStar) + 1.0 / v)
  }

  function Step5(phi: real, v: real, deltaSum: real, sigma: real): V.Problem {
    V.Problem(phi, v, Times(v, deltaSum), sigma, TAU)
  }

  /** A player whose volatility has a logarithm. */
  ghost predicate Rated(p: Player) {
    p.volatility > 0.0
  }

  /** The update with at most `fuel` refinements of the volatility, from what the games add up to. */
  function Moved(m: Maths, p: Player, vInv: real, deltaSum: real, fuel: nat): (r: Player)
    requires Sound(m) && Rated(p) && vInv > 0.0
    ensures Rated(r) && r.deviation > 0.0
  {
    var mu, phi := Mu(p.rating), p.deviation / SCALE;
    OneOverPositive(vInv);
    var v := 1.0 / vInv;
    var sigma := V.NewSigma(m, Step5(phi, v, deltaSum, p.volatility), fuel);
    SqrtPositive(m, Sq(phi) + Sq(sigma));
    var phi' := Contracted(m, WidenedBy(m, phi, sigma), v);
    ProductOfPositives(phi', SCALE);
    Player((mu + Times(Sq(phi'), deltaSum)) * SCALE + DEFAULT_RATING, phi' * SCALE, sigma)
  }

  function Updated(m: Maths, p: Player, results: seq<Result>, fuel: nat): (r: Player)
    requires Sound(m) && Rated(p)
    ensures Rated(r)
  {
    if results == [] then p.(deviation := Idle(m, p))
    else Moved(m, p, VInv(m, Mu(p.rating), results), DeltaSum(m, Mu(p.rating), results), fuel)
  }

  function Capped(deviation: real): real {
    if deviation < DEFAULT_DEVIATION then deviation else DEFAULT_DEVIATION
  }

  /** No games: the deviation widens by the volatility, up to the default. */
  function Idle(m: Maths, p: Player): real {
    Capped(m.sqrt(Sq(p.deviation) + Sq(p.volatility)))
  }

  method Update(m: Maths, p: Player, results: seq<Result>, fuel: nat) returns (r: Player)
    requires Sound(m) && Rated(p)
    ensures r == Updated(m, p, results, fuel)
  {
    hide Sound, G, E, Sq;
    if |results| == 0 {
      return p.(deviation := Capped(m.sqrt(Sq(p.deviation) + Sq(p.volatility))));
    }
    var mu, phi := Mu(p.rating), p.deviation / SCALE;
    var vInv := 0.0;
    for i := 0 to |results|
      invariant vInv == VInv(m, mu, results[..i])
    {
      assert results[..i + 1][..i] == results[..i];
      vInv := vInv + Information(m, mu, results[i]);
    }
    assert results[..|results|] == results;
    var v := 1.0 / vInv;
    var deltaSum := 0.0;
    for i := 0 to |results|
      invariant deltaSum == DeltaSum(m, mu, results[..i])
    {
      assert results[..i + 1][..i] == results[..i];
      deltaSum := deltaSum + Surprise(m, mu, results[i]);
    }
    OneOverPositive(vInv);
    var sigma, _ := V.NewVolatility(m, Step5(phi, v, deltaSum, p.volatility), fuel);
    SqrtPositive(m, Sq(phi) + Sq(sigma));
    var phiStar := WidenedBy(m, phi, sigma);
    var phiPrime := Contracted(m, phiStar, v);
    var muPrime := mu + Times(Sq(phiPrime), deltaSum);
    return Player(muPrime * SCALE + DEFAULT_RATING, phiPrime * SCALE, sigma);
  }

  // ---- What a result is worth ---------------------------------------------------------------------

  /** The weight of an opponent is the positive root of 1 / (1 + 3 phi^2 / pi^2): 1 for one whose rating is
      certain, and the less the more uncertain it is. */
  lemma UncertainOpponentsCountLess(m: Maths, phi: real, more: real)
    requires Sound(m) && 0.0 <= phi < more
    ensures Sq(G(m, phi)) * (Sq(m.pi) + 3.0 * Sq(phi)) == Sq(m.pi)
    ensures G(m, more) < G(m, phi) <= 1.0
    ensures phi == 0.0 ==> G(m, phi) == 1.0
  {
    GSquared(m, phi);
    GSquared(m, more);
    SquareGrows(phi, more);
    var x, y, w, z := Sq(G(m, phi)), Sq(G(m, more)), Sq(m.pi) + 3.0 * Sq(phi), Sq(m.pi) + 3.0 * Sq(more);
    assert Times(x, w) == Times(y, z);
    hide Sound, G;
    if x <= y {
      TimesCommutes(x, w);
      TimesCommutes(x, z);
      TimesMonotone(w, z, x);
      TimesMonotone(x, y, z);
    }
    RootOrder(G(m, more), G(m, phi));
    GAtMostOne(G(m, phi), Sq(phi), Sq(m.pi));
  }

  lemma GAtMostOne(g: real, q: real, p: real)
    requires p > 0.0 && g > 0.0 && q >= 0.0 && Sq(g) * (p + 3.0 * q) == p
    ensures g <= 1.0
    ensures q == 0.0 ==> g == 1.0
  {
    var x := Sq(g);
    assert x * (p + 3.0 * q) == Times(x, p) + 3.0 * Times(x, q);
    TimesMonotone(1.0, x, p);
    TimesMonotone(x, 1.0, p);
    RootOrder(1.0, g);
    RootOrder(g, 1.0);
    assert Times(1.0, p) == p && Sq(1.0) == 1.0;
    hide Sq;
  }

  lemma GSquared(m: Maths, phi: real)
    requires Sound(m)
    ensures Sq(G(m, phi)) * (Sq(m.pi) + 3.0 * Sq(phi)) == Sq(m.pi)
  {
    PiShare(phi, m.pi);
    var q := 3.0 * Sq(phi) / Sq(m.pi);
    var s := m.sqrt(1.0 + q);
    SqrtPositive(m, 1.0 + q);
    Inverse(s);
    var g := 1.0 / s;
    SquareOfProduct(g, s);
    assert Sq(Times(g, s)) == 1.0;
    assert Times(Sq(g), 1.0 + q) == 1.0;
    assert q * Sq(m.pi) == 3.0 * Sq(phi);
    assert (1.0 + q) * Sq(m.pi) == Sq(m.pi) + 3.0 * Sq(phi);
    Regroup(Sq(g), 1.0 + q, Sq(m.pi));
  }

  lemma Regroup(x: real, y: real, z: real)
    ensures x * y * z == x * (y * z)
  {
  }

  lemma SquareGrows(x: real, y: real)
    requires 0.0 <= x < y
    ensures Sq(x) < Sq(y)
  {
    if x > 0.0 {
      TimesMonotone(x, y, x);
      TimesCommutes(x, y);
    }
    TimesMonotone(x, y, y);
  }

  lemma RootOrder(x: real, y: real)
    requires x > 0.0 && y > 0.0
    ensures Sq(x) < Sq(y) <==> x < y
  {
    if x < y { SquareGrows(x, y); }
    if y < x { SquareGrows(y, x); }
  }

  lemma LogisticLaws(m: Maths, x: real)
    requires Sound(m)
    ensures Logistic(m, x) == (1.0 - Logistic(m, x)) * m.exp(x)
    ensures Logistic(m, x) + Logistic(m, -x) == 1.0
  {
    var a, b := m.exp(-x), m.exp(x);
    ExpOfMinus(m, x);
    ExpIsPositive(m, x);
    ExpIsPositive(m, -x);
    assert -(-x) == x;
    hide Sound;
    Inverse(1.0 + a);
    Inverse(1.0 + b);
    var e, f := 1.0 / (1.0 + a), 1.0 / (1.0 + b);
    OddsOf(e, a, b);
    assert (e + f) * (1.0 + b) == e * (1.0 + b) + 1.0;
    assert e * (1.0 + b) == e + e * b;
    OneFactor(e, f, b);
  }

  lemma OddsOf(e: real, a: real, b: real)
    requires e + e * a == 1.0 && a * b == 1.0
    ensures e == (1.0 - e) * b
  {
    assert e * a * b == e * (a * b);
  }

  lemma OneFactor(e: real, f: real, b: real)
    requires b > 0.0 && e == (1.0 - e) * b && f + f * b == 1.0
    ensures e + f == 1.0
  {
    var x := e + f - 1.0;
    assert e + e * b == b;
    assert x * (1.0 + b) == (e + e * b) + (f + f * b) - (1.0 + b);
    if x > 0.0 { ProductOfPositives(x, 1.0 + b); }
    if x < 0.0 { ProductOfPositives(-x, 1.0 + b); }
  }

  lemma LogisticRises(m: Maths, x: real, y: real)
    requires Sound(m) && x < y
    ensures Logistic(m, x) < Logistic(m, y)
  {
    ExpIsPositive(m, -y);
    var a, b := 1.0 + m.exp(-x), 1.0 + m.exp(-y);
    assert b < a;
    hide Sound;
    Inverse(a);
    TimesCommutes(1.0 / a, a);
    TimesCommutes(1.0 / a, b);
    TimesMonotone(b, a, 1.0 / a);
    Inverse(b);
    TimesCancel(1.0 / a, 1.0 / b, b);
  }

  /** The score expected of a player has the odds exp(g (mu - muJ)). The two sides of a game expect to share
      its point, at one deviation; and a player expects more the higher their own rating and the lower the
      opponent's. */
  lemma ExpectedScores(m: Maths, mu: real, muJ: real, phi: real)
    requires Sound(m)
    ensures E(m, mu, muJ, phi) == (1.0 - E(m, mu, muJ, phi)) * m.exp(G(m, phi) * (mu - muJ))
    ensures E(m, mu, muJ, phi) + E(m, muJ, mu, phi) == 1.0
    ensures forall higher | higher > mu :: E(m, higher, muJ, phi) > E(m, mu, muJ, phi)
    ensures forall stronger | stronger > muJ :: E(m, mu, stronger, phi) < E(m, mu, muJ, phi)
  {
    var g := G(m, phi);
    LogisticLaws(m, Times(g, mu - muJ));
    assert Times(g, muJ - mu) == -Times(g, mu - muJ);
    hide Sound, Logistic, G;
    forall higher | higher > mu ensures E(m, higher, muJ, phi) > E(m, mu, muJ, phi) {
      ExpectsMore(m, higher, muJ, mu, muJ, phi);
    }
    forall stronger | stronger > muJ ensures E(m, mu, stronger, phi) < E(m, mu, muJ, phi) {
      ExpectsMore(m, mu, muJ, mu, stronger, phi);
    }
  }

  lemma ExpectsMore(m: Maths, mu: real, muJ: real, mu': real, muJ': real, phi: real)
    requires Sound(m) && mu - muJ > mu' - muJ'
    ensures E(m, mu, muJ, phi) > E(m, mu', muJ', phi)
  {
    var g := G(m, phi);
    TimesCommutes(g, mu - muJ);
    TimesCommutes(g, mu' - muJ');
    TimesMonotone(mu' - muJ', mu - muJ, g);
    LogisticRises(m, Times(g, mu' - muJ'), Times(g, mu - muJ));
    hide Sound, Logistic, G;
  }

  /** What one result adds to the improvement: nothing when the score is the expected one, for each point of
      score the opponent's weight, and more against a stronger opponent. */
  lemma SurpriseMeans(m: Maths, mu: real, r: Result, score: real, stronger: real)
    requires Sound(m)
    ensures r.score == E(m, mu, (r.opponentRating - 1500.0) / 173.7178, r.opponentDeviation / 173.7178)
        ==> Surprise(m, mu, r) == 0.0
    ensures Surprise(m, mu, r.(score := score)) - Surprise(m, mu, r)
         == G(m, r.opponentDeviation / 173.7178) * (score - r.score)
    ensures stronger > r.opponentRating ==>
      Surprise(m, mu, r.(opponentRating := stronger)) > Surprise(m, mu, r)
  {
    hide Sound, E, G, Times;
    var phiJ := r.opponentDeviation / SCALE;
    var g, e := G(m, phiJ), E(m, mu, Mu(r.opponentRating), phiJ);
    Difference(g, score - e, r.score - e);
    if stronger > r.opponentRating {
      ExpectsMore(m, mu, Mu(r.opponentRating), mu, Mu(stronger), phiJ);
      var d, d' := r.score - e, r.score - E(m, mu, Mu(stronger), phiJ);
      TimesMonotone(d, d', g);
      TimesCommutes(g, d);
      TimesCommutes(g, d');
    }
  }

  lemma Difference(g: real, x: real, y: real)
    ensures Times(g, x) - Times(g, y) == g * (x - y)
    ensures Times(g, 0.0) == 0.0
  {
  }

  /** Among the same results, the improvement is greater the stronger the opponent of any one of them. */
  lemma StrongerOpponentPaysMore(m: Maths, mu: real, results: seq<Result>, i: nat, stronger: real)
    requires Sound(m) && i < |results| && stronger > results[i].opponentRating
    ensures DeltaSum(m, mu, results[i := results[i].(opponentRating := stronger)]) > DeltaSum(m, mu, results)
  {
    var harder := results[i := results[i].(opponentRating := stronger)];
    SumsWithout(m, mu, results, i);
    SumsWithout(m, mu, harder, i);
    assert Without(harder, i) == Without(results, i);
    SurpriseMeans(m, mu, results[i], 0.0, stronger);
    hide Sound, Surprise, Information;
  }

  /** A result says most about a rating when the opponent's is the same: a quarter of the opponent's squared
      weight, and less as soon as they differ. */
  lemma EvenGamesSayMost(m: Maths, mu: real, r: Result)
    requires Sound(m)
    ensures var g := G(m, r.opponentDeviation / 173.7178);
      && Information(m, mu, r) <= Sq(g) / 4.0
      && (Information(m, mu, r) == Sq(g) / 4.0 <==> r.opponentRating == mu * 173.7178 + 1500.0)
  {
    hide Sound, E, G, Sq, Times;
    var phiJ, muJ := r.opponentDeviation / SCALE, Mu(r.opponentRating);
    var e, g := E(m, mu, muJ, phiJ), G(m, phiJ);
    ExpectedScores(m, mu, mu, phiJ);
    assert E(m, mu, mu, phiJ) == 0.5;
    assert e == 0.5 <==> muJ == mu by {
      if muJ > mu { ExpectsMore(m, mu, mu, mu, muJ, phiJ); }
      if muJ < mu { ExpectsMore(m, mu, muJ, mu, mu, phiJ); }
    }
    HalfIsEven(e, Sq(g));
  }

  lemma HalfIsEven(e: real, w: real)
    requires w > 0.0
    ensures Times(w, Times(e, 1.0 - e)) <= w / 4.0
    ensures Times(w, Times(e, 1.0 - e)) == w / 4.0 <==> e == 0.5
  {
    var h := 0.5 - e;
    var d := Sq(h);
    assert Times(e, 1.0 - e) == 0.25 - d;
    assert w * (0.25 - d) == w / 4.0 - Times(w, d);
    assert d > 0.0 <==> h != 0.0;
  }

  // ---- Order does not matter ----------------------------------------------------------------------

  function Without(s: seq<Result>, i: nat): seq<Result>
    requires i < |s|
  {
    s[..i] + s[i + 1..]
  }

  lemma {:induction false} SumsWithout(m: Maths, mu: real, s: seq<Result>, i: nat)
    requires Sound(m) && i < |s|
    ensures VInv(m, mu, s) == VInv(m, mu, Without(s, i)) + Information(m, mu, s[i])
    ensures DeltaSum(m, mu, s) == DeltaSum(m, mu, Without(s, i)) + Surprise(m, mu, s[i])
  {
    hide Sound, Information, Surprise;
    var last := |s| - 1;
    if i < last {
      SumsWithout(m, mu, s[..last], i);
      assert Without(s, i)[..last - 1] == Without(s[..last], i);
    } else {
      assert Without(s, i) == s[..last];
    }
  }

  lemma SameLessOne(s: seq<Result>, t: seq<Result>) returns (i: nat)
    requires multiset(s) == multiset(t) && s != []
    ensures i < |t| && t[i] == s[|s| - 1]
    ensures multiset(s[..|s| - 1]) == multiset(Without(t, i))
  {
    var last := |s| - 1;
    assert s == s[..last] + [s[last]];
    assert s[last] in multiset(t);
    i :| 0 <= i < |t| && t[i] == s[last];
    assert t == t[..i] + [t[i]] + t[i + 1..];
    assert multiset(s[..last]) == multiset(s) - multiset{s[last]};
    assert multiset(Without(t, i)) == multiset(t) - multiset{t[i]};
  }

  lemma {:induction false} SumsOfSame(m: Maths, mu: real, s: seq<Result>, t: seq<Result>)
    requires Sound(m) && multiset(s) == multiset(t)
    ensures VInv(m, mu, s) == VInv(m, mu, t) && DeltaSum(m, mu, s) == DeltaSum(m, mu, t)
    decreases |s|
  {
    hide Sound, Information, Surprise, Without;
    if s == [] {
      assert t == [] by { assert |multiset(t)| == 0; }
    } else {
      var i := SameLessOne(s, t);
      SumsOfSame(m, mu, s[..|s| - 1], Without(t, i));
      SumsWithout(m, mu, t, i);
    }
  }

  /** The results of a period count, not their order. */
  lemma OrderDoesNotMatter(m: Maths, p: Player, s: seq<Result>, t: seq<Result>, fuel: nat)
    requires Sound(m) && Rated(p) && multiset(s) == multiset(t)
    ensures Updated(m, p, s, fuel) == Updated(m, p, t, fuel)
  {
    hide Sound, Moved, VInv, DeltaSum;
    SumsOfSame(m, Mu(p.rating), s, t);
    assert |multiset(s)| == |s| && |multiset(t)| == |t|;
  }

  // ---- The new deviation --------------------------------------------------------------------------

  /** phi' is positive and below both what it was widened to and the root of the games' variance. */
  lemma ContractedBelow(m: Maths, phiStar: real, v: real)
    requires Sound(m) && phiStar > 0.0 && v > 0.0
    ensures 0.0 < Contracted(m, phiStar, v) < phiStar
    ensures Contracted(m, phiStar, v) < m.sqrt(v)
  {
    hide Sound, Sq, Times;
    Inverse(Sq(phiStar));
    Inverse(v);
    var s := 1.0 / Sq(phiStar) + 1.0 / v;
    SqrtPositive(m, s);
    SqrtPositive(m, v);
    AboveInverseRoot(phiStar, m.sqrt(s), 1.0 / Sq(phiStar));
    InverseBelow(phiStar, m.sqrt(s));
    AboveInverseRoot(m.sqrt(v), m.sqrt(s), 1.0 / v);
    InverseBelow(m.sqrt(v), m.sqrt(s));
  }

  /** After a period with games the deviation is positive and strictly below both the widened
      deviation and the root of the games' variance, on the display scale. */
  lemma DeviationContracts(m: Maths, p: Player, results: seq<Result>, fuel: nat)
    requires Sound(m) && Rated(p) && results != []
    ensures var r := Updated(m, p, results, fuel);
      var vInv := VInv(m, Mu(p.rating), results);
      && 0.0 < r.deviation < WidenedBy(m, p.deviation / SCALE, r.volatility) * SCALE
      && r.deviation < m.sqrt(1.0 / vInv) * SCALE
  {
    var vInv := VInv(m, Mu(p.rating), results);
    var r := Updated(m, p, results, fuel);
    Inverse(vInv);
    SqrtPositive(m, Sq(p.deviation / SCALE) + Sq(r.volatility));
    ContractedBelow(m, WidenedBy(m, p.deviation / SCALE, r.volatility), 1.0 / vInv);
    hide Sound, WidenedBy, Contracted, VInv, DeltaSum, V.NewSigma;
  }

  /** The update without its roots and quotients: the new precision 1/phi'^2 is that of the widened deviation
      and of the games together, and the rating moves by phi'^2 times the improvement; 173.7178 points to the
      unit. */
  lemma PrecisionsAdd(m: Maths, p: Player, results: seq<Result>, fuel: nat)
    requires Sound(m) && Rated(p) && results != []
    ensures var r := Updated(m, p, results, fuel);
      var mu, precision := (p.rating - 1500.0) / 173.7178, Sq(r.deviation / 173.7178);
      var wide := Sq(p.deviation / 173.7178) + Sq(r.volatility);
      && precision * (1.0 + wide * VInv(m, mu, results)) == wide
      && r.rating - p.rating == 173.7178 * Times(precision, DeltaSum(m, mu, results))
  {
    hide Sound, Sq, Times, VInv, DeltaSum, V.NewSigma, WidenedBy, Contracted;
    var mu, phi := Mu(p.rating), p.deviation / SCALE;
    var vInv, improvement := VInv(m, mu, results), DeltaSum(m, mu, results);
    Inverse(vInv);
    var sigma := V.NewSigma(m, Step5(phi, 1.0 / vInv, improvement, p.volatility), fuel);
    WidenedSquared(m, phi, sigma);
    ContractedSquared(m, WidenedBy(m, phi, sigma), vInv);
    var phi' := Contracted(m, WidenedBy(m, phi, sigma), 1.0 / vInv);
    MovedIs(mu, phi', Times(Sq(phi'), improvement));
  }

  lemma MovedIs(mu: real, phi: real, x: real)
    ensures phi * SCALE / 173.7178 == phi
    ensures (mu + x) * SCALE + DEFAULT_RATING - (mu * SCALE + DEFAULT_RATING) == 173.7178 * x
    ensures (mu * SCALE + DEFAULT_RATING - 1500.0) / 173.7178 == mu
  {
  }

  /** The new volatility is the solver's for these games, with tau 0.5. */
  lemma VolatilityIsTheSolvers(m: Maths, p: Player, results: seq<Result>, fuel: nat, v: real)
    requires Sound(m) && Rated(p) && results != []
    requires v > 0.0 && Times(v, VInv(m, (p.rating - 1500.0) / 173.7178, results)) == 1.0
    ensures var delta := Times(v, DeltaSum(m, (p.rating - 1500.0) / 173.7178, results));
      Updated(m, p, results, fuel).volatility
      == V.NewSigma(m, V.Problem(p.deviation / 173.7178, v, delta, p.volatility, 0.5), fuel)
  {
    hide Sound, Sq, VInv, DeltaSum, V.NewSigma, WidenedBy, Contracted;
    var vInv := VInv(m, Mu(p.rating), results);
    V.Divided(1.0, v, vInv);
  }

  lemma WidenedSquared(m: Maths, phi: real, sigma: real)
    requires Sound(m) && sigma > 0.0
    ensures WidenedBy(m, phi, sigma) > 0.0
    ensures Sq(WidenedBy(m, phi, sigma)) == Sq(phi) + Sq(sigma)
  {
    SqrtPositive(m, Sq(phi) + Sq(sigma));
  }

  lemma ContractedSquared(m: Maths, phiStar: real, vInv: real)
    requires Sound(m) && phiStar > 0.0 && vInv > 0.0 && 1.0 / vInv > 0.0
    ensures Sq(Contracted(m, phiStar, 1.0 / vInv)) * (1.0 + Sq(phiStar) * vInv) == Sq(phiStar)
  {
    var v, w := 1.0 / vInv, Sq(phiStar);
    Inverse(vInv);
    Inverse(v);
    Inverse(w);
    var s := 1.0 / w + 1.0 / v;
    SqrtPositive(m, s);
    var root := m.sqrt(s);
    Inverse(root);
    var c := 1.0 / root;
    assert c == Contracted(m, phiStar, v);
    SquareOfProduct(c, root);
    hide Sound, Sq, Contracted;
    OneOverInverse(vInv);
    assert w * s == 1.0 + w * vInv;
    ScaledInverse(Sq(c), s, w);
  }

  lemma OneOverInverse(x: real)
    requires x > 0.0
    ensures 1.0 / (1.0 / x) == x
  {
    Inverse(x);
    V.Divided(1.0, x, 1.0 / x);
  }

  lemma ScaledInverse(c: real, s: real, w: real)
    requires Times(c, s) == 1.0
    ensures c * (w * s) == w
  {
    assert c * (w * s) == (c * s) * w;
  }

  /** What step 6 of the paper makes of a period without games: phi^2 + sigma^2 on the internal
      scale, here on the display scale and capped. */
  function PaperIdle(m: Maths, p: Player): real {
    Capped(m.sqrt(Sq(p.deviation) + Sq(Times(SCALE, p.volatility))))
  }

  /** The code adds the volatility to the deviation without converting it, so an idle player's
      deviation widens by less than the paper's, except where both reach the cap. */
  lemma IdleFallsShort(m: Maths, p: Player)
    requires Sound(m) && Rated(p)
    ensures Idle(m, p) <= PaperIdle(m, p)
    ensures Idle(m, p) == PaperIdle(m, p) <==> m.sqrt(Sq(p.deviation) + Sq(p.volatility)) >= 350.0
  {
    var s := Sq(p.deviation);
    SquareOfProduct(SCALE, p.volatility);
    TimesMonotone(1.0, Sq(SCALE), Sq(p.volatility)) by { assert Sq(SCALE) == SCALE * SCALE; }
    assert Times(1.0, Sq(p.volatility)) == Sq(p.volatility);
    SqrtMonotone(m, s + Sq(p.volatility), s + Sq(Times(SCALE, p.volatility)));
  }

  lemma SqrtMonotone(m: Maths, x: real, y: real)
    requires Sound(m) && 0.0 < x < y
    ensures m.sqrt(x) < m.sqrt(y)
  {
    SqrtPositive(m, x);
    SqrtPositive(m, y);
    var a, b := m.sqrt(x), m.sqrt(y);
    hide Sound;
    assert Sq(a) == Times(a, a) && Sq(b) == Times(b, b);
    TimesCommutes(a, b);
    TimesMonotone(b, a, a);
    TimesMonotone(b, a, b);
  }

  // ---- Ranked puzzles (internal/store/puzzleranked.go) --------------------------------------------

  const PENALTY_FLOOR_RATING := 1200.0
  const PENALTY_PER_POINT := 1.0 / 800.0
  const PENALTY_MAX := 2.5
  const RATING_FLOOR := 400.0

  function Multiplier(current: real): (r: real)
    ensures 1.0 <= r <= PENALTY_MAX
  {
    var x := if current > PENALTY_FLOOR_RATING then 1.0 + (current - PENALTY_FLOOR_RATING) * PENALTY_PER_POINT else 1.0;
    if x > PENALTY_MAX then PENALTY_MAX else x
  }

  function Charged(current: real, drop: real): real {
    var charged := Times(drop, Multiplier(current));
    var floored := if current - charged < RATING_FLOOR then current - RATING_FLOOR else charged;
    if floored < 0.0 then 0.0 else floored
  }

  /** A charge never pays out and never takes a rating below the floor; above the floor it is at
      least the drop Glicko asks for and at most two and a half times it; and a higher rating is
      never charged less for the same drop. */
  lemma ChargeIsFair(current: real, higher: real, drop: real)
    requires drop >= 0.0
    ensures Charged(current, drop) >= 0.0
    ensures current >= RATING_FLOOR ==> current - Charged(current, drop) >= RATING_FLOOR
    ensures current < RATING_FLOOR ==> Charged(current, drop) == 0.0
    ensures current - Charged(current, drop) > RATING_FLOOR ==> Charged(current, drop) >= drop
    ensures Charged(current, drop) <= Times(drop, PENALTY_MAX)
    ensures current <= higher ==> Charged(current, drop) <= Charged(higher, drop)
  {
    var x, y := Multiplier(current), Multiplier(higher);
    assert current <= higher ==> x <= y;
    Scaled(drop, 1.0, x);
    Scaled(drop, x, PENALTY_MAX);
    if current <= higher { Scaled(drop, x, y); }
    assert Times(drop, 1.0) == drop;
    hide Multiplier, Times;
  }

  /** Out of the floor's reach, a drop is charged once at 1200 and below, two and a half times at 2400 and
      above, and in between one eight-hundredth more for each point of rating; within its reach the rating is
      left at 400. */
  lemma ChargeByRating(current: real, drop: real)
    requires drop >= 0.0
    ensures current - 2.5 * drop >= 400.0 ==>
      800.0 * (Charged(current, drop) - drop)
      == (if current <= 1200.0 then 0.0 else if current >= 2400.0 then 1200.0 else current - 1200.0) * drop
    ensures current >= 400.0 > current - drop ==> Charged(current, drop) == current - 400.0
  {
    var x := Multiplier(current);
    assert Charged(current, drop) >= 0.0;
    Scaled(drop, x, PENALTY_MAX);
    Scaled(drop, 1.0, x);
    assert 800.0 * (x - 1.0)
        == if current <= 1200.0 then 0.0 else if current >= 2400.0 then 1200.0 else current - 1200.0;
    assert 800.0 * (drop * x - drop) == (800.0 * (x - 1.0)) * drop;
  }

  lemma Scaled(d: real, x: real, y: real)
    requires d >= 0.0 && 0.0 < x <= y
    ensures 0.0 <= Times(d, x) <= Times(d, y)
  {
    if d > 0.0 {
      TimesMonotone(x, y, d);
      TimesCommutes(x, d);
      TimesCommutes(y, d);
    }
  }

  method MissPenalty(current: real, drop: real) returns (charged: real)
    ensures charged == Charged(current, drop)
    ensures drop >= 0.0 ==>
      && 0.0 <= charged <= Times(drop, PENALTY_MAX)
      && (current < RATING_FLOOR ==> charged == 0.0)
      && (current >= RATING_FLOOR ==> current - charged >= RATING_FLOOR)
      && (current - charged > RATING_FLOOR ==> charged >= drop)
  {
    if drop >= 0.0 { ChargeIsFair(current, current, drop); }
    var multiplier := 1.0;
    if current > PENALTY_FLOOR_RATING {
      multiplier := multiplier + (current - PENALTY_FLOOR_RATING) * PENALTY_PER_POINT;
    }
    if multiplier > PENALTY_MAX {
      multiplier := PENALTY_MAX;
    }
    charged := Times(drop, multiplier);
    if current - charged < RATING_FLOOR {
      charged := current - RATING_FLOOR;
    }
    if charged < 0.0 {
      charged := 0.0;
    }
  }

  /** RecordRanked's two ratings: each side plays the other as it was before. */
  function AfterAttempt(m: Maths, user: Player, puzzle: Player, solved: bool, fuel: nat): (r: (Player, Player))
    requires Sound(m) && Rated(user) && Rated(puzzle)
    ensures Rated(r.0) && Rated(r.1)
  {
    var score := if solved then 1.0 else 0.0;
    var u := Updated(m, user, [Result(puzzle.rating, puzzle.deviation, score)], fuel);
    var z := Updated(m, puzzle, [Result(user.rating, user.deviation, 1.0 - score)], fuel);
    (if solved then u else u.(rating := user.rating - Charged(user.rating, user.rating - u.rating)), z)
  }

  lemma OneResult(m: Maths, mu: real, r: Result)
    requires Sound(m)
    ensures VInv(m, mu, [r]) == Information(m, mu, r) && DeltaSum(m, mu, [r]) == Surprise(m, mu, r)
  {
    assert [r][..0] == [];
  }

  /** A win strictly raises a rating and a loss strictly lowers it. */
  lemma ResultMovesRating(m: Maths, p: Player, r: Result, fuel: nat)
    requires Sound(m) && Rated(p)
    ensures r.score >= 1.0 ==> Updated(m, p, [r], fuel).rating > p.rating
    ensures r.score <= 0.0 ==> Updated(m, p, [r], fuel).rating < p.rating
  {
    var mu, phi := Mu(p.rating), p.deviation / SCALE;
    OneResult(m, mu, r);
    var vInv := Information(m, mu, r);
    Inverse(vInv);
    var sigma := V.NewSigma(m, Step5(phi, 1.0 / vInv, Surprise(m, mu, r), p.volatility), fuel);
    SqrtPositive(m, Sq(phi) + Sq(sigma));
    var phi' := Contracted(m, WidenedBy(m, phi, sigma), 1.0 / vInv);
    hide Sound, V.NewSigma, Information, Surprise, Contracted, WidenedBy, VInv, DeltaSum, Sq;
    SignedProduct(Sq(phi'), Surprise(m, mu, r));
    assert Mu(p.rating) * SCALE + DEFAULT_RATING == p.rating;
  }

  lemma SignedProduct(x: real, y: real)
    requires x > 0.0
    ensures y > 0.0 ==> Times(x, y) > 0.0
    ensures y < 0.0 ==> Times(x, y) < 0.0
  {
    ProductOfPositives(x, -y);
  }

  /** A solve raises the user and lowers the puzzle; a miss raises the puzzle, as if it had solved the user, and
      never raises the user. */
  lemma AttemptMovesRating(m: Maths, user: Player, puzzle: Player, solved: bool, fuel: nat)
    requires Sound(m) && Rated(user) && Rated(puzzle)
    ensures var (u, z) := AfterAttempt(m, user, puzzle, solved, fuel);
      && (solved ==> u.rating > user.rating && z.rating < puzzle.rating)
      && (!solved ==> u.rating <= user.rating && z.rating > puzzle.rating)
      && (user.rating >= RATING_FLOOR ==> u.rating >= RATING_FLOOR)
    ensures !solved ==>
      AfterAttempt(m, user, puzzle, solved, fuel).1 == AfterAttempt(m, puzzle, user, true, fuel).0
  {
    var r := Result(puzzle.rating, puzzle.deviation, if solved then 1.0 else 0.0);
    ResultMovesRating(m, user, r, fuel);
    ResultMovesRating(m, puzzle, Result(user.rating, user.deviation, 1.0 - r.score), fuel);
    var drop := user.rating - Updated(m, user, [r], fuel).rating;
    if !solved { ChargeIsFair(user.rating, user.rating, drop); }
    hide Sound, Updated, Charged;
  }

  datatype Try = Try(puzzle: Player, solved: bool, fuel: nat)

  /** The user's rating over a run of recorded attempts, whatever the puzzles' ratings by then. */
  function AfterRun(m: Maths, user: Player, run: seq<Try>): (r: Player)
    requires Sound(m) && Rated(user) && forall t | t in run :: Rated(t.puzzle)
    ensures Rated(r)
  {
    if run == [] then user
    else
      var t := run[|run| - 1];
      AfterAttempt(m, AfterRun(m, user, run[..|run| - 1]), t.puzzle, t.solved, t.fuel).0
  }

  /** A puzzle rating that starts at or above the floor stays there, every solve on the way strictly
      raises it and no miss ever does. */
  lemma {:induction false} RatingOverARun(m: Maths, user: Player, run: seq<Try>, k: nat)
    requires Sound(m) && Rated(user) && forall t | t in run :: Rated(t.puzzle)
    requires k < |run|
    ensures user.rating >= 400.0 ==> AfterRun(m, user, run).rating >= 400.0
    ensures var before, after := AfterRun(m, user, run[..k]).rating, AfterRun(m, user, run[..k + 1]).rating;
      && (run[k].solved ==> after > before)
      && (!run[k].solved ==> after <= before)
    decreases |run|
  {
    hide Sound, AfterAttempt;
    var last := |run| - 1;
    var before := AfterRun(m, user, run[..last]);
    AttemptMovesRating(m, before, run[last].puzzle, run[last].solved, run[last].fuel);
    if last > 0 {
      RatingOverARun(m, user, run[..last], if k < last then k else 0);
    }
    if k < last {
      assert run[..last][..k] == run[..k] && run[..last][..k + 1] == run[..k + 1];
    } else {
      assert run[..k + 1] == run;
    }
  }
}
