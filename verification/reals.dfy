/** Real arithmetic the programs take from their maths libraries, and sums over sequences. */
module Reals {
  /** The library functions. Sound says what is assumed of them. */
  datatype Maths = Maths(exp: real -> real, ln: real -> real, sqrt: real -> real, pi: real)

  ghost predicate Sound(m: Maths) {
    && (forall x :: m.exp(x) > 0.0)
    && (forall x, y :: x < y ==> m.exp(x) < m.exp(y))
    && (forall x, y :: m.exp(x + y) == m.exp(x) * m.exp(y))
    && (forall x :: x > 0.0 ==> m.exp(m.ln(x)) == x)
    && (forall x :: x >= 0.0 ==> m.sqrt(x) >= 0.0 && m.sqrt(x) * m.sqrt(x) == x)
    && m.pi > 0.0
  }

  lemma ExpIsPositive(m: Maths, x: real)
    requires Sound(m)
    ensures m.exp(x) > 0.0
  {
  }

  lemma ExpAdds(m: Maths, x: real, y: real)
    requires Sound(m)
    ensures m.exp(x + y) == m.exp(x) * m.exp(y)
  {
  }

  lemma ExpOfMinus(m: Maths, x: real)
    requires Sound(m)
    ensures m.exp(0.0) == 1.0
    ensures m.exp(-x) * m.exp(x) == 1.0
  {
    ExpAdds(m, 0.0, 0.0);
    assert 0.0 + 0.0 == 0.0;
    var one := m.exp(0.0);
    assert one > 0.0 && one * one == one;
    assert one * (one - 1.0) == 0.0;
    ExpAdds(m, -x, x);
    assert -x + x == 0.0;
  }

  lemma ProductOfPositives(x: real, y: real)
    ensures x > 0.0 && y > 0.0 ==> x * y > 0.0
  {
    if x > 0.0 && y > 0.0 { assert x * y > 0.0; }
  }

  lemma ProductOfNegatives(x: real, y: real)
    ensures x < 0.0 && y < 0.0 ==> x * y > 0.0
  {
    ProductOfPositives(-x, -y);
    assert -x * -y == x * y;
  }

  function Times(x: real, y: real): (r: real)
    ensures r == x * y
    ensures x > 0.0 && y > 0.0 ==> r > 0.0
    ensures x < 0.0 && y < 0.0 ==> r > 0.0
  {
    ProductOfPositives(x, y);
    ProductOfNegatives(x, y);
    x * y
  }

  function Sq(x: real): (r: real)
    ensures r >= 0.0
    ensures x != 0.0 ==> r > 0.0
  {
    Times(x, x)
  }

  lemma TimesCommutes(x: real, y: real)
    ensures Times(x, y) == Times(y, x)
  {
  }

  lemma TimesMonotone(x: real, y: real, z: real)
    requires z > 0.0
    ensures x < y ==> Times(x, z) < Times(y, z)
    ensures x <= y ==> Times(x, z) <= Times(y, z)
  {
    if x < y {
      ProductOfPositives(y - x, z);
      assert (y - x) * z == y * z - x * z;
    }
  }

  lemma TimesCancel(x: real, y: real, z: real)
    requires z > 0.0 && Times(x, z) < Times(y, z)
    ensures x < y
  {
    TimesMonotone(y, x, z);
  }

  lemma Inverse(x: real)
    requires x > 0.0
    ensures 1.0 / x > 0.0 && Times(1.0 / x, x) == 1.0
  {
    var q := 1.0 / x;
    assert q * x == 1.0;
    if q <= 0.0 { ProductOfPositives(-q, x); }
  }

  lemma InverseBelow(x: real, y: real)
    requires y > 0.0 && Times(x, y) > 1.0
    ensures 1.0 / y < x
  {
    Inverse(y);
    TimesCancel(1.0 / y, x, y);
  }

  lemma QuotientOrder(x: real, y: real, s: real)
    requires s > 0.0
    ensures x <= y <==> x / s <= y / s
    ensures x * s / s == x
    ensures 0.0 / s == 0.0
  {
    var a, b := x / s, y / s;
    assert Times(a, s) == x && Times(b, s) == y;
    TimesMonotone(a, b, s);
    TimesMonotone(b, a, s);
  }

  lemma DivisorOrder(x: real, s: real, t: real)
    requires x > 0.0 && s > 0.0 && t > 0.0 && x / s <= x / t
    ensures t <= s
  {
    var a, b := x / s, x / t;
    assert Times(a, s) == x && Times(b, t) == x;
    if s < t {
      TimesMonotone(a, b, s);
      if b <= 0.0 { ProductOfPositives(-b, t); }
      TimesMonotone(s, t, b);
      TimesCommutes(b, s);
      TimesCommutes(b, t);
    }
  }

  lemma SquareOfProduct(x: real, y: real)
    ensures Sq(Times(x, y)) == Times(Sq(x), Sq(y))
  {
    var a, b := Sq(x), Sq(y);
    assert a * b == (x * x) * b;
    assert (x * x) * b == x * (x * b);
    assert x * b == x * (y * y) == (x * y) * y;
  }

  /** y above the root of 1/x^2. */
  lemma AboveInverseRoot(x: real, y: real, o: real)
    requires x > 0.0 && y > 0.0 && Times(o, Sq(x)) == 1.0 && Sq(y) > o
    ensures Times(x, y) > 1.0
  {
    TimesMonotone(o, Sq(y), Sq(x));
    SquareOfProduct(y, x);
    TimesCommutes(y, x);
    var q := Times(x, y);
    assert Sq(q) > 1.0;
    TimesMonotone(q, 1.0, q);
    assert Sq(q) == Times(q, q);
  }

  function Sum(s: seq<real>): real {
    if s == [] then 0.0 else Sum(s[..|s| - 1]) + s[|s| - 1]
  }

  function Count(s: seq<nat>): nat {
    if s == [] then 0 else Count(s[..|s| - 1]) + s[|s| - 1]
  }

  lemma {:induction false} SumUpdate(s: seq<real>, k: nat, x: real)
    requires k < |s|
    ensures Sum(s[k := x]) == Sum(s) - s[k] + x
  {
    var t := s[k := x];
    var last := |s| - 1;
    if k == last {
      assert t[..last] == s[..last];
    } else {
      assert t[..last] == s[..last][k := x];
      SumUpdate(s[..last], k, x);
    }
  }

  lemma {:induction false} CountUpdate(s: seq<nat>, k: nat, x: nat)
    requires k < |s|
    ensures Count(s[k := x]) == Count(s) - s[k] + x
  {
    var t := s[k := x];
    var last := |s| - 1;
    if k == last {
      assert t[..last] == s[..last];
    } else {
      assert t[..last] == s[..last][k := x];
      CountUpdate(s[..last], k, x);
    }
  }

  lemma {:induction false} SumScaled(s: seq<real>, t: seq<real>, c: real)
    requires |s| == |t| && forall i | 0 <= i < |s| :: t[i] == c * s[i]
    ensures Sum(t) == c * Sum(s)
  {
    if s != [] {
      SumScaled(s[..|s| - 1], t[..|s| - 1], c);
    }
  }

  lemma {:induction false} SumPositive(s: seq<real>)
    requires s != [] && forall i | 0 <= i < |s| :: s[i] > 0.0
    ensures Sum(s) > 0.0
  {
    if |s| > 1 {
      SumPositive(s[..|s| - 1]);
    }
  }

  lemma {:induction false} SumZero(s: seq<real>)
    requires forall i | 0 <= i < |s| :: s[i] == 0.0
    ensures Sum(s) == 0.0
  {
    if s != [] {
      SumZero(s[..|s| - 1]);
    }
  }

  lemma {:induction false} CountZero(s: seq<nat>)
    requires forall i | 0 <= i < |s| :: s[i] == 0
    ensures Count(s) == 0
  {
    if s != [] {
      CountZero(s[..|s| - 1]);
    }
  }

  /** No summand above `top`. */
  lemma {:induction false} CountAtMost(s: seq<nat>, top: nat)
    requires forall i | 0 <= i < |s| :: s[i] <= top
    ensures Count(s) <= top * |s|
  {
    if s != [] {
      CountAtMost(s[..|s| - 1], top);
    }
  }

  lemma SumStep(s: seq<real>, i: nat)
    requires i < |s|
    ensures Sum(s[..i + 1]) == Sum(s[..i]) + s[i]
    ensures s[..|s|] == s
  {
    assert s[..i + 1][..i] == s[..i];
  }
}
