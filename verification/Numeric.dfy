/**
 Scale-10 decimal arithmetic of pkg/numeric/numeric.go.

 A decimal value is an exact `real`.  A stored NUMERIC(30, 10) column is an `int` count of
 units of 10^-10.  Every arithmetic helper of the package computes exactly and then rounds
 once to ten decimals, halves away from zero.
 */
module Numeric {

  /** The number of units nearest to r, halves away from zero. */
  function Units(r: real): (u: int)
    ensures -0.5 <= u as real - r * 10_000_000_000.0 <= 0.5
    ensures r >= 0.0 ==> u >= 0
    ensures r <= 0.0 ==> u <= 0
  {
    if r >= 0.0 then (r * 10_000_000_000.0 + 0.5).Floor else -((-r * 10_000_000_000.0 + 0.5).Floor)
  }

  /** The decimal value of a stored column. */
  function Dec(u: int): real {
    u as real / 10_000_000_000.0
  }

  /** A value with at most ten decimals. */
  ghost predicate ScaleTen(r: real) {
    r == Dec(Units(r))
  }

  function FromRat(r: real): real {
    Dec(Units(r))
  }

  /** The exact product. */
  function Times(a: real, b: real): real {
    a * b
  }

  function Mul(a: real, b: real): real {
    FromRat(Times(a, b))
  }

  function Sub(a: real, b: real): real {
    FromRat(a - b)
  }

  function Add(a: real, b: real): real {
    FromRat(a + b)
  }

  function Neg(a: real): real {
    FromRat(-a)
  }

  function Cmp(a: real, b: real): (c: int)
    ensures c < 0 <==> a < b
    ensures c == 0 <==> a == b
    ensures c > 0 <==> a > b
  {
    if a < b then -1 else if a == b then 0 else 1
  }

  /** The declarative meaning of Units: within half a unit, and a tie never moves towards zero. */
  ghost predicate IsRounding(r: real, u: int) {
    && -0.5 <= u as real - r * 10_000_000_000.0 <= 0.5
    && (u as real - r * 10_000_000_000.0 == 0.5 ==> r >= 0.0)
    && (u as real - r * 10_000_000_000.0 == -0.5 ==> r <= 0.0)
  }

  lemma UnitsIsTheRounding(r: real, u: int)
    ensures IsRounding(r, u) <==> u == Units(r)
  {
    if IsRounding(r, u) {
      var d := u - Units(r);
      assert -1.0 <= d as real <= 1.0;
    }
  }

  lemma UnitsOfDec(u: int)
    ensures Units(Dec(u)) == u
    ensures ScaleTen(Dec(u))
  {
    assert Dec(u) * 10_000_000_000.0 == u as real;
  }

  /** Rounding is odd. */
  lemma UnitsOdd(r: real)
    ensures Units(-r) == -Units(r)
  {
  }

  lemma UnitsMonotone(a: real, b: real)
    requires a <= b
    ensures Units(a) <= Units(b)
  {
    assert a * 10_000_000_000.0 <= b * 10_000_000_000.0;
  }

  /** Adding a whole number of units commutes with rounding, as long as no sign changes. */
  lemma UnitsShift(u: int, r: real)
    requires u >= 0 && r >= 0.0
    ensures Units(Dec(u) + r) == u + Units(r)
  {
    assert (Dec(u) + r) * 10_000_000_000.0 == u as real + r * 10_000_000_000.0;
  }

  /** Add and Sub are exact on values that are already at scale 10. */
  lemma AddSubExact(a: int, b: int)
    ensures Add(Dec(a), Dec(b)) == Dec(a + b)
    ensures Sub(Dec(a), Dec(b)) == Dec(a - b)
    ensures Neg(Dec(a)) == Dec(-a)
  {
    assert Dec(a) + Dec(b) == Dec(a + b);
    assert Dec(a) - Dec(b) == Dec(a - b);
    assert -Dec(a) == Dec(-a);
    UnitsOfDec(a + b);
    UnitsOfDec(a - b);
    UnitsOfDec(-a);
  }

  /** A negated amount is stored as the negated stored amount. */
  lemma UnitsOfNeg(r: real)
    ensures Units(Neg(r)) == -Units(r)
  {
    UnitsOdd(r);
    hide Dec, Units;
    UnitsOfDec(Units(-r));
  }

  /** A value with more than ten decimals is told apart from its rounding by a large enough
      whole factor. */
  lemma Amplifier(r: real) returns (n: int)
    requires !ScaleTen(r)
    ensures ScaleTen(n as real) && n > 0
    ensures Units(Times(r, n as real)) != MulUnits(Units(r), Units(n as real))
  {
    var u := Units(r);
    var e := r * 10_000_000_000.0 - u as real;
    assert e != 0.0 by {
      assert e == 0.0 ==> r == Dec(u);
    }
    n := LargeFactor(e);
    UnitsOfWhole(n);
    var x := Times(r, n as real) * 10_000_000_000.0;
    assert x == (u * n) as real + e * n as real by { Split(r, u, e, n); }
    assert Times(Dec(u), n as real) == Dec(u * n) by { WholeTimes(u, n); }
    UnitsOfDec(u * n);
    assert MulUnits(u, Units(n as real)) == u * n;
    var w := Units(Times(r, n as real));
    assert -0.5 <= w as real - x <= 0.5;
    hide Units, Times, Dec;
  }

  /** A whole factor that stretches e beyond one. */
  lemma LargeFactor(e: real) returns (n: int)
    requires e != 0.0
    ensures n > 0 && (e * n as real >= 1.0 || e * n as real <= -1.0)
  {
    var d := if e > 0.0 then e else -e;
    n := (1.0 / d).Floor + 1;
    Reciprocal(d, n as real);
    assert n as real > 0.0;
    assert e < 0.0 ==> e * n as real == -(d * n as real) by { Negated(d, n as real); }
  }

  lemma Reciprocal(d: real, x: real)
    requires d > 0.0
    ensures 1.0 / d > 0.0
    ensures x >= 1.0 / d ==> d * x >= 1.0
  {
    var r := 1.0 / d;
    assert d * r == 1.0;
    if x >= r {
      assert d * (x - r) >= 0.0;
      assert d * (x - r) == d * x - d * r;
    }
  }

  lemma Negated(d: real, x: real)
    ensures -d * x == -(d * x)
  {
  }

  lemma UnitsOfWhole(n: int)
    ensures Units(n as real) == n * 10_000_000_000 && Dec(Units(n as real)) == n as real && ScaleTen(n as real)
  {
    assert Dec(n * 10_000_000_000) == n as real;
    UnitsOfDec(n * 10_000_000_000);
  }

  lemma Split(r: real, u: int, e: real, n: int)
    requires r * 10_000_000_000.0 == u as real + e
    ensures Times(r, n as real) * 10_000_000_000.0 == (u * n) as real + e * n as real
  {
    assert Times(r, n as real) * 10_000_000_000.0 == (r * 10_000_000_000.0) * n as real;
    Distributes(u as real, e, n as real);
    WholeProduct(u, n);
  }

  lemma Distributes(a: real, b: real, c: real)
    ensures (a + b) * c == a * c + b * c
  {
  }

  lemma WholeProduct(u: int, n: int)
    ensures u as real * n as real == (u * n) as real
  {
  }

  lemma WholeTimes(u: int, n: int)
    ensures Times(Dec(u), n as real) == Dec(u * n)
  {
    assert u as real * n as real == (u * n) as real;
  }

  lemma TimesCommutes(a: real, b: real)
    ensures Times(a, b) == Times(b, a)
  {
  }

  /** The product of two stored columns, as it is stored. */
  function MulUnits(p: int, q: int): int {
    Units(Times(Dec(p), Dec(q)))
  }

  lemma TimesMonotone(a: real, b: real, b': real)
    requires a >= 0.0 && b <= b'
    ensures Times(a, b) <= Times(a, b')
  {
  }

  lemma MulUnitsMonotone(p: int, q: int, q': int)
    requires p >= 0 && q <= q'
    ensures MulUnits(p, q) <= MulUnits(p, q')
  {
    assert Dec(p) >= 0.0 && Dec(q) <= Dec(q');
    hide Units, Dec, Times;
    TimesMonotone(Dec(p), Dec(q), Dec(q'));
    UnitsMonotone(Times(Dec(p), Dec(q)), Times(Dec(p), Dec(q')));
  }

  /** Products of stored columns are again stored columns. */
  lemma MulOfDec(p: int, q: int)
    ensures Mul(Dec(p), Dec(q)) == Dec(MulUnits(p, q))
  {
    hide Times, Dec, Units;
  }

  /** A product of scale-10 values is stored as the product of the stored values. */
  lemma MulUnitsOfScaleTen(a: real, b: real)
    requires ScaleTen(a) && ScaleTen(b)
    ensures MulUnits(Units(a), Units(b)) == Units(Mul(a, b))
  {
    hide Times, Dec, Units;
    UnitsOfDec(Units(Times(a, b)));
  }
}
