/** The percentage of completed tasks as the list of a day computes it, with doubles: the quotient of the two numbers is
    rounded, its product with a hundred is rounded again, and the result is rounded to an integer, halves up. The errors of
    the two roundings add up to at most 300 units of 2^-53. */
module DoublePercents {
  import opened Doubles
  import opened Ratios

  /* So many tasks that a day never has them. */
  const MANY := 0x800_0000_0000

  lemma SmallPowers()
    ensures Pow2(-1) == 0.5 && Pow2(0) == 1.0 && Pow2(1) == 2.0 && Pow2(2) == 4.0 && Pow2(3) == 8.0 && Pow2(4) == 16.0
    ensures Pow2(5) == 32.0 && Pow2(6) == 64.0 && Pow2(7) == 128.0 && Pow2(8) == 256.0
    ensures Pow2(-2) == 0.25 && Pow2(-3) == 0.125 && Pow2(-4) == 0.0625 && Pow2(-5) == 0.03125
    ensures Pow2(-6) == 0.015625 && Pow2(-7) == 0.0078125 && Pow2(-8) == 0.00390625
  {
    Pow2Zero();
    Pow2Next(0); Pow2Next(1); Pow2Next(2); Pow2Next(3); Pow2Next(4); Pow2Next(5); Pow2Next(6); Pow2Next(7);
    Pow2Next(-1); Pow2Next(-2); Pow2Next(-3); Pow2Next(-4); Pow2Next(-5); Pow2Next(-6); Pow2Next(-7); Pow2Next(-8);
  }

  lemma LargePowers()
    ensures Pow2(10) == 1024.0 && Pow2(43) == 8796093022208.0 && Pow2(50) == 1125899906842624.0
    ensures Pow2(53) == 9007199254740992.0 && Pow2(-53) == 1.0 / 9007199254740992.0
    ensures Pow2(-50) == 1.0 / 1125899906842624.0
  {
    hide Pow2;
    SmallPowers();
    Pow2Sum(5, 5);
    Pow2Sum(10, 10);
    Pow2Sum(20, 20);
    Pow2Sum(40, 3);
    Pow2Sum(40, 10);
    Pow2Sum(50, 3);
    Pow2Sum(-53, 53);
    Pow2Sum(-50, 50);
  }

  lemma NormalBetween(x: real)
    requires 1.0 <= x * 1125899906842624.0 && x <= 1024.0
    ensures Normal(x)
  {
    hide Pow2;
    LargePowers();
    Pow2Monotone(LOWEST, -50);
    Pow2Monotone(10, HIGHEST);
    Pow2Next(HIGHEST);
  }

  lemma IntegerNormal(n: nat)
    requires 0 < n <= MANY
    ensures Normal(n as real) && Double(n as real) == n as real
  {
    hide Pow2, Double;
    LargePowers();
    Pow2Monotone(LOWEST, -50);
    Pow2Monotone(43, HIGHEST);
    Pow2Next(HIGHEST);
    IntegerIsDouble(n);
  }

  lemma RatioBounds(c: nat, t: nat, r: real)
    requires 0 < c <= t <= MANY && r == c as real / t as real
    ensures 0.0 < r <= 1.0 && 1.0 <= r * 8796093022208.0 && r * t as real == c as real
  {
    var x, y := t as real, c as real;
    QuotientTimes(y, x);
    FactorBounds(r, x, y);
    Swapped(r, x, y);
    Ordered(x, 8796093022208.0, r, y, 8796093022208.0 * r);
  }

  lemma SameSign(d: real, g: real, dg: real)
    requires g > 0.0 && dg == d * g
    ensures (d > 0.0 <==> dg > 0.0) && (d < 0.0 <==> dg < 0.0)
  {
  }

  lemma FactorBounds(r: real, x: real, y: real)
    requires r * x == y && 0.0 < y <= x
    ensures 0.0 < r <= 1.0
  {
    SameSign(r, x, y);
    SameSign(r - 1.0, x, y - x);
  }

  const ULP: real := 1.0 / 9007199254740992.0

  /* The rounded quotient. */
  lemma QuotientError(r: real)
    requires 0.0 < r <= 1.0 && 1.0 <= r * 8796093022208.0
    ensures Normal(r) && r - ULP <= Double(r) <= r + ULP && r / 2.0 <= Double(r) <= 2.0
  {
    hide Pow2, Double;
    NormalBetween(r);
    LargePowers();
    DoubleError(r);
    Ordered(r, 1.0, ULP, r * ULP, ULP);
    Swapped(ULP, r, ULP * r);
    Ordered(ULP, 0.5, r, ULP * r, 0.5 * r);
  }

  /* The rounded product. */
  lemma ProductError(q: real)
    requires 1.0 <= q * 1125899906842624.0 && q <= 2.0
    ensures Normal(q * 100.0) && q * 100.0 - 200.0 * ULP <= Double(q * 100.0) <= q * 100.0 + 200.0 * ULP
  {
    hide Pow2, Double;
    NormalBetween(q * 100.0);
    LargePowers();
    DoubleError(q * 100.0);
    Ordered(q * 100.0, 200.0, ULP, q * 100.0 * ULP, 200.0 * ULP);
  }

  lemma PercentIsNormal(c: nat, t: nat)
    requires 0 < t <= MANY && c <= t
    ensures c == 0 || Normal(c as real)
    ensures Normal(t as real) && Double(t as real) == t as real && Double(c as real) == c as real
    ensures var r := c as real / t as real; (c == 0 || Normal(r)) && (c == 0 || Normal(Double(r) * 100.0))
    ensures c == 0 ==> c as real / t as real == 0.0
  {
    hide Pow2;
    IntegerNormal(t);
    if c > 0 {
      hide Double;
      IntegerNormal(c);
      var r := c as real / t as real;
      RatioBounds(c, t, r);
      QuotientError(r);
      ProductError(Double(r));
    }
  }

  /* The quotient of the two numbers and its product with a hundred, each rounded to a double. */
  function DoubleProduct(completed: nat, total: nat): real
    requires completed <= total && 0 < total <= MANY
  {
    PercentIsNormal(completed, total);
    Double(Double(Double(completed as real) / Double(total as real)) * 100.0)
  }

  /* The formula of the day's list: the product to the nearest integer, halves up. */
  function DoublePercent(completed: nat, total: nat): int
    requires completed <= total && 0 < total <= MANY
  {
    (DoubleProduct(completed, total) + 0.5).Floor
  }

  /* The product is off by at most 300 * 2^-53. */
  lemma DoubleProductError(c: nat, t: nat)
    requires c <= t && 0 < t <= MANY
    ensures var x := 100.0 * (c as real / t as real);
            x - 300.0 * ULP <= DoubleProduct(c, t) <= x + 300.0 * ULP
  {
    hide Pow2;
    PercentIsNormal(c, t);
    if c > 0 {
      hide Double;
      var r := c as real / t as real;
      RatioBounds(c, t, r);
      QuotientError(r);
      ProductError(Double(r));
    }
  }

  lemma FloorWithin(p: real, x: real, r: real, t: nat, c: nat, n: int, nt: int)
    requires x == 100.0 * r && r * t as real == c as real && 0 < t <= MANY
    requires x - 300.0 * ULP <= p <= x + 300.0 * ULP
    requires nt as real == n as real * t as real && 1 <= 200 * c + t - 2 * nt < 2 * t
    ensures (p + 0.5).Floor == n
  {
    var y, d, tr := p + 0.5, p - x, t as real;
    var yt, dt := y * tr, d * tr;
    ErrorTimes(d, tr, dt);
    SumTimes(y, x, d, r, tr, c as real, yt, dt);
    var gap := 200 * c + t - 2 * nt;
    assert gap as real == 200.0 * c as real + tr - 2.0 * nt as real;
    assert 1.0 <= gap as real <= 2.0 * tr - 1.0;
    assert 2.0 * (yt - nt as real) == gap as real + 2.0 * dt;
    FloorFromProducts(y, n, tr, yt, nt as real);
  }

  lemma ErrorTimes(d: real, t: real, dt: real)
    requires -300.0 * ULP <= d <= 300.0 * ULP && 0.0 < t <= 8796093022208.0 && dt == d * t
    ensures -0.4 < dt < 0.4
  {
    TimesBounds(d, 300.0 * ULP, t, 8796093022208.0, dt, 300.0 * ULP * 8796093022208.0);
  }

  lemma TimesBounds(d: real, e: real, t: real, most: real, dt: real, em: real)
    requires -e <= d <= e && 0.0 < t <= most && dt == d * t && em == e * most
    ensures -em <= dt <= em
  {
    var et := e * t;
    Swapped(d, t, dt);
    Ordered(d, e, t, dt, et);
    Ordered(-d, e, t, -dt, et);
    Swapped(e, t, et);
    Swapped(e, most, em);
    Ordered(t, most, e, et, em);
  }

  lemma SumTimes(y: real, x: real, d: real, r: real, t: real, c: real, yt: real, dt: real)
    requires y == x + d + 0.5 && x == 100.0 * r && r * t == c && yt == y * t && dt == d * t
    ensures yt == 100.0 * c + dt + 0.5 * t
  {
  }
}
