/** Arithmetic in double precision: a positive real is rounded to 53 significant bits, ties to even (sections 3.4 and 4.3.1
    of IEEE 754), in the range of normal numbers. The step between doubles is a power of two given by the exponent of the
    leading bit, integers of up to 53 bits are doubles, and a rounded number is off by at most 2^-53 of it. */
module Doubles {
  import opened Ratios

  function Pow2(e: int): (p: real)
    ensures p > 0.0
    decreases if e < 0 then -e else e
  {
    if e == 0 then 1.0 else if e > 0 then 2.0 * Pow2(e - 1) else Pow2(e + 1) / 2.0
  }

  lemma Pow2Next(e: int)
    ensures Pow2(e + 1) == 2.0 * Pow2(e)
  {
  }

  lemma {:induction false} Pow2Monotone(a: int, b: int)
    requires a <= b
    ensures Pow2(a) <= Pow2(b)
    decreases b - a
  {
    if a < b {
      Pow2Next(a);
      Pow2Monotone(a + 1, b);
    }
  }

  lemma {:induction false} Pow2Sum(a: int, b: nat)
    ensures Pow2(a + b) == Pow2(a) * Pow2(b)
  {
    hide Pow2;
    if b == 0 {
      Pow2Zero();
    } else {
      Pow2Sum(a, b - 1);
      Pow2Next(a + b - 1);
      Pow2Next(b - 1);
      DoubledProduct(Pow2(a), Pow2(b - 1), Pow2(b), Pow2(a + b - 1));
    }
  }

  lemma Pow2Zero()
    ensures Pow2(0) == 1.0
  {
  }

  lemma DoubledProduct(a: real, b: real, b': real, ab: real)
    requires ab == a * b && b' == 2.0 * b
    ensures a * b' == 2.0 * ab
  {
  }

  lemma Ordered(a: real, b: real, c: real, ac: real, bc: real)
    requires a <= b && c >= 0.0 && ac == a * c && bc == b * c
    ensures ac <= bc
  {
  }

  lemma Swapped(a: real, b: real, ab: real)
    requires ab == a * b
    ensures ab == b * a && -ab == -a * b
  {
  }

  /* To the nearest integer, ties to even. */
  function HalfEven(y: real): int {
    var below := y.Floor;
    var rest := y - below as real;
    if rest < 0.5 || (rest == 0.5 && below % 2 == 0) then below else below + 1
  }

  /* The exponent of the leading bit. */
  function Exponent(x: real, low: int, high: int): (e: int)
    requires low <= high && Pow2(low) <= x < Pow2(high + 1)
    ensures low <= e <= high && Pow2(e) <= x < Pow2(e + 1)
    decreases high - low
  {
    if low == high || x < Pow2(low + 1) then low else Exponent(x, low + 1, high)
  }

  const LOWEST := -1022
  const HIGHEST := 1022

  predicate Normal(x: real) { Pow2(LOWEST) <= x < Pow2(HIGHEST + 1) }

  /* The distance of doubles at x. */
  function Ulp(x: real): (u: real)
    requires Normal(x)
    ensures u > 0.0
  {
    Pow2(Exponent(x, LOWEST, HIGHEST) - 52)
  }

  function Double(x: real): real
    requires x == 0.0 || Normal(x)
  {
    if x == 0.0 then 0.0 else HalfEven(x / Ulp(x)) as real * Ulp(x)
  }

  lemma ExponentIs(x: real, e: int)
    requires Normal(x) && Pow2(e) <= x < Pow2(e + 1)
    ensures Exponent(x, LOWEST, HIGHEST) == e
  {
    var f := Exponent(x, LOWEST, HIGHEST);
    if f < e { Pow2Monotone(f + 1, e); }
    if e < f { Pow2Monotone(e + 1, f); }
  }

  lemma UlpIs(x: real, e: int)
    requires Normal(x) && Pow2(e) <= x < Pow2(e + 1)
    ensures Ulp(x) == Pow2(e - 52)
  {
    hide Pow2;
    ExponentIs(x, e);
  }

  lemma DoubleIn(x: real, e: int, u: real)
    requires Normal(x) && Pow2(e) <= x < Pow2(e + 1) && u == Pow2(e - 52)
    ensures Double(x) == HalfEven(x / u) as real * u
  {
    hide Pow2, HalfEven;
    UlpIs(x, e);
    assert x > 0.0 by { NormalPositive(x); }
  }

  lemma HalfEvenNear(y: real)
    ensures -0.5 <= HalfEven(y) as real - y <= 0.5
  {
  }

  lemma HalfEvenOfInt(n: int)
    ensures HalfEven(n as real) == n
  {
  }

  /* Rounding reaches an even number from exactly half a step below it. */
  lemma HalfEvenReaches(y: real, n: int)
    requires n % 2 == 0
    ensures HalfEven(y) >= n <==> y >= n as real - 0.5
  {
    var below := y.Floor;
    if below < n - 1 {
    } else if below == n - 1 {
      assert below % 2 == 1;
    }
  }

  lemma ScaledDifference(h: real, y: real, u: real, x: real, hu: real)
    requires u > 0.0 && y * u == x && hu == h * u && -0.5 <= h - y <= 0.5
    ensures -u / 2.0 <= hu - x <= u / 2.0
  {
    var d := h - y;
    DifferenceTimes(h, y, d, u, hu, x);
    ScaledBounds(d, u, d * u);
  }

  lemma ScaledBounds(d: real, u: real, du: real)
    requires u > 0.0 && -0.5 <= d <= 0.5 && du == d * u
    ensures -u / 2.0 <= du <= u / 2.0
  {
    Ordered(-0.5, d, u, -0.5 * u, du);
    Ordered(d, 0.5, u, du, 0.5 * u);
  }

  lemma DoubleNear(x: real)
    requires Normal(x)
    ensures -Ulp(x) / 2.0 <= Double(x) - x <= Ulp(x) / 2.0
  {
    hide HalfEven, Ulp, Pow2;
    var u := Ulp(x);
    var y := x / u;
    var h := HalfEven(y) as real;
    var hu := h * u;
    assert Double(x) == hu by { NormalPositive(x); }
    hide Double;
    QuotientTimes(x, u);
    HalfEvenNear(y);
    ScaledDifference(h, y, u, x, hu);
  }

  lemma NormalPositive(x: real)
    requires Normal(x)
    ensures x > 0.0
  {
  }

  /* The relative error is at most 2^-53. */
  lemma DoubleError(x: real)
    requires Normal(x)
    ensures -(x * Pow2(-53)) <= Double(x) - x <= x * Pow2(-53)
  {
    hide Pow2, Double, Exponent;
    var e := Exponent(x, LOWEST, HIGHEST);
    DoubleNear(x);
    assert Ulp(x) == Pow2(e - 52);
    hide Ulp;
    Pow2Sum(e - 53, 53);
    Pow2Next(e - 53);
    Pow2Sum(-53, 53);
    Pow2Zero();
    HalfUlpBound(x, Pow2(e), Pow2(e - 53), Pow2(-53), Pow2(53));
  }

  lemma HalfUlpBound(x: real, power: real, half: real, eps: real, many: real)
    requires power <= x && power == half * many && eps * many == 1.0 && many > 0.0 && eps > 0.0
    ensures half <= x * eps
  {
    ProductsSwap(half, many, eps, power);
    Ordered(power, x, eps, half, x * eps);
  }

  lemma ProductsSwap(half: real, many: real, eps: real, power: real)
    requires power == half * many && eps * many == 1.0
    ensures power * eps == half
  {
    calc {
      power * eps;
      half * many * eps;
      half * (many * eps);
      half;
    }
  }

  lemma {:induction false} Pow2IsInt(e: nat) returns (n: nat)
    ensures n > 0 && Pow2(e) == n as real
  {
    if e == 0 {
      n := 1;
    } else {
      var m := Pow2IsInt(e - 1);
      n := 2 * m;
    }
  }

  /* Integers below 2^53 are doubles. */
  lemma IntegerIsDouble(n: nat)
    requires n == 0 || (Normal(n as real) && (n as real) < Pow2(53))
    ensures Double(n as real) == n as real
  {
    hide Pow2, HalfEven, Ulp;
    if n > 0 {
      var i := UlpOfInteger(n);
      IntegerScaled(n, Ulp(n as real), i);
    }
  }

  lemma IntegerScaled(n: nat, u: real, i: nat)
    requires u > 0.0 && u * i as real == 1.0
    ensures HalfEven(n as real / u) as real * u == n as real
  {
    hide HalfEven;
    var x, ni := n as real, n * i;
    ProductAsReal(n, i, ni);
    QuotientIs(x, u, i as real, ni as real);
    HalfEvenOfInt(ni);
  }

  lemma UlpOfInteger(n: nat) returns (i: nat)
    requires Normal(n as real) && (n as real) < Pow2(53)
    ensures Ulp(n as real) * i as real == 1.0
  {
    hide Pow2;
    var e := Exponent(n as real, LOWEST, HIGHEST);
    if e > 52 { Pow2Monotone(53, e); }
    i := Pow2IsInt(52 - e);
    Pow2Sum(e - 52, 52 - e);
    Pow2Zero();
  }

  lemma QuotientIs(x: real, u: real, i: real, xi: real)
    requires u > 0.0 && u * i == 1.0 && xi == x * i
    ensures x / u == xi && xi * u == x
  {
    calc {
      xi * u;
      x * i * u;
      x * (u * i);
      x;
    }
    QuotientUnique(x, u, xi);
  }

  lemma QuotientUnique(x: real, u: real, y: real)
    requires u > 0.0 && y * u == x
    ensures x / u == y
  {
    var z := x / u;
    QuotientTimes(x, u);
    DifferenceTimes(z, y, z - y, u, x, x);
    FactorIsZero(z - y, u);
  }

  lemma FactorIsZero(d: real, u: real)
    requires u > 0.0 && d * u == 0.0
    ensures d == 0.0
  {
  }
}
