/** The halves that the doubles of a day's list miss. When the exact percentage is half of an odd number k, the rounded
    quotient is m units in its last place, and its product with a hundred misses k/2 by four times the residue of least
    size of a multiple of k modulo 25. The product is rounded up to k/2 unless it misses by more than half a step, which
    happens for four numbers. */
module Halves {
  import opened DoublePercents
  import opened Doubles
  import opened Ratios

  /* Twice the percentage is the odd number k; 2^(j-1) = g brings the quotient k/200 to its leading bit, and h/2 = 2^i is
     the leading bit of k/2. */
  predicate Placed(k: int, j: nat, g: int, i: int, h: int) {
    && k % 2 == 1 && 0 < k < 200 && 0 < j <= 8 && -1 <= i <= 6
    && Pow2(j - 1) == g as real && Pow2(i + 1) == h as real
    && 100 <= k * g < 200 && h <= k < 2 * h
    && (k == h ==> k * g % 25 <= 12)
  }

  /* The last place of the rounded quotient. */
  function Unit(j: nat): real { Pow2(-52 - j) }

  /* By how much its product with a hundred misses k/2. */
  function Miss(rho: int, j: nat): real { 4.0 * rho as real * Unit(j) }

  /* The rounded quotient in units of its last place, and its distance from the exact one. */
  lemma QuotientUnits(k: int, j: nat, g: int, i: int, h: int, z: int) returns (m: int, rho: int)
    requires Placed(k, j, g, i, h) && z == k * g
    ensures Double(ExactQuotient(k)) == m as real * Unit(j)
    ensures rho == 25 * (m - 45035996273705 * z) + z && -12 <= rho <= 12
  {
    hide Pow2, HalfEven, Normal, Double, Placed, Unit, ExactQuotient;
    QuotientInPlaces(k, j, g, i, h);
    var y := PlacedUnits(k, j, g, i, h, z);
    m := HalfEven(y);
    rho := QuotientRest(y, z);
  }

  lemma QuotientInPlaces(k: int, j: nat, g: int, i: int, h: int)
    requires Placed(k, j, g, i, h)
    ensures 0 < k < 200 && Unit(j) > 0.0 && Double(ExactQuotient(k)) == HalfEven(ExactQuotient(k) / Unit(j)) as real * Unit(j)
  {
    hide Pow2, HalfEven, Normal, Double;
    QuotientBinade(k, j, g, i, h);
    DoubleIn(ExactQuotient(k), 0 - j, Unit(j));
  }

  lemma PlacedUnits(k: int, j: nat, g: int, i: int, h: int, z: int) returns (y: real)
    requires Placed(k, j, g, i, h) && z == k * g
    ensures 0 < k < 200 && Unit(j) > 0.0 && ExactQuotient(k) / Unit(j) == y && 25.0 * y == 1125899906842624.0 * z as real
  {
    hide Pow2, Unit;
    y := UnitsOfQuotient(k, j, g, z, ExactQuotient(k));
  }

  lemma QuotientRest(y: real, z: int) returns (rho: int)
    requires 25.0 * y == 1125899906842624.0 * z as real
    ensures rho == 25 * (HalfEven(y) - 45035996273705 * z) + z && -12 <= rho <= 12
  {
    hide HalfEven;
    HalfEvenNear(y);
    rho := 25 * (HalfEven(y) - 45035996273705 * z) + z;
    RestBounds(HalfEven(y), z, y, rho);
  }

  lemma UnitsOfQuotient(k: int, j: nat, g: int, z: int, x: real) returns (y: real)
    requires 0 < j && Pow2(j - 1) == g as real && z == k * g && x == k as real / 200.0
    ensures Unit(j) > 0.0 && x / Unit(j) == y && 25.0 * y == 1125899906842624.0 * z as real
  {
    hide Pow2;
    var v := Pow2(52 + j);
    UnitsOfLastPlace(j, g);
    y := x * v;
    QuotientIs(x, Unit(j), v, y);
    ProductAsReal(k, g, z);
    ScaledQuotient(k as real, g as real, z as real, v, y);
  }

  lemma RestBounds(m: int, z: int, y: real, rho: int)
    requires -0.5 <= m as real - y <= 0.5 && 25.0 * y == 1125899906842624.0 * z as real
    requires rho == 25 * (m - 45035996273705 * z) + z
    ensures -12 <= rho <= 12
  {
    assert rho as real == 25.0 * m as real - 1125899906842624.0 * z as real;
  }

  lemma ScaledQuotient(k: real, g: real, kg: real, v: real, y: real)
    requires kg == k * g && v == 9007199254740992.0 * g && y == k / 200.0 * v
    ensures 25.0 * y == 1125899906842624.0 * kg
  {
  }

  lemma UnitsOfLastPlace(j: nat, g: int)
    requires 0 < j && Pow2(j - 1) == g as real
    ensures Pow2(-52 - j) * Pow2(52 + j) == 1.0
    ensures Pow2(52 + j) == 9007199254740992.0 * g as real
  {
    hide Pow2;
    Pow2Zero();
    Pow2Sum(-52 - j, 52 + j);
    LargePowers();
    Pow2Sum(53, j - 1);
  }

  lemma QuotientBinade(k: int, j: nat, g: int, i: int, h: int)
    requires Placed(k, j, g, i, h)
    ensures var x := k as real / 200.0; Normal(x) && Pow2(0 - j) <= x < Pow2(1 - j)
  {
    hide Pow2;
    var x := k as real / 200.0;
    NormalBetween(x);
    Pow2Zero();
    Pow2Sum(1 - j, j - 1);
    Pow2Next(0 - j);
    ProductAsReal(k, g, k * g);
    BinadeOf(k as real, g as real, (k * g) as real, Pow2(1 - j), x);
  }

  lemma BinadeOf(k: real, g: real, kg: real, top: real, x: real)
    requires g > 0.0 && kg == k * g && top * g == 1.0 && 100.0 <= kg < 200.0 && x == k / 200.0
    ensures top / 2.0 <= x < top
  {
    var d := x - top;
    assert d * g == kg / 200.0 - 1.0;
    SameSign(d, g, d * g);
    var e := x - top / 2.0;
    assert e * g == kg / 200.0 - 0.5;
    SameSign(e, g, e * g);
  }

  /* In these units the product misses k/2 by four times that distance. */
  lemma ProductMiss(k: int, j: nat, g: int, z: int, m: int, rho: int)
    requires 0 < j && Pow2(j - 1) == g as real && z == k * g && rho == 25 * (m - 45035996273705 * z) + z
    ensures m as real * Unit(j) * 100.0 == k as real / 2.0 + Miss(rho, j)
  {
    hide Pow2;
    UnitsOfLastPlace(j, g);
    ProductAsReal(k, g, z);
    HalfInUnits(k as real, g as real, z as real, Unit(j), Pow2(52 + j), k as real / 2.0);
    MissInUnits(m, z, rho, Unit(j));
  }

  /* k/2 is z * 2^52 units. */
  lemma HalfInUnits(k: real, g: real, kg: real, u: real, v: real, half: real)
    requires kg == k * g && u * v == 1.0 && v == 9007199254740992.0 * g && half == k / 2.0
    ensures 4503599627370496.0 * kg * u == half
  {
    calc {
      4503599627370496.0 * kg * u;
      9007199254740992.0 * (k * g) * u / 2.0;
      k * (9007199254740992.0 * g) * u / 2.0;
      k * (u * v) / 2.0;
      half;
    }
  }

  lemma MissInUnits(m: int, z: int, rho: int, u: real)
    requires rho == 25 * (m - 45035996273705 * z) + z
    ensures m as real * u * 100.0 == 4503599627370496.0 * z as real * u + 4.0 * rho as real * u
  {
    assert 100 * m == 4503599627370496 * z + 4 * rho;
    assert 100.0 * m as real == 4503599627370496.0 * z as real + 4.0 * rho as real;
    SumOfProducts(100.0 * m as real, 4503599627370496.0 * z as real, 4.0 * rho as real, u);
  }

  lemma SumOfProducts(a: real, b: real, c: real, u: real)
    requires a == b + c
    ensures a * u == b * u + c * u
  {
  }

  lemma SmallUnit(u: real, v: real)
    requires u > 0.0 && u * v == 1.0 && v >= 9007199254740992.0
    ensures u <= ULP
  {
    Swapped(u, v, 1.0);
    Ordered(9007199254740992.0, v, u, 9007199254740992.0 * u, 1.0);
  }

  lemma MissIsSmall(rho: int, u: real, miss: real)
    requires -12 <= rho <= 12 && 0.0 < u <= ULP && miss == 4.0 * rho as real * u
    ensures -0.4 < miss < 0.4 && (rho >= 0 ==> miss >= 0.0)
  {
    var f := 4.0 * rho as real;
    Ordered(f, 48.0, u, miss, 48.0 * u);
    Ordered(-48.0, f, u, -48.0 * u, miss);
    SameSign(f, u, miss);
  }

  lemma WithinBinade(k: int, h: int, x: real, miss: real)
    requires h <= k < 2 * h && x == k as real / 2.0 + miss && -0.4 < miss < 0.4 && (k == h ==> miss >= 0.0)
    ensures h as real / 2.0 <= x < h as real
  {
    assert k > h ==> k as real >= h as real + 1.0;
    assert k as real <= 2.0 * h as real - 1.0;
  }

  /* The product has the leading bit of k/2. */
  lemma ProductBinade(k: int, j: nat, g: int, i: int, h: int, rho: int, x: real)
    requires Placed(k, j, g, i, h) && -12 <= rho <= 12 && (k == h ==> rho >= 0)
    requires x == k as real / 2.0 + Miss(rho, j)
    ensures Normal(x) && Pow2(i) <= x < Pow2(i + 1)
  {
    hide Pow2, Normal, Miss;
    SmallMiss(j, g, rho);
    WithinBinade(k, h, x, Miss(rho, j));
    Pow2Next(i);
    NormalBetween(x);
  }

  lemma SmallMiss(j: nat, g: int, rho: int)
    requires 0 < j && Pow2(j - 1) == g as real && g >= 1 && -12 <= rho <= 12
    ensures -0.4 < Miss(rho, j) < 0.4 && (rho >= 0 ==> Miss(rho, j) >= 0.0)
  {
    hide Pow2;
    UnitsOfLastPlace(j, g);
    SmallUnit(Unit(j), Pow2(52 + j));
    MissIsSmall(rho, Unit(j), Miss(rho, j));
  }

  /* The step of doubles at the product, in units of the quotient's last place. */
  lemma StepInUnits(j: nat, g: int, i: int, h: int, steps: int)
    requires 0 < j && -1 <= i && Pow2(j - 1) == g as real && Pow2(i + 1) == h as real && steps == h * g
    ensures Pow2(i - 52) == Unit(j) * steps as real
  {
    hide Pow2;
    Pow2Sum(-52 - j, i + j);
    Pow2Sum(j - 1, i + 1);
    Swapped(Pow2(j - 1), Pow2(i + 1), Pow2(i + j));
    ProductAsReal(h, g, steps);
  }

  lemma MissWithinHalfStep(j: nat, g: int, i: int, h: int, steps: int, rho: int)
    requires 0 < j && -1 <= i && Pow2(j - 1) == g as real && Pow2(i + 1) == h as real && steps == h * g
    ensures Miss(rho, j) >= -Pow2(i - 52) / 2.0 <==> 8 * rho >= -steps
  {
    hide Pow2;
    StepInUnits(j, g, i, h, steps);
    HalfStep(rho, steps, Unit(j), Pow2(i - 52), Miss(rho, j));
  }

  lemma HalfInSteps(k: int, i: int) returns (n: int)
    requires -1 <= i <= 6
    ensures n % 2 == 0 && n as real * Pow2(i - 52) == k as real / 2.0
  {
    hide Pow2;
    var t := Pow2IsInt(50 - i);
    Pow2Next(50 - i);
    Pow2Sum(i - 52, 51 - i);
    SmallPowers();
    n := 2 * (k * t);
    ProductAsReal(k, t, k * t);
    StepsOfHalf(k as real, t as real, (k * t) as real, Pow2(i - 52), k as real / 2.0);
  }

  /* It rounds to k/2 or more exactly when it misses k/2 by no more than half a step. */
  lemma ProductReaches(k: int, j: nat, g: int, i: int, h: int, steps: int, rho: int, x: real)
    requires Placed(k, j, g, i, h) && steps == h * g && -12 <= rho <= 12 && (k == h ==> rho >= 0)
    requires x == k as real / 2.0 + Miss(rho, j)
    ensures Normal(x) && (Double(x) >= k as real / 2.0 <==> 8 * rho >= -steps)
  {
    hide Pow2, Double, Normal, Miss;
    ProductBinade(k, j, g, i, h, rho, x);
    DoubleReaches(x, i, k, Pow2(i - 52), k as real / 2.0);
    MissWithinHalfStep(j, g, i, h, steps, rho);
  }

  lemma DoubleReaches(x: real, i: int, k: int, up: real, half: real)
    requires Normal(x) && Pow2(i) <= x < Pow2(i + 1) && -1 <= i <= 6 && up == Pow2(i - 52) && half == k as real / 2.0
    ensures Double(x) >= half <==> x >= half - up / 2.0
  {
    hide Pow2, HalfEven, Normal, Double;
    DoubleIn(x, i, up);
    var n := HalfInSteps(k, i);
    StepsReach(x, up, n, half, Double(x));
  }

  lemma StepsReach(x: real, up: real, n: int, half: real, double: real)
    requires up > 0.0 && n % 2 == 0 && n as real * up == half && double == HalfEven(x / up) as real * up
    ensures double >= half <==> x >= half - up / 2.0
  {
    hide HalfEven;
    HalfEvenReaches(x / up, n);
    ReachIff(x, up, n, half, HalfEven(x / up));
  }

  /* k/2 is an even number of steps. */
  lemma StepsOfHalf(k: real, t: real, kt: real, up: real, half: real)
    requires kt == k * t && up * (2.0 * t) == 0.5 && half == k / 2.0
    ensures 2.0 * kt * up == half
  {
    calc {
      2.0 * kt * up;
      2.0 * (k * t) * up;
      k * (up * (2.0 * t));
      half;
    }
  }

  lemma ReachIff(x: real, up: real, n: int, half: real, rounded: int)
    requires up > 0.0 && n as real * up == half && (rounded >= n <==> x / up >= n as real - 0.5)
    ensures rounded as real * up >= half <==> x >= half - up / 2.0
  {
    var y := x / up;
    QuotientTimes(x, up);
    DifferenceTimes(y, n as real, y - n as real, up, x, half);
    SameSign(y - n as real + 0.5, up, x - half + up / 2.0);
    DifferenceTimes(rounded as real, n as real, rounded as real - n as real, up, rounded as real * up, half);
    SameSign(rounded as real - n as real, up, rounded as real * up - half);
  }

  lemma HalfStep(rho: int, steps: int, u: real, up: real, miss: real)
    requires u > 0.0 && up == u * steps as real && miss == 4.0 * rho as real * u
    ensures miss >= -up / 2.0 <==> 8 * rho >= -steps
  {
    var d := 8 * rho + steps;
    assert d as real == 8.0 * rho as real + steps as real;
    Swapped(u, steps as real, up);
    SumOfProducts(d as real, 8.0 * rho as real, steps as real, u);
    SameSign(d as real, u, d as real * u);
  }

  function ExactQuotient(k: int): (x: real)
    requires 0 < k < 200
    ensures Normal(x)
  {
    NormalBetween(k as real / 200.0);
    k as real / 200.0
  }

  /* The halves that the doubles miss. */
  predicate Missed(k: int) { k == 29 || k == 57 || k == 113 || k == 115 }

  /* The rounded product of the rounded quotient is k/2 or more. */
  predicate Reached(k: int)
    requires 0 < k < 200
  {
    var x := Double(ExactQuotient(k)) * 100.0;
    Normal(x) && Double(x) >= k as real / 2.0
  }

  lemma ResidueOfSteps(rho: int, z: int, m: int)
    requires rho == 25 * (m - 45035996273705 * z) + z
    ensures (rho - z) % 25 == 0
  {
    var d := m - 45035996273705 * z;
    assert rho - z == 25 * d;
  }

  lemma ExactMiss(k: int, j: nat, g: int, i: int, h: int, z: int) returns (rho: int)
    requires Placed(k, j, g, i, h) && z == k * g
    ensures -12 <= rho <= 12 && (rho - z) % 25 == 0
    ensures Double(ExactQuotient(k)) * 100.0 == k as real / 2.0 + Miss(rho, j)
  {
    hide Pow2, Double, Normal, Miss, Unit, ExactQuotient;
    var m: int;
    m, rho := QuotientUnits(k, j, g, i, h, z);
    ProductMiss(k, j, g, z, m, rho);
    ResidueOfSteps(rho, z, m);
  }

  /* The distance is the residue of k * g modulo 25 of least size. */
  lemma ReachedIff(k: int, j: nat, g: int, i: int, h: int, z: int, steps: int) returns (rho: int)
    requires Placed(k, j, g, i, h) && z == k * g && steps == h * g
    ensures -12 <= rho <= 12 && (rho - z) % 25 == 0 && (Reached(k) <==> 8 * rho >= -steps)
  {
    hide Pow2, Double, Normal, Miss, ExactQuotient;
    rho := ExactMiss(k, j, g, i, h, z);
    assert k == h ==> z % 25 <= 12;
    ProductReaches(k, j, g, i, h, steps, rho, Double(ExactQuotient(k)) * 100.0);
  }

  /* The bits of k/200 and k/2. */
  predicate SmallStep(k: int, g: int) {
    || (g == 1 && 100 <= k < 128) || (g == 2 && 50 <= k < 64) || (g == 4 && 25 <= k < 32)
    || (g == 8 && 13 <= k < 16) || (g == 16 && k == 7)
  }

  predicate LargeStep(k: int, g: int) {
    || (g == 1 && 128 <= k < 200) || (g == 2 && 64 <= k < 100) || (g == 4 && 32 <= k < 50) || (g == 8 && 16 <= k < 25)
    || (g == 16 && 8 <= k < 13) || (g == 32 && k == 5) || (g == 64 && k == 3) || (g == 128 && k == 1)
  }

  lemma Place(k: int) returns (j: nat, g: int, i: int, h: int)
    requires k % 2 == 1 && 0 < k < 200
    ensures Placed(k, j, g, i, h)
    ensures (h * g == 64 && SmallStep(k, g)) || (h * g == 128 && LargeStep(k, g))
  {
    hide Pow2;
    SmallPowers();
    if k >= 128 { j, g, i, h := 1, 1, 6, 128; }
    else if k >= 100 { j, g, i, h := 1, 1, 5, 64; }
    else if k >= 64 { j, g, i, h := 2, 2, 5, 64; }
    else if k >= 50 { j, g, i, h := 2, 2, 4, 32; }
    else if k >= 32 { j, g, i, h := 3, 4, 4, 32; }
    else if k >= 25 { j, g, i, h := 3, 4, 3, 16; }
    else if k >= 16 { j, g, i, h := 4, 8, 3, 16; }
    else if k >= 13 { j, g, i, h := 4, 8, 2, 8; }
    else if k >= 8 { j, g, i, h := 5, 16, 2, 8; }
    else if k >= 7 { j, g, i, h := 5, 16, 1, 4; }
    else if k >= 4 { j, g, i, h := 6, 32, 1, 4; }
    else if k >= 2 { j, g, i, h := 7, 64, 0, 2; }
    else { j, g, i, h := 8, 128, -1, 1; }
  }

  /* Only with the smaller steps a half can be missed. */
  lemma Residues(k: int, g: int, rho: int)
    requires k % 2 == 1 && SmallStep(k, g) && -12 <= rho <= 12 && (rho - k * g) % 25 == 0
    ensures 8 * rho < -64 <==> Missed(k)
  {
  }

  lemma LargeStepsNeverMiss(k: int, g: int)
    requires k % 2 == 1 && LargeStep(k, g)
    ensures !Missed(k)
  {
  }

  lemma MissedIff(k: int)
    requires k % 2 == 1 && 0 < k < 200
    ensures Reached(k) <==> !Missed(k)
  {
    hide Placed, Reached, SmallStep, LargeStep, Missed;
    var j, g, i, h := Place(k);
    var rho := ReachedIff(k, j, g, i, h, k * g, h * g);
    if h * g == 64 { Residues(k, g, rho); } else { LargeStepsNeverMiss(k, g); }
  }
}
