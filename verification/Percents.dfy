/** The percentage of completed tasks, computed twice. */
module Percents {
  import opened DoublePercents
  import opened Doubles
  import opened Halves
  import opened Ratios

  /* The calendar's formula. */
  function IntegerPercent(completed: nat, total: nat): nat
    requires total > 0
  {
    (completed * 100 + total / 2) / total
  }

  /* The integer formula rounds the exact percentage to the nearest integer, halves up. */
  lemma PercentRounds(completed: nat, total: nat)
    requires total > 0
    ensures IntegerPercent(completed, total) == (completed as real / total as real * 100.0 + 0.5).Floor
  {
    var n, t := completed * 100 + total / 2, total as real;
    var q := n / total;
    var qt, ratio := q * total, completed as real / t;
    assert n == qt + n % total;
    ProductAsReal(q, total, qt);
    QuotientTimes(completed as real, t);
    var percent := ratio * 100.0 + 0.5;
    PercentTimes(ratio, percent, t, completed as real);
    HalfBounds(completed, total, qt);
    FloorFromProducts(percent, q, t, completed as real * 100.0 + 0.5 * t, qt as real);
  }

  lemma PercentTimes(ratio: real, percent: real, t: real, completed: real)
    requires ratio * t == completed && percent == ratio * 100.0 + 0.5
    ensures percent * t == completed * 100.0 + 0.5 * t
  {
  }

  lemma HalfBounds(completed: nat, total: nat, p: int)
    requires p <= completed * 100 + total / 2 < p + total
    ensures 0.0 <= completed as real * 100.0 + 0.5 * total as real - p as real < total as real
  {
    var twice := 2 * (completed * 100) + total - 2 * p;
    assert 0 <= twice < 2 * total;
    assert twice as real == 2.0 * (completed as real * 100.0 + 0.5 * total as real - p as real);
  }

  /* 100 * completed / total lies halfway between two integers: it is half of the odd number k. */
  predicate Halfway(completed: nat, total: nat, k: int) { 200 * completed == k * total && k % 2 == 1 }

  /* Twice the distance of the exact percentage, plus a half, from the integer below it, in units of 1/total. */
  lemma GapOfInteger(c: nat, t: nat, n: nat, nt: int)
    requires t > 0 && n == IntegerPercent(c, t) && nt == n * t
    ensures 0 <= 200 * c + t - 2 * nt < 2 * t
    ensures 200 * c + t - 2 * nt == 0 ==> Halfway(c, t, 2 * n - 1)
  {
    assert 100 * c + t / 2 == nt + (c * 100 + t / 2) % t;
    assert (2 * n - 1) * t == 2 * nt - t;
  }

  lemma AgreeOffHalves(c: nat, t: nat)
    requires c <= t && 0 < t <= MANY && forall k :: !Halfway(c, t, k)
    ensures DoublePercent(c, t) == IntegerPercent(c, t)
  {
    hide DoubleProduct, IntegerPercent;
    var n := IntegerPercent(c, t);
    var nt := n * t;
    var r := c as real / t as real;
    GapOfInteger(c, t, n, nt);
    assert !Halfway(c, t, 2 * n - 1);
    DoubleProductError(c, t);
    QuotientTimes(c as real, t as real);
    ProductAsReal(n, t, nt);
    FloorWithin(DoubleProduct(c, t), 100.0 * r, r, t, c, n, nt);
  }

  lemma HalfwayBounds(c: nat, t: nat, k: int)
    requires c <= t && 0 < t && Halfway(c, t, k)
    ensures 0 < k < 200
  {
    IntSign(k, t, k * t);
    IntSign(200 - k, t, 200 * t - k * t);
  }

  lemma IntSign(d: int, t: int, dt: int)
    requires t > 0 && dt == d * t
    ensures (d < 0 <==> dt < 0) && (d < 1 <==> dt < t)
  {
  }

  lemma IntegerAtHalf(c: nat, t: nat, k: int)
    requires t > 0 && Halfway(c, t, k)
    ensures 2 * IntegerPercent(c, t) == k + 1
  {
    var n := (k + 1) / 2;
    assert k * t == (2 * n - 1) * t == 2 * (n * t) - t;
    assert t % 2 == 0;
    assert c * 100 + t / 2 == n * t;
    DividesExactly(n, t, n * t);
  }

  lemma DividesExactly(n: int, t: int, nt: int)
    requires t > 0 && nt == n * t
    ensures nt / t == n
  {
    var q := nt / t;
    var d := n - q;
    RestOfQuotient(n, q, t, nt);
    IntSign(d, t, d * t);
  }

  lemma RestOfQuotient(n: int, q: int, t: int, nt: int)
    requires t > 0 && nt == n * t && q == nt / t
    ensures 0 <= (n - q) * t < t
  {
    assert nt == q * t + nt % t;
    assert (n - q) * t == n * t - q * t;
  }

  lemma HalfwayQuotient(c: nat, t: nat, k: int)
    requires 0 < t && Halfway(c, t, k)
    ensures c as real / t as real == k as real / 200.0
  {
    var x := k as real / 200.0;
    ProductAsReal(k, t, k * t);
    assert 200.0 * c as real == (k * t) as real;
    ScaledFactor(k as real, t as real, x, c as real);
    QuotientUnique(c as real, t as real, x);
  }

  lemma ScaledFactor(k: real, t: real, x: real, c: real)
    requires x == k / 200.0 && 200.0 * c == k * t
    ensures x * t == c
  {
  }

  lemma ProductAtHalf(c: nat, t: nat, k: int)
    requires c <= t && 0 < t <= MANY && Halfway(c, t, k)
    ensures 0 < k < 200 && (DoubleProduct(c, t) >= k as real / 2.0 <==> !Missed(k))
    ensures k as real / 2.0 - 300.0 * ULP <= DoubleProduct(c, t) <= k as real / 2.0 + 300.0 * ULP
  {
    hide Missed;
    HalfwayBounds(c, t, k);
    HalfwayQuotient(c, t, k);
    PercentIsNormal(c, t);
    MissedIff(k);
    DoubleProductError(c, t);
    DoubleProductIs(c, t, k);
  }

  lemma DoubleProductIs(c: nat, t: nat, k: int)
    requires c <= t && 0 < t <= MANY && 0 < k < 200 && c as real / t as real == k as real / 200.0 && c > 0
    ensures DoubleProduct(c, t) >= k as real / 2.0 <==> Reached(k)
  {
    hide Double, Normal;
    PercentIsNormal(c, t);
  }

  /* The inputs on which the doubles fall below a half: completed / total is 29/200, 57/200, 113/200 or 23/40. */
  predicate Misrounded(completed: nat, total: nat) {
    || 200 * completed == 29 * total || 200 * completed == 57 * total
    || 200 * completed == 113 * total || 200 * completed == 115 * total
  }

  lemma MisroundedIsHalfway(c: nat, t: nat)
    requires Misrounded(c, t)
    ensures exists k :: Missed(k) && Halfway(c, t, k)
  {
    var k := if 200 * c == 29 * t then 29 else if 200 * c == 57 * t then 57 else if 200 * c == 113 * t then 113 else 115;
    assert Missed(k) && Halfway(c, t, k);
  }

  lemma MissedIsMisrounded(c: nat, t: nat, k: int)
    requires Halfway(c, t, k) && Missed(k)
    ensures Misrounded(c, t)
  {
  }

  lemma HalfwayUnique(c: nat, t: nat, k: int, l: int)
    requires t > 0 && Halfway(c, t, k) && Halfway(c, t, l)
    ensures k == l
  {
    DividesExactly(k, t, k * t);
    DividesExactly(l, t, l * t);
  }

  /* Main result: the two percentages agree exactly on all other inputs, and there the day's list shows one percent less. */
  lemma PercentsAgreeIff(completed: nat, total: nat)
    requires completed <= total && 0 < total <= MANY
    ensures DoublePercent(completed, total) == IntegerPercent(completed, total) - if Misrounded(completed, total) then 1 else 0
  {
    hide DoubleProduct, IntegerPercent, Halfway;
    if k :| Halfway(completed, total, k) {
      ProductAtHalf(completed, total, k);
      IntegerAtHalf(completed, total, k);
      assert Misrounded(completed, total) <==> Missed(k) by {
        if Misrounded(completed, total) {
          MisroundedIsHalfway(completed, total);
          var l :| Missed(l) && Halfway(completed, total, l);
          HalfwayUnique(completed, total, k, l);
        }
        if Missed(k) { MissedIsMisrounded(completed, total, k); }
      }
    } else {
      AgreeOffHalves(completed, total);
      if Misrounded(completed, total) { MisroundedIsHalfway(completed, total); }
    }
  }

  /* The day's list says 57 where the calendar says 58. */
  lemma TwentyThreeOfForty()
    ensures DoublePercent(23, 40) == 57 && IntegerPercent(23, 40) == 58
  {
    PercentsAgreeIff(23, 40);
  }
}
