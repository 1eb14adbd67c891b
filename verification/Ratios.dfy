/** Rounding a quotient of integers, where the program divides and then rounds. Products and quotients of reals are named
    by variables and the relations between them are given as assumptions, so that each lemma needs one multiplication only
    and the others stay linear. */
module Ratios {

  lemma ProductAsReal(a: int, b: int, ab: int)
    requires ab == a * b
    ensures ab as real == a as real * b as real
  {
  }

  lemma DifferenceTimes(a: real, b: real, d: real, t: real, at: real, bt: real)
    requires d == a - b && at == a * t && bt == b * t
    ensures d * t == at - bt
  {
  }

  lemma Fraction(d: real, t: real, dt: real)
    requires t > 0.0 && dt == d * t && 0.0 <= dt < t
    ensures 0.0 <= d < 1.0
  {
  }

  lemma FloorIs(x: real, q: int)
    requires 0.0 <= x - q as real < 1.0
    ensures x.Floor == q
  {
  }

  /* The floor of a quotient, from bounds on the products. */
  lemma FloorFromProducts(x: real, q: int, t: real, xt: real, qt: real)
    requires t > 0.0 && xt == x * t && qt == q as real * t && 0.0 <= xt - qt < t
    ensures x.Floor == q
  {
    var d := x - q as real;
    DifferenceTimes(x, q as real, d, t, xt, qt);
    Fraction(d, t, xt - qt);
    FloorIs(x, q);
  }

  /* The ceiling of a quotient, as the program writes it. */
  lemma CeilFromProducts(x: real, q: int, t: real, xt: real, qt: real)
    requires t > 0.0 && xt == x * t && qt == q as real * t && 0.0 <= qt - xt < t
    ensures -((-x).Floor) == q
  {
    var d := q as real - x;
    DifferenceTimes(q as real, x, d, t, qt, xt);
    Fraction(d, t, qt - xt);
    FloorIs(-x, -q);
  }

  lemma QuotientTimes(a: real, t: real)
    requires t > 0.0
    ensures a / t * t == a
  {
  }
}
