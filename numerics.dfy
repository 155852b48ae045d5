/** Kotlin's `Float.roundToInt()`, used for the zoomed bar count (Terminal.kt:40)
    and for the first visible index (TerminalState.kt:24). */
module Rounding {

  /** Rounds to the nearest integer, ties toward positive infinity (`Math.round`).
      The two bounds pin the result down: it is the only integer within half a unit,
      taking the upper one on a tie. */
  function RoundToInt(x: real): (r: int)
    ensures r as real - 0.5 <= x < r as real + 0.5
  {
    (x + 0.5).Floor
  }

  /** Rounding never reverses the order of two values. */
  lemma RoundMonotone(x: real, y: real)
    requires x <= y
    ensures RoundToInt(x) <= RoundToInt(y)
  {
  }

  /** A value that is already whole is left as it is. */
  lemma RoundOfInteger(n: int)
    ensures RoundToInt(n as real) == n
  {
  }
}

/** Facts about products and quotients of reals that the solver does not find alone. */
module RealArith {

  lemma MulNonNegative(x: real, y: real)
    requires 0.0 <= x && 0.0 <= y
    ensures 0.0 <= x * y
  {
  }

  lemma MulMonotone(x: real, a: real, b: real)
    requires 0.0 <= x && a <= b
    ensures x * a <= x * b
  {
    MulNonNegative(x, b - a);
    assert x * b - x * a == x * (b - a);
  }

  /** With a positive factor, a product has the sign of the other factor. */
  lemma ProductSign(x: real, w: real)
    requires 0.0 < w
    ensures 0.0 <= x * w <==> 0.0 <= x
  {
    if 0.0 <= x {
      MulNonNegative(x, w);
    } else {
      MulPositive(-x, w);
    }
  }

  lemma MulPositive(x: real, y: real)
    requires 0.0 < x && 0.0 < y
    ensures 0.0 < x * y
  {
  }

  /** A product with a positive factor is positive only if the other factor is. */
  lemma FactorPositive(x: real, y: real)
    requires 0.0 < y && 0.0 < x * y
    ensures 0.0 < x
  {
    assert x * y / y == x;
    DivAtLeast(x * y, y, 0.0);
    assert x != 0.0;
  }

  lemma DivTimes(a: real, b: real)
    requires b != 0.0
    ensures a / b * b == a
  {
  }

  lemma DivAtMost(a: real, b: real, c: real)
    requires 0.0 < b && a <= c * b
    ensures a / b <= c
  {
    assert (c - a / b) * b == c * b - a;
  }

  lemma DivAtLeast(a: real, b: real, c: real)
    requires 0.0 < b && c * b <= a
    ensures c <= a / b
  {
    assert (a / b - c) * b == a - c * b;
  }
}
