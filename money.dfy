/**
 * Exact money arithmetic. The original computes with binary floats; the model
 * uses exact reals and gives Python's `round(x, n)` an explicit definition:
 * the nearest multiple of 10^-n, ties going to the even neighbour.
 */
module Money {

  /** 10 to the power n. */
  function Pow10(n: nat): (p: nat)
    ensures p >= 1
  {
    if n == 0 then 1 else 10 * Pow10(n - 1)
  }

  /** x expressed in units of 10^-digits. */
  function Scale(x: real, digits: nat): real {
    x * Pow10(digits) as real
  }

  /** True when x has at most `digits` decimal places. */
  predicate OnGrid(x: real, digits: nat) {
    Scale(x, digits).Floor as real == Scale(x, digits)
  }

  /** The integer nearest to y; a tie goes to the even integer. */
  function RoundHalfEven(y: real): (k: int)
    ensures y - 0.5 <= k as real <= y + 0.5
    ensures (k as real == y - 0.5 || k as real == y + 0.5) ==> k % 2 == 0
  {
    var f := y.Floor;
    var d := y - f as real;
    if d < 0.5 then f
    else if d > 0.5 then f + 1
    else if f % 2 == 0 then f
    else f + 1
  }

  /**
   * Python's `round(x, digits)` on an exact value: on the grid, at most half
   * a unit away, and on a tie the even neighbour.
   */
  function Round(x: real, digits: nat): (r: real)
    ensures OnGrid(r, digits)
    ensures Scale(x, digits) - Scale(r, digits) <= 0.5
    ensures Scale(r, digits) - Scale(x, digits) <= 0.5
    ensures (Scale(x, digits) - Scale(r, digits) == 0.5 || Scale(r, digits) - Scale(x, digits) == 0.5)
            ==> Scale(r, digits).Floor % 2 == 0
  {
    var p := Pow10(digits) as real;
    var k := RoundHalfEven(Scale(x, digits));
    DivThenMul(k as real, p);
    var r := k as real / p;
    assert Scale(r, digits) == k as real;
    assert Scale(r, digits).Floor == k;
    r
  }

  lemma DivThenMul(a: real, p: real)
    requires p > 0.0
    ensures (a / p) * p == a
  {
  }

  lemma MulThenDiv(a: real, p: real)
    requires p > 0.0
    ensures (a * p) / p == a
  {
  }

  lemma MulMonotone(a: real, b: real, p: real)
    requires a <= b && p > 0.0
    ensures a * p <= b * p
  {
  }

  lemma DivMonotone(a: real, b: real, p: real)
    requires a <= b && p > 0.0
    ensures a / p <= b / p
  {
  }

  /** A value that already has `digits` decimal places is left alone. */
  lemma RoundOnGrid(x: real, digits: nat)
    requires OnGrid(x, digits)
    ensures Round(x, digits) == x
  {
    var p := Pow10(digits) as real;
    var y := Scale(x, digits);
    var f := y.Floor;
    assert f as real == y;
    assert RoundHalfEven(y) == f;
    MulThenDiv(x, p);
  }

  /** Rounding never reverses the order of two values. */
  lemma RoundMonotone(x: real, y: real, digits: nat)
    requires x <= y
    ensures Round(x, digits) <= Round(y, digits)
  {
    var p := Pow10(digits) as real;
    var a, b := Scale(x, digits), Scale(y, digits);
    assert a == x * p && b == y * p;
    MulMonotone(x, y, p);
    RoundHalfEvenMonotone(a, b);
    DivMonotone(RoundHalfEven(a) as real, RoundHalfEven(b) as real, p);
  }

  /** The nearest integer never reverses the order of two values. */
  lemma RoundHalfEvenMonotone(a: real, b: real)
    requires a <= b
    ensures RoundHalfEven(a) <= RoundHalfEven(b)
  {
    var fa, fb := a.Floor, b.Floor;
    assert fa as real <= a && b < fb as real + 1.0;
    assert fa <= fb;
    if fa == fb {
      assert a - fa as real <= b - fb as real;
    }
  }

  /** Rounding a non-negative value gives a non-negative value. */
  lemma RoundNonNegative(x: real, digits: nat)
    requires 0.0 <= x
    ensures 0.0 <= Round(x, digits)
  {
    assert Scale(0.0, digits) == 0.0;
    RoundOnGrid(0.0, digits);
    RoundMonotone(0.0, x, digits);
  }
}
