/** Scalar helpers standing in for the .NET numeric library calls the control
    makes: Math.Min, Math.Max, Math.Round and the explicit (int) conversion of a
    double. Doubles are modelled as mathematical reals. */
module Numerics {

  function Min(a: real, b: real): (r: real)
    ensures r <= a && r <= b
    ensures r == a || r == b
  {
    if a <= b then a else b
  }

  function Max(a: real, b: real): (r: real)
    ensures a <= r && b <= r
    ensures r == a || r == b
  {
    if a >= b then a else b
  }

  function Abs(x: real): (r: real)
    ensures 0.0 <= r
    ensures r == x || r == -x
  {
    if x < 0.0 then -x else x
  }

  /** True of the reals that are whole numbers (what a double holding an int looks like). */
  predicate IsIntegral(x: real) {
    x == x.Floor as real
  }

  /** C#'s explicit `(int)` conversion of a double: truncation toward zero. */
  function TruncateToInt(x: real): (r: int)
    ensures 0.0 <= x ==> 0 <= r && r as real <= x < r as real + 1.0
    ensures x <= 0.0 ==> r <= 0 && r as real - 1.0 < x <= r as real
  {
    if x >= 0.0 then x.Floor else -((-x).Floor)
  }

  /** Truncation toward zero is the only integer no farther from zero than `x`
      and less than one away from it. */
  lemma TruncateUnique(x: real, k: int)
    requires Abs(k as real) <= Abs(x) && Abs(x - k as real) < 1.0
    ensures k == TruncateToInt(x)
  {
  }

  /** Truncation leaves whole numbers alone. */
  lemma TruncateIntegral(n: int)
    ensures TruncateToInt(n as real) == n
  {
  }

  /** Truncating a non-negative value no larger than `bound` stays within
      `[0, bound]`, and reaches `bound` exactly when the value does. */
  lemma TruncateWithin(x: real, bound: int)
    requires 0.0 <= x <= bound as real
    ensures 0 <= TruncateToInt(x) <= bound
    ensures x == bound as real ==> TruncateToInt(x) == bound
  {
  }

  /** A non-negative value truncates to at least one exactly when it is at
      least one. */
  lemma TruncateAtLeastOne(x: real)
    requires 0.0 <= x
    ensures 1 <= TruncateToInt(x) <==> 1.0 <= x
  {
  }

  /** .NET's `Math.Round(double)`: the nearest integer, ties going to the even
      neighbour (banker's rounding). */
  function RoundHalfEven(x: real): (r: int)
    ensures Abs(x - r as real) <= 0.5
    ensures Abs(x - r as real) == 0.5 ==> r % 2 == 0
  {
    var f := x.Floor;
    var d := x - f as real;
    if d < 0.5 then f
    else if d > 0.5 then f + 1
    else if f % 2 == 0 then f
    else f + 1
  }

  /** The contract of RoundHalfEven pins the result down: any integer within one
      half of `x`, even on a tie, is the rounded value. */
  lemma RoundHalfEvenUnique(x: real, k: int)
    requires Abs(x - k as real) <= 0.5
    requires Abs(x - k as real) == 0.5 ==> k % 2 == 0
    ensures k == RoundHalfEven(x)
  {
    var r := RoundHalfEven(x);
    assert Abs(k as real - r as real) <= 1.0;
  }

  /** Multiplying both sides of an inequality by a non-negative factor. */
  lemma MulLeMono(a: real, b: real, c: real)
    requires a <= b && 0.0 <= c
    ensures a * c <= b * c
  {
  }

  /** Scaling a non-negative quantity by the larger of two factors gives the
      larger product. */
  lemma ScaleLeMono(c: real, a: real, b: real)
    requires a <= b && 0.0 <= c
    ensures c * a <= c * b
  {
  }

  /** Dividing by a non-zero divisor and multiplying back; a quotient of a
      non-negative by a positive number is non-negative. */
  lemma DivMul(a: real, b: real)
    requires b != 0.0
    ensures b * (a / b) == a
    ensures 0.0 <= a && 0.0 < b ==> 0.0 <= a / b
  {
  }

  /** A fraction below one of a positive quantity stays below it. */
  lemma MulFractionBelow(f: real, w: real)
    requires 0.0 <= f < 1.0 && 0.0 < w
    ensures 0.0 <= f * w < w
  {
  }
}
