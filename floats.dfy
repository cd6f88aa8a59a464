/**
 * The two float64-to-integer conversions the game uses, on exact reals:
 * math.Round (nearest integer, halves away from zero) and Go's int(x)
 * conversion (truncation toward zero). Floating-point rounding of the
 * arithmetic itself is not modelled.
 */
module Floats {

  /** math.Round: the nearest integer, halves rounded away from zero. */
  function Round(x: real): (r: int)
    ensures x >= 0.0 ==> r as real - 0.5 <= x < r as real + 0.5
    ensures x < 0.0 ==> r as real - 0.5 < x <= r as real + 0.5
  {
    if x >= 0.0 then (x + 0.5).Floor else -((0.5 - x).Floor)
  }

  /** int(x) for a float64 x: the integer part, truncated toward zero. */
  function Trunc(x: real): (r: int)
    ensures x >= 0.0 ==> r as real <= x < r as real + 1.0
    ensures x < 0.0 ==> r as real - 1.0 < x <= r as real
  {
    if x >= 0.0 then x.Floor else -((-x).Floor)
  }

  /** A float64 that holds a whole number. */
  predicate IsWhole(x: real) {
    x.Floor as real == x
  }

  /** Rounding a whole number gives that number back. */
  lemma RoundWhole(x: real)
    ensures IsWhole(x) ==> Round(x) as real == x
  {
    if IsWhole(x) {
      var n := x.Floor;
      var r := Round(x);
      assert x == n as real;
      assert r - 1 < n < r + 1;
    }
  }

  /** Truncation never increases the magnitude and keeps the sign. */
  lemma TruncShrinks(x: real)
    ensures x >= 0.0 ==> 0.0 <= Trunc(x) as real <= x
    ensures x < 0.0 ==> x <= Trunc(x) as real <= 0.0
  {
  }
}
