/**
 * The two Python 2 numeric built-ins the generator applies to its exact
 * (here: real-valued) quantities: int(x), which truncates toward zero, and
 * round(x), which rounds to the nearest integer with halves away from zero.
 */
module PyNumbers {

  /** Python's int(x) on a number: drop the fractional part (truncate toward zero). */
  function Trunc(x: real): (r: int)
    ensures 0.0 <= x ==> r as real <= x < r as real + 1.0
    ensures x < 0.0 ==> r as real - 1.0 < x <= r as real
  {
    if 0.0 <= x then x.Floor else -((-x).Floor)
  }

  /** Python 2's round(x): the nearest integer, a tie going away from zero. */
  function Round(x: real): (r: int)
    ensures r as real - x <= 0.5 && x - r as real <= 0.5
    ensures x - r as real == 0.5 ==> x < 0.0
    ensures r as real - x == 0.5 ==> 0.0 <= x
  {
    if 0.0 <= x then (x + 0.5).Floor else -((-x + 0.5).Floor)
  }

  /** Python's max(a, b) on ints. */
  function Max(a: int, b: int): (r: int)
    ensures a <= r && b <= r && (r == a || r == b)
  {
    if a < b then b else a
  }
}
