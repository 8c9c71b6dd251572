/**
  The few Python numeric built-ins the kernel relies on, stated over `real`:
  `int(x)` on a float (truncation toward zero), `max(x, 0)` and `abs(x)`.
  Floating-point rounding is not modelled.
 */
module Numerics {

  /** Python's `int(x)` for a float `x`: drops the fractional part, rounding toward zero. */
  function Trunc(x: real): (r: int)
    ensures x >= 0.0 ==> r as real <= x < r as real + 1.0
    ensures x < 0.0 ==> r as real - 1.0 < x <= r as real
  {
    if x >= 0.0 then x.Floor else -((-x).Floor)
  }

  /** `int(x)` never moves away from zero and keeps the sign of `x`. */
  lemma TruncSign(x: real)
    ensures x >= 0.0 ==> Trunc(x) >= 0
    ensures x > -1.0 ==> Trunc(x) >= 0
    ensures x <= 0.0 ==> Trunc(x) <= 0
  {
  }

  /** `int(x)` is monotone. */
  lemma TruncMonotone(x: real, y: real)
    requires x <= y
    ensures Trunc(x) <= Trunc(y)
  {
    if x >= 0.0 {
      assert Trunc(x) as real <= x <= y;
    } else if y < 0.0 {
      assert Trunc(y) as real - 1.0 < y;
      assert x <= Trunc(x) as real;
    } else {
      assert Trunc(x) <= 0;
    }
  }

  /** Python's `max(x, 0)`: `x` unless `0` is strictly larger. */
  function ClampAtZero(x: real): (r: real)
    ensures r >= 0.0
    ensures r >= x
    ensures r == x || r == 0.0
  {
    if 0.0 > x then 0.0 else x
  }

  /** Python's `abs(x)`. */
  function Abs(x: real): (r: real)
    ensures r >= 0.0
    ensures r == x || r == -x
  {
    if x < 0.0 then -x else x
  }

  /** `abs(x - y)` does not depend on the order of its operands. */
  lemma AbsDiffSymmetric(x: real, y: real)
    ensures Abs(x - y) == Abs(y - x)
  {
  }
}
