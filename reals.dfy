/** Arithmetic on readings, which the model takes as mathematical reals. */
module Reals {

  /** The absolute value (`f64::abs`). */
  function Abs(x: real): (r: real)
    ensures 0.0 <= r && (r == x || r == -x)
  {
    if x < 0.0 then -x else x
  }
}
