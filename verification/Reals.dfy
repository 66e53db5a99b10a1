/** Arithmetic on reals that several components share. */
module Reals {
  /** The distance from zero. */
  function Abs(x: real): (r: real)
    ensures r >= 0.0 && (r == x || r == -x)
  {
    if x < 0.0 then -x else x
  }

  /** The least number that is neither below `x` nor below zero. */
  function AtLeastZero(x: real): (r: real)
    ensures r >= 0.0 && r >= x && (r == 0.0 || r == x)
  {
    if x > 0.0 then x else 0.0
  }

  /** A product, named so that proofs can keep it whole. */
  function Times(x: real, y: real): real { x * y }
}
