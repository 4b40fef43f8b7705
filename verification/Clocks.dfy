/** Seconds on a clock. */
module Clocks {
  /** Python's int() of a float. */
  function Truncate(x: real): int {
    if x < 0.0 then -((-x).Floor) else x.Floor
  }
}
