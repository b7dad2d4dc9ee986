/** The daemon measures everything in floating point seconds on one clock. Rounding plays
    no part in the protocol, so a reading is an exact real; what does play a part is the
    value the clock returns when it cannot be read, with which every comparison is false. */
module Seconds {

  datatype Float = Val(v: real) | NaN

  const ZERO := Val(0.0)

  predicate Lt(a: Float, b: Float) {
    a.Val? && b.Val? && a.v < b.v
  }

  predicate Ge(a: Float, b: Float) {
    a.Val? && b.Val? && a.v >= b.v
  }

  predicate Positive(a: Float) {
    a.Val? && a.v > 0.0
  }

  function Sub(a: Float, b: Float): Float {
    if a.Val? && b.Val? then Val(a.v - b.v) else NaN
  }
}
