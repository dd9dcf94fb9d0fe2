/** Rounding and the Q64.64 scale, shared by every core. */
module FixedPoint {
  const Q64: nat := 0x1_0000_0000_0000_0000

  /** Math.trunc. */
  function Trunc(x: real): int {
    if x >= 0.0 then x.Floor else -((-x).Floor)
  }

  /** Math.ceil. */
  function Ceil(x: real): int {
    -((-x).Floor)
  }
}
