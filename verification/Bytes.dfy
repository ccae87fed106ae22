// Bytes, fixed-width wrap-around, and the small result types the other modules share.
module Bytes {
  type Byte = bv8

  datatype Option<+T> = None | Some(value: T)

  /** One more than the largest 32-bit unsigned value. */
  const U32_SPAN := 0x1_0000_0000

  /** The value an unsigned 32-bit variable holds after it is assigned x. */
  function Wrap32(x: int): (r: int)
    ensures 0 <= r < U32_SPAN
    ensures 0 <= x < U32_SPAN ==> r == x
  {
    x % U32_SPAN
  }

  /** Unsigned 32-bit a - b of two wrapped clocks or cursors recovers the true distance while it fits. */
  lemma WrappedDistance(a: int, b: int)
    requires 0 <= a - b < U32_SPAN
    ensures Wrap32(Wrap32(a) - Wrap32(b)) == a - b
  {
    var qa, qb := a / U32_SPAN, b / U32_SPAN;
    assert Wrap32(a) - Wrap32(b) == (a - b) - (qa - qb) * U32_SPAN;
    assert qa - qb == 0 || qa - qb == 1;
  }

  function Clamp(value: nat, low: nat, high: nat): (r: nat)
    ensures low <= high ==> low <= r <= high
    ensures low <= value <= high ==> r == value
  {
    if value < low then low else if value > high then high else value
  }
}
