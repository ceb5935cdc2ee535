/**
 * The C# `int` of the order-entry code: a 32-bit two's-complement integer
 * whose `+` wraps around (the default unchecked context).
 */
module Numerics {

  const MinInt32: int := -0x8000_0000
  const MaxInt32: int := 0x7fff_ffff

  newtype Int32 = x: int | -0x8000_0000 <= x < 0x8000_0000

  /** The 32-bit value that an unchecked C# addition leaves for the exact result `x`. */
  function WrapInt32(x: int): (r: Int32)
    ensures MinInt32 <= x <= MaxInt32 ==> r as int == x
    ensures (r as int - x) % 0x1_0000_0000 == 0
  {
    ((x - MinInt32) % 0x1_0000_0000 + MinInt32) as Int32
  }

  /** `x + 1` as C# computes it for an `int`. */
  function Increment(x: Int32): (r: Int32)
    ensures x as int < MaxInt32 ==> r as int == x as int + 1
    ensures x as int == MaxInt32 ==> r as int == MinInt32
    ensures r != x
  {
    WrapInt32(x as int + 1)
  }
}
