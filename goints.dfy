/**
 * Go's fixed-width integers, where the width matters to the model: the
 * page/size arithmetic of the product list is done in `int64` and wraps
 * around modulo 2^64 on overflow.
 */
module GoInts {

  const MinInt64: int := -0x8000_0000_0000_0000
  const MaxInt64: int := 0x7FFF_FFFF_FFFF_FFFF
  const Modulus64: int := 0x1_0000_0000_0000_0000

  type Int64 = x: int | -0x8000_0000_0000_0000 <= x <= 0x7FFF_FFFF_FFFF_FFFF
  type Int32 = x: int | -0x8000_0000 <= x <= 0x7FFF_FFFF

  /** The `int64` that a Go arithmetic result `x` becomes: two's-complement wrap-around. */
  function Wrap64(x: int): (r: Int64)
    ensures MinInt64 <= x <= MaxInt64 ==> r == x
    ensures (x - r) % Modulus64 == 0
  {
    (x - MinInt64) % Modulus64 + MinInt64
  }
}
