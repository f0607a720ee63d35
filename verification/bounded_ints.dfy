/** The 32-bit signed integers of C#'s `int`. */
module BoundedInts {

  const MinInt32: int := -0x8000_0000
  const MaxInt32: int := 0x7FFF_FFFF

  predicate IsInt32(x: int) {
    MinInt32 <= x <= MaxInt32
  }

  type Int32 = x: int | IsInt32(x)
}
