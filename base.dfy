/** Shared vocabulary: an optional value and Go's fixed-width integers,
    whose wrap-around is written out explicitly. */
module Base {

  datatype Option<+T> = None | Some(value: T)

  const TwoTo63: int := 0x8000_0000_0000_0000
  const TwoTo64: int := 0x1_0000_0000_0000_0000

  /** Go's `uint64`. */
  type uint64 = x: int | 0 <= x < 0x1_0000_0000_0000_0000

  /** Go's `int64`. */
  type int64 = x: int | -0x8000_0000_0000_0000 <= x < 0x8000_0000_0000_0000

  /** Go's conversion `uint64(x)` of an `int64`: two's complement reinterpretation. */
  function ToUint64(x: int64): (r: uint64)
    ensures (r - x) % TwoTo64 == 0
    ensures 0 <= x ==> r == x
    ensures x < 0 ==> r >= TwoTo63
  {
    if x >= 0 then x else x + TwoTo64
  }

  /** `a + b` on `uint64`, wrapping around at 2^64. */
  function WrapAdd(a: uint64, b: uint64): (r: uint64)
    ensures (r - a - b) % TwoTo64 == 0
    ensures a + b < TwoTo64 ==> r == a + b
    ensures a + b >= TwoTo64 ==> r < a
  {
    (a + b) % TwoTo64
  }

  /** `a - b` on `uint64`, wrapping around below zero. */
  function WrapSub(a: uint64, b: uint64): (r: uint64)
    ensures WrapAdd(r, b) == a
    ensures b <= a ==> r == a - b
    ensures a < b ==> r > a
  {
    (a - b) % TwoTo64
  }
}
