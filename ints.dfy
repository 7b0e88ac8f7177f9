/** Fixed-width integer types of the firmware and the C conversions between them. */
module Ints {

  newtype uint8 = x: int | 0 <= x < 0x100
  newtype uint16 = x: int | 0 <= x < 0x1_0000
  newtype uint32 = x: int | 0 <= x < 0x1_0000_0000

  const TWO32: int := 0x1_0000_0000

  /** Conversion of any integer to uint32_t: reduction modulo 2^32. */
  function Wrap32(x: int): (r: uint32)
    ensures 0 <= r as int < TWO32
    ensures (r as int - x) % TWO32 == 0
  {
    (x % TWO32) as uint32
  }

  /** Conversion of any integer to uint8_t: reduction modulo 2^8. */
  function Wrap8(x: int): (r: uint8)
    ensures (r as int - x) % 0x100 == 0
  {
    (x % 0x100) as uint8
  }

  /** Conversion of any integer to int8_t (two's complement, as the targets do). */
  function ToInt8(x: int): (r: int)
    ensures -128 <= r < 128
    ensures (r - x) % 0x100 == 0
    ensures -128 <= x < 128 ==> r == x
  {
    (x + 128) % 0x100 - 128
  }

  /** Conversion of any integer to int32_t (two's complement). */
  function ToInt32(x: int): (r: int)
    ensures -0x8000_0000 <= r < 0x8000_0000
    ensures (r - x) % TWO32 == 0
    ensures -0x8000_0000 <= x < 0x8000_0000 ==> r == x
  {
    (x + 0x8000_0000) % TWO32 - 0x8000_0000
  }

  /** n copies of x. */
  function Repeat<T>(x: T, n: nat): (r: seq<T>)
    ensures |r| == n
    ensures forall i :: 0 <= i < n ==> r[i] == x
  {
    if n == 0 then [] else Repeat(x, n - 1) + [x]
  }

  /** A value below 256 survives the trip through a byte. */
  lemma ByteOfInt(y: int)
    requires 0 <= y < 0x100
    ensures (y as bv8) as int == y
  {
    if y < 0x10 {} else if y < 0x20 {} else if y < 0x40 {} else if y < 0x80 {} else {}
  }
}
