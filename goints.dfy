/**
 * Go's fixed-width integer types on a 64-bit platform (`int` and `uint` are
 * 64 bits wide) and the two's-complement conversions between them.
 */
module GoInts {

  const TWO_8: int := 0x100
  const TWO_16: int := 0x1_0000
  const TWO_32: int := 0x1_0000_0000
  const TWO_64: int := 0x1_0000_0000_0000_0000

  type Int8 = x: int | -0x80 <= x < 0x80
  type Int16 = x: int | -0x8000 <= x < 0x8000
  type Int32 = x: int | -0x8000_0000 <= x < 0x8000_0000
  type Int64 = x: int | -0x8000_0000_0000_0000 <= x < 0x8000_0000_0000_0000
  type Uint8 = x: int | 0 <= x < 0x100
  type Uint16 = x: int | 0 <= x < 0x1_0000
  type Uint32 = x: int | 0 <= x < 0x1_0000_0000
  type Uint64 = x: int | 0 <= x < 0x1_0000_0000_0000_0000

  const MaxInt32: Int32 := 0x7FFF_FFFF
  const MaxInt64: Int64 := 0x7FFF_FFFF_FFFF_FFFF
  const MaxUint64: Uint64 := 0xFFFF_FFFF_FFFF_FFFF

  /** Go's `int32(x)` for any integer `x`: keep the low 32 bits, read as two's complement. */
  function ToInt32Bits(x: int): (r: Int32)
    ensures (r - x) % TWO_32 == 0
  {
    var low := x % TWO_32;
    if low < 0x8000_0000 then low else low - TWO_32
  }

  /** Go's `int64(x)` for any integer `x`: keep the low 64 bits, read as two's complement. */
  function ToInt64Bits(x: int): (r: Int64)
    ensures (r - x) % TWO_64 == 0
  {
    var low := x % TWO_64;
    if low < 0x8000_0000_0000_0000 then low else low - TWO_64
  }

  /** A value that already fits 32 bits is kept unchanged. */
  lemma ToInt32BitsFits(x: int)
    requires -0x8000_0000 <= x < 0x8000_0000
    ensures ToInt32Bits(x) == x
  {
  }

  /** A value that already fits 64 bits is kept unchanged. */
  lemma ToInt64BitsFits(x: int)
    requires -0x8000_0000_0000_0000 <= x < 0x8000_0000_0000_0000
    ensures ToInt64Bits(x) == x
  {
  }

  /** Go's `int32(x)` depends only on `x` modulo 2^32. */
  lemma ToInt32BitsCongruent(a: int, b: int)
    requires (a - b) % TWO_32 == 0
    ensures ToInt32Bits(a) == ToInt32Bits(b)
  {
    var k := (a - b) / TWO_32;
    assert a == b + k * TWO_32;
    assert a % TWO_32 == b % TWO_32;
  }
}
