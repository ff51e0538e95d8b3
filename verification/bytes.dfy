/** Fixed-width integers of the firmware. Settings live in `uint8_t`
    fields and the schedule in `uint16_t` fields; the C conversions between
    them are written out here because Dafny integers are unbounded. */
module Bytes {

  /** An unsigned 8-bit value (`uint8_t`). */
  type Byte = x: int | 0 <= x < 0x100

  /** An unsigned 16-bit value (`uint16_t`). */
  type Word16 = x: int | 0 <= x < 0x1_0000

  /** Conversion of an `int` to `uint8_t`: the low eight bits are kept. */
  function ToByte(x: int): (r: Byte)
    ensures (x - r) % 0x100 == 0
    ensures 0 <= x < 0x100 ==> r == x
  {
    x % 0x100
  }

  /** Conversion of an `int` to `int8_t` as the compiler performs it
      (two's complement, modulo 256). */
  function ToInt8(x: int): (r: int)
    ensures -128 <= r < 128
    ensures (x - r) % 0x100 == 0
    ensures -128 <= x < 128 ==> r == x
  {
    var m := x % 0x100;
    if m >= 128 then m - 0x100 else m
  }

  /** Conversion of an `int` to `uint16_t`: the low sixteen bits are kept. */
  function ToWord16(x: int): (r: Word16)
    ensures (x - r) % 0x1_0000 == 0
    ensures 0 <= x < 0x1_0000 ==> r == x
  {
    x % 0x1_0000
  }

  /** A `bool` stored in a byte, as `EEPROM.write` stores it. */
  function BoolByte(b: bool): (r: Byte)
    ensures r == 0 || r == 1
    ensures ByteBool(r) == b
  {
    if b then 1 else 0
  }

  /** A byte read back into a `bool` field: every non-zero byte is true. */
  predicate ByteBool(x: Byte) {
    x != 0
  }
}
