/** The machine words of the 6502: a `u8` is a `Byte`, a `u16` (an address) a `Word`.
    Both are integers in range; the wrapping of Rust's `+` and `-` on them is written
    out by `AddByte`, `SubByte` and `AddWord`. */
module Bytes {

  type Byte = b: int | 0 <= b < 0x100
  type Word = w: int | 0 <= w < 0x10000

  /** `a + b` on `u8`, wrapping past 0xFF. */
  function AddByte(a: Byte, b: Byte): (r: Byte)
    ensures r == (a + b) % 0x100
  {
    if a + b < 0x100 then a + b else a + b - 0x100
  }

  /** `a - b` on `u8`, wrapping below 0. */
  function SubByte(a: Byte, b: Byte): (r: Byte)
    ensures r == (a - b) % 0x100
    ensures AddByte(r, b) == a
  {
    if a >= b then a - b else a - b + 0x100
  }

  /** `a + b` on `u16`, wrapping past 0xFFFF. */
  function AddWord(a: Word, b: Word): (r: Word)
    ensures r == (a + b) % 0x10000
  {
    if a + b < 0x10000 then a + b else a + b - 0x10000
  }

  /** The low byte of an address. */
  function LowByte(w: Word): (b: Byte)
    ensures (w - b) % 0x100 == 0
  {
    w % 0x100
  }

  /** The high byte of an address. */
  function HighByte(w: Word): (b: Byte)
    ensures b * 0x100 <= w < (b + 1) * 0x100
  {
    w / 0x100
  }

  /** The little-endian address whose bytes are `lo` then `hi`; the emulator builds it
      as `lo as u16 | (hi as u16) << 8`, which for bytes is `hi * 256 + lo`. */
  function WordOf(lo: Byte, hi: Byte): (w: Word)
    ensures LowByte(w) == lo && HighByte(w) == hi
  {
    hi * 0x100 + lo
  }

  /** Every address is the little-endian word of its own two bytes. */
  lemma WordOfBytes(w: Word)
    ensures WordOf(LowByte(w), HighByte(w)) == w
  {
  }
}
