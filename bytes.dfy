/** Splitting 16-bit values into bytes and joining them again, written with
    the masks and shifts the drivers use on `uint16_t` and `uint8_t`. */
module Bytes {

  /** `(x & 0xFF00) >> 8`, stored in a `uint8_t`: the high byte. */
  function Msb(x: bv16): bv8 {
    ((x & 0xFF00) >> 8) as bv8
  }

  /** `x & 0x00FF`, stored in a `uint8_t`: the low byte. */
  function Lsb(x: bv16): bv8 {
    (x & 0x00FF) as bv8
  }

  /** `(hi << 8) | lo` in 16 bits: the value whose high byte is `hi` and whose
      low byte is `lo`, that is hi * 256 + lo. */
  function Join(hi: bv8, lo: bv8): (x: bv16)
    ensures Msb(x) == hi && Lsb(x) == lo
    ensures x == hi as bv16 * 256 + lo as bv16
  {
    (hi as bv16 << 8) | lo as bv16
  }

  /** Splitting and joining are inverse. */
  lemma SplitJoin(x: bv16)
    ensures Join(Msb(x), Lsb(x)) == x
  {
  }
}
