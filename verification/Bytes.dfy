/** Machine bytes and 16-bit identifiers, built the way the driver builds them: by shift, mask and OR. */
module Bytes {

  newtype uint8 = x: int | 0 <= x < 0x100
  newtype uint16 = x: int | 0 <= x < 0x1_0000

  datatype Option<+T> = None | Some(value: T)

  /** The big-endian value of two adjacent bytes. */
  function BigEndian(hi: uint8, lo: uint8): uint16 {
    256 * (hi as uint16) + lo as uint16
  }

  /** The driver computes it as `(hi << 8) | lo`. */
  lemma ShiftOrIsBigEndian(hi: bv8, lo: bv8)
    ensures (((hi as bv16) << 8) | (lo as bv16)) as int == BigEndian(hi as int as uint8, lo as int as uint8) as int
  {
    ShiftOrIsSum(hi, lo);
  }

  lemma ShiftOrIsSum(hi: bv8, lo: bv8)
    ensures (((hi as bv16) << 8) | (lo as bv16)) as int == 256 * (hi as int) + lo as int
  {
  }

  /** The byte with its top bit dropped. */
  function DropTopBit(b: uint8): uint8 {
    b % 128
  }

  /** The driver computes it as `b & 0x7F`. */
  lemma MaskDropsTopBit(b: bv8)
    ensures (b & 0x7F) as int == DropTopBit(b as int as uint8) as int
  {
    MaskIsRemainder(b);
  }

  lemma MaskIsRemainder(b: bv8)
    ensures (b & 0x7F) as int == (b as int) % 128
  {
  }
}
