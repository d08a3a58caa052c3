/** The 24-bit packing of `to_u32_buffer`: a pixel's channels as `0x00RRGGBB` in a `u32`. */
module Packing {
  import opened Numeric
  import opened Colors

  /** `(r << 16) | (g << 8) | b` over `u32`, each channel widened from `u8`. */
  function Pack(rgb: Rgb): bv32 {
    (Widened(rgb.r) << 16) | (Widened(rgb.g) << 8) | Widened(rgb.b)
  }

  /** `v as u32` for a `u8` value v: the word whose numeric value is v. It is built by
      counting up from zero, so the solver never converts an integer to a bit-vector. */
  function Widened(v: Byte): (x: bv32)
    ensures x < 0x100 && x as int == v
  {
    if v == 0 then 0 else Widened(v - 1) + 1
  }

  /** The channels of a packed word: bits 16-23, 8-15 and 0-7. */
  function Unpack(w: bv32): Rgb {
    Rgb(((w >> 16) & 0xFF) as int, ((w >> 8) & 0xFF) as int, (w & 0xFF) as int)
  }

  /** Three channels below 2^8 shifted into disjoint fields: the result fits in 24 bits
      and each field reads back as the channel put there. */
  lemma PackFields(x: bv32, y: bv32, z: bv32)
    requires x < 0x100 && y < 0x100 && z < 0x100
    ensures ((x << 16) | (y << 8) | z) < 0x100_0000
    ensures ((((x << 16) | (y << 8) | z) >> 16) & 0xFF) as int == x as int
    ensures ((((x << 16) | (y << 8) | z) >> 8) & 0xFF) as int == y as int
    ensures (((x << 16) | (y << 8) | z) & 0xFF) as int == z as int
  {
  }

  /** A packed colour fits in 24 bits and unpacks to the channels it was packed from. */
  lemma PackUnpack(rgb: Rgb)
    ensures Pack(rgb) < 0x100_0000
    ensures Unpack(Pack(rgb)) == rgb
  {
    PackFields(Widened(rgb.r), Widened(rgb.g), Widened(rgb.b));
  }
}
