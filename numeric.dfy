/** Machine integer widths used by the synthesizer, and the integer helpers its clamps use. */
module Numeric {
  /** An unsigned 8-bit value (Rust `u8`). */
  type Byte = x: int | 0 <= x < 0x100

  /** A signed 16-bit value (Rust `i16`): coordinates and bounds. */
  type I16 = x: int | -0x8000 <= x < 0x8000

  function Min(a: int, b: int): int { if a <= b then a else b }

  function Max(a: int, b: int): int { if a >= b then a else b }

  function Abs(a: int): nat { if a < 0 then -a else a }

  /** `v.min(hi).max(lo)`, the clamp the primitives apply (upper bound first). */
  function ClampTo(v: int, lo: int, hi: int): (r: int)
    ensures lo <= r
    ensures lo <= hi ==> r <= hi
    ensures lo <= v <= hi ==> r == v
    ensures v < lo ==> r == lo
    ensures lo <= hi < v ==> r == hi
    ensures r == v || r == lo || r == hi
  {
    Max(Min(v, hi), lo)
  }
}
