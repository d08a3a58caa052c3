/** The two one-byte colour encodings of the synthesizer: `Black`, a monochrome threshold
    encoding whose stored byte is 0 or 255, and `Grey`, a greyscale encoding that stores
    the luma byte. The source makes the encoding a type parameter; here it is the value
    `Encoding`, and every colour operation takes it. */
module Colors {
  import opened Numeric

  /** Which colour type a canvas or an optimiser is instantiated with. */
  datatype Encoding = Black | Grey

  /** A colour of either encoding: both source structs hold one `u8` field `value`. */
  datatype Color = Color(value: Byte)

  /** An 8-bit RGB triple. */
  datatype Rgb = Rgb(r: Byte, g: Byte, b: Byte)

  /** `black()`: the darkest colour; it shows as pure black and is what pure black decodes to. */
  function BlackColor(e: Encoding): (c: Color)
    ensures ToRgb(c) == Rgb(0, 0, 0)
    ensures FromRgb(e, Rgb(0, 0, 0)) == c
  {
    Color(0)
  }

  /** `white()`: the lightest colour; it shows as pure white and is what pure white decodes to. */
  function WhiteColor(e: Encoding): (c: Color)
    ensures ToRgb(c) == Rgb(255, 255, 255)
    ensures FromRgb(e, Rgb(255, 255, 255)) == c
  {
    Color(255)
  }

  /** Truncated luma with the ITU-R BT.709 weights 0.2126, 0.7152 and 0.0722, computed
      exactly in integers. It is a weighted mean, so it lies between the smallest and the
      largest channel, and a grey triple has its own level as luma. */
  function Luma(rgb: Rgb): (l: Byte)
    ensures Min(rgb.r, Min(rgb.g, rgb.b)) <= l <= Max(rgb.r, Max(rgb.g, rgb.b))
    ensures rgb.r == rgb.g == rgb.b ==> l == rgb.r
  {
    var lo := Min(rgb.r, Min(rgb.g, rgb.b));
    var hi := Max(rgb.r, Max(rgb.g, rgb.b));
    var sum := 2126 * rgb.r + 7152 * rgb.g + 722 * rgb.b;
    assert 10000 * lo <= sum <= 10000 * hi;
    sum / 10000
  }

  /** `from_rgb`: `Black` thresholds the luma at 110, `Grey` keeps it. */
  function FromRgb(e: Encoding, rgb: Rgb): (c: Color)
    ensures e == Black ==> c.value == 0 || c.value == 255
    ensures e == Black ==> (c.value == 255 <==> Luma(rgb) > 110)
  {
    match e
    case Black => if Luma(rgb) > 110 then Color(255) else Color(0)
    case Grey => Color(Luma(rgb))
  }

  /** `to_rgb`: the stored byte in all three channels, for both encodings. */
  function ToRgb(c: Color): (rgb: Rgb)
    ensures rgb.r == rgb.g == rgb.b == c.value
  {
    Rgb(c.value, c.value, c.value)
  }

  /** `compare`: similarity of two colours, exact over the reals. `Black` scores 1 for equal
      values and 0 otherwise; `Grey` scores 1 - |a - b| / 255. */
  function Compare(e: Encoding, a: Color, b: Color): (s: real)
    ensures 0.0 <= s <= 1.0
    ensures s == 1.0 <==> a == b
    ensures e == Black ==> s == 0.0 || s == 1.0
  {
    match e
    case Black => if a.value == b.value then 1.0 else 0.0
    case Grey => 1.0 - (Abs(a.value - b.value) as real) / 255.0
  }

  /** The range `gen_range(0, 190)` takes its draw from in `Grey::generate`; `Black::generate`
      draws nothing. */
  predicate ColorGenerateOk(e: Encoding, draw: int) {
    e == Grey ==> 0 <= draw < 190
  }

  /** `generate`: `Black` always yields black; `Grey` yields the drawn level, below 190, so a
      generated colour is never white. */
  function GenerateColor(e: Encoding, draw: int): (c: Color)
    requires ColorGenerateOk(e, draw)
    ensures e == Black ==> c == BlackColor(e)
    ensures c.value < 190 && c != WhiteColor(e)
  {
    match e
    case Black => BlackColor(e)
    case Grey => Color(draw)
  }

  /** The range `gen_range(v - 5, v + 5)` takes its draw from in `Grey::mutate`
      (computed in i16, where it cannot overflow for a byte v); `Black::mutate` draws nothing. */
  predicate ColorMutateOk(e: Encoding, c: Color, draw: int) {
    e == Grey ==> c.value - 5 <= draw < c.value + 5
  }

  /** `mutate`: the identity for `Black`; for `Grey` the draw clamped into [0, 255], which
      moves the level by at most 5 down or 4 up and keeps an in-range draw as it is. */
  function MutateColor(e: Encoding, c: Color, draw: int): (m: Color)
    requires ColorMutateOk(e, c, draw)
    ensures e == Black ==> m == c
    ensures e == Grey ==> Max(0, c.value - 5) <= m.value <= Min(255, c.value + 4)
    ensures e == Grey && 0 <= draw <= 255 ==> m.value == draw
  {
    match e
    case Black => c
    case Grey => Color(ClampTo(draw, 0, 255))
  }

  /** `compare` does not depend on the order of its arguments. */
  lemma CompareSymmetric(e: Encoding, a: Color, b: Color)
    ensures Compare(e, a, b) == Compare(e, b, a)
  {
  }

  /** For `Grey`, 1 - compare is a distance: it satisfies the triangle inequality. */
  lemma GreyDissimilarityTriangle(a: Color, b: Color, c: Color)
    ensures 1.0 - Compare(Grey, a, c) <= (1.0 - Compare(Grey, a, b)) + (1.0 - Compare(Grey, b, c))
  {
    assert Abs(a.value - c.value) <= Abs(a.value - b.value) + Abs(b.value - c.value);
    assert (Abs(a.value - c.value) as real) / 255.0
        <= (Abs(a.value - b.value) as real) / 255.0 + (Abs(b.value - c.value) as real) / 255.0;
  }

  /** Round trip through the channels: decoding what a colour shows gives the colour back,
      for `Grey` always and for `Black` for every value it can hold (0 or 255). */
  lemma ToRgbFromRgb(e: Encoding, c: Color)
    requires e == Black ==> c.value == 0 || c.value == 255
    ensures FromRgb(e, ToRgb(c)) == c
  {
  }

  /** Encoding is a projection: re-encoding the channels of an encoded colour changes nothing,
      and a `Black` colour always shows as pure black or pure white. */
  lemma FromRgbIdempotent(e: Encoding, rgb: Rgb)
    ensures FromRgb(e, ToRgb(FromRgb(e, rgb))) == FromRgb(e, rgb)
    ensures e == Black ==> ToRgb(FromRgb(e, rgb)) in {Rgb(0, 0, 0), Rgb(255, 255, 255)}
  {
    ToRgbFromRgb(e, FromRgb(e, rgb));
  }

  /** A lighter triple (no channel darker) never encodes darker, in either encoding. */
  lemma FromRgbMonotone(e: Encoding, p: Rgb, q: Rgb)
    requires p.r <= q.r && p.g <= q.g && p.b <= q.b
    ensures FromRgb(e, p).value <= FromRgb(e, q).value
  {
    var sp := 2126 * p.r + 7152 * p.g + 722 * p.b;
    var sq := 2126 * q.r + 7152 * q.g + 722 * q.b;
    assert sp <= sq;
    assert sp / 10000 <= sq / 10000;
  }
}
