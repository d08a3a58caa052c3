/** The pixel canvas: a flat buffer of colours with a width and a height, the pixel at
    (x, y) stored at the swapped index `x * width + y`. Besides the class, the module holds
    the specification functions the canvas and its callers are proved against: the effect
    of a sequence of plots, the summed similarity, and the 24-bit packing. */
module Canvases {
  import opened Numeric
  import opened Colors
  import opened Packing

  /** A pixel position as passed to `plot`. */
  datatype Pos = Pos(x: int, y: int)

  /** x * width, spelled out as repeated addition so that buffer indices stay linear
      terms for the solver; `RowStartProduct` gives back the product. */
  function RowStart(width: nat, x: int): (r: int)
    ensures 0 <= x ==> 0 <= r
    decreases Abs(x)
  {
    if x == 0 then 0
    else if x > 0 then RowStart(width, x - 1) + width
    else RowStart(width, x + 1) - width
  }

  lemma {:induction false} RowStartProduct(width: nat, x: int)
    ensures RowStart(width, x) == x * width
    decreases Abs(x)
  {
    if x > 0 {
      RowStartProduct(width, x - 1);
    } else if x < 0 {
      RowStartProduct(width, x + 1);
    }
  }

  /** The buffer index `plot` writes for position p: x * width + y (x and y swapped with
      respect to row-major order). */
  function Index(width: nat, p: Pos): int {
    RowStart(width, p.x) + p.y
  }

  /** `plot` is defined for p: both coordinates non-negative (the source casts them to
      usize) and the index inside a buffer of n pixels (the source indexes the Vec). */
  predicate Plottable(width: nat, n: nat, p: Pos) {
    0 <= p.x && 0 <= p.y && Index(width, p) < n
  }

  predicate AllPlottable(width: nat, n: nat, pts: seq<Pos>) {
    forall k | 0 <= k < |pts| :: Plottable(width, n, pts[k])
  }

  /** The buffer indices a sequence of positions touches. */
  function Touched(width: nat, pts: seq<Pos>): set<int> {
    set p | p in pts :: Index(width, p)
  }

  /** The buffer after plotting every position of pts, in order, in colour c. */
  function Painted(s: seq<Color>, width: nat, pts: seq<Pos>, c: Color): (r: seq<Color>)
    requires AllPlottable(width, |s|, pts)
    ensures |r| == |s|
    decreases |pts|
  {
    if pts == [] then s
    else Painted(s, width, pts[..|pts| - 1], c)[Index(width, pts[|pts| - 1]) := c]
  }

  /** Plotting the first m + 1 positions is plotting the first m, then position m. */
  lemma PaintedPrefix(s: seq<Color>, width: nat, pts: seq<Pos>, m: nat, c: Color)
    requires AllPlottable(width, |s|, pts) && m < |pts|
    ensures AllPlottable(width, |s|, pts[..m]) && Plottable(width, |s|, pts[m])
    ensures Painted(s, width, pts[..m + 1], c) == Painted(s, width, pts[..m], c)[Index(width, pts[m]) := c]
  {
    assert pts[..m + 1][..m] == pts[..m];
  }

  /** Plotting one more position after a sequence of plots. */
  lemma PaintedSnoc(s: seq<Color>, width: nat, pts: seq<Pos>, p: Pos, c: Color)
    requires AllPlottable(width, |s|, pts) && Plottable(width, |s|, p)
    ensures AllPlottable(width, |s|, pts + [p])
    ensures Painted(s, width, pts + [p], c) == Painted(s, width, pts, c)[Index(width, p) := c]
  {
    assert (pts + [p])[..|pts|] == pts;
  }

  /** Plotting a sequence of positions in one colour sets exactly the touched pixels to that
      colour and leaves every other pixel as it was. */
  lemma {:induction false} PaintedAt(s: seq<Color>, width: nat, pts: seq<Pos>, c: Color, k: int)
    requires AllPlottable(width, |s|, pts)
    requires 0 <= k < |s|
    ensures Painted(s, width, pts, c)[k] == if k in Touched(width, pts) then c else s[k]
    decreases |pts|
  {
    if pts != [] {
      var init := pts[..|pts| - 1];
      PaintedAt(s, width, init, c, k);
      assert Touched(width, pts) == Touched(width, init) + {Index(width, pts[|pts| - 1])} by {
        assert pts == init + [pts[|pts| - 1]];
      }
    }
  }

  /** The all-white buffer of n pixels. */
  function Blank(e: Encoding, n: nat): (s: seq<Color>)
    ensures |s| == n
  {
    seq(n, _ => WhiteColor(e))
  }

  /** `likeliness`: the sum over i in [0, |s|) of compare(s[i], t[i]); t must be at least as
      long as s. Each term is in [0, 1], so the sum is in [0, |s|]. */
  function Likeness(e: Encoding, s: seq<Color>, t: seq<Color>): (sum: real)
    requires |s| <= |t|
    ensures 0.0 <= sum <= |s| as real
    decreases |s|
  {
    if s == [] then 0.0
    else Likeness(e, s[..|s| - 1], t) + Compare(e, s[|s| - 1], t[|s| - 1])
  }

  /** Only the first |s| pixels of t take part in the score. */
  lemma {:induction false} LikenessPrefix(e: Encoding, s: seq<Color>, t: seq<Color>)
    requires |s| <= |t|
    ensures Likeness(e, s, t) == Likeness(e, s, t[..|s|])
    decreases |s|
  {
    if s != [] {
      var n := |s| - 1;
      LikenessPrefix(e, s[..n], t);
      LikenessPrefix(e, s[..n], t[..|s|]);
      assert t[..|s|][..n] == t[..n];
    }
  }

  /** The score of two equally long buffers does not depend on which one is the target. */
  lemma {:induction false} LikenessSymmetric(e: Encoding, s: seq<Color>, t: seq<Color>)
    requires |s| == |t|
    ensures Likeness(e, s, t) == Likeness(e, t, s)
    decreases |s|
  {
    if s != [] {
      var n := |s| - 1;
      LikenessSymmetric(e, s[..n], t[..n]);
      LikenessPrefix(e, s[..n], t);
      LikenessPrefix(e, t[..n], s);
      assert t[..n] == t[..n][..n] && s[..n] == s[..n][..n];
      CompareSymmetric(e, s[n], t[n]);
    }
  }

  /** The score reaches its maximum |s| exactly when the compared pixels are all equal. */
  lemma {:induction false} LikenessPerfect(e: Encoding, s: seq<Color>, t: seq<Color>)
    requires |s| <= |t|
    ensures Likeness(e, s, t) == |s| as real <==> s == t[..|s|]
    decreases |s|
  {
    if s != [] {
      var n := |s| - 1;
      LikenessPerfect(e, s[..n], t);
      if s == t[..|s|] {
        assert s[..n] == t[..n];
      } else if s[..n] == t[..n] {
        assert s[n] != t[n];
      }
    }
  }

  /** The number of positions below |s| at which s and t hold the same colour. */
  function Matches(s: seq<Color>, t: seq<Color>): nat
    requires |s| <= |t|
  {
    |set i | 0 <= i < |s| && s[i] == t[i]|
  }

  /** With `Black` pixels the score counts the matching positions. */
  lemma {:induction false} LikenessBlackCountsMatches(s: seq<Color>, t: seq<Color>)
    requires |s| <= |t|
    ensures Likeness(Black, s, t) == Matches(s, t) as real
    decreases |s|
  {
    if s != [] {
      var n := |s| - 1;
      LikenessBlackCountsMatches(s[..n], t);
      var prev := set i | 0 <= i < n && s[..n][i] == t[i];
      var all := set i | 0 <= i < |s| && s[i] == t[i];
      assert prev == set i | 0 <= i < n && s[i] == t[i];
      if s[n] == t[n] {
        assert all == prev + {n};
      } else {
        assert all == prev;
      }
    }
  }

  /** The pixels decoded from a buffer of BGR byte triples (the image library's `to_bgr8`
      layout): triple k gives pixel k, whose red channel is byte 3k + 2 and blue byte 3k. */
  function Decoded(e: Encoding, img: seq<Byte>): (s: seq<Color>)
    requires |img| % 3 == 0
    ensures |s| == |img| / 3
  {
    seq(|img| / 3, k requires 0 <= k < |img| / 3 => FromRgb(e, Rgb(img[3 * k + 2], img[3 * k + 1], img[3 * k])))
  }

  /** The BGR byte triples that show the pixels of s. */
  function Bgr(s: seq<Color>): (img: seq<Byte>)
    ensures |img| == 3 * |s|
  {
    seq(3 * |s|, k requires 0 <= k < 3 * |s| =>
      var rgb := ToRgb(s[k / 3]);
      if k % 3 == 0 then rgb.b else if k % 3 == 1 then rgb.g else rgb.r)
  }

  /** Decoding the BGR bytes of a buffer gives the buffer back, for `Grey` always and for
      `Black` when every pixel is black or white. */
  lemma DecodedBgr(e: Encoding, s: seq<Color>)
    requires e == Black ==> forall k | 0 <= k < |s| :: s[k].value == 0 || s[k].value == 255
    ensures Decoded(e, Bgr(s)) == s
  {
    forall k | 0 <= k < |s|
      ensures Decoded(e, Bgr(s))[k] == s[k]
    {
      DecodedBgrAt(e, s, k);
      ToRgbFromRgb(e, s[k]);
    }
  }

  /** Pixel k of s shows as bytes 3k (blue), 3k + 1 (green) and 3k + 2 (red), which decode
      to the encoding of its channels. */
  lemma DecodedBgrAt(e: Encoding, s: seq<Color>, k: nat)
    requires k < |s|
    ensures Decoded(e, Bgr(s))[k] == FromRgb(e, ToRgb(s[k]))
  {
    var img := Bgr(s);
    assert (3 * k) / 3 == k && (3 * k + 1) / 3 == k && (3 * k + 2) / 3 == k;
    assert (3 * k) % 3 == 0 && (3 * k + 1) % 3 == 1 && (3 * k + 2) % 3 == 2;
    assert Rgb(img[3 * k + 2], img[3 * k + 1], img[3 * k]) == ToRgb(s[k]);
  }

  /** A canvas. `pixels` keeps its length for the canvas's lifetime; `clear` and `plot`
      overwrite it in place. The encoding is the source's colour type parameter. */
  class Canvas {
    const enc: Encoding
    const width: nat
    const height: nat
    const pixels: array<Color>

    /** `empty(width, height)`: width * height white pixels. */
    constructor Empty(enc: Encoding, width: nat, height: nat)
      ensures this.enc == enc && this.width == width && this.height == height
      ensures fresh(pixels)
      ensures pixels[..] == Blank(enc, width * height)
    {
      var len := width * height;
      var a := new Color[len];
      var k := 0;
      while k < len
        invariant 0 <= k <= len
        invariant forall j | 0 <= j < k :: a[j] == WhiteColor(enc)
      {
        a[k] := WhiteColor(enc);
        k := k + 1;
      }
      this.enc := enc;
      this.width := width;
      this.height := height;
      pixels := a;
    }

    /** The pixel-building part of `from_file`: given the raw bytes of the already resized
        image, one pixel per BGR triple. The pixel count is whatever the image holds, not
        necessarily width * height. */
    constructor FromBytes(enc: Encoding, img: seq<Byte>, width: nat, height: nat)
      requires |img| % 3 == 0
      ensures this.enc == enc && this.width == width && this.height == height
      ensures fresh(pixels)
      ensures pixels[..] == Decoded(enc, img)
    {
      var decoded := DecodeBgr(enc, img);
      this.enc := enc;
      this.width := width;
      this.height := height;
      pixels := new Color[|decoded|](k requires 0 <= k < |decoded| => decoded[k]);
    }

    /** `clear`: every pixel becomes white; the length (and the dimensions) stay. */
    method Clear()
      modifies pixels
      ensures pixels[..] == Blank(enc, pixels.Length)
    {
      var k := 0;
      while k < pixels.Length
        invariant 0 <= k <= pixels.Length
        invariant forall j | 0 <= j < k :: pixels[j] == WhiteColor(enc)
      {
        pixels[k] := WhiteColor(enc);
        k := k + 1;
      }
    }

    /** `plot(x, y, color)`: writes index x * width + y and nothing else. */
    method Plot(x: I16, y: I16, c: Color)
      requires Plottable(width, pixels.Length, Pos(x, y))
      modifies pixels
      ensures pixels[..] == old(pixels[..])[Index(width, Pos(x, y)) := c]
      ensures pixels[..] == Painted(old(pixels[..]), width, [Pos(x, y)], c)
    {
      var i := x * width + y;
      RowStartProduct(width, x);
      pixels[i] := c;
      assert [Pos(x, y)][..0] == [];
    }

    /** `likeliness(other)`: the similarity of this canvas to other, summed over this
        canvas's pixels; other must have at least as many pixels. */
    method Likeliness(other: Canvas) returns (diff: real)
      requires other.enc == enc
      requires pixels.Length <= other.pixels.Length
      ensures diff == Likeness(enc, pixels[..], other.pixels[..])
      ensures 0.0 <= diff <= pixels.Length as real
    {
      var len := pixels.Length;
      diff := 0.0;
      for i := 0 to len
        invariant diff == Likeness(enc, pixels[..i], other.pixels[..])
      {
        assert pixels[..i + 1][..i] == pixels[..i];
        diff := diff + Compare(enc, pixels[i], other.pixels[i]);
      }
      assert pixels[..len] == pixels[..];
    }

    /** `to_u32_buffer`: width * height words, word i the 24-bit packing of pixel i's
        channels. The canvas must hold at least width * height pixels. */
    method ToU32Buffer() returns (buf: seq<bv32>)
      requires width * height <= pixels.Length
      ensures |buf| == width * height
      ensures forall i | 0 <= i < |buf| :: buf[i] == Pack(ToRgb(pixels[i]))
      ensures forall i | 0 <= i < |buf| :: buf[i] < 0x100_0000 && Unpack(buf[i]) == ToRgb(pixels[i])
    {
      var len := width * height;
      buf := seq(len, _ => 0xFF_FFFF);
      for i := 0 to len
        invariant |buf| == len
        invariant forall j | 0 <= j < i :: buf[j] == Pack(ToRgb(pixels[j]))
      {
        var rgb := ToRgb(pixels[i]);
        var r := Widened(rgb.r);
        var g := Widened(rgb.g);
        var b := Widened(rgb.b);
        buf := buf[i := (r << 16) | (g << 8) | b];
      }
      forall i | 0 <= i < |buf|
        ensures buf[i] < 0x100_0000 && Unpack(buf[i]) == ToRgb(pixels[i])
      {
        PackUnpack(ToRgb(pixels[i]));
      }
    }
  }

  /** The decoding loop of `from_file`: reads the bytes three at a time in blue, green, red
      order and emits one pixel per triple. The byte count must be a multiple of 3, or the
      source indexes past the end. */
  method DecodeBgr(e: Encoding, img: seq<Byte>) returns (pixels: seq<Color>)
    requires |img| % 3 == 0
    ensures |pixels| == |img| / 3
    ensures forall k | 0 <= k < |pixels| :: pixels[k] == FromRgb(e, Rgb(img[3 * k + 2], img[3 * k + 1], img[3 * k]))
    ensures pixels == Decoded(e, img)
  {
    pixels := [];
    var i := 0;
    while i < |img|
      invariant 0 <= i <= |img| && i % 3 == 0
      invariant |pixels| == i / 3
      invariant forall k | 0 <= k < |pixels| :: pixels[k] == FromRgb(e, Rgb(img[3 * k + 2], img[3 * k + 1], img[3 * k]))
    {
      var b := img[i + 0];
      var g := img[i + 1];
      var r := img[i + 2];
      pixels := pixels + [FromRgb(e, Rgb(r, g, b))];
      i := i + 3;
    }
  }
}
