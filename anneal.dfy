/** The optimiser: a fixed-size population of primitives, each with a colour, rendered onto
    a canvas and scored against a target canvas. An iteration changes one slot, redraws the
    whole population and keeps the change only when the score strictly improves. */
module Annealing {
  import opened Colors
  import opened Canvases
  import opened Primitives

  /** The stored `f32` fitness: `NEG_INFINITY` before the first iteration, then a score. */
  datatype Fitness = NegInfinity | Finite(score: real)

  /** `fitness > self.fitness`: every score beats negative infinity. */
  predicate Improves(score: real, best: Fitness) {
    best.NegInfinity? || score > best.score
  }

  /** f is at least g in the extended order where negative infinity is least. */
  predicate AtLeast(f: Fitness, g: Fitness) {
    g.NegInfinity? || (f.Finite? && f.score >= g.score)
  }

  /** Every primitive can be drawn on a canvas of the given width and pixel count. */
  predicate AllDrawable(prims: seq<Primitive>, width: nat, n: nat) {
    forall k | 0 <= k < |prims| :: Drawable(prims[k], width, n)
  }

  /** The buffer after drawing primitive k in colour k, for k = 0, 1, ... in order, onto s. */
  function Render(s: seq<Color>, width: nat, prims: seq<Primitive>, colors: seq<Color>): (r: seq<Color>)
    requires |prims| == |colors| && AllDrawable(prims, width, |s|)
    ensures |r| == |s|
    decreases |prims|
  {
    if prims == [] then s
    else
      var n := |prims| - 1;
      Painted(Render(s, width, prims[..n], colors[..n]), width, Footprint(prims[n]), colors[n])
  }

  /** The last primitive whose footprint covers buffer index k, or -1 when none does. */
  function LastCover(width: nat, prims: seq<Primitive>, k: int): (j: int)
    ensures -1 <= j < |prims|
    ensures 0 <= j ==> k in Touched(width, Footprint(prims[j]))
    ensures forall m | j < m < |prims| :: k !in Touched(width, Footprint(prims[m]))
    decreases |prims|
  {
    if prims == [] then -1
    else if k in Touched(width, Footprint(prims[|prims| - 1])) then |prims| - 1
    else LastCover(width, prims[..|prims| - 1], k)
  }

  /** Painter's order: a rendered pixel has the colour of the last primitive covering it,
      and keeps its background colour when no primitive covers it. */
  lemma {:induction false} RenderAt(s: seq<Color>, width: nat, prims: seq<Primitive>, colors: seq<Color>, k: int)
    requires |prims| == |colors| && AllDrawable(prims, width, |s|)
    requires 0 <= k < |s|
    ensures var j := LastCover(width, prims, k);
            Render(s, width, prims, colors)[k] == if 0 <= j then colors[j] else s[k]
    decreases |prims|
  {
    if prims != [] {
      var n := |prims| - 1;
      var init := Render(s, width, prims[..n], colors[..n]);
      RenderAt(s, width, prims[..n], colors[..n], k);
      PaintedAt(init, width, Footprint(prims[n]), colors[n], k);
    }
  }

  /** With the `Black` encoding every generated colour is black, so a population rendered
      onto the blank canvas shows only black and white. */
  lemma BlackRenderTwoTone(width: nat, n: nat, prims: seq<Primitive>, colors: seq<Color>, k: int)
    requires |prims| == |colors| && AllDrawable(prims, width, n)
    requires forall m | 0 <= m < |colors| :: colors[m] == BlackColor(Black)
    requires 0 <= k < n
    ensures Render(Blank(Black, n), width, prims, colors)[k] in {BlackColor(Black), WhiteColor(Black)}
  {
    RenderAt(Blank(Black, n), width, prims, colors, k);
  }

  /** Drawing keeps every earlier stroke except where a later one covers it: rendering a
      population and then one more primitive is rendering the longer population. */
  lemma RenderSnoc(s: seq<Color>, width: nat, prims: seq<Primitive>, colors: seq<Color>, p: Primitive, c: Color)
    requires |prims| == |colors| && AllDrawable(prims, width, |s|) && Drawable(p, width, |s|)
    ensures AllDrawable(prims + [p], width, |s|)
    ensures Render(s, width, prims + [p], colors + [c])
         == Painted(Render(s, width, prims, colors), width, Footprint(p), c)
  {
    assert (prims + [p])[..|prims|] == prims;
    assert (colors + [c])[..|colors|] == colors;
  }

  /** The state of `Anneal`: the canvas it renders onto, the population, and the best
      fitness so far. The random generator is not part of the model; every draw is a
      parameter of the operation that makes it. */
  class Anneal {
    const shape: Shape
    const enc: Encoding
    const canvas: Canvas
    var primitives: seq<Primitive>
    var colors: seq<Color>
    var fitness: Fitness

    /** One colour per primitive, all primitives of the optimiser's type, the canvas in the
        optimiser's encoding, and (for `Black`) every colour black. */
    predicate Valid()
      reads this
    {
      |primitives| == |colors| && canvas.enc == enc
      && (forall k | 0 <= k < |primitives| :: ShapeOf(primitives[k]) == shape)
      && (enc == Black ==> forall k | 0 <= k < |colors| :: colors[k] == BlackColor(Black))
    }

    /** The kept population can be drawn on the canvas, and a finite fitness is the score of
        that population, rendered onto a blank canvas, against target t. */
    predicate Scored(t: seq<Color>)
      reads this
    {
      |primitives| == |colors| && |t| <= canvas.pixels.Length
      && AllDrawable(primitives, canvas.width, canvas.pixels.Length)
      && (fitness.Finite? ==>
            fitness.score == Likeness(enc, t, Render(Blank(enc, canvas.pixels.Length), canvas.width, primitives, colors)))
    }

    /** `Anneal::new`: count primitives and colours, slot k generated from draws sds[k] and
        cds[k], a blank canvas of the target's size, and fitness negative infinity. */
    constructor (shape: Shape, enc: Encoding, count: nat, cfg: Config, width: nat, height: nat,
                 sds: seq<ShapeSample>, cds: seq<int>)
      requires |sds| == count && |cds| == count
      requires forall k | 0 <= k < count :: GenerateSampleOk(shape, cfg, sds[k]) && ColorGenerateOk(enc, cds[k])
      ensures Valid()
      ensures this.shape == shape && this.enc == enc
      ensures |primitives| == count
      ensures forall k | 0 <= k < count ::
                primitives[k] == Generate(shape, cfg, sds[k]) && colors[k] == GenerateColor(enc, cds[k])
      ensures fresh(canvas) && fresh(canvas.pixels)
      ensures canvas.width == width && canvas.height == height
      ensures canvas.pixels[..] == Blank(enc, width * height)
      ensures fitness == NegInfinity
      ensures SafeFor(cfg, width, width * height) ==> AllDrawable(primitives, width, width * height)
    {
      var primis: seq<Primitive> := [];
      var cols: seq<Color> := [];
      for k := 0 to count
        invariant |primis| == k && |cols| == k
        invariant forall j | 0 <= j < k :: primis[j] == Generate(shape, cfg, sds[j]) && cols[j] == GenerateColor(enc, cds[j])
      {
        var p := Generate(shape, cfg, sds[k]);
        var c := GenerateColor(enc, cds[k]);
        primis := primis + [p];
        cols := cols + [c];
      }
      this.shape := shape;
      this.enc := enc;
      primitives := primis;
      colors := cols;
      canvas := new Canvas.Empty(enc, width, height);
      fitness := NegInfinity;
      if SafeFor(cfg, width, width * height) {
        forall k | 0 <= k < count
          ensures Drawable(primis[k], width, width * height)
        {
          GeneratedDrawable(shape, cfg, sds[k], width, width * height);
        }
      }
    }

    /** The population `iterate` tries: slot i regenerated from sd, or, in the mutate
        branch, the population as it is. */
    function TriedPrimitives(cfg: Config, i: nat, mutate: bool, sd: ShapeSample): (tried: seq<Primitive>)
      reads this
      requires i < |primitives| && (!mutate ==> GenerateSampleOk(shape, cfg, sd))
      ensures |tried| == |primitives|
      ensures forall k | 0 <= k < |tried| && k != i :: tried[k] == primitives[k]
      ensures ShapeOf(tried[i]) == ShapeOf(if mutate then primitives[i] else Generate(shape, cfg, sd))
      ensures mutate ==> tried == primitives
      ensures !mutate ==> tried[i] == Generate(shape, cfg, sd)
    {
      if mutate then primitives else primitives[i := Generate(shape, cfg, sd)]
    }

    /** The colours `iterate` tries, slot i regenerated from cd unless in the mutate branch. */
    function TriedColors(i: nat, mutate: bool, cd: int): (tried: seq<Color>)
      reads this
      requires i < |colors| && (!mutate ==> ColorGenerateOk(enc, cd))
      ensures |tried| == |colors|
      ensures forall k | 0 <= k < |tried| && k != i :: tried[k] == colors[k]
      ensures mutate ==> tried == colors
      ensures !mutate ==> tried[i] == GenerateColor(enc, cd)
    {
      if mutate then colors else colors[i := GenerateColor(enc, cd)]
    }

    /** `iterate`: slot i is the draw of `gen_range(0, len)` and `mutate` that of
        `gen_bool(0.5)`. The mutate branch discards what `mutate` returns, so it keeps the
        slot; otherwise the slot is regenerated from sd and cd. The whole population is then
        drawn onto the cleared canvas and scored against the target; a strictly better
        score is kept, anything else restores the slot. */
    method Iterate(cfg: Config, target: Canvas, i: nat, mutate: bool, sd: ShapeSample, cd: int)
      requires Valid() && target.enc == enc && target.pixels != canvas.pixels
      requires i < |primitives|
      requires target.pixels.Length <= canvas.pixels.Length
      requires AllDrawable(primitives, canvas.width, canvas.pixels.Length)
      requires !mutate ==>
                 GenerateSampleOk(shape, cfg, sd) && ColorGenerateOk(enc, cd)
                 && Drawable(Generate(shape, cfg, sd), canvas.width, canvas.pixels.Length)
      modifies this, canvas.pixels
      ensures Valid() && AllDrawable(primitives, canvas.width, canvas.pixels.Length)
      ensures canvas.pixels[..] == Render(Blank(enc, canvas.pixels.Length), canvas.width,
                                          old(TriedPrimitives(cfg, i, mutate, sd)), old(TriedColors(i, mutate, cd)))
      ensures Improves(Likeness(enc, target.pixels[..], canvas.pixels[..]), old(fitness)) ==>
                fitness == Finite(Likeness(enc, target.pixels[..], canvas.pixels[..]))
                && primitives == old(TriedPrimitives(cfg, i, mutate, sd)) && colors == old(TriedColors(i, mutate, cd))
      ensures !Improves(Likeness(enc, target.pixels[..], canvas.pixels[..]), old(fitness)) ==>
                fitness == old(fitness) && primitives == old(primitives) && colors == old(colors)
      ensures mutate ==> primitives == old(primitives) && colors == old(colors)
      ensures fitness.Finite? && AtLeast(fitness, old(fitness))
      ensures old(Scored(target.pixels[..])) ==> Scored(target.pixels[..])
    {
      ghost var t := target.pixels[..];
      var primitive := primitives[i];
      var color := colors[i];
      // The mutate branch computes mutated values and drops them: the slot stays as it is.
      if !mutate {
        SetSlot(i, Generate(shape, cfg, sd), GenerateColor(enc, cd));
      }
      Redraw(canvas, primitives, colors);
      assert target.pixels[..] == t;

      var score := target.Likeliness(canvas);
      if Improves(score, fitness) {
        fitness := Finite(score);
      } else {
        SetSlot(i, primitive, color);
        assert primitives == old(primitives) && colors == old(colors);
      }
    }

    /** `self.primitives[i] = p; self.colors[i] = c`: a primitive of the optimiser's type,
        drawable on the canvas, with a colour of its encoding keeps the invariants. */
    method SetSlot(i: nat, p: Primitive, c: Color)
      requires Valid() && i < |primitives| && AllDrawable(primitives, canvas.width, canvas.pixels.Length)
      requires ShapeOf(p) == shape && Drawable(p, canvas.width, canvas.pixels.Length)
      requires enc == Black ==> c == BlackColor(Black)
      modifies this
      ensures Valid() && AllDrawable(primitives, canvas.width, canvas.pixels.Length)
      ensures primitives == old(primitives)[i := p] && colors == old(colors)[i := c]
      ensures fitness == old(fitness)
    {
      primitives := primitives[i := p];
      colors := colors[i := c];
    }
  }

  /** The redraw step of `iterate`: clear the canvas, then draw primitive k in colour k for
      k = 0, 1, ... in order. */
  method Redraw(canvas: Canvas, prims: seq<Primitive>, colors: seq<Color>)
    requires |prims| == |colors| && AllDrawable(prims, canvas.width, canvas.pixels.Length)
    modifies canvas.pixels
    ensures canvas.pixels[..] == Render(Blank(canvas.enc, canvas.pixels.Length), canvas.width, prims, colors)
  {
    canvas.Clear();
    for k := 0 to |prims|
      invariant canvas.pixels[..] == Render(Blank(canvas.enc, canvas.pixels.Length), canvas.width, prims[..k], colors[..k])
    {
      assert prims[..k + 1][..k] == prims[..k];
      assert colors[..k + 1][..k] == colors[..k];
      Draw(prims[k], colors[k], canvas);
    }
    assert prims[..|prims|] == prims && colors[..|colors|] == colors;
  }
}
