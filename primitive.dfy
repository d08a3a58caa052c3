/** The primitive shapes the optimiser places: a single point, a splat (a 4 x 4 blob plus
    its centre) and a line between two points. Each can be generated and mutated inside the
    bounds rectangle, with every random draw passed in as a parameter, and drawn onto a
    canvas. The bounds are used exactly as the source uses them, including its mix-ups:
    `generate` takes x's lower bound from min_y, and `mutate` clamps y against max_x. */
module Primitives {
  import opened Numeric
  import opened Colors
  import opened Canvases

  /** The bounds rectangle passed to every generate and mutate call (`Config`). */
  datatype Config = Config(minX: I16, maxX: I16, minY: I16, maxY: I16)

  /** Both axes of the rectangle are non-empty. */
  predicate WellFormed(cfg: Config) {
    cfg.minX <= cfg.maxX && cfg.minY <= cfg.maxY
  }

  /** (x, y) lies in the closed rectangle shrunk by `margin` on every side. */
  predicate InBox(cfg: Config, margin: int, x: int, y: int) {
    cfg.minX + margin <= x <= cfg.maxX - margin && cfg.minY + margin <= y <= cfg.maxY - margin
  }

  datatype Point = Point(x: I16, y: I16)

  datatype Splat = Splat(x: I16, y: I16)

  datatype Line = Line(a: Point, b: Point)

  /** A primitive of any of the three shapes. */
  datatype Primitive = PointPrim(point: Point) | SplatPrim(splat: Splat) | LinePrim(line: Line)

  /** Which primitive type an optimiser is instantiated with. */
  datatype Shape = PointShape | SplatShape | LineShape

  function ShapeOf(p: Primitive): Shape {
    match p
    case PointPrim(_) => PointShape
    case SplatPrim(_) => SplatShape
    case LinePrim(_) => LineShape
  }

  /** The two `gen_range` results one Point or Splat operation takes, x's first. */
  datatype Sample = Sample(x: I16, y: I16)

  /** The draws of one primitive operation: Point and Splat take `first`; Line takes
      `first` for endpoint a and then `second` for endpoint b. */
  datatype ShapeSample = ShapeSample(first: Sample, second: Sample)

  // ---------------------------------------------------------------- Point

  /** The half-open ranges `Point::generate` draws from: x in [min_y, max_x), y in
      [min_y, max_y). */
  predicate PointGenerateSampleOk(cfg: Config, d: Sample) {
    cfg.minY <= d.x < cfg.maxX && cfg.minY <= d.y < cfg.maxY
  }

  /** `Point::generate`. The point is in the rectangle only when min_x <= min_y, since x's
      lower bound is min_y. */
  function GeneratePoint(cfg: Config, d: Sample): (p: Point)
    requires PointGenerateSampleOk(cfg, d)
    ensures cfg.minY <= p.x < cfg.maxX && cfg.minY <= p.y < cfg.maxY
    ensures cfg.minX <= cfg.minY ==> InBox(cfg, 0, p.x, p.y)
  {
    Point(d.x, d.y)
  }

  /** A generated point can lie left of min_x. */
  lemma GeneratePointMayLeaveBox()
    ensures exists cfg: Config, d: Sample :: WellFormed(cfg) && PointGenerateSampleOk(cfg, d)
                                         && GeneratePoint(cfg, d).x < cfg.minX
  {
    var cfg, d := Config(5, 10, 0, 10), Sample(0, 0);
    assert WellFormed(cfg) && PointGenerateSampleOk(cfg, d) && GeneratePoint(cfg, d).x < cfg.minX;
  }

  /** v - 5 and v + 5, the bounds of a mutation draw, do not overflow i16. */
  predicate Shiftable(v: int) {
    -0x8000 <= v - 5 && v + 5 < 0x8000
  }

  /** The half-open ranges `gen_range(v - 5, v + 5)` of a mutation, for both coordinates. */
  predicate MutateSampleOk(x: int, y: int, d: Sample) {
    Shiftable(x) && Shiftable(y) && x - 5 <= d.x < x + 5 && y - 5 <= d.y < y + 5
  }

  /** `Point::mutate`: x clamped into [min_x, max_x] and y into [min_y, max_x] (upper bound
      max_x, not max_y). A draw already in range is kept, and a point already in range moves
      by at most 5 down or 4 up. */
  function MutatePoint(cfg: Config, p: Point, d: Sample): (m: Point)
    requires MutateSampleOk(p.x, p.y, d)
    ensures cfg.minX <= m.x && (cfg.minX <= cfg.maxX ==> m.x <= cfg.maxX)
    ensures cfg.minY <= m.y && (cfg.minY <= cfg.maxX ==> m.y <= cfg.maxX)
    ensures cfg.minX <= d.x <= cfg.maxX ==> m.x == d.x
    ensures cfg.minY <= d.y <= cfg.maxX ==> m.y == d.y
    ensures cfg.minX <= p.x <= cfg.maxX ==> p.x - 5 <= m.x <= p.x + 4
    ensures cfg.minY <= p.y <= cfg.maxX ==> p.y - 5 <= m.y <= p.y + 4
  {
    Point(ClampTo(d.x, cfg.minX, cfg.maxX), ClampTo(d.y, cfg.minY, cfg.maxX))
  }

  /** When max_x <= max_y the mix-up is harmless: a mutated point is in the rectangle. */
  lemma MutatePointInBox(cfg: Config, p: Point, d: Sample)
    requires WellFormed(cfg) && cfg.maxX <= cfg.maxY
    requires MutateSampleOk(p.x, p.y, d)
    ensures InBox(cfg, 0, MutatePoint(cfg, p, d).x, MutatePoint(cfg, p, d).y)
  {
  }

  /** When max_x > max_y a mutated point can end up above max_y. */
  lemma MutatePointMayLeaveBox()
    ensures exists cfg: Config, p: Point, d: Sample :: WellFormed(cfg) && InBox(cfg, 0, p.x, p.y)
                                                   && MutateSampleOk(p.x, p.y, d)
                                                   && MutatePoint(cfg, p, d).y > cfg.maxY
  {
    var cfg, p, d := Config(0, 20, 0, 10), Point(0, 10), Sample(0, 14);
    assert WellFormed(cfg) && InBox(cfg, 0, p.x, p.y) && MutateSampleOk(p.x, p.y, d)
        && MutatePoint(cfg, p, d).y > cfg.maxY;
  }

  // ---------------------------------------------------------------- Splat

  /** The half-open ranges `Splat::generate` draws from: x in [min_y + 2, max_x - 2), y in
      [min_y + 2, max_y - 2). The draws are i16, so the bounds cannot have overflowed. */
  predicate SplatGenerateSampleOk(cfg: Config, d: Sample) {
    cfg.minY + 2 <= d.x < cfg.maxX - 2 && cfg.minY + 2 <= d.y < cfg.maxY - 2
  }

  /** `Splat::generate`: the centre in the rectangle shrunk by 2, with x's lower bound
      taken from min_y. */
  function GenerateSplat(cfg: Config, d: Sample): (s: Splat)
    requires SplatGenerateSampleOk(cfg, d)
    ensures cfg.minY + 2 <= s.x < cfg.maxX - 2 && cfg.minY + 2 <= s.y < cfg.maxY - 2
    ensures cfg.minX <= cfg.minY ==> InBox(cfg, 2, s.x, s.y)
  {
    Splat(d.x, d.y)
  }

  /** The draw ranges of `Splat::mutate`, and the shifted bounds min_x + 2, min_y + 2 and
      max_x - 2 it clamps against fitting in i16. */
  predicate SplatMutateSampleOk(cfg: Config, s: Splat, d: Sample) {
    MutateSampleOk(s.x, s.y, d) && cfg.minX + 2 < 0x8000 && cfg.minY + 2 < 0x8000 && -0x8000 <= cfg.maxX - 2
  }

  /** `Splat::mutate`: x clamped into [min_x + 2, max_x - 2] and y into
      [min_y + 2, max_x - 2] (upper bound from max_x again). */
  function MutateSplat(cfg: Config, s: Splat, d: Sample): (m: Splat)
    requires SplatMutateSampleOk(cfg, s, d)
    ensures cfg.minX + 2 <= m.x && (cfg.minX <= cfg.maxX - 4 ==> m.x <= cfg.maxX - 2)
    ensures cfg.minY + 2 <= m.y && (cfg.minY <= cfg.maxX - 4 ==> m.y <= cfg.maxX - 2)
    ensures cfg.minX + 2 <= d.x <= cfg.maxX - 2 ==> m.x == d.x
    ensures cfg.minY + 2 <= d.y <= cfg.maxX - 2 ==> m.y == d.y
  {
    Splat(ClampTo(d.x, cfg.minX + 2, cfg.maxX - 2), ClampTo(d.y, cfg.minY + 2, cfg.maxX - 2))
  }

  /** When the shrunk rectangle is non-empty and max_x <= max_y, a mutated splat's centre
      stays in the shrunk rectangle. */
  lemma MutateSplatInBox(cfg: Config, s: Splat, d: Sample)
    requires cfg.minX + 4 <= cfg.maxX && cfg.minY + 4 <= cfg.maxY && cfg.maxX <= cfg.maxY
    requires SplatMutateSampleOk(cfg, s, d)
    ensures InBox(cfg, 2, MutateSplat(cfg, s, d).x, MutateSplat(cfg, s, d).y)
  {
  }

  /** The positions `Splat::draw` plots, in order: the centre, then the 4 x 4 block
      [x - 2, x + 1] x [y - 2, y + 1], x in the outer loop. */
  function SplatPoints(s: Splat): (pts: seq<Pos>)
    ensures |pts| == 17 && pts[0] == Pos(s.x, s.y)
  {
    [Pos(s.x, s.y)]
    + SplatColumn(s.x - 2, s.y) + SplatColumn(s.x - 1, s.y)
    + SplatColumn(s.x, s.y) + SplatColumn(s.x + 1, s.y)
  }

  /** One pass of the outer loop of `Splat::draw`: x fixed, y from y - 2 to y + 1. */
  function SplatColumn(x: int, y: int): seq<Pos> {
    [Pos(x, y - 2), Pos(x, y - 1), Pos(x, y), Pos(x, y + 1)]
  }

  /** Position 1 + 4 i + j of a splat is (x - 2 + i, y - 2 + j). */
  lemma SplatPointAt(s: Splat, i: int, j: int)
    requires 0 <= i < 4 && 0 <= j < 4
    ensures SplatPoints(s)[1 + 4 * i + j] == Pos(s.x - 2 + i, s.y - 2 + j)
  {
  }

  /** A splat covers exactly the 16 positions of [x - 2, x + 1] x [y - 2, y + 1]; the
      centre is one of them. */
  lemma SplatCovers(s: Splat, q: Pos)
    ensures q in SplatPoints(s) <==> s.x - 2 <= q.x <= s.x + 1 && s.y - 2 <= q.y <= s.y + 1
  {
    if s.x - 2 <= q.x <= s.x + 1 && s.y - 2 <= q.y <= s.y + 1 {
      SplatPointAt(s, q.x - s.x + 2, q.y - s.y + 2);
    }
  }

  // ---------------------------------------------------------------- Line

  /** The ranges `Line::generate` draws from: those of `Point::generate`, for each endpoint. */
  predicate LineGenerateSampleOk(cfg: Config, sd: ShapeSample) {
    PointGenerateSampleOk(cfg, sd.first) && PointGenerateSampleOk(cfg, sd.second)
  }

  /** `Line::generate`: two independently generated endpoints, a from the first draws. */
  function GenerateLine(cfg: Config, sd: ShapeSample): (l: Line)
    requires LineGenerateSampleOk(cfg, sd)
    ensures cfg.minY <= l.a.x < cfg.maxX && cfg.minY <= l.a.y < cfg.maxY
    ensures cfg.minY <= l.b.x < cfg.maxX && cfg.minY <= l.b.y < cfg.maxY
  {
    Line(GeneratePoint(cfg, sd.first), GeneratePoint(cfg, sd.second))
  }

  /** `Line::mutate`: both endpoints mutated as points, a from the first draws. */
  function MutateLine(cfg: Config, l: Line, sd: ShapeSample): (m: Line)
    requires MutateSampleOk(l.a.x, l.a.y, sd.first) && MutateSampleOk(l.b.x, l.b.y, sd.second)
    ensures cfg.minX <= m.a.x && cfg.minX <= m.b.x && cfg.minY <= m.a.y && cfg.minY <= m.b.y
    ensures cfg.minX <= cfg.maxX ==> m.a.x <= cfg.maxX && m.b.x <= cfg.maxX
    ensures cfg.minY <= cfg.maxX ==> m.a.y <= cfg.maxX && m.b.y <= cfg.maxX
  {
    Line(MutatePoint(cfg, l.a, sd.first), MutatePoint(cfg, l.b, sd.second))
  }

  /** The Bresenham quantities of `Line::draw`: dx = |b.x - a.x|, dy = -|b.y - a.y|, and
      the step directions (towards b, or -1 when the coordinates are equal). */
  function Dx(l: Line): int { Abs(l.b.x - l.a.x) }

  function Dy(l: Line): int { -(Abs(l.b.y - l.a.y) as int) }

  function Sx(l: Line): int { if l.a.x < l.b.x then 1 else -1 }

  function Sy(l: Line): int { if l.a.y < l.b.y then 1 else -1 }

  /** v lies on the closed segment between a and b. */
  predicate Between(a: int, v: int, b: int) {
    if a < b then a <= v <= b else b <= v <= a
  }

  /** One pass of the `Line::draw` loop body: with e2 = 2 err, step x when e2 >= dy and
      then y when e2 <= dx, adjusting err by dy and dx respectively. */
  function Step(l: Line, x: int, y: int, err: int): (int, int, int) {
    var e2 := err * 2;
    (if e2 >= Dy(l) then x + Sx(l) else x,
     if e2 <= Dx(l) then y + Sy(l) else y,
     err + (if e2 >= Dy(l) then Dy(l) else 0) + (if e2 <= Dx(l) then Dx(l) else 0))
  }

  /** The positions the loop of `Line::draw` plots from state (x, y, err) on. The loop stops
      as soon as x reaches b.x OR y reaches b.y; each step moves at least one coordinate
      one unit towards b, which bounds the recursion. */
  function Trace(l: Line, x: int, y: int, err: int): (pts: seq<Pos>)
    requires Between(l.a.x, x, l.b.x) && Between(l.a.y, y, l.b.y)
    ensures x == l.b.x || y == l.b.y ==> pts == []
    ensures x != l.b.x && y != l.b.y ==> pts != [] && pts[0] == Pos(x, y)
    decreases Abs(l.b.x - x) + Abs(l.b.y - y)
  {
    if x == l.b.x || y == l.b.y then []
    else
      var (x1, y1, err1) := Step(l, x, y, err);
      [Pos(x, y)] + Trace(l, x1, y1, err1)
  }

  /** A step from a state inside the bounding box stays inside it, keeps the error term in
      [2 dy, 2 dx], and the trace is the current position followed by the trace from the
      next state. Each coordinate stays or moves one unit towards b, and at least one moves. */
  lemma StepKeepsInvariant(l: Line, x: int, y: int, err: int)
    requires Between(l.a.x, x, l.b.x) && Between(l.a.y, y, l.b.y)
    requires x != l.b.x && y != l.b.y
    requires 2 * Dy(l) <= err <= 2 * Dx(l)
    ensures var (x1, y1, err1) := Step(l, x, y, err);
            Between(l.a.x, x1, l.b.x) && Between(l.a.y, y1, l.b.y)
            && 2 * Dy(l) <= err1 <= 2 * Dx(l)
            && Trace(l, x, y, err) == [Pos(x, y)] + Trace(l, x1, y1, err1)
    ensures var (x1, y1, _) := Step(l, x, y, err);
            (x1 == x || x1 == x + Sx(l)) && (y1 == y || y1 == y + Sy(l)) && (x1, y1) != (x, y)
            && Abs(l.b.x - x1) + Abs(l.b.y - y1) < Abs(l.b.x - x) + Abs(l.b.y - y)
  {
  }

  /** One pass of the draw loop seen from the whole line: the position plotted next is the
      next one of `LinePoints`, and the positions done so far grow by it. */
  lemma LineLoopStep(l: Line, done: seq<Pos>, x: int, y: int, err: int)
    requires Between(l.a.x, x, l.b.x) && Between(l.a.y, y, l.b.y)
    requires x != l.b.x && y != l.b.y
    requires 2 * Dy(l) <= err <= 2 * Dx(l)
    requires LinePoints(l) == done + Trace(l, x, y, err)
    ensures |done| < |LinePoints(l)| && LinePoints(l)[|done|] == Pos(x, y)
    ensures var (x1, y1, err1) := Step(l, x, y, err);
            Between(l.a.x, x1, l.b.x) && Between(l.a.y, y1, l.b.y)
            && 2 * Dy(l) <= err1 <= 2 * Dx(l)
            && LinePoints(l) == (done + [Pos(x, y)]) + Trace(l, x1, y1, err1)
            && Abs(l.b.x - x1) + Abs(l.b.y - y1) < Abs(l.b.x - x) + Abs(l.b.y - y)
  {
    StepKeepsInvariant(l, x, y, err);
    var (x1, y1, err1) := Step(l, x, y, err);
    assert done + ([Pos(x, y)] + Trace(l, x1, y1, err1)) == (done + [Pos(x, y)]) + Trace(l, x1, y1, err1);
  }

  /** The positions `Line::draw` plots: nothing at all when a and b share a row or a column. */
  function LinePoints(l: Line): (pts: seq<Pos>)
    ensures l.a.x == l.b.x || l.a.y == l.b.y ==> pts == []
    ensures l.a.x != l.b.x && l.a.y != l.b.y ==> pts != [] && pts[0] == Pos(l.a.x, l.a.y)
  {
    Trace(l, l.a.x, l.a.y, Dx(l) + Dy(l))
  }

  /** Every position the loop plots lies in the bounding box of a and b, and also in that
      of the current state and b; none has x == b.x or y == b.y. */
  lemma {:induction false} TraceInBox(l: Line, x: int, y: int, err: int)
    requires Between(l.a.x, x, l.b.x) && Between(l.a.y, y, l.b.y)
    ensures forall k | 0 <= k < |Trace(l, x, y, err)| ::
              var q := Trace(l, x, y, err)[k];
              Between(l.a.x, q.x, l.b.x) && Between(l.a.y, q.y, l.b.y) && q.x != l.b.x && q.y != l.b.y
    ensures forall k | 0 <= k < |Trace(l, x, y, err)| ::
              var q := Trace(l, x, y, err)[k];
              Between(x, q.x, l.b.x) && Between(y, q.y, l.b.y)
    decreases Abs(l.b.x - x) + Abs(l.b.y - y)
  {
    if x != l.b.x && y != l.b.y {
      var (x1, y1, err1) := Step(l, x, y, err);
      assert Between(x, x1, l.b.x) && Between(y, y1, l.b.y);
      TraceInBox(l, x1, y1, err1);
    }
  }

  /** The loop runs at least min(|b.x - x|, |b.y - y|) and at most |b.x - x| + |b.y - y|
      times: each step moves x and y by at most one unit and at least one of them by one. */
  lemma {:induction false} TraceLength(l: Line, x: int, y: int, err: int)
    requires Between(l.a.x, x, l.b.x) && Between(l.a.y, y, l.b.y)
    ensures Min(Abs(l.b.x - x), Abs(l.b.y - y)) <= |Trace(l, x, y, err)| <= Abs(l.b.x - x) + Abs(l.b.y - y)
    decreases Abs(l.b.x - x) + Abs(l.b.y - y)
  {
    if x != l.b.x && y != l.b.y {
      var (x1, y1, err1) := Step(l, x, y, err);
      TraceLength(l, x1, y1, err1);
    }
  }

  /** Every position `Line::draw` plots is in the bounding box of the endpoints and off
      b's row and column; their number is between min(dx, |dy|) and dx + |dy|. */
  lemma LinePointsInBox(l: Line)
    ensures forall k | 0 <= k < |LinePoints(l)| ::
              var q := LinePoints(l)[k];
              Between(l.a.x, q.x, l.b.x) && Between(l.a.y, q.y, l.b.y) && q.x != l.b.x && q.y != l.b.y
    ensures Min(Dx(l), -Dy(l)) <= |LinePoints(l)| <= Dx(l) - Dy(l)
  {
    TraceInBox(l, l.a.x, l.a.y, Dx(l) + Dy(l));
    TraceLength(l, l.a.x, l.a.y, Dx(l) + Dy(l));
  }

  /** On a 45-degree diagonal the error term stays 0 and every step moves both coordinates:
      the k-th plotted position is k steps from (x, y) along the diagonal. */
  lemma {:induction false} TraceDiagonal(l: Line, x: int, y: int, k: nat)
    requires Dx(l) == -Dy(l)
    requires Between(l.a.x, x, l.b.x) && Between(l.a.y, y, l.b.y)
    requires Abs(l.b.x - x) == Abs(l.b.y - y)
    requires k < Abs(l.b.x - x)
    ensures |Trace(l, x, y, 0)| == Abs(l.b.x - x)
    ensures Trace(l, x, y, 0)[k] == Pos(x + k * Sx(l), y + k * Sy(l))
    decreases Abs(l.b.x - x)
  {
    if k > 0 {
      TraceDiagonal(l, x + Sx(l), y + Sy(l), k - 1);
    } else if Abs(l.b.x - x) > 1 {
      TraceDiagonal(l, x + Sx(l), y + Sy(l), 0);
    }
  }

  // ---------------------------------------------------------------- All shapes

  /** The draws of one `generate` call are in the ranges it draws from. */
  predicate GenerateSampleOk(shape: Shape, cfg: Config, sd: ShapeSample) {
    match shape
    case PointShape => PointGenerateSampleOk(cfg, sd.first)
    case SplatShape => SplatGenerateSampleOk(cfg, sd.first)
    case LineShape => LineGenerateSampleOk(cfg, sd)
  }

  /** `generate` for the given primitive type. */
  function Generate(shape: Shape, cfg: Config, sd: ShapeSample): (p: Primitive)
    requires GenerateSampleOk(shape, cfg, sd)
    ensures ShapeOf(p) == shape
  {
    match shape
    case PointShape => PointPrim(GeneratePoint(cfg, sd.first))
    case SplatShape => SplatPrim(GenerateSplat(cfg, sd.first))
    case LineShape => LinePrim(GenerateLine(cfg, sd))
  }

  /** The positions `draw` plots, in order. */
  function Footprint(p: Primitive): seq<Pos> {
    match p
    case PointPrim(q) => [Pos(q.x, q.y)]
    case SplatPrim(s) => SplatPoints(s)
    case LinePrim(l) => LinePoints(l)
  }

  /** The i16 arithmetic of `draw` does not overflow: a splat's loop bounds x + 2 and
      y + 2 fit, and a line's |b - a| on each axis is at most 8191, which keeps err * 2
      in i16. */
  predicate NoOverflow(p: Primitive) {
    match p
    case PointPrim(_) => true
    case SplatPrim(s) => s.x + 2 < 0x8000 && s.y + 2 < 0x8000
    case LinePrim(l) => Dx(l) <= 8191 && -Dy(l) <= 8191
  }

  /** `draw` onto a canvas of the given width and pixel count neither overflows nor plots
      out of range. */
  predicate Drawable(p: Primitive, width: nat, n: nat) {
    NoOverflow(p) && AllPlottable(width, n, Footprint(p))
  }

  /** A configuration whose generated primitives are all drawable on a canvas of the given
      width and pixel count: the lowest generated coordinate min_y is non-negative, the
      index of the largest generated position is in range, and a line spans at most 8192
      on each axis. */
  predicate SafeFor(cfg: Config, width: nat, n: nat) {
    0 <= cfg.minY && (cfg.maxX - 1) * width + (cfg.maxY - 1) < n
    && cfg.maxX - cfg.minY <= 8192 && cfg.maxY - cfg.minY <= 8192
  }

  lemma MulMonotone(a: int, b: int, w: nat)
    requires a <= b
    ensures a * w <= b * w
  {
  }

  /** A position inside [0, max_x - 1] x [0, max_y - 1] is plottable on a canvas for which
      the configuration is safe. */
  lemma PlottableUnder(cfg: Config, width: nat, n: nat, q: Pos)
    requires SafeFor(cfg, width, n)
    requires 0 <= q.x <= cfg.maxX - 1 && 0 <= q.y <= cfg.maxY - 1
    ensures Plottable(width, n, q)
  {
    MulMonotone(q.x, cfg.maxX - 1, width);
    RowStartProduct(width, q.x);
  }

  /** Under a safe configuration every generated primitive is drawable. */
  lemma GeneratedDrawable(shape: Shape, cfg: Config, sd: ShapeSample, width: nat, n: nat)
    requires SafeFor(cfg, width, n)
    requires GenerateSampleOk(shape, cfg, sd)
    ensures Drawable(Generate(shape, cfg, sd), width, n)
  {
    var p := Generate(shape, cfg, sd);
    var pts := Footprint(p);
    match shape
    case PointShape =>
      PlottableUnder(cfg, width, n, pts[0]);
    case SplatShape =>
      forall k | 0 <= k < |pts| ensures Plottable(width, n, pts[k]) {
        SplatCovers(p.splat, pts[k]);
        PlottableUnder(cfg, width, n, pts[k]);
      }
    case LineShape =>
      LinePointsInBox(p.line);
      forall k | 0 <= k < |pts| ensures Plottable(width, n, pts[k]) {
        PlottableUnder(cfg, width, n, pts[k]);
      }
  }

  /** The configuration and canvas of the shipped driver (bounds 0..511 on both axes, a
      512 x 512 canvas) are safe. */
  lemma DriverConfigSafe()
    ensures SafeFor(Config(0, 511, 0, 511), 512, 512 * 512)
  {
  }

  // ---------------------------------------------------------------- Drawing

  /** `Point::draw`: one plot at the point. */
  method DrawPoint(p: Point, c: Color, canvas: Canvas)
    requires Drawable(PointPrim(p), canvas.width, canvas.pixels.Length)
    modifies canvas.pixels
    ensures canvas.pixels[..] == Painted(old(canvas.pixels[..]), canvas.width, Footprint(PointPrim(p)), c)
  {
    assert Footprint(PointPrim(p))[0] == Pos(p.x, p.y);
    canvas.Plot(p.x, p.y, c);
  }

  /** `Splat::draw`: the centre, then the 4 x 4 block in two nested loops. */
  method DrawSplat(s: Splat, c: Color, canvas: Canvas)
    requires Drawable(SplatPrim(s), canvas.width, canvas.pixels.Length)
    modifies canvas.pixels
    ensures canvas.pixels[..] == Painted(old(canvas.pixels[..]), canvas.width, SplatPoints(s), c)
  {
    ghost var pts := SplatPoints(s);
    ghost var before := canvas.pixels[..];
    PaintedPrefix(before, canvas.width, pts, 0, c);
    canvas.Plot(s.x, s.y, c);
    ghost var m := 1;
    for x := s.x - 2 to s.x + 2
      invariant m == 1 + 4 * (x - (s.x - 2))
      invariant canvas.pixels[..] == Painted(before, canvas.width, pts[..m], c)
    {
      for y := s.y - 2 to s.y + 2
        invariant m == 1 + 4 * (x - (s.x - 2)) + (y - (s.y - 2))
        invariant canvas.pixels[..] == Painted(before, canvas.width, pts[..m], c)
      {
        SplatPointAt(s, x - (s.x - 2), y - (s.y - 2));
        PaintedPrefix(before, canvas.width, pts, m, c);
        canvas.Plot(x, y, c);
        m := m + 1;
      }
    }
    assert pts[..17] == pts;
  }

  /** The body of the `Line::draw` loop after the plot, in the source's i16 arithmetic:
      e2 = err * 2, then step x when e2 >= dy and y when e2 <= dx. It computes `Step`, and
      with |dx| and |dy| at most 8191 none of its i16 operations overflows. */
  method LineStep(l: Line, dx: I16, dy: I16, sx: I16, sy: I16, x0: I16, y0: I16, err0: I16)
    returns (x: I16, y: I16, err: I16)
    requires dx == Dx(l) && dy == Dy(l) && sx == Sx(l) && sy == Sy(l)
    requires dx <= 8191 && -8191 <= dy
    requires Between(l.a.x, x0, l.b.x) && Between(l.a.y, y0, l.b.y)
    requires x0 != l.b.x && y0 != l.b.y
    requires 2 * dy <= err0 <= 2 * dx
    ensures (x, y, err) == Step(l, x0, y0, err0)
  {
    x, y, err := x0, y0, err0;
    var e2: I16 := err * 2;
    if e2 >= dy {
      err := err + dy;
      x := x + sx;
    }
    if e2 <= dx {
      err := err + dx;
      y := y + sy;
    }
  }

  /** `Line::draw`: integer Bresenham stepping from a, plotting each position before the
      step, and stopping when either coordinate reaches b's. */
  method DrawLine(l: Line, c: Color, canvas: Canvas)
    requires Drawable(LinePrim(l), canvas.width, canvas.pixels.Length)
    modifies canvas.pixels
    ensures canvas.pixels[..] == Painted(old(canvas.pixels[..]), canvas.width, LinePoints(l), c)
  {
    ghost var before := canvas.pixels[..];
    var dx: I16 := Abs(l.b.x - l.a.x);
    var dy: I16 := -(Abs(l.b.y - l.a.y) as int);
    var sx: I16 := if l.a.x < l.b.x then 1 else -1;
    var sy: I16 := if l.a.y < l.b.y then 1 else -1;
    var err: I16 := dx + dy;
    var x: I16 := l.a.x;
    var y: I16 := l.a.y;
    ghost var whole := LinePoints(l);
    ghost var done: seq<Pos> := [];
    while x != l.b.x && y != l.b.y
      invariant Between(l.a.x, x, l.b.x) && Between(l.a.y, y, l.b.y)
      invariant 2 * dy <= err <= 2 * dx
      invariant whole == done + Trace(l, x, y, err)
      invariant AllPlottable(canvas.width, canvas.pixels.Length, done)
      invariant canvas.pixels[..] == Painted(before, canvas.width, done, c)
      decreases Abs(l.b.x - x) + Abs(l.b.y - y)
    {
      LineLoopStep(l, done, x, y, err);
      canvas.Plot(x, y, c);
      PaintedSnoc(before, canvas.width, done, Pos(x, y), c);
      done := done + [Pos(x, y)];
      x, y, err := LineStep(l, dx, dy, sx, sy, x, y, err);
    }
    assert Trace(l, x, y, err) == [];
    assert whole == done;
  }



  /** `draw` for any primitive: plots its footprint in colour c. */
  method Draw(p: Primitive, c: Color, canvas: Canvas)
    requires Drawable(p, canvas.width, canvas.pixels.Length)
    modifies canvas.pixels
    ensures canvas.pixels[..] == Painted(old(canvas.pixels[..]), canvas.width, Footprint(p), c)
  {
    match p
    case PointPrim(q) => DrawPoint(q, c, canvas);
    case SplatPrim(s) => DrawSplat(s, c, canvas);
    case LinePrim(l) => DrawLine(l, c, canvas);
  }
}
