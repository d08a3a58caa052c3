# rs-artgen core, modelled in Dafny

rs-artgen builds a picture out of many simple primitives: points, 4×4 splats or
Bresenham-style lines, each painted in a single colour. It improves the picture by a
hill climb that its authors call annealing. On each step it picks one slot and either
mutates that slot's primitive and colour or regenerates them. It then clears the
working canvas, redraws every primitive in order, and scores the result against a
target image. The new slot is kept only if the score is strictly better; otherwise
the old primitive and colour go back.

The model covers these parts of the program:

- **Colours** (`color.dfy`, module `Colors`). The two one-byte encodings `Black`
  (a threshold at luma 110) and `Grey` (the luma byte itself), with their
  `black`, `white`, `from_rgb`, `to_rgb`, `compare`, `generate` and `mutate`.
- **The canvas** (`canvas.dfy`, module `Canvases`). A class over an
  `array<Color>`, with `empty`, the BGR decode loop of `from_file`, `clear`, `plot`,
  `likeliness` and `to_u32_buffer`. The word packing of the last one is in
  `packing.dfy` (module `Packing`), over `bv32`.
- **The primitives** (`primitive.dfy`, module `Primitives`). `Point`, `Splat` and
  `Line`, each with `generate`, `mutate` and `draw`. Each `draw` is an imperative
  method over the canvas. It is proved equal to painting the primitive's pixel list
  (its footprint) in order. The footprint functions are then given their own lemmas:
  they stay in the box, the 17 splat points cover a 4×4 square, and a line trace has
  bounded length and exact diagonals.
- **The optimiser** (`anneal.dfy`, module `Annealing`). A class with the canvas,
  the primitive and colour sequences and the best fitness, with `new` and `iterate`.
  `Render` folds the drawing of every primitive over a blank canvas. `RenderAt` shows
  that a pixel takes the colour of the last primitive covering it.

Three conventions run through the model:

- **Randomness is a parameter.** Every `gen_range` result is a parameter, and its
  precondition is the half-open range the source draws from. The index and the
  coin flip of `iterate` are parameters too.
- **Machine integers are unbounded.** `u8` and `i16` are subset types of `int`.
  Where the source would overflow an `i16`, that case is excluded by a precondition.
- **Panics are preconditions.** An out-of-range `plot` is one example.

The source's own quirks are modelled as written:

- `Point::generate` and `Splat::generate` take the x coordinate's lower bound from
  `min_y`.
- Both `mutate`s clamp the y coordinate against `max_x`.
- The line loop stops as soon as either coordinate reaches the end point, and it never
  plots the end point.
- `iterate` discards the values returned by `mutate`, so its mutate branch redraws
  the unchanged population.

Lemmas state what follows from each quirk. For example, `MutatePointMayLeaveBox`
gives a well-formed configuration whose mutated point leaves the box.

## Model

| member | source | states |
|---|---|---|
| Numeric.ClampTo | src/primitive.rs:31 | `v.min(hi).max(lo)` is never below `lo`, is not above `hi` when `lo <= hi`, keeps an in-range value, and sends values below `lo` to `lo` and values above `hi` to `hi` |
| Colors.BlackColor | src/color.rs:25-27 | black shows as the RGB triple (0,0,0), and (0,0,0) decodes back to black, in both encodings |
| Colors.WhiteColor | src/color.rs:29-31 | white shows as (255,255,255), and (255,255,255) decodes back to white, in both encodings |
| Colors.Luma | src/color.rs:38 | the weighted luma lies between the smallest and the largest channel; a grey triple has its own level as luma |
| Colors.FromRgb | src/color.rs:33-45 | a `Black` colour is always 0 or 255, and it is 255 exactly when the luma exceeds 110 |
| Colors.ToRgb | src/color.rs:92-94 | a colour shows its stored byte in all three channels, for both encodings (`Black`'s `to_rgb` at src/color.rs:47-49 is the same) |
| Colors.Compare | src/color.rs:96-102 | similarity lies in [0,1] and is 1 exactly when the colours are equal; for `Black` it is 0 or 1 |
| Colors.CompareSymmetric | src/color.rs:51-57 | `compare` is symmetric, in both encodings |
| Colors.GreyDissimilarityTriangle | src/color.rs:96-102 | for `Grey`, 1 − compare satisfies the triangle inequality |
| Colors.GenerateColor | src/color.rs:104-108 | `Black` generates black; a generated colour is below 190, so it is never white |
| Colors.MutateColor | src/color.rs:110-116 | `Black` is unchanged; a `Grey` level moves at most 5 down or 4 up and stays in [0,255]; an in-range draw is taken as it is |
| Colors.ToRgbFromRgb | src/color.rs:82-94 | decoding what a colour shows gives the colour back: always for `Grey`, and for every `Black` value (0 or 255) |
| Colors.FromRgbIdempotent | src/color.rs:33-49 | re-encoding an encoded colour changes nothing; a `Black` colour shows as pure black or pure white |
| Colors.FromRgbMonotone | src/color.rs:82-90 | a triple with no darker channel never encodes to a darker colour, in either encoding |
| Packing.Widened | src/canvas.rs:67-69 | widening a byte to `u32` keeps its value and stays below 256 |
| Packing.PackFields | src/canvas.rs:71 | three bytes shifted to bits 16, 8 and 0 and or-ed fit in 24 bits, and each byte can be read back |
| Packing.PackUnpack | src/canvas.rs:71 | the packed `0x00RRGGBB` word fits in 24 bits and unpacks to the same triple |
| Canvases.RowStartProduct | src/canvas.rs:97 | the row offset used for indexing equals `x * width` |
| Canvases.PaintedAt | src/canvas.rs:94-100 | after plotting a list of positions in one colour, a pixel has that colour exactly when some position maps to its index; otherwise it is unchanged |
| Canvases.PaintedPrefix | src/canvas.rs:94-100 | painting one more position of a list is a single plot on top of the shorter painting |
| Canvases.PaintedSnoc | src/canvas.rs:94-100 | painting a list followed by a position is the painting of the list with that one pixel set |
| Canvases.Likeness | src/canvas.rs:77-86 | the summed similarity is between 0 and the number of pixels |
| Canvases.LikenessPrefix | src/canvas.rs:77-86 | only the first `len` pixels of the other canvas take part in the score |
| Canvases.LikenessSymmetric | src/canvas.rs:77-86 | on equal-size canvases the score does not depend on which canvas is the target |
| Canvases.LikenessPerfect | src/canvas.rs:77-86 | the score is the pixel count exactly when the canvases agree pixel by pixel |
| Canvases.LikenessBlackCountsMatches | src/canvas.rs:77-86 | for `Black`, the score is the number of equal pixels |
| Canvases.Decoded | src/canvas.rs:40-51 | a BGR byte stream decodes to one pixel per three bytes |
| Canvases.DecodedBgr | src/canvas.rs:40-51 | writing a canvas out as BGR bytes and decoding it with the `from_file` loop gives the canvas back (for `Black`, when every pixel is 0 or 255) |
| Canvases.DecodeBgr | src/canvas.rs:40-51 | the decode loop yields, for pixel k, `from_rgb` of the bytes at 3k+2, 3k+1 and 3k (red, green, blue), and so equals `Decoded` |
| Canvases.Canvas.Empty | src/canvas.rs:10-24 | a new canvas has `width * height` pixels, all white, in a fresh array |
| Canvases.Canvas.FromBytes | src/canvas.rs:26-58 | a canvas read from a BGR image holds the decoded pixels, with the given width and height |
| Canvases.Canvas.Clear | src/canvas.rs:88-92 | every pixel is white afterwards |
| Canvases.Canvas.Plot | src/canvas.rs:94-100 | exactly the pixel at `x * width + y` takes the colour; every other pixel is unchanged |
| Canvases.Canvas.Likeliness | src/canvas.rs:77-86 | the loop's sum is `Likeness` of the two canvases, between 0 and the pixel count |
| Canvases.Canvas.ToU32Buffer | src/canvas.rs:60-75 | the buffer has `width * height` words; each is the packed RGB of its pixel and unpacks back to it |
| Primitives.GeneratePoint | src/primitive.rs:22-27 | a generated point lies in [min_y, max_x) × [min_y, max_y); it is inside the box whenever min_x <= min_y |
| Primitives.GeneratePointMayLeaveBox | src/primitive.rs:24 | for some well-formed configuration, a generated point's x is below min_x |
| Primitives.MutatePoint | src/primitive.rs:29-34 | x is clamped into [min_x, max_x] and y into [min_y, max_x]; an in-range draw is kept; an in-range coordinate moves at most 5 down or 4 up |
| Primitives.MutatePointInBox | src/primitive.rs:29-34 | when max_x <= max_y, a mutated point stays in the box |
| Primitives.MutatePointMayLeaveBox | src/primitive.rs:32 | for some well-formed configuration with max_y < max_x, mutation moves an in-box point out of the box |
| Primitives.GenerateSplat | src/primitive.rs:48-53 | a generated splat centre lies in [min_y+2, max_x−2) × [min_y+2, max_y−2); it keeps a margin of 2 whenever min_x <= min_y |
| Primitives.MutateSplat | src/primitive.rs:55-60 | x is clamped into [min_x+2, max_x−2] and y into [min_y+2, max_x−2]; an in-range draw is kept |
| Primitives.MutateSplatInBox | src/primitive.rs:55-60 | when max_x <= max_y, a mutated splat keeps its margin of 2 inside the box |
| Primitives.SplatPoints | src/primitive.rs:62-70 | a splat plots 17 positions, the centre first |
| Primitives.SplatPointAt | src/primitive.rs:65-69 | the nested loops plot (x−2+i, y−2+j) as the (1+4i+j)-th position |
| Primitives.SplatCovers | src/primitive.rs:62-70 | a position is plotted exactly when it lies in [x−2, x+1] × [y−2, y+1]: the 4×4 square is off-centre |
| Primitives.GenerateLine | src/primitive.rs:80-85 | both end points are generated points |
| Primitives.MutateLine | src/primitive.rs:87-92 | both end points are clamped as in point mutation |
| Primitives.Trace | src/primitive.rs:106-119 | the loop plots nothing once either coordinate has reached the end point; otherwise it plots the current position first |
| Primitives.StepKeepsInvariant | src/primitive.rs:108-118 | one step stays between the end points and keeps 2·dy <= err <= 2·dx; each coordinate stays or moves one unit by its sign step, at least one of them moves, and the remaining distance to the end shrinks |
| Primitives.LineLoopStep | src/primitive.rs:106-119 | the position plotted by one iteration is the next entry of the line's point list |
| Primitives.LinePoints | src/primitive.rs:94-120 | a line whose end points share a row or a column plots nothing; otherwise it starts at `a` |
| Primitives.TraceInBox | src/primitive.rs:106-119 | every position plotted from the current state lies between it and the end point on each axis, and in the bounding box of a and b; none is on b's row or column |
| Primitives.TraceLength | src/primitive.rs:106-119 | the number of plotted positions is at least the smaller remaining distance and at most the sum of the remaining distances |
| Primitives.LinePointsInBox | src/primitive.rs:94-120 | every plotted position lies in the bounding box of the end points; the count is between min(dx, \|dy\|) and dx + \|dy\| |
| Primitives.TraceDiagonal | src/primitive.rs:106-119 | on an exact diagonal the k-th position is a + k·(sx, sy), and the end point is never plotted |
| Primitives.Generate | src/primitive.rs:8 | generation yields a primitive of the requested kind |
| Primitives.PlottableUnder | src/canvas.rs:94-100 | under a configuration safe for the canvas, every non-negative position below (max_x, max_y) has an index inside the pixel array |
| Primitives.GeneratedDrawable | src/anneal.rs:57-64 | under such a configuration, every generated primitive can be drawn without overflow and without plotting outside the canvas |
| Primitives.DriverConfigSafe | src/main.rs:17-24 | the driver's configuration 0..511 is safe for its 512×512 canvas |
| Primitives.DrawPoint | src/primitive.rs:36-38 | the canvas is the old canvas with the point plotted |
| Primitives.DrawSplat | src/primitive.rs:62-70 | the canvas is the old canvas with the 17 splat positions painted in order |
| Primitives.LineStep | src/primitive.rs:108-118 | one loop body, run in `i16`, gives the step of the line's specification |
| Primitives.DrawLine | src/primitive.rs:94-120 | the canvas is the old canvas with the line's point list painted in order |
| Primitives.Draw | src/primitive.rs:12 | drawing any primitive paints its footprint over the old canvas |
| Annealing.LastCover | src/anneal.rs:63-65 | the last primitive whose footprint covers a pixel, or −1; no later primitive covers it |
| Annealing.RenderAt | src/anneal.rs:61-65 | after clear-and-redraw, a pixel has the colour of the last primitive covering it, and stays white if no primitive covers it |
| Annealing.RenderSnoc | src/anneal.rs:63-65 | drawing one more primitive is painting its footprint on top of the earlier rendering |
| Annealing.BlackRenderTwoTone | src/color.rs:59-61 | with `Black` colours (always black), every rendered pixel is black or white |
| Annealing.Redraw | src/anneal.rs:61-65 | clearing then drawing every primitive in order leaves `Render` of the population on a blank canvas |
| Annealing.Anneal.constructor | src/anneal.rs:23-44 | slot k holds the k-th generated primitive and colour, the canvas is blank and `width * height`, and fitness is −∞; under a safe configuration every primitive is drawable |
| Annealing.Anneal.TriedPrimitives | src/anneal.rs:53-59 | the tried population differs from the current one only at slot i; when mutating it is the current population unchanged (the mutated value is discarded), otherwise slot i holds the primitive generated from the draw |
| Annealing.Anneal.TriedColors | src/anneal.rs:53-59 | the tried colours differ only at slot i; when mutating they are the current colours unchanged, otherwise slot i holds the colour generated from the draw |
| Annealing.Anneal.SetSlot | src/anneal.rs:72-73 | slot i takes the given primitive and colour, nothing else changes, and the invariant is kept |
| Annealing.Anneal.Iterate | src/anneal.rs:46-75 | the canvas shows the tried population. On a strict improvement, fitness becomes the new score and the tried population stays; otherwise the population and fitness are the old ones. The mutate branch never changes the population. Fitness never decreases and becomes finite, and the invariant and drawability are kept |

## Left out

- The `Hsv` colour (`src/color.rs` from line 119) is not part of this model. It is
  built on floating point, and the driver does not use it.
- Opening, resizing and converting the image file in `from_file` are I/O and are left
  out. The model starts from the BGR byte stream, which `FromBytes` requires to be a
  multiple of three bytes long, as `to_bgr8` always produces. The `writes` vector that
  the decode loop fills is never read, so it is not modelled.
- `src/main.rs` (the window, the frame loop and the choice of `Line`/`Grey` with 3000
  primitives) is not modelled. Only its configuration appears, in `DriverConfigSafe`.
- The random number generator is left out. Every draw is a parameter, constrained
  to the range the source draws from, so the sequence of draws and the seeding from
  entropy are not modelled.
- Colors.Luma: `f32` arithmetic is replaced by exact integer arithmetic, so the
  truncated luma can be one higher than the source's where the `f32` sum rounds just
  below an integer. On grey triples this happens for 23 levels (13, 26, 31, 47, …, 248):
  the source decodes (13,13,13) as 12.
- Colors.FromRgb: for `Black` the exact luma crosses the threshold 110 on two triples
  where the source's `f32` luma does not, (111,111,111) and (176,94,88); the model gives
  255 there and the source gives 0.
- Colors.ToRgbFromRgb: the round trip holds for the exact luma; with the source's `f32`
  luma it fails for `Grey` on the 23 levels above.
- Colors.FromRgbIdempotent: holds for the exact luma; with the source's `f32` luma,
  re-encoding a `Grey` colour on one of those 23 levels lowers it by one.
- Colors.Compare: computed over the reals, not in `f32`.
- Canvases.Likeness: the sum is over the reals, not in `f32`. Rounding of the
  accumulated sum, and any resulting tie between two nearly equal scores, is not
  modelled.
- Annealing.Anneal.Iterate: the values computed in the mutate branch are discarded
  by the source. The model therefore does not evaluate `mutate` there, and it does not
  require the `i16` ranges that those calls would need to avoid overflow.
- Annealing.Anneal.Iterate: requires the target and the working canvas to be
  different arrays. In the source, Rust's borrow rules guarantee this.
- Primitives.DrawLine: requires |b.x − a.x| and |b.y − a.y| to be at most 8191. This
  is a sufficient condition for `err * 2` to stay within `i16`, not the exact one.
- Canvases.Canvas.Plot: negative coordinates, and `usize` overflow of
  `x * width + y`, are outside the model. Plotting requires a non-negative position
  whose index is inside the pixel array. A negative `i16` cast to `usize` wraps in
  the source, and a release build could then write to some other in-range pixel;
  that behaviour is not modelled.
- `LineStep` and `Redraw` are factored out of `Line::draw` and `Anneal::iterate`.
  They are the loop body and the clear-and-redraw steps of those functions, not
  separate functions of the source.
