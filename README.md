# Wind map core, modelled in Dafny

The wind map draws a wind field over a map of a region. The field is a grid of
wind vectors. A few thousand particles drift with it, and labelled cities are
placed where they do not overlap. The user can pan with the mouse and zoom by
clicking. A Python script computes the grid from weather-station readings by
inverse-distance weighting. This project models the computational core of
`windmap.js` and of the interpolation kernel in `interpolation.py`, and proves
properties of that model.

Each source file becomes one or more Dafny modules:

- `numerics.dfy` (`Numerics`): the host's math library, received as a value
  `MathLib(sqrt, cos)` together with what the model relies on about it
  (`Sound`). It also defines `Math.ceil`, `Math.round`, `pow` with a natural
  exponent, and linear interpolation.
- `vectors.dfy` (`Vectors`): `Vector` with `length`, `d` and `setLength`.
- `projection.dfy` (`Projection`): `ScaledAlbers`. It is an affine screen layer
  (scale, Y flip, offset) over the Albers conic. The conic itself is a pair of
  functions received as a value. `IDProjection` is the identity.
- `fields.dfy` (`Fields`): `VectorField`. It has a constructor that computes
  `maxLength`, and `read` builds the field from a flat interleaved array.
  `read` may correct for the sphere and compute an average length. The file
  also has `inBounds`, `bilinear`, `getValue` and `constant`.
- `animation.dfy` (`Animation`): the `Animator` state machine. Its states are
  'animate', 'mouse-down', 'pan' and 'zoom'. It has the mouse handlers, `zoom`,
  `zoomClick`, `unzoom`, the `loop` tick and `notify` dispatch to listeners. The
  class's methods update its fields in place. Each method is proved equal to a
  pure step function on a `Snapshot` of all the fields. The state-machine
  properties are lemmas about those step functions.
- `canvas.dfy` (`Canvas`): where a map point lands on the canvas under a
  projection and a view, and the off-canvas test.
- `particles.dfy` (`Particles`): `Particle` and `MotionDisplay`. It covers
  seeding the pool, `moveThings`, the bookkeeping of `draw` and the viewport
  box of `endMove`. What `draw` strokes is returned as a list of `Stroke`s.
- `labels.dfy` (`Labels`): `CityDisplay`. It covers the population sort, the
  greedy `markCities` pass with `collide` and `isFree`, `move` and `endMove`.
  What `move` paints is returned as a list of `Label`s.
- `interpolation.dfy` (`Interpolation`): `pointValue` and `invDist`.

Numbers are modelled as exact reals. Where the source calls `Math.random`, the
model takes the drawn numbers as parameters. `Math.sqrt`, `Math.cos` and
Python's `sqrt` are the functions of a `MathLib` value, and `Sound` states
their properties. The `animFunc` gate of `notify` is a boolean parameter.

The code is followed wherever the repository's own description differs from
it:

- `read` weights each cell's length by the latitude in radians
  (`Math.PI * lat / 180`), not by its cosine.
- A grid of fewer than two columns or rows is not rejected anywhere.
- `makeParticle`'s retry counter does not guarantee termination.
- The visibility test of the unzoom button is kept as written,
  `Math.abs(this.dy > 0.001)`. So a view shifted upwards (negative `dy`) alone
  does not show the button.
- `CityDisplay.move` blends its two passes with the raw `zoomProgress`, not
  with the eased weight.

## Model

| member | source | states |
|---|---|---|
| Numerics.Ceil | windmap.js:208-209 | `Math.ceil`: the least integer not below `a`. It equals the floor exactly when `a` is an integer. |
| Numerics.Round | windmap.js:1130 | `Math.round`: the integer within half a unit of `a`, with halves rounded up. |
| Numerics.Pow | interpolation.py:19-20 | `pow(x, n)` for a natural `n` is positive for a positive base and non-negative for a non-negative one. |
| Numerics.LerpBetween | windmap.js:404-409 | With a weight in [0, 1], `lerp` stays between any bounds of its two ends. |
| Vectors.Length | windmap.js:10-12 | `length()` is non-negative and its square is `x*x + y*y`. |
| Vectors.LengthOfZero | windmap.js:10-12 | The zero vector has length 0. |
| Vectors.Distance | windmap.js:39-43 | `d(v)` is non-negative and its square is the sum of the squared coordinate differences. |
| Vectors.DistanceSymmetric | windmap.js:39-43 | `a.d(b) == b.d(a)`, and a point is at distance 0 from itself. |
| Vectors.SetLengthSetsLength | windmap.js:18-26 | A vector of length 0 is unchanged. Otherwise the result has length `abs(len)`. For `len >= 0` it is a non-negative multiple of the input. |
| Projection.NewScaledAlbers | windmap.js:103-110 | The constructor keeps its arguments, and the south-west corner `(longMin, latMin)` projects exactly onto `(offsetX, offsetY)`. |
| Projection.FromScreenToScreen | windmap.js:114-132 | For a non-zero scale, the affine part of `invert` undoes the affine part of `project`. |
| Projection.ToScreenFromScreen | windmap.js:114-132 | For a non-zero scale, the affine part of `project` undoes the affine part of `invert`. |
| Projection.InvertProject | windmap.js:114-132 | `invert(project(lon, lat)) == (lon, lat)` wherever the Albers conic round-trips. |
| Projection.ProjectInvert | windmap.js:114-132 | `project(invert(x, y)) == (x, y)` wherever the conic projects its own inversion back. |
| Projection.InvertWithProjectWith | windmap.js:45-59 | For either projection a display holds, `invert` undoes `project`: always for `IDProjection`, and for a `ScaledAlbers` wherever its Albers base round-trips. |
| Projection.ProjectWithInvertWith | windmap.js:45-59 | For either projection, `project` undoes `invert` on screen points: always for `IDProjection`, and for a `ScaledAlbers` wherever its base projects the inverse back. |
| Fields.ColumnMaxIsMax | windmap.js:146-152 | The inner loop's running maximum is at least 0 and bounds every length seen. It is 0 or equal to one of those lengths. |
| Fields.GridMaxIsMax | windmap.js:145-153 | `maxLength` bounds the length of every cell of the grid, and is 0 or the length of some cell. |
| Fields.VectorField.constructor | windmap.js:134-156 | Keeps the field and its box, and computes `maxLength` by the nested scan (which `GridMaxIsMax` characterises). It sets no average. |
| Fields.FlatIndexLayout | windmap.js:162-172 | Cell (x, y) reads positions `2(x*h + y)` and `2(x*h + y) + 1`, both below `2*w*h`. Distinct cells read distinct positions. |
| Fields.FlatIndexCovers | windmap.js:162-172 | Every pair position below `w*h` is read by some cell, so exactly the `2*w*h` numbers are consumed. |
| Fields.VectorField.Read | windmap.js:158-199 | A fresh field of `w` columns of `h` cells, each as `Cell` defines it, with the data's box and the grid maximum. Its average length is as `AverageLength` says. |
| Fields.VectorField.ReadColumns | windmap.js:168-192 | The outer loop builds `w` columns of `h` cells, each equal to `Cell(d, x, y)`. It returns the total and weight summed over every cell (nothing without the correction). |
| Fields.VectorField.ReadColumn | windmap.js:170-191 | The inner loop reads column x from positions `2xh` up to `2(x+1)h`, and adds the column's contributions to the sums. |
| Fields.VectorField.ReadCell | windmap.js:171-190 | One cell: its two numbers, x-corrected and rescaled when asked, and its contribution to total and weight. |
| Fields.CorrectionKeepsLength | windmap.js:176-189 | The sphere correction keeps a cell's length whenever the stretched vector is not of length 0. |
| Fields.UniformAverage | windmap.js:183-197 | If every cell has the same non-zero length, `averageLength` is that length whatever the latitude weights, unless the weights cancel. |
| Fields.StillAverage | windmap.js:183-197 | A field of zero vectors gets no `averageLength`. |
| Fields.VectorField.Constant | windmap.js:236-243 | `constant` builds a field whose `maxLength` is the length of (dx, dy), and whose `getValue` returns (dx, dy) everywhere. |
| Fields.BlendIsNestedLerp | windmap.js:213-216 | The bilinear formula is a lerp along b of two lerps along a. |
| Fields.BlendBetween | windmap.js:213-216 | With fractional parts in [0, 1], the blend stays within the range of its four corner values. |
| Fields.VectorField.InBoundsSamples | windmap.js:201-221 | On a grid of at least 2 x 2, `inBounds(x, y)` puts `a` in [0, w-1) and `b` in [0, h-1). So their floors and ceilings index existing cells. |
| Fields.VectorField.InBoundsSampled | windmap.js:201-230 | On a constant field or a grid of at least 2 x 2, `getValue` is defined at every in-bounds point. |
| Fields.VectorField.InBoxSampled | windmap.js:204-222 | On such a field `getValue` is also defined on the closed box, upper edges included: `bilinear`'s floors and ceilings name existing cells. |
| Fields.VectorField.BilinearAtNode | windmap.js:205-217 | At integer indices (i, j), `bilinear` returns `field[i][j][coord]` exactly. |
| Fields.VectorField.BilinearBetweenCorners | windmap.js:205-217 | Between nodes, `bilinear` stays within the range of the four surrounding values. |
| Fields.VectorField.GetValueAtCorner | windmap.js:219-230 | `getValue(x0, y0)` is cell [0][0]. |
| Animation.DeliveriesExactly | windmap.js:333-338 | `notify`'s loop calls exactly the listeners that define the handler, each once, in the order they were added. |
| Animation.NotifiedChangesOnlyLog | windmap.js:325-339 | `notify` changes only the button visibility and the handler calls. A closed `animFunc` gate stops every call. |
| Animation.Animator.Notify | windmap.js:325-339 | The button visibility is set from the displacement test when there is a button. Behind an open gate, the handler calls are appended. |
| Animation.Animator.constructor | windmap.js:245-260 | Starts in 'animate', mouse up at (-1, -1), at the identity view, with no listeners. |
| Animation.InitialSettled | windmap.js:245-260 | A new animator has progress in [0, 1] and positive scales. |
| Animation.Animator.Add | windmap.js:321-323 | `add` appends the listener. |
| Animation.Animator.MouseDown | windmap.js:264-291 | Records the pointer, goes to 'mouse-down' and notifies 'startMove'. It then records the landing point and the start view and marks the button down. |
| Animation.MouseDownStarts | windmap.js:282-291 | After a press: state 'mouse-down', landing point = pointer, start view = current view, so relativeDx and relativeDy are 0. |
| Animation.Animator.MouseMove | windmap.js:274-309 | The handler as `MouseMoveStep` defines it: hover, ignore or pan. |
| Animation.MouseMovePans | windmap.js:293-309 | Button down, not panning, and a move within 2 (`abs(ddx) + abs(ddy) <= 2`): only the pointer changes. Otherwise the state becomes 'pan', dx/dy grow by exactly the pointer's displacement since the landing point, and the landing point becomes the pointer. |
| Animation.HoverKeepsView | windmap.js:293-297 | With the button up, a move only records the pointer and notifies 'hover'. |
| Animation.DragTelescopes | windmap.js:293-309 | Across a whole drag that pans, the view moves by the pointer's total displacement from the landing point. |
| Animation.PressAndDrag | windmap.js:365-375 | After a press and a drag past the threshold, `relativeDx`/`relativeDy` are the pointer's displacement from the press and `relativeZoom` is 1. |
| Animation.Animator.MouseUp | windmap.js:269-319 | The handler as `MouseUpStep` defines it. |
| Animation.MouseUpEnds | windmap.js:311-319 | Release leaves the button up. After a pan it returns to 'animate' and keeps the view. Otherwise it is exactly `zoomClick` at the pointer. |
| Animation.Animator.Zoom | windmap.js:353-363 | The fields after `zoom(dx, dy, scale)` are as `ZoomStep` defines them. |
| Animation.ZoomStarts | windmap.js:353-363 | A zoom starts in 'zoom' at progress 0, from the current view, towards the requested one. |
| Animation.Animator.ZoomClick | windmap.js:345-351 | `zoomClick` zooms towards the target as `ZoomClickStep` defines it. |
| Animation.ClickKeepsPointFixed | windmap.js:345-351 | The target scale is 1.7 * scale. The map point under the click in the target view is the one under it now: `(x - dxTarget)/scaleTarget == (x - dx)/scale`, and the same for y. |
| Animation.Animator.Unzoom | windmap.js:341-343 | `unzoom` is `zoom(0, 0, 1)`. |
| Animation.UnzoomAimsHome | windmap.js:341-343 | Unzoom starts a zoom aimed at the identity view. |
| Animation.Animator.Loop | windmap.js:390-420 | One tick, as `LoopStep` defines it. |
| Animation.LoopIdleWhileDragging | windmap.js:390-393 | In 'mouse-down' or 'pan', `loop` changes nothing. |
| Animation.AnimateKeepsView | windmap.js:395-398 | In 'animate', any number of ticks only notify. State, progress and view stay. |
| Animation.EaseBounds | windmap.js:402 | The ease weight `u = (1 + cos(pi * p))/2` lies in [0, 1] and is 0 at p = 1. |
| Animation.EasedAtEnd | windmap.js:404-409 | At u = 0, `lerp` gives the target values. |
| Animation.LoopAdvancesZoom | windmap.js:400-419 | A zoom tick sets progress to `min(1, p + 0.07)`, so it never decreases. The zoom continues exactly while progress is below 1, and ends in 'animate'. |
| Animation.ZoomFinishes | windmap.js:400-419 | Once progress can reach 1 within n ticks, after n ticks the state is 'animate', the progress is 1 and the view is exactly the target. |
| Animation.ZoomWithinFifteenTicks | windmap.js:400-419 | Every zoom ends within 15 ticks, exactly at the target view. |
| Animation.DownKeepsSettled | windmap.js:282-291 | A press keeps progress in [0, 1] and all scales positive. |
| Animation.MoveKeepsSettled | windmap.js:293-309 | A pointer move keeps that invariant. |
| Animation.UpKeepsSettled | windmap.js:311-319 | A release keeps it. |
| Animation.NotifiedKeepsSettled | windmap.js:325-339 | `notify` neither creates nor breaks it. |
| Animation.ClickKeepsSettled | windmap.js:345-351 | A click zoom keeps it. |
| Animation.ZoomKeepsSettled | windmap.js:353-363 | A zoom towards a positive scale keeps it. |
| Animation.UnzoomKeepsSettled | windmap.js:341-343 | Unzoom keeps it. |
| Animation.LoopKeepsSettled | windmap.js:390-420 | A tick keeps it: the eased scale lies between two positive scales. |
| Animation.SavedImageRealigned | windmap.js:1074-1077 | `MotionDisplay.move` redraws the saved image at offset `dx - z*dxStart`, scaled by `z = relativeZoom()`. This puts every map point where the current view shows it. |
| Particles.Spawn | windmap.js:989-1002 | An accepted particle is not yet drawn (old point (-1, -1)). With random draws in [0, 1) it lies inside the seeding box and its age is in [1, 41). |
| Particles.StrokeColor | windmap.js:1129-1133 | The colour index is in 90..255. It is missing (NaN) exactly when the wind and `maxLength` are both 0. |
| Particles.StrokeColorMonotone | windmap.js:1129-1133 | Faster wind never gets a lower index. Calm wind gets 90, and up to `maxLength` the index stays at most 160. |
| Particles.MotionDisplay.constructor | windmap.js:431-445 | Seeds particles over the field's box, the k-th from the k-th draw, each pushed draw one that can be sampled. The pool is full exactly when `getValue` can sample every draw's point; otherwise it stops at the first draw that cannot be sampled, where `makeParticle` throws. It marks the next draw as the first. |
| Particles.MotionDisplay.MakeNewParticles | windmap.js:974-992 | The pool is rebuilt, the k-th particle from the k-th draw. Every pushed particle's draw can be sampled. `ok` holds exactly when every draw's point can be sampled, and then the pool has `numParticles` particles. Otherwise `makeParticle` throws: the pool holds the particles before the first draw that cannot be sampled. |
| Particles.MotionDisplay.MoveThings | windmap.js:1080-1094 | The pool keeps its size. A particle with age left inside the field moves by speed times the wind there, with speed `0.01 * 0.5 / scale`, and ages by exactly 1. Every other particle is replaced. `ok` fails exactly when a replacement's draw cannot be sampled; the particles from there on are left as they were. |
| Particles.MotionDisplay.MoveParticle | windmap.js:1083-1092 | One pass of the loop: `safe` says whether `makeParticle` would not throw, and a safe particle becomes what `Moved` says (advanced, or replaced by the seed's particle). |
| Particles.MotionDisplay.FirstUnsafe | windmap.js:1081-1093 | Where `moveThings`' loop stops: every particle before it can be handled, and it is the end of the pool or a particle whose replacement throws. |
| Particles.MotionDisplay.FirstUnsafeIs | windmap.js:1081-1093 | That stopping point is unique: an index with every particle before it safe, that is the end or an unsafe particle, is `FirstUnsafe`. |
| Particles.MotionDisplay.MovedAgeBounded | windmap.js:1084-1092 | With random draws, ages below 41 stay in (-1, 41) after `moveThings`. |
| Particles.MotionDisplay.Draw | windmap.js:1096-1143 | The first draw is solid and later ones are not. Particles outside the field or off the canvas get age -2. Every particle in the field records its screen point. Strokes are returned in pool order, one per in-field particle drawn before. |
| Particles.MotionDisplay.DrawParticle | windmap.js:1116-1141 | One pass of the loop: the particle as `Drawn` says and its stroke as `StrokeOf` says. |
| Particles.MotionDisplay.StrokeColorsInRange | windmap.js:1127-1133 | Every stroke's colour index lies in 90..255. |
| Particles.MotionDisplay.RetiredIsReplaced | windmap.js:1084-1125 | A particle that `draw` retires (outside the field or off the canvas) is replaced by the next `moveThings`. |
| Particles.MotionDisplay.Animate | windmap.js:1056-1059 | `animate` is `moveThings` then `draw`, particle by particle. When `moveThings` throws, nothing is drawn, and the pool is as `moveThings` left it: moved before `FirstUnsafe`, unchanged from there on. |
| Particles.MotionDisplay.ViewportBoxClamped | windmap.js:1012-1051 | The seeding box's corners are clamped: x0 and y0 are at least the field's, x1 and y1 at most. So a box that is not inverted lies inside the field's box. Below scale 1.1 it is the field's box. Zoomed in, it covers each of the four probed map points that lies in the field's box. |
| Particles.MotionDisplay.ViewportBoxMissesField | windmap.js:1012-1051 | Zoomed in with all four probed points right of the field, the box is inverted (x0 > x1), and every particle drawn in it lies outside the field. |
| Particles.MotionDisplay.ViewportSeedsSampled | windmap.js:1046-1053 | In a seeding box that is not inverted, over a sampleable field that is not degenerate, every valid draw can be sampled, so `endMove` fills the pool. |
| Particles.MotionDisplay.EndMove | windmap.js:1012-1054 | Sets the seeding box for the view and reseeds the pool in it as `makeNewParticles` does, every pushed draw one that can be sampled: full when every draw can be sampled; otherwise it stops at the first draw that cannot be, where the source throws. |
| Labels.CollideSymmetric | windmap.js:1250-1253 | `collide` is symmetric. A rectangle of non-negative size collides with itself, and rectangles that only touch collide. |
| Labels.IsFree | windmap.js:1255-1262 | `isFree(r)` holds exactly when r collides with none of the rectangles taken. |
| Labels.FootprintOf | windmap.js:1280-1296 | The dot square is centred on the city's canvas point. The name box is centred under it, with its padded top at the point's height and height 15 + 2*pad. |
| Labels.Candidate | windmap.js:1272-1300 | A city is a candidate exactly when its point is on the canvas and both its rectangles are free. |
| Labels.AcceptedInOrder | windmap.js:1269-1308 | A pass accepts cities in visiting order, each at most once, only on-canvas ones, and at most maxInView + 1 (11) of them. |
| Labels.AcceptedFit | windmap.js:1298-1303 | Every accepted city fits beside what was taken before the pass. |
| Labels.AcceptedApart | windmap.js:1298-1303 | No accepted city's dot or name collides with the dot or name of a city accepted before it in the same pass. |
| Labels.AcceptedGreedy | windmap.js:1269-1308 | An on-canvas city the pass visits and skips is blocked by what was taken, or by a city accepted before it. |
| Labels.AcceptedIgnoresAlpha | windmap.js:1269-1308 | A pass depends only on the cities' positions and sizes, not on their opacities. |
| Labels.Bumped | windmap.js:1304 | A pass's opacity keeps every city and its site. |
| Labels.BumpedExactly | windmap.js:1304 | Each accepted city gains exactly `alpha` (once, even if listed twice), and every other city is unchanged. |
| Labels.Cleared | windmap.js:1236-1238 | Zeroing the opacities keeps every city and its site, with opacity 0. |
| Labels.InsertByPopPermutes | windmap.js:1233-1235 | Insertion keeps every city and adds the new one. |
| Labels.InsertByPopSorted | windmap.js:1233-1235 | Insertion into a list in descending population keeps it in that order. |
| Labels.SortByPopSorts | windmap.js:1233-1235 | The constructor's sort leaves the cities in descending population and is a permutation of them. |
| Labels.PassByPopulation | windmap.js:1269-1270 | On sorted cities, a pass accepts them in descending population. |
| Labels.MarkedInUnitRange | windmap.js:1312-1343 | With progress in [0, 1], every opacity after `move` lies in [0, 1], so the `Math.min(1, alpha)` cap never cuts. |
| Labels.Painted | windmap.js:1341-1361 | Every painted label is for a city with non-zero opacity at most 1, whose dot is on the canvas, drawn at its canvas point. |
| Labels.CityDisplay.constructor | windmap.js:1227-1239 | The cities are sorted by descending population, all with opacity 0. |
| Labels.CityDisplay.ClearAlphas | windmap.js:1312-1314 | Every opacity is zeroed and nothing else changes. |
| Labels.CityDisplay.MarkCities | windmap.js:1248-1309 | Exactly the cities the greedy pass accepts gain `alpha`, and every other city is unchanged. |
| Labels.CityDisplay.Paint | windmap.js:1336-1385 | The paint loop draws exactly the labels `Painted` lists. |
| Labels.CityDisplay.Move | windmap.js:1311-1385 | The opacities are reset, then set by one pass (two during a zoom, weighted 1 - u and u). The labels are painted under the current view. |
| Labels.CityDisplay.EndMove | windmap.js:1241-1246 | `endMove` ends as `move` does from the same cities. |
| Interpolation.PointDist | interpolation.py:16 | The smoothed distance is non-negative, its square is `dx^2 + dy^2 + smoothing^2`, and it is never below a non-negative smoothing. |
| Interpolation.Dist | interpolation.py:16 | The same bounds, for station i. |
| Interpolation.FirstHit | interpolation.py:15-18 | There is no hit exactly when every station is at least 1e-10 away. Otherwise the hit is the first station closer than that. |
| Interpolation.Weight | interpolation.py:20 | Every weight `1 / dist^power` of an unhit station is positive. |
| Interpolation.PointValue | interpolation.py:12-26 | `pointValue` returns `Estimate`: the first hit's value, else the weighted average, else -9999. |
| Interpolation.FirstHitStays | interpolation.py:15-18 | Once station i is the first hit, it stays so however many stations follow. |
| Interpolation.LaterStationsIgnored | interpolation.py:15-18 | Stations after the first hit do not affect the result. |
| Interpolation.NoStationsNoData | interpolation.py:22-25 | Without stations the result is -9999. |
| Interpolation.SumsBounded | interpolation.py:19-20 | The nominator lies between lo and hi times the denominator, which is positive as soon as one station counts. |
| Interpolation.AverageBounded | interpolation.py:22-23 | A positive-weight quotient lies within the values' bounds. |
| Interpolation.EstimateWithinValues | interpolation.py:15-23 | With at least one station, the result lies between any lower and upper bound of the station values. |
| Interpolation.SmoothingPreventsHits | interpolation.py:16-17 | With smoothing at least 1e-10, the early return never fires. |
| Interpolation.ExactHit | interpolation.py:16-18 | Without smoothing, a probe on station k hits k or an earlier station and returns that station's value. |
| Interpolation.InvDist | interpolation.py:28-33 | A fresh `ysize` x `xsize` grid whose cell [y, x] is `pointValue(x, y, ...)`. |
| Interpolation.FillColumn | interpolation.py:31-32 | The inner loop fills column x with `pointValue` and leaves the other columns unchanged. |

## Left out

- DOM and jQuery wiring, canvas drawing calls, `startMove`, `setAlpha`, `MotionDetails`, `MapMask` and the page set-up: these are browser user-interface code. The mouse coordinates are method parameters.
- `Animator.start`: a timer scheduler. The model's `Loop` is one tick.
- The Albers formulas, `Vector.polar`, `getAngle` and the broken `setAngle`: they need trigonometry. The conic is a pair of functions received as a value, with its round trip as a per-point hypothesis.
- `Vector.copy`, `vectValue` and the `opt_result` / `opt_v` out-parameters: vectors are values here, so a copy is the value itself.
- The colour table and the city list: static data. Only the colour index is modelled, and cities are inputs.
- `g.measureText` and the dot radius `0.075 * pop^0.3`: they are carried on each city as inputs (`textWidth`, `radius`).
- Floating point (rounding, NaN, Infinity): numbers are exact reals. Where the source divides by a value that may be 0, the model requires it to be non-zero: the view scale, the projection scale, and, for `read`'s sphere correction, `h - 1` and each row's cosine (`Correctable`). `getValue`'s `x1 - x0` and `y1 - y0` are part of `Samples`: where they are 0 the point cannot be sampled. `read`'s `x / (w - 1)` only feeds a longitude that nothing uses, so it is not modelled. `StrokeColor` models the NaN colour of a zero `maxLength` as no colour.
- Particles.Spawn: `makeParticle`'s rejection loop is left out. It draws random numbers until an attempt is accepted, and need not terminate. The model receives the accepted attempt's random numbers (`Seed`) and builds that particle. It does not state the acceptance test.
- Particles.MotionDisplay.MoveThings: requires a field that `getValue` can sample at every in-bounds point (a constant field or a grid of at least 2 x 2) and a non-zero view scale. The source has neither guard.
- Particles.MotionDisplay.Draw: requires the same sampleable field as MoveThings.
- Particles.MotionDisplay.Animate: requires what MoveThings and Draw require. It states the particles, not the strokes (Draw states those).
- Particles.MotionDisplay.EndMove: requires an invertible projection (non-zero scale). The TypeError that `bilinear` throws when a draw falls outside the grid is modelled only as `ok == false` with a partial pool. Its effect on `Animator.notify` is not modelled: in the source, the listeners after the display are not called.
- Animation.Animator.Notify: the handler calls are logged as if none throws. In the source, a handler that throws (a display's `endMove` or `animate`, above) ends the loop, so the later listeners are not called.
- Animation.Animator.constructor: the source leaves `dxStart`, `dyStart`, `dxTarget`, `dyTarget`, `landingX` and `landingY` undefined; the model (`Initial`) starts them at 0. No modelled handler reads them before they are set: `mousedown` sets the landing point and the start view (after its `startMove` notification, whose handlers here do not read them), and `zoom` sets the start and target views.
- Particles.MotionDisplay.constructor: in the source, `makeParticle`'s throw escapes `new MotionDisplay`, so no display exists. The model returns a display whose pool stops before the first draw that cannot be sampled.
- Particles.MotionDisplay.MakeNewParticles: only the accepted attempt's draw is checked for the throw. A rejected attempt that `makeParticle` samples earlier could also throw, and the model does not see it.
- Fields.VectorField.Read: requires the 2wh numbers it reads and at least one column. With the sphere correction it also requires at least two rows and a non-zero cosine in every row. Otherwise the source builds NaN cells, which reals cannot represent.
- Fields.VectorField.constructor: the position `(mx, my)` of the largest vector is computed and then discarded by the source, so it is not modelled. It requires a grid of at least one column, all columns as long as the first. On an empty grid (`field[0].length`) or a ragged one (`field[i][j]` past a shorter column), the source throws a TypeError. `read` and `constant` always pass a full grid.
- Vectors.Length: does not state that only the zero vector has length 0 (`LengthOfZero` gives the other direction).
- Labels.CityDisplay.constructor: `Array.prototype.sort` is modelled by an insertion sort. Cities of equal population may end up in another order than the browser's sort leaves them.
- `tick = 0` in `endMove` and `zoomCurrent = zoomTarget` in `loop`: they write variables nothing in the core reads.
- Interpolation.PointValue: requires `xv` and `yv` to be at least as long as `values`. Otherwise Python raises `IndexError`, which is not modelled.
- Interpolation.InvDist: Python's default arguments (`xsize = ysize = 100, power = 2, smoothing = 0`) are not modelled. Every argument is explicit, as at both call sites in the `__main__` block.
- The `__main__` block of `interpolation.py` (HTTP, CSV, numpy and file output) and `Gruntfile.js`: I/O and build tooling.
