# Circle primitives: a verified model

This project models `lib/circle_primitives.rb`. That file is a DragonRuby
library that draws pixel-perfect circle borders. It has four parts.

- **Building one eighth.** `CircleEighthBuilder` rasterizes one eighth of a
  circle of a given radius. The result is a list of vertical runs of pixels.
  The walk starts at column `radius - 1` and moves towards the diagonal.
  A run grows while the next row fits its column better than the column to
  its left. The measure of fit is the distance of the pixel's outer corner
  from the circle. When a new run would be longer than the previous one, the
  builder backtracks: it truncates the list and lengthens the run it keeps.
- **Building the outline.** `CircleBuilder` mirrors the eighth four ways:
  - across the diagonal, giving a quarter;
  - vertically and then horizontally. Each mirror image is taken from the
    lines as they are. For an odd diameter the original lines are then moved
    by one pixel, to y - 1 and to x - 1 respectively.

  It then translates the result into a `diameter x diameter` render target
  and turns every run into a white line primitive.
- **Render-target bookkeeping.** There are two process-wide sets of target
  names, built on the library's own hash-based `Set`:
  - `drawing` holds names whose target was filled this tick;
  - `ready` holds names whose target may be drawn.

  The tick hook `tick_core` promotes `drawing` into `ready`.
- **`CircleBorder`.** This is the sprite-like object a game uses. Assigning
  a diameter prepares that diameter's target unless the target is already
  ready. The border draws the target only once the target is ready.

Modules, one per file:

- `Lines` (`lines.dfy`): lines and line primitives.
- `CircleEighth` (`eighth.dfy`): the growth test, the builder's loop as a
  function (`Step`, `BuildFrom`, `Eighth`), its properties, and the class
  `CircleEighthBuilder`.
- `CircleOutline` (`outline.dfy`): the mirror and translate maps, the
  outline as a function (`Outline`), its eight-fold symmetry, the primitive
  conversion, and the class `CircleBuilder`.
- `HashSets` (`sets.dfy`): the library's `Set`.
- `RenderTargets` (`targets.dfy`): target names, and the `Registry` class.
  `Registry` holds the two name sets and the host's render targets.
- `CircleBorders` (`border.dfy`): the class
  `CircleBorder`, and the state invariant `Consistent`. That invariant says
  every ready or drawing name has a target, and every target holds the
  outline of its own diameter.

**Arithmetic.** Squares and the powers in the potential below are written
through a recursive `Scale` (d copies of p added up). Lemmas connect them to
`*` (`ScaleIsProduct`, `SquareIsProduct`) where a proof needs the product.

**Termination without fuel.** The outer loop of `build` backtracks, so
there is no obvious decreasing measure. The model proves termination with a
potential `Pot`. It reads the run lengths as the digits of a number in base
`radius + 2`, most significant digit first. Appending a run raises that
number, and so does truncating and then lengthening the kept run. The number
stays below `(radius + 2)^radius`. The class method
`CircleEighthBuilder.Build` and the function `BuildFrom` both decrease
`(radius + 2)^radius - Pot`.

**Radius.** The host's `/` is fractional, so `(diameter / 2).ceil` is the
radius rounded up. It is modelled as `(diameter + 1) / 2`.

**Behaviour of the code worth knowing.**

- For diameters 1 and 2 the growth loop never finishes; see Findings.
- `diameter=` consults only `ready` (line 9). So assigning the same diameter
  twice before the next tick prepares the target twice, in the model as in
  the code.

## Model

| member | source | states |
|---|---|---|
| CircleEighth.Diff | lib/circle_primitives.rb:190-192 | Definition of the distance metric, through `Square`; its meaning is stated by `DiffIsCornerError`. |
| CircleEighth.DiffIsCornerError | lib/circle_primitives.rb:190-192 | The distance metric equals the absolute corner error abs((x+1)^2 + (y+1)^2 - radius^2). So it is zero exactly when the pixel's outer corner lies on the circle, and it is at least the signed error either way. |
| CircleEighth.DiffSymmetric | lib/circle_primitives.rb:190-192 | The distance metric is symmetric in x and y. |
| CircleEighth.Grows | lib/circle_primitives.rb:185 | Definition of the growth test: row y + 1 is closer to the circle in column x than in column x - 1. `GrowsIff` states it as an inequality. |
| CircleEighth.GrowsIff | lib/circle_primitives.rb:185 | In a column x >= 0, the growth test holds iff 2(y+2)^2 + x^2 + (x+1)^2 < 2 radius^2. |
| CircleEighth.GrowsBound | lib/circle_primitives.rb:185 | In a column x >= 0, a run grows only while y + 2 < radius. |
| CircleEighth.GrowsForeverLeftOfColumnZero | lib/circle_primitives.rb:185 | At radius 1, column -1 passes the growth test at every row y >= 0. |
| CircleEighth.GrowEnd | lib/circle_primitives.rb:185 | The growth loop stops at the first row that fails the test, and every earlier row passes it. The loop either does not grow or stops at a row y < radius - 1. |
| CircleEighth.NextLine | lib/circle_primitives.rb:179-188 | Definition of the line `build_next_line` returns. `CircleEighthBuilder.BuildNextLine` is proved to return it, and `GrowEnd` characterizes its end row. |
| CircleEighth.InOctant | lib/circle_primitives.rb:194-197 | Definition of the loop test as written: the last line ends at a row y2 <= x. The model's loop runs `Continues` instead. |
| CircleEighth.Continues | lib/circle_primitives.rb:194-197 | Definition of the corrected loop test that the model's `build` runs (see Findings): the test as written, and the last line lies in a column above 0. From radius 2 on it equals the test as written (`ContinuesAgreesFromRadiusTwo`). |
| CircleEighth.LongerThanLast | lib/circle_primitives.rb:203-208 | Definition of `longer_than_last_line?`: there is a last line, and the new line has more rows. |
| CircleEighth.FirstShorter | lib/circle_primitives.rb:210-213 | `find_index` always finds a line shorter than the rejected one, and finds the first such line. |
| CircleEighth.Step | lib/circle_primitives.rb:169-175 | Definition of one loop pass: append the next line, or revert to the first shorter line and lengthen it. `StepPreserves` states what a pass keeps. |
| CircleEighth.StepPreserves | lib/circle_primitives.rb:167-177 | A loop pass (append, or revert and lengthen) keeps the loop invariant. The invariant covers chaining, x1 == x2 == radius-1-i, 0 <= y1 <= y2 < radius (a first line of more than one pixel ends by row radius-2), non-increasing lengths, and every line but the last inside the octant. The pass strictly raises the potential, which stays bounded. |
| CircleEighth.RevertKeepsInv | lib/circle_primitives.rb:210-218 | Truncating to the first line shorter than the rejected one and lengthening it keeps the invariant: the lengthened line is still no longer than the line before it and stays within the rows. |
| CircleEighth.BuildFrom | lib/circle_primitives.rb:167-177 | Definition of the lines the loop of `build` ends with, run with the corrected loop test `Continues` (see Findings) and terminating on the potential. `BuildFromDone` states how it ends. |
| CircleEighth.Eighth | lib/circle_primitives.rb:158-163 | Definition of `CircleEighthBuilder.new(radius).lines` with the corrected loop test (see Findings): the loop run from no lines. At radius 1 the library's `new(1)` never returns; from radius 2 on the two agree. The lemmas below state its shape. |
| CircleEighth.BuildFromDone | lib/circle_primitives.rb:167-177 | The loop ends with a non-empty list that satisfies the invariant, and whose last line fails the corrected loop test `Continues` (see Findings). |
| CircleEighth.EighthChained | lib/circle_primitives.rb:179-187 | Every line of the eighth is vertical, with 0 <= x and y1 <= y2. The first line is at column radius-1 from row 0. Each later line sits in column x - 1 of the previous one, and starts at row y2 + 1 of it. |
| CircleEighth.EighthWithinRadius | lib/circle_primitives.rb:179-197 | Every line of the eighth lies in columns and rows 0 to radius - 1. |
| CircleEighth.EighthRunLengthsNonIncreasing | lib/circle_primitives.rb:170-173 | Run lengths never increase along the eighth, for any pair of indices. |
| CircleEighth.EighthEndsAcrossDiagonal | lib/circle_primitives.rb:194-197 | Every line but the last has y2 <= x. From radius 2 on, the last line has y2 > x. |
| CircleEighth.EighthOfRadiusTwo | lib/circle_primitives.rb:167-197 | Radius 2 yields exactly [1,0,1,0], [0,1,0,1]. |
| CircleEighth.RadiusOneNeverFinishesAsWritten | lib/circle_primitives.rb:185-197 | With the loop test as written, radius 1 builds [0,0,0,0] and then continues. The next line, in column -1, grows at every row. |
| CircleEighth.EighthOfRadiusOne | lib/circle_primitives.rb:167-177 | With the corrected loop test, radius 1 yields the single run [0,0,0,0]. |
| CircleEighth.ContinuesAgreesFromRadiusTwo | lib/circle_primitives.rb:194-197 | From radius 2 on, the corrected loop test and the test as written agree on every reachable list. |
| CircleEighth.CircleEighthBuilder.constructor | lib/circle_primitives.rb:158-163 | A new builder holds the eighth of its radius, built with the corrected loop test (see Findings). |
| CircleEighth.CircleEighthBuilder.Build | lib/circle_primitives.rb:167-177 | The loop, run with the corrected loop test `Continues` (see Findings), leaves `lines` equal to the eighth. The proof uses invariants for the loop invariant and for the remaining work, and decreases on the potential. |
| CircleEighth.CircleEighthBuilder.BuildPass | lib/circle_primitives.rb:168-176 | One pass of the loop takes one step, keeps the invariant and the final result, and strictly raises the bounded potential. |
| CircleEighth.CircleEighthBuilder.AppendOrRevert | lib/circle_primitives.rb:169-175 | The body of the loop appends the next line, or reverts and lengthens when the next line is longer than the last one. |
| CircleEighth.CircleEighthBuilder.BuildNextLine | lib/circle_primitives.rb:179-188 | The next line starts at column x - 1 and row y2 + 1 of the last line, or at (radius-1, 0) when there is none. Every row it grows through passes the growth test, and its end row fails it. |
| CircleEighth.CircleEighthBuilder.LongerThanLastLine | lib/circle_primitives.rb:203-208 | `longer_than_last_line?` on the builder's lines, as `LongerThanLast`. |
| CircleEighth.CircleEighthBuilder.RevertToFirstLineShorterThan | lib/circle_primitives.rb:210-214 | `lines` becomes the prefix ending at the first line shorter than the rejected one. |
| CircleEighth.CircleEighthBuilder.LengthenLastLine | lib/circle_primitives.rb:216-218 | Only the last line changes, and it gets one more row. |
| Lines.Length | lib/circle_primitives.rb:199-201 | Definition of a vertical line's number of rows, y2 - y1 + 1. |
| Lines.Lengthened | lib/circle_primitives.rb:216-218 | Definition of a line whose end row moves from y2 to y2 + 1. |
| CircleOutline.Radius | lib/circle_primitives.rb:84 | The radius is half the diameter rounded up: 2r - 1 <= d <= 2r. |
| CircleOutline.Shift | lib/circle_primitives.rb:139-144 | Definition of moving one line by (dx, dy). |
| CircleOutline.Translated | lib/circle_primitives.rb:138-145 | Definition of `translate` on all lines. `TranslatedRoundTrip` is its inverse law, and `CircleBuilder.Translate` is proved to compute it. |
| CircleOutline.Swap | lib/circle_primitives.rb:123 | Definition of one line's mirror image across the diagonal. |
| CircleOutline.Swapped | lib/circle_primitives.rb:122-124 | Definition of `mirror_around_diagonal`. |
| CircleOutline.FlipY | lib/circle_primitives.rb:127 | Definition of one line's vertical mirror image, y -> -y - 1. |
| CircleOutline.FlippedY | lib/circle_primitives.rb:127 | Definition of the vertical mirror images of all lines. |
| CircleOutline.FlipX | lib/circle_primitives.rb:133 | Definition of one line's horizontal mirror image, x -> -x - 1. |
| CircleOutline.FlippedX | lib/circle_primitives.rb:133 | Definition of the horizontal mirror images of all lines. |
| CircleOutline.TranslatedRoundTrip | lib/circle_primitives.rb:138-145 | Translating by (-dx, -dy) undoes translating by (dx, dy). |
| CircleOutline.MirrorsAreInvolutions | lib/circle_primitives.rb:122-134 | The diagonal, vertical and horizontal mirrors are each their own inverse. |
| CircleOutline.Quarter | lib/circle_primitives.rb:106-109 | Definition of the quarter: the eighth followed by its diagonal mirror image. `QuarterSwapClosed` states its symmetry. |
| CircleOutline.MirroredVertically | lib/circle_primitives.rb:126-130 | Definition of the lines after `mirror_vertically`. `CircleBuilder.MirrorVertically` is proved to compute it. |
| CircleOutline.MirroredHorizontally | lib/circle_primitives.rb:132-136 | Definition of the lines after `mirror_horizontally`. `CircleBuilder.MirrorHorizontally` is proved to compute it. |
| CircleOutline.Outline | lib/circle_primitives.rb:99-104 | Definition of the lines after `build`. The lemmas below state its size, placement, symmetry and bounds. |
| CircleOutline.OutlineSize | lib/circle_primitives.rb:99-109 | The outline has exactly eight lines per line of the eighth. |
| CircleOutline.OutlineAt | lib/circle_primitives.rb:99-145 | Outline line (2n if flipped in x) + (n if flipped in y) + k is quarter line k placed as follows. It is flipped, or shifted by the odd-diameter step, in y and then in x, and then moved by the radius. |
| CircleOutline.OutlineSymmetricLeftRight | lib/circle_primitives.rb:126-136 | For every outline line, its mirror image x -> d-1-x about the target's vertical centre line is also in the outline. This covers odd and even d. |
| CircleOutline.OutlineSymmetricTopBottom | lib/circle_primitives.rb:126-136 | For every outline line, its mirror image y -> d-1-y about the target's horizontal centre line is also in the outline. |
| CircleOutline.OutlineInTarget | lib/circle_primitives.rb:99-145 | Every coordinate of every outline line lies in 0 to d - 1, inside the d x d target, for odd and even d. |
| CircleOutline.QuarterSwapClosed | lib/circle_primitives.rb:106-109 | The quarter's mirror image across the diagonal is the quarter: line k swapped is line k +/- the eighth's length. |
| CircleOutline.OutlineSymmetricDiagonal | lib/circle_primitives.rb:99-136 | For every outline line, its mirror image across the target's diagonal is also in the outline. |
| CircleOutline.ToPrimitive | lib/circle_primitives.rb:111-118 | The primitive is white and keeps x1 and y1 + 1. A vertical line's primitive, drawn without its end point, covers exactly the line's rows, at y + 1. A horizontal line's primitive covers exactly its columns. A single pixel gets both adjustments: x2 + 1 and y2 + 2. Other end coordinates stay unadjusted. |
| CircleOutline.Primitives | lib/circle_primitives.rb:111-118 | Definition of `primitives`: one `ToPrimitive` per line, in order. |
| CircleOutline.CircleBuilder.constructor | lib/circle_primitives.rb:82-86 | A new builder has radius (d+1)/2 and holds the outline of d. |
| CircleOutline.CircleBuilder.PrepareTarget | lib/circle_primitives.rb:88-95 | The target of the name becomes d x d and holds the primitives of the lines. The name is added to `drawing`, and `ready` does not change. |
| CircleOutline.CircleBuilder.Build | lib/circle_primitives.rb:99-104 | `lines` becomes the outline of the diameter. |
| CircleOutline.CircleBuilder.BuildQuarter | lib/circle_primitives.rb:106-109 | Returns the eighth followed by its diagonal mirror, twice the eighth's length. |
| CircleOutline.CircleBuilder.MirrorVertically | lib/circle_primitives.rb:126-130 | `lines` becomes the old lines (moved to y - 1 when d is odd) followed by their vertical mirror images, taken before the move. |
| CircleOutline.CircleBuilder.MirrorHorizontally | lib/circle_primitives.rb:132-136 | `lines` becomes the old lines (moved to x - 1 when d is odd) followed by their horizontal mirror images, taken before the move. |
| CircleOutline.CircleBuilder.Translate | lib/circle_primitives.rb:138-145 | Every line is moved by the offset, one at a time. |
| CircleOutline.CircleTarget | lib/circle_primitives.rb:88-95 | Definition of the target `prepare_circle_border` leaves: d x d, holding the primitives of the outline of d. |
| CircleOutline.PrepareCircleBorder | lib/circle_primitives.rb:63-65 | The diameter's target holds the primitives of its outline, and its name is added to `drawing`. |
| HashSets.HashSet.constructor | lib/circle_primitives.rb:223-225 | A new set is empty. |
| HashSets.HashSet.Add | lib/circle_primitives.rb:227-230 | After `<<`, the set is the old set plus the value. |
| HashSets.HashSet.Contains | lib/circle_primitives.rb:232-234 | Definition of `include?`: membership in the keys. |
| HashSets.HashSet.IsEmpty | lib/circle_primitives.rb:236-238 | Definition of `empty?`: there are no keys. |
| HashSets.HashSet.Clear | lib/circle_primitives.rb:240-243 | After `clear`, the set is empty. |
| HashSets.HashSet.Merge | lib/circle_primitives.rb:245-254 | `merge` yields the union with the other set's elements, taken before the merge. |
| RenderTargets.RenderTargetName | lib/circle_primitives.rb:78-80 | The name spells the diameter. |
| RenderTargets.RenderTargetNameInjective | lib/circle_primitives.rb:78-80 | Two diameters share a name iff they are equal. |
| RenderTargets.Registry.constructor | lib/circle_primitives.rb:67-73 | Both sets start empty, and no targets exist. |
| RenderTargets.Registry.TickCore | lib/circle_primitives.rb:259-263 | `ready` becomes `ready` plus `drawing`, and `drawing` becomes empty. `ready` never shrinks. |
| CircleBorders.OrFull | lib/circle_primitives.rb:15-18 | A missing colour component is 255; a given one is kept. |
| CircleBorders.PrepareKeepsConsistent | lib/circle_primitives.rb:88-95 | Preparing a diameter's target and adding its name to `drawing` keeps the state consistent. |
| CircleBorders.PromoteKeepsConsistent | lib/circle_primitives.rb:259-263 | Moving all of `drawing` into `ready` keeps the state consistent. |
| CircleBorders.Tick | lib/circle_primitives.rb:259-263 | Promotion keeps the state consistent: every ready name has a target, and that target holds its diameter's outline. |
| CircleBorders.CircleBorder.constructor | lib/circle_primitives.rb:12-20 | Position and diameter are taken from the arguments, and colours default to 255. Then `diameter=` runs: a ready name leaves targets and `drawing` alone; otherwise only the name's target is set to its outline and the name joins `drawing`. `ready` does not change, and the state stays consistent. |
| CircleBorders.CircleBorder.SetDiameter | lib/circle_primitives.rb:6-10 | Sets the diameter and name. A ready name leaves targets and `drawing` alone. Otherwise only the name's target is set to the outline of the diameter, and the name joins `drawing`, even if it is already there. `ready` and the colours do not change. |
| CircleBorders.CircleBorder.RenderTargetReady | lib/circle_primitives.rb:55-57 | Definition of `render_target_ready?`: the border's name is in `ready`. |
| CircleBorders.CircleBorder.DrawOverride | lib/circle_primitives.rb:26-41 | Nothing is drawn unless the name is ready. Otherwise a d x d sprite of the target is drawn at (x, y) with alpha a and tint r, g, b. |
| CircleBorders.DrawnTargetIsOutline | lib/circle_primitives.rb:26-30 | In a consistent state, a drawn target exists, is d x d, and holds the outline of d. |
| CircleBorders.FirstDrawAfterTick | lib/circle_primitives.rb:6-30 | A new border draws nothing in the tick that prepares its target, and draws it after the next `tick_core`. |

## Left out

- The host render-target API (`$args.render_target`, the target's width, height and primitives) is modelled as a map from name to target inside `Registry`.
- CircleOutline.CircleBuilder.PrepareTarget: writes the target's primitives rather than appending them with `<<`, because what a host target already holds is host behaviour outside this model.
- The foreign `draw_sprite_3` call is left out. `DrawOverride` returns the call it would make, with the arguments the library passes; the `nil` arguments are dropped.
- `GTK::Runtime.prepend TickCoreExtension` and the `super` call are host-loop interception. Promotion is the explicit method `Registry.TickCore`.
- The target name is modelled as the diameter it spells, not as the string `"circle_border_<d>"`.
- `primitive_marker` is left out. It only tags the object for the host.
- The `Set` iterator `each` is left out as an operation. `Merge` iterates over the keys directly.
- `<<`, `clear` and `merge` are left out as return values. They return the set itself, for chaining.
- The two process-wide sets are created by the `Registry` constructor. The library creates them lazily with `||=` on first use.
- `app/main.rb` is not part of this model.
- CircleBorders.CircleBorder.SetDiameter: requires a diameter of at least 1, and so does every member that builds an outline. The library's growth loop does not finish below 1 either: column -1 grows forever at radius 0, as it does at radius 1.
- CircleBorders.CircleBorder.constructor: positions and the diameter are integers. A missing (`nil`) diameter or position is not modelled.
- CircleEighth.CircleEighthBuilder.BuildNextLine: requires the last line's column to be at least 1, so the new column is at least 0. In columns 0 and up the growth loop always stops (`GrowsBound`). For radius >= 1 the library reaches column -1 only at radius 1, where the loop runs forever (see Findings); the corrected loop test never builds there.
- Whether the host draws a line primitive without its end point is an assumption about the host. `ToPrimitive` states its covering property under that reading.

## Findings

| source | as written | input that shows it | evidently intended | confidence | as-written member | corrected member |
|---|---|---|---|---|---|---|
| lib/circle_primitives.rb:168, 185, 194-197 | The loop continues while the last line has y2 <= x. At radius 1 the first line [0,0,0,0] passes, so a line in column -1 is built. In column -1 at radius 1 the growth test holds at every row, so `build_next_line` never returns. | diameter 1 or 2 (radius 1) | Stop once column 0 is built. That gives the one-run eighth [0,0,0,0], and is the same test for every radius >= 2. | not executed | CircleEighth.RadiusOneNeverFinishesAsWritten | CircleEighth.EighthOfRadiusOne |
