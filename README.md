# Lattice deformation, modelled in Dafny

This is a model of a browser demo of two-dimensional free-form deformation. A
shape is sampled once in the unit square. Each sample is tagged with the lattice
cell that owns it (`getCellIndices`). It is then drawn through a lattice of
*control points* by bilinear interpolation of that cell's four corners
(`bilinearInterp`). Moving the control points deforms the shape. The demo
exists in four versions, and each one is modelled in its own module:

- **version 1** (`docs/1/1.js`, module `Demo1`): one lattice. A slider
  changes its size, and control points can be dragged with the pointer.
- **version 2** (`docs/2/2.js`, module `Demo2`): one 4×4 lattice that
  animates between two keyframes. `state1` is the rest layout. `state2` is the
  same layout with its border pushed outward by the size slider's `shift`. The
  animation uses eased progress and flips direction when a leg completes.
- **version 4** (`docs/4/4.js`, module `Demo4`): a heart lattice and a head
  lattice. Each has a grid of *user points* (handles) at the midpoints of its
  cells' diagonals. Dragging a handle moves the four corners of its cell by the
  same offset.
- **version 5** (`docs/5/5.js`, modules `Puppet` and `Demo5`): a puppet of
  four lattices, namely body, head, left arm and right arm. Each lattice has a
  live array, rest and expanded keyframes, and handles with their own two
  keyframes.
  - `changeControlWithUser` moves a handle. It shifts its cell's corners in
    the live array and in both keyframes. For the arms, the top row stays
    pinned as the elbow.
  - Every lattice that the handle lists as dependent is carried along whole.
    The body is turned upside down (`makeUpsideDown`), and its last handle
    carries the head and both arms.
  - The animation can be paused and resumed without losing elapsed time.

Shared modules:

- `Geometry`: points, grids, blending, translation and reflection.
- `Deformation`: cell lookup, bilinear evaluation, lattice construction, border
  shift, handle placement, corner shifts and sample tagging.
- `Easing`: `easeInOutCubic`.
- `Keyframe`: the blend loop of the tick functions.
- `Timeline`: the tick's start-time sentinel, progress and direction flip, and
  version 5's pause/resume clock.
- `Pointer`: the mousedown hit scan.

The code is modelled as written:

- Coordinates are `real`.
- `Math.floor` is `.Floor`.
- `Math.hypot(...) < 10` is "squared distance < 100".
- Handlers are methods that take canvas-local `(mx, my)` and a timestamp.
- Each stateful page is a `class Scene` whose fields are the page's global
  variables.
- The loops that fill or rewrite arrays are methods with loop invariants. Each
  is proved equal to a specification function, and the properties are proved
  about those functions.

`DrawnPoint.gridX` holds the row index and `gridY` the column index. The
source uses them consistently as `[i][j]`, and so does `Deformation.Render`.

Where a lattice is read, the code assumes at least two rows and two columns.
The model states this as a precondition (`rows >= 2 && cols >= 2`).

In version 5, the model groups each lattice's six arrays and its handles'
dependent lists into one `Part` value. `grids[k]`, `initGrids[k]`,
`expandGrids[k]`, `userGrids[k]`, `userInitGrids[k]` and `userExpandGrids[k]`
are the fields of `parts[k]`.

The mousedown record in version 5 copies the handle's `indicesOfDependentGrid`.
The model's mousemove reads that list from the part instead. Nothing ever
changes a handle's list after set-up, so the two are the same.

## Model

| member | source | states |
|---|---|---|
| Geometry.Point.Translate | docs/5/5.js:808-809 | a `+=` pair moves a point by exactly (dx, dy) |
| Geometry.Point.ReflectThrough | docs/5/5.js:525-530 | subtract the centre, negate, add it back is the point reflection 2m − p |
| Geometry.TranslateZero | docs/5/5.js:799-818 | a zero offset leaves a point in place |
| Geometry.Offset | docs/5/5.js:799-800 | `dx = newX − oldX`, `dy = newY − oldY` is the offset that carries the old position onto the new one |
| Geometry.TranslateTwice | docs/5/5.js:847-891 | two successive moves equal one move by the summed offsets |
| Geometry.Lerp | docs/2/2.js:56-57 | the keyframe blend gives the source at weight 0, the target at weight 1, and the common point when both are equal |
| Geometry.LerpTranslate | docs/5/5.js:821-842 | blending two points moved by the same offset equals moving their blend |
| Geometry.LerpSwap | docs/2/2.js:87-91 | blending backwards at weight e equals blending forwards at 1 − e |
| Geometry.LerpReflect | docs/5/5.js:510-588 | blending reflected points equals reflecting the blend |
| Geometry.ReflectTwice | docs/5/5.js:525-530 | reflecting twice through the same centre is the identity |
| Geometry.Midpoint | docs/5/5.js:347-348 | the handle position `(p1 + p2) / 2` is the blend at weight ½ |
| Geometry.Overwrite | docs/1/1.js:61-70 | writing rows 0..n−1 into an array replaces them and keeps every older row past n; the length is the larger of the two |
| Geometry.OverwriteStep | docs/1/1.js:61-62 | writing one more row replaces that row when it exists and appends it otherwise |
| Geometry.OverwriteShorter | docs/1/1.js:61-70 | writing over an array that is no longer gives exactly the new rows |
| Geometry.Set2 | docs/1/1.js:245-246 | assigning one entry keeps the grid's shape, sets that entry, and changes no other entry |
| Geometry.TranslateGrid | docs/5/5.js:851-856 | moving every point of a grid keeps its shape and moves each point by (dx, dy) |
| Geometry.TranslateGridTwice | docs/5/5.js:847-891 | two grid moves equal one move by the summed offsets |
| Geometry.TranslateGridZero | docs/5/5.js:851-891 | a zero grid move is the identity |
| Geometry.SquaredDistance | docs/1/1.js:229 | the pick distance is non-negative and zero at the pointer itself |
| Geometry.Min | docs/1/1.js:148 | `Math.min` is the smaller argument |
| Easing.Cube | docs/5/5.js:99-101 | the cube in both branches of `easeInOutCubic` (`u * u * u` and `Math.pow(·, 3)`); `Ease` is built on it, and its range, fixed points, symmetry and monotonicity are proved in EaseFixedPoints, EaseSymmetric and EaseMonotone |
| Easing.Ease | docs/2/2.js:25-27 | `easeInOutCubic` maps [0, 1] into [0, 1] |
| Easing.EaseFixedPoints | docs/2/2.js:25-27 | ease(0) = 0, ease(½) = ½ and ease(1) = 1 |
| Easing.EaseSymmetric | docs/5/5.js:99-101 | ease(1 − u) = 1 − ease(u), so the return leg retraces the outward leg |
| Easing.EaseMonotone | docs/4/4.js:29-31 | the ease is monotone on [0, 1] |
| Keyframe.Blended | docs/2/2.js:54-59 | the blend loop keeps the live grid's shape and writes (1 − e)·from + e·to into every point |
| Keyframe.BlendInto | docs/2/2.js:54-59 | the nested blend loop computes exactly that blended grid |
| Keyframe.BlendedEndpoints | docs/2/2.js:54-59 | weight 0 shows the source keyframe and weight 1 the target keyframe |
| Keyframe.BlendedReversed | docs/2/2.js:86-92 | `toState1` at weight e shows what `toState2` shows at 1 − e |
| Keyframe.ReturnRetracesOutward | docs/2/2.js:35-93 | at the same progress u, the return leg shows the outward leg's frame at progress 1 − u |
| Keyframe.BlendedTranslate | docs/5/5.js:821-842 | blending translated keyframes equals translating the blend |
| Keyframe.RenderBlended | docs/2/2.js:291-301 | a sample drawn through a blended lattice is the blend of the sample drawn through each keyframe |
| Timeline.Progress | docs/2/2.js:43 | `(timestamp − start) / 1000 · speed`; ProgressMonotone proves it non-decreasing in time for speed ≥ 0 |
| Timeline.Anchor | docs/2/2.js:37-39 | the sentinel start time 0 is re-anchored at the timestamp; FirstTickStartsAtSource proves the first tick then blends at weight 0 |
| Timeline.Tick | docs/2/2.js:35-51 | one version-2/4 tick: it flips exactly when progress exceeds 1 and then resets the start to 0, otherwise it blends at ease(min(u, 1)) and keeps the start (AnchoredTick, FirstTickStartsAtSource) |
| Timeline.Clamp | docs/2/2.js:44 | `Math.min(u, 1)` never exceeds 1, leaves progress up to 1 alone and caps anything past it at 1 |
| Timeline.Decide | docs/2/2.js:43-51 | a tick flips exactly when progress exceeds 1; otherwise it blends at ease(u), which lies in [0, 1] for u ≥ 0 |
| Timeline.FirstTickStartsAtSource | docs/2/2.js:37-44 | a tick with the sentinel start time 0 anchors at the timestamp and blends at weight 0 |
| Timeline.AnchoredTick | docs/2/2.js:35-51 | with a start time set, the tick flips exactly when progress exceeds 1, resets the start to 0 on a flip and keeps it otherwise |
| Timeline.ProgressMonotone | docs/2/2.js:43 | with non-negative speed, progress does not decrease as time goes on |
| Timeline.Restart | docs/5/5.js:111-117 | the version-5 start time: re-anchored when unset and moved to timestamp + timeDiff after a pause; PauseResumeKeepsElapsed proves the elapsed time then picks up where it stopped |
| Timeline.ClockTick | docs/5/5.js:109-131 | the version-5 clock: restart after a pause, set timeDiff to the elapsed time, flip exactly when progress exceeds 1 with the start reset to 0 (PauseResumeKeepsElapsed, FirstClockTickStartsAtSource, RunningTickMeasuresFromStart, ResumedClockRunsOn) |
| Timeline.Pause | docs/5/5.js:87-94 | turning the animation off negates `timeDiff` and keeps `startTime` |
| Timeline.RunningTickMeasuresFromStart | docs/5/5.js:109-119 | while running, `timeDiff` becomes the time since `startTime` |
| Timeline.PauseResumeKeepsElapsed | docs/5/5.js:109-131 | after a pause, the first tick restores the elapsed time of the last tick before it, and so the same blend step, whenever it comes |
| Timeline.ResumedClockRunsOn | docs/5/5.js:109-119 | after a resume, elapsed time grows from the paused value by the time since resuming |
| Timeline.PauseOnAnchorTickCountsPause | docs/5/5.js:114-117 | pausing right after the anchoring tick (`timeDiff` = 0) does not stop the clock: the paused time counts as elapsed |
| Timeline.FirstClockTickStartsAtSource | docs/5/5.js:109-131 | the first tick of a leg anchors `startTime` at the timestamp, sets `timeDiff` to 0 and blends at weight 0 |
| Deformation.CellIndices | docs/5/5.js:710-718 | the cell indices are never past rows − 2 and cols − 2 (clamped from above only) |
| Deformation.CellContains | docs/5/5.js:710-718 | for x, y in [0, 1], including 1, the cell lies in [0, rows − 2] × [0, cols − 2] and contains the scaled parameters |
| Deformation.Mix | docs/5/5.js:694-699 | one coordinate of `bilinearInterp`, the corners weighted by (1−u)(1−v), u(1−v), (1−u)v and uv; MixAffine proves the weights sum to 1 and MixSeparable that equal columns or rows give a 1-D lerp |
| Deformation.Blend4 | docs/5/5.js:677-699 | the bilinear blend of a cell's four corners; Blend4Corners, Blend4Constant, Blend4Translate, Blend4Separable, Blend4Lerp and Blend4Reflect prove it hits the corners at integer offsets and commutes with translation, keyframe blending and reflection |
| Deformation.MixAffine | docs/1/1.js:129-134 | the bilinear weights sum to 1, so the blend commutes with any affine map of the coordinates |
| Deformation.MixSeparable | docs/1/1.js:129-134 | when columns (rows) agree, the blend reduces to linear interpolation along the other axis |
| Deformation.Blend4Corners | docs/1/1.js:129-134 | at (u, v) = (0, 0), (1, 0), (0, 1) and (1, 1) the blend is the matching corner |
| Deformation.Blend4Constant | docs/1/1.js:129-134 | four equal corners blend to that point for any (u, v) |
| Deformation.Blend4Translate | docs/1/1.js:129-134 | translating the four corners translates the result by the same offset |
| Deformation.Blend4Separable | docs/1/1.js:129-134 | on an axis-aligned cell the blend is separate linear interpolation in x and y |
| Deformation.Blend4Lerp | docs/5/5.js:694-699 | bilinear evaluation of keyframe-blended corners is the keyframe blend of the two bilinear evaluations |
| Deformation.Blend4Reflect | docs/5/5.js:694-699 | bilinear evaluation of reflected corners is the reflection of the evaluation |
| Deformation.Bilinear | docs/5/5.js:670-703 | `bilinearInterp` reads the cell's four corners at fractions u = x(cols − 1) − j, v = y(rows − 1) − i; it hits control point [i][j] at the node (BilinearAtNode), stretches the unit square onto the undeformed lattice (BilinearUndeformed) and commutes with translation (BilinearTranslate); when the four corners coincide the result is that corner |
| Deformation.BilinearTranslate | docs/5/5.js:670-703 | translating the lattice translates every interpolated point by the same offset |
| Deformation.BilinearAtNode | docs/5/5.js:670-718 | at x = j/(cols − 1), y = i/(rows − 1) the cell lookup plus interpolation returns control point [i][j], the last row and column included |
| Deformation.BilinearAtOffsets | docs/1/1.js:121-134 | at cell offsets (u, v) ∈ {0, 1}² the result is the matching corner of the cell |
| Deformation.BlendAtNode | docs/1/1.js:129-134 | the blend at integer offsets picks out that corner |
| Deformation.EvenPoint | docs/5/5.js:318-322 | control point (i, j) of the undeformed layout, at (px + j/(cols − 1)·w, py + i/(rows − 1)·h); Lattice, LatticeCorners and LatticeSpacing prove the shared column x and row y, the corners and the spacing |
| Deformation.LatticeRow | docs/1/1.js:63-69 | a lattice row has cols points |
| Deformation.Lattice | docs/5/5.js:313-332 | the even layout is rows × cols; every column shares one x and every row one y |
| Deformation.LatticeCorners | docs/5/5.js:318-322 | corner [0][0] is (px, py) and corner [rows − 1][cols − 1] is (px + w, py + h) |
| Deformation.LatticeSpacing | docs/1/1.js:64-68 | neighbouring columns are w/(cols − 1) apart and neighbouring rows h/(rows − 1) apart |
| Deformation.BuildRow | docs/1/1.js:63-69 | the inner fill loop builds exactly one row of the even layout |
| Deformation.BuildLattice | docs/1/1.js:59-71 | the nested fill loops build exactly the even layout |
| Deformation.BilinearUndeformed | docs/5/5.js:670-718 | on the undeformed lattice, lookup plus interpolation maps (x, y) ∈ [0, 1]² to (px + x·w, py + y·h) |
| Deformation.LatticeCell | docs/1/1.js:64-68 | each cell of the even layout is the axis-aligned box between its top-left and bottom-right corners |
| Deformation.BilinearOnEvenCell | docs/1/1.js:108-138 | on such a box, interpolation is the stretch (px + x·w, py + y·h) |
| Deformation.BilinearSeparable | docs/1/1.js:108-138 | on an axis-aligned cell, interpolation is separate lerps in u and v |
| Deformation.BorderShifted | docs/4/4.js:189-195 | the border push moves the left column left and the right column right by `shift`, the top row up and the bottom row down by `shift` (for the first `rows` columns, as the shared loop index reaches), so the four corners move diagonally outward; every interior point stays where it is |
| Deformation.BorderShiftedZero | docs/2/2.js:176-182 | a zero shift leaves the keyframe equal to the rest layout |
| Deformation.ShiftBorder | docs/2/2.js:176-182 | the `-=`/`+=` border loop computes exactly that pushed grid |
| Deformation.Midpoints | docs/5/5.js:335-364 | the handle grid is (rows − 1) × (cols − 1), each handle the midpoint of corners (i, j) and (i + 1, j + 1) |
| Deformation.MidpointsOfLattice | docs/5/5.js:343-348 | on the even layout each handle sits at the centre of its cell |
| Deformation.BuildMidpoints | docs/5/5.js:335-364 | the handle fill loop builds exactly that grid |
| Deformation.ShiftCorners | docs/4/4.js:444-451 | shifting a cell's corners keeps the grid's shape |
| Deformation.ShiftCornersEffect | docs/5/5.js:807-818 | exactly the cell's corners move by (dx, dy): all four, or only the lower two for an elbow; every other point stays |
| Deformation.ShiftCornersMidpoint | docs/4/4.js:433-451 | moving all four corners moves the cell's diagonal midpoint by the full offset; the elbow case moves it by half |
| Deformation.Normalize | docs/1/1.js:90-91 | curve coordinates in [−17, 17] normalise into [0, 1] |
| Deformation.Tag | docs/1/1.js:89-95 | a tagged sample keeps its parameters; for parameters in [0, 1] its cell is a valid cell |
| Deformation.Render | docs/1/1.js:191-193 | the per-sample step of `drawShape`: `bilinearInterp` in the sample's tagged cell; RenderCorners, RenderUndeformed, RenderOnPrefix, RenderBlended and RenderUpsideDown prove where the sample is drawn |
| Deformation.RenderCorners | docs/1/1.js:193 | drawing a sample is the bilinear blend of its tagged cell's corners at its cell offsets |
| Deformation.RenderUndeformed | docs/1/1.js:186-196 | on the undeformed lattice every tagged sample is drawn at its stretched position |
| Deformation.RenderUndeformedPrefix | docs/1/1.js:23-35 | the same holds when only the first `rows` rows are the undeformed lattice, as after the slider shrinks the grid |
| Deformation.RenderOnPrefix | docs/1/1.js:108-119 | drawing reads only the cell's rows, so rows past the prefix do not matter |
| Pointer.ScanRow | docs/1/1.js:226-231 | the inner mousedown loop over one row; ScanRowFindsLastHit proves it keeps the grab on a miss and otherwise grabs the last entry within reach |
| Pointer.ScanGrid | docs/1/1.js:225-233 | the double mousedown loop over one lattice; ScanGridFindsLastHit proves it yields the row-major last hit or keeps the grab |
| Pointer.ScanGrids | docs/4/4.js:393-403 | the triple mousedown loop over every lattice; ScanGridsFindsLastHit proves it yields the (k, i, j)-order last hit or keeps the grab |
| Pointer.ScanRowFindsLastHit | docs/1/1.js:226-231 | a row scan keeps the grab on a miss; otherwise it grabs the last entry within reach |
| Pointer.ScanGridFindsLastHit | docs/1/1.js:225-233 | a lattice scan keeps the grab when nothing is within reach; otherwise it grabs the last point within reach in row-major order |
| Pointer.ScanGridsFindsLastHit | docs/5/5.js:906-916 | a scan over all lattices keeps the grab on a miss; otherwise it grabs the last point within reach in (k, i, j) order |
| Pointer.ScanAll | docs/4/4.js:392-415 | the control-point scan followed by the user-point scan; UserPointsWin proves a user point within reach beats every control point and a full miss keeps the grab |
| Pointer.UserPointsWin | docs/4/4.js:392-415 | a user point within reach beats every control point; only when no user point is within reach does the last control point within reach win; a full miss keeps the previous grab |
| Pointer.ScanLattice | docs/1/1.js:225-233 | the double loop computes the row-major last-hit scan |
| Pointer.ScanLattices | docs/5/5.js:906-929 | the triple loop computes the scan over all lattices |
| Demo1.Scene.constructor | docs/1/1.js:257-258 | the page starts with the undeformed size × size lattice and nothing grabbed |
| Demo1.Scene.SetControlPoints | docs/1/1.js:59-71 | rows 0..GRID_ROWS − 1 become the undeformed layout; longer rows left from a bigger grid survive |
| Demo1.Scene.OnPointSlider | docs/1/1.js:23-36 | the slider sets the size and rewrites the first size rows with the undeformed layout |
| Demo1.Scene.MouseDown | docs/1/1.js:219-234 | `dragging` becomes the row-major last hit, or stays as it was on a miss; nothing else changes |
| Demo1.Scene.MouseMove | docs/1/1.js:237-251 | with a grab, exactly the grabbed point moves to the pointer; without one nothing changes |
| Demo1.Scene.Release | docs/1/1.js:254-255 | mouseup/mouseleave clear the grab and change nothing else |
| Demo1.Scene.CellOf | docs/1/1.js:145-149 | for parameters in [0, 1] the cell lies in the current lattice |
| Demo1.Scene.Draw | docs/1/1.js:191-193 | one sample of `drawShape` through the live lattice; DrawUndeformed proves it is the padded stretch on the undeformed lattice |
| Demo1.Scene.DrawUndeformed | docs/1/1.js:186-196 | on the undeformed lattice each sample is drawn at (PADDING + x·GRID_WIDTH, PADDING + y·GRID_HEIGHT) |
| Demo2.Scene.Undeformed | docs/2/2.js:153-174 | the rest layout is the padded 4 × 4 even lattice, whose points, corners and spacing Lattice, LatticeCorners and LatticeSpacing give |
| Demo2.Scene.Expanded | docs/2/2.js:119-142 | the expanded keyframe is the 4 × 4 rest layout with its border pushed by `shift`, each of its four edges as BorderShifted states |
| Demo2.Scene.constructor | docs/2/2.js:145-182 | at load, the control points and `state1` are the undeformed layout and `state2` is that layout with its border pushed by `shift` |
| Demo2.Scene.OnSpeedSlider | docs/2/2.js:111-113 | the speed slider sets only the speed |
| Demo2.Scene.OnSizeSlider | docs/2/2.js:119-142 | `state2` is rebuilt from the rest layout and pushed by the new shift, independent of its old value; nothing else changes |
| Demo2.Scene.Animate | docs/2/2.js:35-93 | a tick either flips direction, resets the start and leaves the points alone, or blends `from → to` at the eased progress |
| Demo2.Scene.FirstFrameShowsSource | docs/2/2.js:37-59 | the first tick of a leg shows exactly the leg's source keyframe |
| Demo2.Scene.ZeroSizeHoldsStill | docs/2/2.js:176-182 | with shift 0 the expanded keyframe is the rest layout |
| Demo2.Scene.Draw | docs/2/2.js:296-298 | one sample of `drawHeart` through the live lattice; DrawAtRest proves it is the padded stretch at rest |
| Demo2.Scene.DrawAtRest | docs/2/2.js:291-301 | at rest each sample is drawn at (PADDING + x·GRID_WIDTH, PADDING + y·GRID_HEIGHT) |
| Demo4.UserLayout | docs/4/4.js:197-219 | the user grid has 4 rows: rows 0..2 hold the 3 midpoints of their cells' diagonals and row 3 is empty |
| Demo4.BuildUserPoints | docs/4/4.js:197-219 | the loop with its `continue` builds exactly that ragged grid |
| Demo4.DragKeepsCentre | docs/4/4.js:431-451 | after a user-point drag, the handle is again the midpoint of its cell's diagonal |
| Demo4.FourCornerMoves | docs/4/4.js:444-451 | the four `+=` pairs in sequence equal moving the cell's four corners by the offset |
| Demo4.Scene.constructor | docs/4/4.js:482-483 | set-up gives both lattices their even layouts and handle grids; `init`/`expand` describe the head's layout, the second call winning |
| Demo4.Scene.SetControlPoints | docs/4/4.js:164-221 | one call rewrites lattice k, its handles and the shared keyframes (pushed border in `expand`), and keeps any longer old rows |
| Demo4.Scene.MouseDown | docs/4/4.js:387-417 | with no animation guard, `dragging` becomes the user-over-control last hit, or stays on a miss |
| Demo4.Scene.MouseMove | docs/4/4.js:420-454 | a control drag sets only that live point; a user drag sets the handle and shifts exactly its four corners; the keyframes are untouched |
| Demo4.Scene.Release | docs/4/4.js:457-458 | mouseup/mouseleave clear the grab and change nothing else |
| Demo4.Scene.Advance | docs/4/4.js:39-97 | a tick flips and leaves everything alone, or blends the heart lattice between `init` and `expand` |
| Demo4.Scene.Draw | docs/4/4.js:371-373 | one sample of `drawShape` through lattice k; DrawHeartAtRest proves it is the stretch in the heart's box at rest |
| Demo4.Scene.DrawHeartAtRest | docs/4/4.js:366-376 | on the undeformed heart lattice each sample is drawn at its stretched position in the heart's box |
| Puppet.Translated | docs/5/5.js:849-891 | one dependent lattice carried along: all six arrays moved by (dx, dy); TranslatedLayout, TranslatedTwice, TranslatedZero and TranslatedSettled prove it keeps the layout, composes additively, is the identity at 0 and keeps a settled lattice settled |
| Puppet.TranslatedLayout | docs/5/5.js:847-891 | carrying a lattice along keeps its layout |
| Puppet.TranslatedTwice | docs/5/5.js:847-891 | carrying a lattice twice is carrying it once by the summed offsets |
| Puppet.TranslatedZero | docs/5/5.js:847-891 | carrying by nothing is the identity |
| Puppet.Carry | docs/5/5.js:845-894 | the dependent loop; CarryEffect proves each lattice is moved by (dx, dy) times the number of times it is listed, unlisted lattices unchanged, and CarryLayouts that no layout changes; it keeps the number of lattices |
| Puppet.CarryLayouts | docs/5/5.js:845-894 | the dependent loop changes no layout |
| Puppet.TimesCounts | docs/5/5.js:847-849 | the recursive count of a lattice in the dependent list is its multiplicity |
| Puppet.ScaledIsProduct | docs/5/5.js:847-891 | c repeated moves by d add up to c·d |
| Puppet.CarryEffect | docs/5/5.js:845-894 | after the loop, each lattice is moved by (dx, dy) times the number of times it is listed; unlisted lattices are unchanged; the dependents' own lists are not followed |
| Puppet.Moved | docs/5/5.js:797-842 | the handle move of `changeControlWithUser`; MovedEffect proves the handle lands on `to` and exactly its cell's corners (the lower two for an arm) move by the offset in the live array and both keyframes, MovedLayout and MovedSettled that layout and blend are kept |
| Puppet.MovedEffect | docs/5/5.js:797-842 | the handle lands on `to`; no other handle moves; exactly the cell's corners (the lower two for an arm) move by the handle's offset in the live array and both keyframes; handle keyframes and links are unchanged |
| Puppet.MovedLayout | docs/5/5.js:797-842 | moving a handle changes no layout |
| Puppet.ChangeControl | docs/5/5.js:797-895 | `changeControlWithUser` as a function; ChangeControlEffect proves every other lattice is moved by the handle's offset times its multiplicity among the dependents and the handle's own lattice is moved then carried, ChangeControlLayouts that no layout changes; it keeps the number of lattices |
| Puppet.ChangeControlLayouts | docs/5/5.js:797-895 | `changeControlWithUser` changes no layout and keeps the puppet sound |
| Puppet.ChangeControlUnfold | docs/5/5.js:797-895 | the operation is the handle move followed by the dependent loop with the handle's offset |
| Puppet.ChangeControlEffect | docs/5/5.js:797-895 | every other lattice is moved by the handle's offset times its multiplicity among the dependents; the handle's own lattice gets the handle move and then the same carry |
| Puppet.TranslateInPlace | docs/5/5.js:851-856 | the `+=` double loop moves every point of a grid by (dx, dy) |
| Puppet.TranslatePart | docs/5/5.js:849-891 | the six double loops move all six arrays of a dependent lattice by (dx, dy) |
| Puppet.ChangeControlWithUser | docs/5/5.js:797-895 | the statement-by-statement procedure computes exactly the operation above |
| Puppet.OnBlendMeansBlended | docs/5/5.js:134-141 | a grid is on the blend of its keyframes exactly when the blend loop would leave it unchanged |
| Puppet.OnBlendTranslate | docs/5/5.js:845-891 | moving a grid and both its keyframes keeps it on the blend |
| Puppet.OnBlendShift | docs/5/5.js:807-842 | shifting the same corners in a grid and both its keyframes keeps it on the blend |
| Puppet.OnBlendSet | docs/5/5.js:145-148 | writing the blended value at (i, j) extends the blended prefix by one |
| Puppet.OnBlendNextRow | docs/5/5.js:143-151 | a finished row moves the blended prefix to the next row |
| Puppet.TranslatedSettled | docs/5/5.js:845-891 | a lattice carried along stays settled on its keyframes |
| Puppet.MovedSettled | docs/5/5.js:797-842 | driving handle (i, j) to its keyframe blend keeps the lattice on the blend and extends the handles' blended prefix |
| Puppet.CarrySettled | docs/5/5.js:845-894 | the dependent loop keeps a settled lattice settled |
| Puppet.ChangeControlSettled | docs/5/5.js:143-151 | one tick step keeps the driven lattice's blended prefix growing and every other settled lattice settled |
| Puppet.Weight | docs/5/5.js:109-205 | `expandPos` blends init → expand at e; `returnToInitPos` does so at 1 − e |
| Puppet.Target | docs/5/5.js:145-147 | the tick drives each handle to its keyframe blend at that weight |
| Puppet.Drive | docs/5/5.js:145-149 | one `changeControlWithUser` call of the tick, to the handle's keyframe blend; DriveLayouts proves it keeps every layout and DriveSettles that it extends the settled prefix |
| Puppet.Apply | docs/5/5.js:133-152 | the tick's steps as a fold: a blend step is the control loop, a handle step is `Drive`, a block runs its steps in order; DriveHandle, DriveHandleRow, DriveUserLoop, TakeTurn and Tick are proved equal to it |
| Puppet.TickOrder | docs/5/5.js:133-152 | the tick's order: lattices 0, 1, … in turn, each its blend step and then its handles in (i, j) order; Tick proves the loops follow it and leave every lattice settled |
| Puppet.DriveLayouts | docs/5/5.js:146-150 | one `changeControlWithUser` call of the tick changes no layout, links included, and keeps the puppet sound |
| Puppet.BlendPart | docs/5/5.js:134-141 | the control loop keeps the layout, leaves the live lattice on the blend at the tick's weight, and changes nothing but the live lattice |
| Puppet.DriveSettles | docs/5/5.js:143-151 | one step of the user loop keeps earlier lattices settled and extends the driven lattice's settled prefix |
| Puppet.DriveHandle | docs/5/5.js:145-149 | one pass of the user loop is exactly the step that drives handle (i, j) of lattice k to its keyframe blend; it keeps every layout and extends the lattice's settled prefix of handles by one |
| Puppet.DriveHandleRow | docs/5/5.js:144-150 | the inner user loop is exactly row i's steps in column order; afterwards handle rows 0, …, i of lattice k are on their blend and no layout has changed |
| Puppet.DriveUserLoop | docs/5/5.js:143-151 | the user loop of lattice k is exactly its row blocks in row order; afterwards lattice k and every lattice before it is settled |
| Puppet.BlendLive | docs/5/5.js:134-141 | the control loop of one lattice computes that lattice's keyframe blend |
| Puppet.BlendedStart | docs/5/5.js:134-141 | after the control loop of lattice k, lattice k's live array is on the blend, no layout has changed, and the lattices before k are still settled |
| Puppet.TurnRun | docs/5/5.js:133-151 | a lattice's turn in the tick is its control loop followed by its user loop |
| Puppet.TakeTurn | docs/5/5.js:133-152 | the body of the k loop is exactly lattice k's turn: the blend step, then every handle step in (i, j) order; it settles lattice k and keeps the lattices before it settled |
| Puppet.Tick | docs/5/5.js:133-152 | the tick is exactly the turns of lattices 0, 1, … in order, each a blend step followed by the handle steps in (i, j) order, with dependent lattices carried along; afterwards every lattice and every handle sits on its keyframe blend at the tick's weight, and all layouts, links included, are kept |
| Puppet.ShiftLinked | docs/5/5.js:979-991 | a handle keyframe grid after the keyframe loop of a drag: in every row the handles before the first one without dependents (LinkedRun) move by the offset and the rest stay; ShiftLinkedRows proves the loop, `break` included, computes it for both keyframes |
| Puppet.FollowHandle | docs/5/5.js:979-991 | the keyframe loop on a part; FollowHandleLayout proves it keeps the layout, SoleLinkedOnBlend and FollowSettled that a sole linked handle stays on its blend |
| Puppet.Drag | docs/5/5.js:966-993 | the user branch of mousemove: `changeControlWithUser` then the keyframe loop; DragHandle is proved equal to it, DragLayouts proves no layout changes and DragKeepsSettled that a settled puppet stays settled |
| Puppet.LinkedRun | docs/5/5.js:981-984 | the `break` stops at the first handle of the row with no dependents: all handles before it have some |
| Puppet.ShiftLinkedRows | docs/5/5.js:979-991 | the keyframe loop of a handle drag, `break` included, moves each row's linked run of handle keyframes by the offset |
| Puppet.FollowHandleLayout | docs/5/5.js:979-991 | the keyframe loop changes no layout |
| Puppet.DragLayouts | docs/5/5.js:966-993 | a handle drag changes no layout and keeps the puppet sound |
| Puppet.DragHandle | docs/5/5.js:966-993 | the user branch of mousemove computes exactly the drag |
| Puppet.SoleLinkedOnBlend | docs/5/5.js:979-991 | when the dragged handle is its lattice's only linked handle, its handles stay on their blend after the drag |
| Puppet.FollowSettled | docs/5/5.js:966-993 | a lattice whose only linked handle is dragged stays settled |
| Puppet.DragKeepsSettled | docs/5/5.js:966-993 | dragging the body's linked handle keeps every lattice of a settled puppet settled, so the animation resumes from the dragged pose |
| Puppet.CarriedSettled | docs/5/5.js:845-894 | the lattices carried by a drag stay settled |
| Puppet.ReflectGrid | docs/5/5.js:522-532 | every point of a grid reflected through the centre; ReflectInPlace is proved equal to it, ReflectGridTwice proves it an involution and OnBlendReflect that it keeps a grid on its blend |
| Puppet.Centre | docs/5/5.js:512-520 | the midpoint of corners [0][0] and [rows − 1][cols − 1]; UpsideDownCorners proves the flip keeps it and swaps the two corners |
| Puppet.UpsideDown | docs/5/5.js:510-588 | `makeUpsideDown` on all six arrays through the centre taken first; MakeUpsideDown is proved equal to it, UpsideDownLayout, UpsideDownTwice and UpsideDownSettled prove it keeps the layout, undoes itself and keeps a settled lattice settled |
| Puppet.ReflectInPlace | docs/5/5.js:522-532 | one of the six double loops reflects every point through the centre |
| Puppet.MakeUpsideDown | docs/5/5.js:510-588 | the six loops, with the centre taken before any point moves, reflect all six arrays |
| Puppet.UpsideDownLayout | docs/5/5.js:510-588 | the flip keeps the layout |
| Puppet.UpsideDownCorners | docs/5/5.js:512-520 | the flip swaps corners [0][0] and [last][last] and keeps the centre |
| Puppet.UpsideDownTwice | docs/5/5.js:510-588 | flipping twice gives the lattice back |
| Puppet.ReflectGridTwice | docs/5/5.js:522-532 | reflecting a grid twice is the identity |
| Puppet.OnBlendReflect | docs/5/5.js:510-588 | reflecting a grid and both keyframes keeps it on the blend |
| Puppet.UpsideDownSettled | docs/5/5.js:510-588 | a settled lattice stays settled when flipped |
| Puppet.RenderUpsideDown | docs/5/5.js:1078-1079 | samples tagged before the flip are drawn at the reflection of where they were drawn before it |
| Demo5.NoLinks | docs/5/5.js:25-30 | a fresh handle grid lists no dependents anywhere |
| Demo5.LaidOut | docs/5/5.js:308-366 | a freshly laid-out part is well shaped, with rows × cols control points |
| Demo5.LaidOutAtRest | docs/5/5.js:313-364 | a freshly laid-out part is settled at every weight, because its keyframes equal its live arrays |
| Demo5.RelaidFresh | docs/5/5.js:313-316 | laying out into empty arrays gives exactly the new layout |
| Demo5.SetControlPoints | docs/5/5.js:308-366 | the fill loops write the even layout and its handle grid into all six arrays |
| Demo5.Posed | docs/5/5.js:368-475 | a part after its pose function: the live arrays where the arm poses overwrite them, and the four keyframes; PosedShaped proves a fitting pose keeps shape and layout |
| Demo5.PosedShaped | docs/5/5.js:368-475 | poses that keep shapes keep the part well shaped and its layout unchanged, whether or not they overwrite the live arrays |
| Demo5.Linked | docs/5/5.js:1080 | the body's last handle gets the list [1, 2, 3]; LinkedFacts proves the part stays well shaped with that handle its sole linked one |
| Demo5.LinkedFacts | docs/5/5.js:1080 | giving the body's last handle the list [1, 2, 3] keeps it well shaped and makes it the sole linked handle |
| Demo5.Body | docs/5/5.js:1062-1080 | the body after `giveWalk`, `makeUpsideDown` and the link; BodyFacts proves it well shaped, linking only existing lattices through handle (0, 0) alone |
| Demo5.BodyFacts | docs/5/5.js:1062-1080 | the body built by set-up is well shaped, links only existing lattices, and has handle (0, 0) as its sole linked handle |
| Demo5.PosedLaidOut | docs/5/5.js:1062-1073 | each posed part is well shaped, with (rows − 1) × (cols − 1) empty dependent lists |
| Demo5.Assembled | docs/5/5.js:1062-1080 | the four lattices after the set-up; AssembledSound proves them a sound puppet, and SetUp and the constructor are proved to build exactly them |
| Demo5.AssembledSound | docs/5/5.js:1062-1080 | the four parts set up form a sound puppet whose body handle is the sole linked one |
| Demo5.LayOut | docs/5/5.js:1062-1073 | one `setControlPoints` call followed by its pose |
| Demo5.LayOutAll | docs/5/5.js:1062-1073 | the four calls with the source's offsets, sizes and lattice dimensions |
| Demo5.FlipAndLink | docs/5/5.js:1079-1080 | the body is flipped and then linked |
| Demo5.SetUp | docs/5/5.js:1062-1080 | the whole set-up builds exactly the assembled puppet |
| Demo5.Scene.constructor | docs/5/5.js:1062-1080 | the page starts with the assembled puppet, a cleared clock, expanding, paused, and nothing grabbed |
| Demo5.Scene.ToggleAnimation | docs/5/5.js:87-94 | the button flips `isAnimating` and negates `timeDiff` only when turning off; nothing else changes |
| Demo5.Scene.Advance | docs/5/5.js:109-205 | a tick either flips direction and leaves every point alone, or performs exactly the tick's steps at the eased weight of the current direction, after which every lattice and handle is on its keyframe blend |
| Demo5.Scene.Animate | docs/5/5.js:1011-1015 | a running animation performs exactly the step of `Advance`: a flip, or the tick's steps on the previous puppet with every lattice and handle left on its blend; a paused one leaves points, clock and direction alone |
| Demo5.Scene.MouseDown | docs/5/5.js:898-932 | while animating nothing is grabbed; otherwise the grab follows the user-over-control last-hit scan, or stays on a miss |
| Demo5.Scene.MouseMove | docs/5/5.js:935-1002 | an arm's elbow row cannot be dragged; other control drags set only that live point; a handle drag performs `changeControlWithUser` and the keyframe loop |
| Demo5.Scene.Release | docs/5/5.js:1005-1006 | mouseup/mouseleave clear the grab and change nothing else |
| Demo5.Scene.Draw | docs/5/5.js:782-784 | one sample of `drawShape` through lattice k; DrawOnBlend proves a settled part's sample is drawn at the blend of its two keyframe drawings |
| Demo5.Scene.DrawOnBlend | docs/5/5.js:777-795 | a sample of a settled part is drawn at the blend of where it is drawn through each keyframe |

## Left out

- Canvas drawing (`drawGrid`, `drawUserPoints`, `drawShape`/`drawHeart`/`draw`, the `clearRect`/stroke/fill calls) and the DOM plumbing: element lookup, listeners, the bounding-rectangle offset, visibility buttons, `requestAnimationFrame` scheduling. Only the point each sample is drawn at (`Render`) is modelled.
- The trigonometric sampling of shapes in `getHeartPoints`, `getCirclePoints` and `getEllipsePoints`. These use sin/cos/pow and a float-accumulated `t` loop. Only a sample's normalisation (`Normalize`) and cell tag (`Tag`) are modelled.
- `getUpsideDownHeartPoints` (docs/5/5.js:611-626): it is never called.
- IEEE double rounding: coordinates are exact reals.
- The literal offsets of the pose functions `giveWalk`, `giveNod`, `setLeftArmMotion` and `setRightArmMotion` (docs/5/5.js:368-475) are not modelled. What they write is an input (`Pose`) that keeps the part's shape. `giveWalk` and `giveNod` write only the keyframes. The arm poses first overwrite the live lattice and the live handles and then copy them into the keyframes; `Pose.live` and `Pose.handles` hold what they write there, and `PageLoadPoses` fixes which poses overwrite. The arm poses' copy of the new live lattice into both keyframes is stated; the handle keyframes are inputs, since the arm poses move their middle handle apart after the copy.
- The commented-out slider code of versions 4 and 5: speed and shift are the constants the sliders were replaced by.
- Version 4's `animate` has its `animateFunction` call commented out (docs/4/4.js:477). `Demo4.Scene.Advance` models the tick functions, but no handler calls them.
- The aliasing between the six arrays of a version-5 lattice and the records shared between `grids[k]` and the named globals is not modelled. Each lattice is one `Part` value, and the arrays are updated as values.
- Lattices with fewer than two rows or columns: the source divides by `rows − 1` and `cols − 1` with no guard, so the model requires at least two of each.
- Deformation.BorderShifted: the source's loop uses one index i < rows for both the rows of the side columns and the columns of the top and bottom rows, which assumes a square lattice (a lattice with rows > cols would index past a row's end). The model requires rows ≤ cols; on a wider lattice the top and bottom points past column rows − 1 keep their y, as the loop leaves them.
