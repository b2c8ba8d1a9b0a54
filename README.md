# Cloth flag simulator: verified model of the engine, the view modes and the camera

This project models the core of a browser cloth simulator in Dafny. The
simulator draws a rectangular flag as a grid of particles.

- **Grid and topology** (`grid.dfy`, module `Grid`). Particles are laid out row-major, `idx = j * cols + i`. The module also gives the rest geometry and texture coordinates, the default pin set (column 0), the render triangle list (two triangles per cell), and the distance-constraint list. That list has structural, shear and skip-one bend pairs, each with its rest length. The builder is proved to produce exactly a reference list, `ConPushes`, which has every neighbour pair once, in the order the builder visits them.
- **Wind gusts** (`gusts.dfy`, module `Gusts`). These are blobs that drift across the flag in texture space. Each wraps toroidally over [-0.5, 1.5] and takes damped random-walk steps.
- **Per-frame update** (`physics.dfy`, module `Physics`) as functions on particle sequences:
  - the frame-time clamp and the three substeps;
  - the iteration count;
  - the stadium sweep of column 0;
  - the Verlet step;
  - the Gauss-Seidel constraint projection;
  - the normal computation.
- **The engine** (`cloth.dfy`, module `ClothEngine`). The class `Cloth` holds its particle buffers as arrays and updates them in place, loop for loop as the engine does. Each method is proved equal to the `Physics` function of the old buffers.
- **Shared state** (`config.dfy`, module `Config`): the parameter record `SIM`, the shared `state`, and the grid constants.
- **View modes** (`ui.dfy`, module `Ui`):
  - full screen pins exactly the four corners and snaps them to rest;
  - stadium resets the cloth and pins column 0;
  - the wind-direction label;
  - the parameter reset.
- **Orbit camera** (`camera.dfy`, module `CameraControl`):
  - the clamp;
  - the per-mode pan box;
  - the zoom ranges;
  - the pitch clamp;
  - the easing;
  - the mouse and touch handlers, with their view-mode guard.

The math functions `Math.sqrt`, `sin`, `cos`, `pow`, `exp` and `hypot` are
function-valued parameters.
- `sqrt` comes with its specification `IsSqrt`: non-negative, and its square is its argument.
- `Math.random()` draws are parameters, whose range is stated by `IsRandom`.
- The composed force on a particle is a parameter, `force(substep, particle, position)`.

Notes on what the engine code does:
- The iteration count is `floor(stiffness / 100 * 3) + 3`, which gives 3 to 6 iterations.
- No displacement clamp is applied per step.
- Gust velocities and strengths are only damped, never clamped. They still stay bounded for frame times of at most 0.02 s, as `Gusts.GustStepBounded` shows.
- `SIM.windDrift` is never read by the engine.

## Model

| member | source | states |
|---|---|---|
| Config.Sim.constructor | js/config.js:2-14 | the initial simulation parameters: wind 36, turbulence 30, angle 90, drift 24, stiffness 40, damping 92, opacity 1, colour (0.91, 0.90, 0.89), gravity -7.9, stretch 10, zoom 100 |
| Config.AppState.constructor | js/config.js:27-31 | the page starts in full screen, dark theme, pin mode poleDense |
| Config.ModeName | js/camera.js:48 | a mode's string is "fullscreen" iff the mode is Fullscreen and "stadium" iff it is Stadium |
| Config.ModeOf | js/camera.js:48 | a string reads as Fullscreen iff it is "fullscreen", as Stadium iff it is "stadium", and as another mode otherwise |
| Config.ModeRoundTrip | js/camera.js:48 | reading a mode's string gives back the mode, and every string is the string of the mode it reads as |
| Grid.IndexRoundTrip | js/cloth.js:20 | the row-major index `j * cols + i` gives back column `i` (by `%`) and row `j` (by `/`) |
| Grid.IndexBound | js/cloth.js:20 | every in-grid (column, row) has an index below `cols * rows` |
| Grid.UVProperties | js/cloth.js:27-28 | texture coordinates lie in the unit square, and two particles share them iff they are the same particle |
| Grid.RestCorners | js/cloth.js:22-23 | the four corners rest at (0, h/2), (w, h/2), (0, -h/2) and (w, -h/2) |
| Grid.DefaultPinnedIsColumnZero | js/cloth.js:13-15 | a particle is pinned by default iff it is the first particle of its row |
| Grid.TriEntryCell | js/cloth.js:36-39 | cell (i, j) contributes exactly a, a+1, a+cols, a+1, a+cols+1, a+cols (a = j*cols+i) at positions 6*(j*(cols-1)+i) onwards |
| Grid.TriEntryBound | js/cloth.js:36-39 | every triangle-list entry names a particle of the grid |
| Grid.CellVertices | js/cloth.js:38-39 | the six indices pushed for a cell, in push order |
| Grid.AppendCell | js/cloth.js:38-39 | pushing one cell's six vertices extends a correct prefix of the triangle list by one cell |
| Grid.AppendRow | js/cloth.js:37-40 | the inner loop appends the cells of row j and extends a correct prefix by one row of cells |
| Grid.TrianglesDone | js/cloth.js:36-42 | the entries of all (cols-1)*(rows-1) cells form the whole triangle list, a whole number of triangles, all below cols*rows |
| Grid.BuildTriangles | js/cloth.js:35-42 | the list has (cols-1)*(rows-1)*6 entries, is a whole number of triangles, every entry is below cols*rows, and entry k is the k-th cell vertex in row-major order |
| Grid.LinkClasses | js/cloth.js:50-58 | each guarded push joins two grid particles a < b of the stated neighbour class (structural, shear, bend) with that class's rest length |
| Grid.RowsDoneAll | js/cloth.js:48-60 | the pushes of every row add up to rows*(cols-1) + cols*(rows-1) + 2*(cols-1)*(rows-1) + rows*(cols-2) + cols*(rows-2) |
| Grid.ConPushesOrdered | js/cloth.js:48-61 | the reference pushes come in row-major particle order, then in class order (right, down, the two diagonals, bend right, bend down), and each is a grid particle whose guard for that class holds |
| Grid.ConListComplete | js/cloth.js:48-61 | every in-grid particle and class whose guard holds is among the reference pushes |
| Grid.ConListValid | js/cloth.js:50-58 | every constraint of the reference list joins two grid particles a < b of its neighbour class with that class's rest length |
| Grid.ConListCount | js/cloth.js:48-63 | the reference list has rows*(cols-1) + cols*(rows-1) + 2*(cols-1)*(rows-1) + rows*(cols-2) + cols*(rows-2) entries |
| Grid.LinkOfInjective | js/cloth.js:50-58 | two pushes of the builder that join the same pair of particles are the same push |
| Grid.ConListDistinct | js/cloth.js:48-61 | no two constraints of the reference list join the same pair (a, b) |
| Grid.AddC | js/cloth.js:47 | after `addC` the three parallel lists hold the constraints of the earlier pushes followed by the new one |
| Grid.AddParticleLinks | js/cloth.js:50-58 | visiting one particle extends lists holding the constraints of a push list by exactly the pushes of that particle whose guards hold, in the source's order |
| Grid.BuildConstraints | js/cloth.js:45-63 | the three lists hold exactly the constraints of the reference pushes, in order; so they have the closed-formula count and every constraint has conA < conB < cols*rows and the rest length of its class |
| Gusts.WrapShift | js/cloth.js:97-100 | the wrap moves a coordinate by exactly +2, -2 or 0, and leaves a coordinate in [-0.5, 1.5] untouched |
| Gusts.WrapStaysInWindow | js/cloth.js:93-100 | a coordinate in [-0.5, 1.5] moved by at most 2 wraps back into [-0.5, 1.5] |
| Gusts.DriftStep | js/cloth.js:93-100 | drift plus wrap keeps a coordinate in the window for bounded velocity and dt <= 0.02 |
| Gusts.DriftCoord | js/cloth.js:93-100 | the drift and the two sequential wrap tests compute Drift |
| Gusts.WalkCoord | js/cloth.js:103-112 | the random-walk increment followed by the damping computes Walk |
| Gusts.StepGust | js/cloth.js:91-113 | one gust update is GustStep, and the radius is unchanged |
| Gusts.InitGustBounds | js/cloth.js:78-84 | a new gust starts in [-0.2, 1.2) x [-0.2, 1.2) and within the gust bounds |
| Gusts.WalkVx | js/cloth.js:103-106 | the damped walk keeps vx in [-1.194, 1.194] |
| Gusts.WalkVy | js/cloth.js:103-106 | the damped walk keeps vy in [-0.796, 0.796] |
| Gusts.WalkStrength | js/cloth.js:109-112 | the damped walk keeps a strength component in [-2.97, 2.97] |
| Gusts.GustStepBounded | js/cloth.js:91-113 | with dt <= 0.02 and draws in [0, 1), a frame keeps every gust inside the window and its velocity and strength bounds |
| Physics.ClampDt | js/cloth.js:121 | the frame time lies in [0.006, 0.02]; it is the frame time when inside, else the nearer bound |
| Physics.Iterations | js/cloth.js:137 | the count k satisfies k-3 <= stiffness/100*3 < k-2, i.e. floor(stiffness/100*3)+3 |
| Physics.IterationsRange | js/cloth.js:137 | stiffness in [0, 100] gives 3 to 6 iterations; 0 gives 3, 100 gives 6, 40 and 55 give 4 |
| Physics.SubstepsCoverFrame | js/cloth.js:126-128 | three substeps of a third of the clamped frame time cover the frame, and a substep is positive |
| Physics.FrameSettings | js/cloth.js:121-137 | three substep lengths make the clamped frame time; it lies in [0.002, 0.02/3]; the iteration count follows the stiffness |
| Physics.SweepAboutRest | js/cloth.js:146-150 | a swept row bobs about its rest height by 0.25*sin(2*phase) |
| Physics.SweepRowsStep | js/cloth.js:143-153 | sweeping row j writes exactly particle j*cols |
| Physics.SweepRowsAll | js/cloth.js:143-155 | sweeping every row replaces exactly column 0 by the sweep positions |
| Physics.VerletVelocity | js/cloth.js:163-165 | the new implicit velocity is the damped old one plus force*dt2; a particle at rest with no force stays put |
| Physics.RelaxStepFrame | js/cloth.js:243-256 | a projection changes only the two endpoints and never a fixed particle; a pair closer than 1e-7, or with both ends fixed, is left alone |
| Physics.RelaxStepKeepsMidpoint | js/cloth.js:249-251 | with both ends free, pos[a] + pos[b] is preserved |
| Physics.CorrectedLength | js/cloth.js:246-247 | taking the doubled correction off the offset leaves an offset of exactly the rest length |
| Physics.RelaxStepRestLength | js/cloth.js:243-256 | whenever the projection moves something (both free, or one free taking the doubled correction), the pair ends at exactly its rest length; of `sqrt` it needs only that it gives the square root of this pair's squared length |
| Physics.RelaxPassKeepsFixed | js/cloth.js:240-257 | a pass over the constraint list never moves a fixed particle |
| Physics.RelaxItersKeepsFixed | js/cloth.js:239-258 | any number of passes never moves a fixed particle |
| Physics.FaceNormalOrthogonal | js/cloth.js:266-268 | the cross product is orthogonal to both triangle edges |
| Physics.AddFaceCorners | js/cloth.js:269-271 | a triangle adds its normal to exactly its three corners |
| Physics.Normalize | js/cloth.js:275-276 | an accumulator of positive length becomes a unit vector in the same direction; a zero accumulator stays zero |
| Physics.NormalizeEachUnit | js/cloth.js:273-277 | each normal is unit length unless its accumulator is zero, in which case it is zero |
| Physics.RunNext | js/cloth.js:128-139 | one more substep of a run, with the clock advanced by subDt |
| Physics.SubstepPinned | js/cloth.js:142-167 | in one substep a pinned particle is either swept (stadium, column 0; pos == prev == sweep) or untouched; a free particle stores its old position (or its swept one) in prev |
| Physics.RunPinnedSwept | js/cloth.js:142-155 | in stadium mode a pinned column-0 particle ends every run at its sweep position, with pos == prev |
| Physics.RunPinnedStill | js/cloth.js:157-258 | outside the sweep a pinned particle keeps pos and prev through any run of substeps |
| ClothEngine.BuildLayout | js/cloth.js:34-65 | the rest spacings are w/(cols-1) and h/(rows-1), the diagonal is their Euclidean length, and the lists are the ones the builders produce |
| ClothEngine.Cloth.constructor | js/cloth.js:7-88 | module start-up: fresh buffers, column 0 pinned, the cloth at rest, the built lists, the gusts from their draws, the clock at 0 |
| ClothEngine.Cloth.Setup | js/cloth.js:13-32 | the start-up calls leave the default pins, the cloth at rest and the gusts from their draws |
| ClothEngine.Cloth.InitFixed | js/cloth.js:13-15 | fixed[p] iff p % cols == 0 |
| ClothEngine.Cloth.InitCloth | js/cloth.js:17-31 | every particle at its rest position with z = 0, prev == pos, and uv = (i/(cols-1), j/(rows-1)) |
| ClothEngine.Cloth.PlaceAtRest | js/cloth.js:20-28 | the loop body sets particle (i, j) at rest and writes nothing else |
| ClothEngine.Cloth.InitGusts | js/cloth.js:74-87 | gust i is built from its seven draws; with draws in [0, 1) every gust is within the gust bounds |
| ClothEngine.Cloth.UpdateGusts | js/cloth.js:90-114 | every gust takes one GustStep; the gust bounds are preserved for dt <= 0.02 |
| ClothEngine.Cloth.StadiumSweep | js/cloth.js:142-155 | pos and prev become the sweep of the old buffers: column 0 at the sweep positions, everything else unchanged |
| ClothEngine.Cloth.Integrate | js/cloth.js:157-236 | pos and prev become IntegratePos and IntegratePrev of the old buffers: fixed particles skipped, free particles store pos into prev and take the Verlet step |
| ClothEngine.Cloth.Relax | js/cloth.js:241-256 | pos becomes RelaxStep of the old pos for constraint k |
| ClothEngine.Cloth.SolveConstraints | js/cloth.js:238-258 | pos becomes `iterations` in-order passes of the projection (none for a non-positive count) |
| ClothEngine.Cloth.ComputeNormals | js/cloth.js:261-277 | nrm becomes the normalised sum of the face normals of every triangle at each corner |
| ClothEngine.Cloth.AddFaceNormal | js/cloth.js:263-272 | one loop pass adds triangle m's face normal to its three corners |
| ClothEngine.Cloth.NormalizeAll | js/cloth.js:273-277 | every accumulator is normalised (zero stays zero) |
| ClothEngine.Cloth.Dynamics | js/cloth.js:157-258 | the integrator and the constraint passes of one substep equal Physics.Dynamics |
| ClothEngine.Cloth.Substep | js/cloth.js:128-258 | the clock advances by subDt, and the buffers become Physics.Substep: the stadium override, then the integrator, then the constraint passes |
| ClothEngine.Cloth.Advance | js/cloth.js:128-259 | the substep loop equals Run over three substeps, and the clock is advanced three times by subDt |
| ClothEngine.Cloth.Simulate | js/cloth.js:120-278 | the gusts take one step with the clamped frame time, the buffers follow Run over three substeps of FrameSettings, and nrm is the normals of the new positions; the gust bounds are preserved |
| CameraControl.ClampBounds | js/camera.js:19 | for lo <= hi the value lies in [lo, hi]; it is v when v is inside, else the nearer bound |
| CameraControl.ClampIdempotent | js/camera.js:19 | clamping twice is clamping once |
| CameraControl.ClampMonotone | js/camera.js:19 | clamp is monotone in its value |
| CameraControl.ClampedPanInBox | js/camera.js:29-45 | the clamped pan lies in the mode's box: full screen [±1.8W]x[±1.4H]x[±1.8W], stadium [-W, 2W]x[±1.4H]x[±1.6W], otherwise zero |
| CameraControl.ClampedPanFixed | js/camera.js:29-45 | clampPan leaves a pan unchanged iff it is already in the box, and is idempotent |
| CameraControl.RightAxis | js/camera.js:61-73 | the right axis is horizontal |
| CameraControl.RightAxisUnit | js/camera.js:61-73 | the right axis is a unit vector, including the fallback (1, 0, 0) |
| CameraControl.RightAxisOrthogonal | js/camera.js:61-73 | away from the fallback, the right axis is orthogonal to the view direction |
| CameraControl.RightAxisOf | js/camera.js:61-73 | the right-axis lines compute RightAxis |
| CameraControl.PanOffsetOf | js/camera.js:75-83 | the up-axis and offset lines compute PanOffset |
| CameraControl.PanOffsetInImagePlane | js/camera.js:56-83 | away from the right-axis fallback, the pan offset is orthogonal to the view direction |
| CameraControl.PanToInBox | js/camera.js:47-85 | a degenerate view direction leaves the pan unchanged; otherwise the result is in the mode's box; a pan in the box stays in it |
| CameraControl.EaseGap | js/camera.js:124-132 | easing shrinks the gap to the target by the factor (1 - f) and, for f in [0, 1], stays between the current and target values |
| CameraControl.ZoomRanges | js/camera.js:87-93 | for any exp factor the zoom lies in [55, 185] and the distance in [1.8, 18], equal to the scaled value when that is in range |
| CameraControl.ZoomedDistMonotone | js/camera.js:92 | a factor >= 1 never brings the camera closer, and a factor in [0, 1] never moves it away |
| CameraControl.FitDistanceRange | js/camera.js:110-116 | the full-screen fit distance is positive, between 0.55 and 2.4 times 0.95 times the fit, and exactly 0.95 times the fit at zoom 100 |
| CameraControl.Camera.constructor | js/camera.js:5-10 | the initial camera record |
| CameraControl.Camera.Orbit | js/camera.js:164-165 | an orbit step turns theta by -dx*kTheta and sets phi to the clamp of phi + dy*kPhi into [-1.45, 1.45] |
| CameraControl.Camera.ClampPan | js/camera.js:29-45 | tgtPan becomes ClampedPan of the old pan for the current mode |
| CameraControl.Camera.PanBy | js/camera.js:47-85 | outside the two modes nothing changes; otherwise tgtPan becomes PanTo (the moved and clamped pan, or the old pan for a degenerate view) |
| CameraControl.Camera.ZoomBy | js/camera.js:87-93 | full screen changes only SIM.zoom (clamped exp-scaled); any other mode changes only tgtDist |
| CameraControl.Camera.UpdateCamera | js/camera.js:102-133 | tgtPhi is clamped into [-1.45, 1.45], the pan is in its box, the full-screen distance is refit, the look-at point and the current angles and distance ease towards their targets |
| CameraControl.Camera.Retarget | js/camera.js:105-123 | the distance refit, the pan clamp and the aim point of the look-at easing |
| CameraControl.Camera.Smooth | js/camera.js:127-132 | the pitch clamp and the easing of the current angles and distance |
| CameraControl.TouchInfoMeaning | js/camera.js:95-100 | the centre is the midpoint of the two touches and the distance is their Euclidean distance |
| CameraControl.Gestures.constructor | js/camera.js:12-17 | no drag, no touch mode, zero centre and distance |
| CameraControl.Gestures.MouseDown | js/camera.js:139-152 | in a steerable mode the plain left button starts an orbit, the middle or right button or a modified left button starts a pan, and lastM records the point; otherwise nothing changes |
| CameraControl.Gestures.MouseUp | js/camera.js:154-157 | every mouse drag ends |
| CameraControl.Gestures.MouseMove | js/camera.js:159-171 | outside a drag or a steerable mode nothing changes; an orbit drag turns by (0.0062, 0.0052) with the pitch clamp; a pan drag pans by scale 1.35; lastM becomes the point |
| CameraControl.Gestures.Wheel | js/camera.js:173-178 | in a steerable mode the wheel zooms with speed 0.0032 when a modifier is held and 0.0017 otherwise; otherwise nothing changes |
| CameraControl.Gestures.TouchStart | js/camera.js:181-194 | in a steerable mode one finger starts an orbit at its point, two start a pinch recording centre and distance; otherwise nothing changes |
| CameraControl.Gestures.TouchMove | js/camera.js:196-216 | a one-finger orbit turns by (0.006, 0.005) with the pitch clamp; a pinch pans by the centre's move and zooms by the distance change; anything else changes nothing |
| CameraControl.Gestures.TouchOrbit | js/camera.js:198-206 | the one-finger orbit step with the pitch clamp, and lastM becomes the touch |
| CameraControl.Gestures.Pinch | js/camera.js:208-215 | the pinch step: pan by the centre's move at scale 1.35, zoom by the distance change at speed 0.0048, record the new centre and distance |
| CameraControl.Gestures.TouchEnd | js/camera.js:218-225 | no finger left ends the gesture; one finger left resumes orbiting from it; more leave the mode unchanged |
| CameraControl.Gestures.DoubleClick | js/camera.js:227-241 | full screen resets the angles and SIM.zoom; stadium resets the angles and distance; both zero the pan; outside the two modes nothing changes |
| Ui.DirLabel | js/ui.js:51-55 | the label is always one of the eight labels |
| Ui.JsRemNonNegative | js/ui.js:52 | JavaScript `%` of a non-negative value by 360 is the Euclidean remainder, in [0, 360) |
| Ui.JsRemRange | js/ui.js:52 | JavaScript `%` by 360 truncates toward zero and lies in (-360, 360) |
| Ui.NormalizeEuclid | js/ui.js:52 | `((d % 360) + 360) % 360` lies in [0, 360) and is d minus a whole number of turns |
| Ui.DirLabelPeriodic | js/ui.js:51-55 | adding any whole number of turns does not change the label |
| Ui.DirLabelNearest | js/ui.js:53-54 | an angle within 22.5 degrees of 45*c gets label c |
| Ui.DirLabelWraps | js/ui.js:54 | angles at or above 337.5 after normalisation wrap to "Front" through `% 8` |
| Ui.DirLabelPrincipal | js/ui.js:53-54 | 0 is Front, 45 Front-Right, 90 Side, 180 Back, 270 Side |
| Ui.DirLabelBeyondTurn | js/ui.js:52-54 | -90 is Side and 400 is Front-Right |
| Ui.CornersDistinct | js/ui.js:14-15 | the four corner indices are distinct, increasing and below cols*rows |
| Ui.CornerIsGridCorner | js/ui.js:14-16 | an index is a pinned corner iff its column is 0 or cols-1 and its row is 0 or rows-1 |
| Ui.SnapIsRest | js/ui.js:19-33 | each hard-coded snap target is the rest position of that corner |
| Ui.Unpin | js/ui.js:13 | every pin is cleared |
| Ui.SnapCorners | js/ui.js:19-33 | each corner gets pos == prev == its snap target; no other particle is written |
| Ui.EnterFullscreen | js/ui.js:7-34 | the mode becomes full screen, exactly the four corners are pinned and rest at their rest positions with prev == pos, and no other particle moves |
| Ui.RowStart | js/ui.js:43 | a particle is in column 0 of row j iff it is j*cols |
| Ui.PinColumnZero | js/ui.js:42-43 | pinning `j * cols` for every row gives exactly the default pin set |
| Ui.EnterStadium | js/ui.js:36-48 | the mode becomes stadium, the cloth is at rest, exactly column 0 is pinned, and the camera targets become (0, 0.15, 9) |
| Ui.ResetParams | js/ui.js:176-178 | the parameters become wind 50, turbulence 35, stiffness 55, damping 94, opacity 1, angle 0, stretch 50, colour (0.91, 0.90, 0.89); drift, gravity and zoom are unchanged |
| Ui.ReEnter | js/ui.js:194-196 | after `initCloth` the current mode is re-entered: the cloth is at rest, with the corners or column 0 pinned according to the mode |
| Ui.Reset | js/ui.js:168-197 | the reset handler: the parameter defaults, then re-entry of the current mode |

## Left out

- The DOM, the WebGL renderer, the shaders and the animation loop are not modelled: event wiring, sliders, the dial, theme switching, texture upload and removal, and the view-button class toggles. js/renderer.js, js/shaders.js and js/main.js are not part of this model.
- The slider and text updates of the reset handler and its `removeTexture` call are not modelled. Only its SIM writes and the mode re-entry are.
- ClothEngine.Cloth.Integrate: the composed force is an opaque parameter `force(substep, particle, position)`. The gust sums, the fine wrinkle fields, the wind base, the jitter and the full-screen edge springs are not modelled, because they are floating-point trigonometry with no statable contract.
- ClothEngine.Cloth.Simulate: the damping factor `Math.pow(damping / 100, subDt * 60)` and the sweep's `sin`/`cos` are parameters, so their values are not constrained.
- `Math.random()` values are parameters (`GustDraws`, `StepDraws`). Their range [0, 1) is a hypothesis of the bound lemmas only.
- Float32 and Uint8 storage rounding is not modelled. Positions are unbounded reals, and the flat triples are one `Vec3` per particle.
- The initial contents of the normal buffer before the first frame are not modelled. The first `simulate` overwrites them.
- The canvas aspect ratio and `Math.tan(fov / 2)` are parameters of CameraControl.Camera.UpdateCamera. Its requirement that both are positive stands for a canvas of positive size.
- `e.preventDefault()` and the `passive` listener options are not modelled, since they only affect the browser.
- The view mode is a datatype with `Fullscreen`, `Stadium` and every other string. The code only ever compares it with the two strings.
- CameraControl.RightAxisOf: the fallback branch sets `rLen = 1` and then divides by it. The model returns (1, 0, 0) directly, which is the same value.

