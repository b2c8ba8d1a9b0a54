/** The view-mode controller and the wind direction label of the control
    panel (js/ui.js:7-55), and the parameter reset of the reset button
    (js/ui.js:167-197). The DOM updates around them are not modelled. */
module Ui {
  import opened Vectors
  import opened Grid
  import Config
  import CameraControl
  import ClothEngine

  // ---------------------------------------------------------------------
  // Wind direction label (js/ui.js:51-55)

  /** The eight compass labels, one per 45-degree sector starting at 0. */
  const Labels: seq<string> :=
    ["Front", "Front-Right", "Side", "Back-Right", "Back", "Back-Left", "Side", "Front-Left"]

  /** Truncation towards zero, as JavaScript's `%` uses it. */
  function Trunc(x: real): int {
    if x >= 0.0 then x.Floor else -((-x).Floor)
  }

  /** JavaScript's remainder `a % b`: it takes the sign of `a`. */
  function JsRem(a: real, b: real): real
    requires b != 0.0
  {
    a - b * Trunc(a / b) as real
  }

  /** `Math.round`: halves round up. */
  function Round(x: real): int {
    (x + 0.5).Floor
  }

  /** `((d % 360) + 360) % 360`. */
  function Normalize(d: real): real {
    JsRem(JsRem(d, 360.0) + 360.0, 360.0)
  }

  /** `Math.round(d / 45) % 8` on the normalised angle. */
  function Sector(d: real): nat {
    NormalizeEuclid(d);
    var k := Round(Normalize(d) / 45.0);
    assert 0 <= k;
    k % 8
  }

  /** `dirLabel(d)`: the label of the sector nearest to `d` degrees. */
  function DirLabel(d: real): (r: string)
    ensures r in Labels
  {
    Labels[Sector(d)]
  }

  /** The remainder of a non-negative `a` by 360 is the Euclidean one. */
  lemma JsRemNonNegative(a: real)
    requires a >= 0.0
    ensures JsRem(a, 360.0) == a - 360.0 * (a / 360.0).Floor as real
    ensures 0.0 <= JsRem(a, 360.0) < 360.0
  {
  }

  /** The remainder of any `a` by 360 lies strictly between -360 and 360
      and differs from `a` by a multiple of 360. */
  lemma JsRemRange(a: real)
    ensures -360.0 < JsRem(a, 360.0) < 360.0
    ensures JsRem(a, 360.0) == a - 360.0 * Trunc(a / 360.0) as real
  {
  }

  /** A value shifted into [m, m + 1) by the integer `m` has floor `m`. */
  lemma FloorOf(x: real, m: int)
    requires m as real <= x < m as real + 1.0
    ensures x.Floor == m
  {
  }

  /** The normalisation is the Euclidean remainder by 360: it lies in
      [0, 360) and differs from `d` by a multiple of 360. */
  lemma NormalizeEuclid(d: real)
    ensures 0.0 <= Normalize(d) < 360.0
    ensures Normalize(d) == d - 360.0 * (d / 360.0).Floor as real
  {
    var r1 := JsRem(d, 360.0);
    JsRemRange(d);
    var a := r1 + 360.0;
    JsRemNonNegative(a);
    var f := (a / 360.0).Floor;
    var t := Trunc(d / 360.0);
    var m := t + f - 1;
    assert Normalize(d) == d - 360.0 * m as real;
    assert m as real <= d / 360.0 < m as real + 1.0;
    FloorOf(d / 360.0, m);
  }

  /** Turning the wind by whole turns does not change its label. */
  lemma DirLabelPeriodic(d: real, k: int)
    ensures DirLabel(d + 360.0 * k as real) == DirLabel(d)
  {
    var e := d + 360.0 * k as real;
    NormalizeEuclid(d);
    NormalizeEuclid(e);
    var fd := (d / 360.0).Floor;
    assert fd as real + k as real <= e / 360.0 < fd as real + k as real + 1.0;
    FloorOf(e / 360.0, fd + k);
    assert Normalize(e) == Normalize(d);
  }

  /** An angle within 22.5 degrees below or less than 22.5 above the centre
      of sector `c` (normalised) gets the label of sector `c`. */
  lemma DirLabelNearest(d: real, c: nat)
    requires c < 8
    requires 45.0 * c as real - 22.5 <= Normalize(d) < 45.0 * c as real + 22.5
    ensures DirLabel(d) == Labels[c]
  {
    FloorOf(Normalize(d) / 45.0 + 0.5, c);
  }

  /** Angles from 337.5 up to a full turn wrap round to "Front". */
  lemma DirLabelWraps(d: real)
    requires Normalize(d) >= 337.5
    ensures DirLabel(d) == "Front"
  {
    NormalizeEuclid(d);
    FloorOf(Normalize(d) / 45.0 + 0.5, 8);
  }

  /** The labels of the principal directions. */
  lemma DirLabelPrincipal()
    ensures DirLabel(0.0) == "Front" && DirLabel(45.0) == "Front-Right" && DirLabel(90.0) == "Side"
    ensures DirLabel(180.0) == "Back" && DirLabel(270.0) == "Side"
  {
    NormalizeEuclid(0.0);
    DirLabelNearest(0.0, 0);
    NormalizeEuclid(45.0);
    DirLabelNearest(45.0, 1);
    NormalizeEuclid(90.0);
    DirLabelNearest(90.0, 2);
    NormalizeEuclid(180.0);
    DirLabelNearest(180.0, 4);
    NormalizeEuclid(270.0);
    DirLabelNearest(270.0, 6);
  }

  /** Angles outside [0, 360) are labelled like their normalised form. */
  lemma DirLabelBeyondTurn()
    ensures DirLabel(-90.0) == "Side" && DirLabel(400.0) == "Front-Right"
  {
    NormalizeEuclid(270.0);
    DirLabelNearest(270.0, 6);
    DirLabelPeriodic(270.0, -1);
    assert 270.0 + 360.0 * (-1) as real == -90.0;
    NormalizeEuclid(40.0);
    DirLabelNearest(40.0, 1);
    DirLabelPeriodic(40.0, 1);
    assert 40.0 + 360.0 * 1 as real == 400.0;
  }

  // ---------------------------------------------------------------------
  // Full-screen pins (js/ui.js:7-34)

  /** Particle `p` is one of the four corners of the grid: top left, top
      right, bottom left, bottom right. */
  predicate IsCorner(cols: nat, rows: nat, p: nat) {
    p == 0 || p == cols - 1 || p == (rows - 1) * cols || p == (rows - 1) * cols + cols - 1
  }

  /** The four corner indices are distinct particles of the grid, in
      increasing order. */
  lemma CornersDistinct(cols: nat, rows: nat)
    requires cols >= 2 && rows >= 2
    ensures 0 < cols - 1 < (rows - 1) * cols < (rows - 1) * cols + cols - 1 < cols * rows
  {
    assert (rows - 1) * cols >= cols by { Grid.MulMonotone(1, rows - 1, cols); }
    assert (rows - 1) * cols + cols == rows * cols;
  }

  /** The corners are exactly the particles in the first or last column
      and the first or last row. */
  lemma CornerIsGridCorner(cols: nat, rows: nat, p: nat)
    requires cols >= 2 && rows >= 2 && p < cols * rows
    ensures IsCorner(cols, rows, p) <==>
      (p % cols == 0 || p % cols == cols - 1) && (p / cols == 0 || p / cols == rows - 1)
  {
    var i, j := p % cols, p / cols;
    assert p == Index(cols, i, j);
    DivBelow(p, cols, rows);
    IndexRoundTrip(cols, 0, 0);
    IndexRoundTrip(cols, cols - 1, 0);
    IndexRoundTrip(cols, 0, rows - 1);
    IndexRoundTrip(cols, cols - 1, rows - 1);
  }

  /** Where `enterFullscreen` puts corner `p`: the top corners at height
      `h / 2`, the bottom ones at `-h / 2`, the hoist side at x = 0 and the
      fly side at x = w (js/ui.js:19-33). */
  function SnapPos(cols: nat, rows: nat, w: real, h: real, p: nat): Vec3 {
    if p == 0 then Vec3(0.0, h * 0.5, 0.0)
    else if p == cols - 1 then Vec3(w, h * 0.5, 0.0)
    else if p == (rows - 1) * cols then Vec3(0.0, -h * 0.5, 0.0)
    else Vec3(w, -h * 0.5, 0.0)
  }

  /** The hard-coded snap targets are the rest positions `initCloth` gives
      the corners. */
  lemma SnapIsRest(cols: nat, rows: nat, w: real, h: real, p: nat)
    requires cols >= 2 && rows >= 2 && IsCorner(cols, rows, p)
    ensures SnapPos(cols, rows, w, h, p) == RestPos(cols, rows, w, h, p % cols, p / cols)
  {
    RestCorners(cols, rows, w, h);
    CornersDistinct(cols, rows);
    IndexRoundTrip(cols, 0, 0);
    IndexRoundTrip(cols, cols - 1, 0);
    IndexRoundTrip(cols, 0, rows - 1);
    IndexRoundTrip(cols, cols - 1, rows - 1);
  }

  /** `enterFullscreen`: switch to full screen, unpin everything but the
      four corners, and snap each corner (`pos` and `prev`) to its rest
      position. No other particle moves. */
  method EnterFullscreen(c: ClothEngine.Cloth, app: Config.AppState)
    requires c.Valid()
    modifies app`viewMode, c.fixed, c.pos, c.prev
    ensures app.viewMode == Config.Fullscreen
    ensures forall p :: 0 <= p < c.total ==> c.fixed[p] == IsCorner(c.cols, c.rows, p)
    ensures forall p :: 0 <= p < c.total && IsCorner(c.cols, c.rows, p) ==>
      c.pos[p] == RestPos(c.cols, c.rows, c.flagW, c.flagH, p % c.cols, p / c.cols) &&
      c.prev[p] == c.pos[p]
    ensures forall p :: 0 <= p < c.total && !IsCorner(c.cols, c.rows, p) ==>
      c.pos[p] == old(c.pos[p]) && c.prev[p] == old(c.prev[p])
  {
    app.viewMode := Config.Fullscreen;
    Unpin(c);
    CornersDistinct(c.cols, c.rows);
    var tl, tr := 0, c.cols - 1;
    var bl := (c.rows - 1) * c.cols;
    var br := bl + c.cols - 1;
    c.fixed[tl] := true;
    c.fixed[tr] := true;
    c.fixed[bl] := true;
    c.fixed[br] := true;
    SnapCorners(c);
    forall p | 0 <= p < c.total && IsCorner(c.cols, c.rows, p)
      ensures c.pos[p] == RestPos(c.cols, c.rows, c.flagW, c.flagH, p % c.cols, p / c.cols)
    {
      SnapIsRest(c.cols, c.rows, c.flagW, c.flagH, p);
    }
  }

  /** `fixed.fill(0)`. */
  method Unpin(c: ClothEngine.Cloth)
    modifies c.fixed
    ensures forall p :: 0 <= p < c.fixed.Length ==> !c.fixed[p]
  {
    var i := 0;
    while i < c.fixed.Length
      invariant 0 <= i <= c.fixed.Length
      invariant forall p :: 0 <= p < i ==> !c.fixed[p]
    {
      c.fixed[i] := false;
      i := i + 1;
    }
  }

  /** The corner snapping of `enterFullscreen` (js/ui.js:19-33): each corner
      gets `pos == prev ==` its snap target, nothing else is written. */
  method SnapCorners(c: ClothEngine.Cloth)
    requires c.Valid()
    modifies c.pos, c.prev
    ensures forall p :: 0 <= p < c.total && IsCorner(c.cols, c.rows, p) ==>
      c.pos[p] == SnapPos(c.cols, c.rows, c.flagW, c.flagH, p) && c.prev[p] == c.pos[p]
    ensures forall p :: 0 <= p < c.total && !IsCorner(c.cols, c.rows, p) ==>
      c.pos[p] == old(c.pos[p]) && c.prev[p] == old(c.prev[p])
  {
    CornersDistinct(c.cols, c.rows);
    var tl, tr := 0, c.cols - 1;
    var bl := (c.rows - 1) * c.cols;
    var br := bl + c.cols - 1;
    var top, bottom := c.flagH * 0.5, -c.flagH * 0.5;
    c.pos[tl] := Vec3(0.0, top, 0.0);
    c.prev[tl] := Vec3(0.0, top, 0.0);
    c.pos[tr] := Vec3(c.flagW, top, 0.0);
    c.prev[tr] := Vec3(c.flagW, top, 0.0);
    c.pos[bl] := Vec3(0.0, bottom, 0.0);
    c.prev[bl] := Vec3(0.0, bottom, 0.0);
    c.pos[br] := Vec3(c.flagW, bottom, 0.0);
    c.prev[br] := Vec3(c.flagW, bottom, 0.0);
  }

  // ---------------------------------------------------------------------
  // Stadium pins (js/ui.js:36-48)

  /** Particle `p` is the first of row `j` exactly when it is `j * cols`. */
  lemma RowStart(cols: nat, j: nat, p: nat)
    requires cols > 0
    ensures (p % cols == 0 && p / cols == j) <==> p == j * cols
  {
    IndexRoundTrip(cols, 0, j);
    assert p == (p / cols) * cols + p % cols;
  }

  /** The pinning loop of `enterStadium` (js/ui.js:43): on an unpinned
      cloth, pin the first particle of every row. The result is the
      default pin set of module initialisation. */
  method PinColumnZero(c: ClothEngine.Cloth)
    requires c.Valid() && forall p :: 0 <= p < c.total ==> !c.fixed[p]
    modifies c.fixed
    ensures c.DefaultPins()
  {
    var j := 0;
    while j < c.rows
      invariant 0 <= j <= c.rows
      invariant forall p :: 0 <= p < c.total ==> c.fixed[p] == (p % c.cols == 0 && p / c.cols < j)
    {
      IndexBound(c.cols, c.rows, 0, j);
      c.fixed[j * c.cols] := true;
      forall p | 0 <= p < c.total
        ensures c.fixed[p] == (p % c.cols == 0 && p / c.cols < j + 1)
      {
        RowStart(c.cols, j, p);
      }
      j := j + 1;
    }
    forall p | 0 <= p < c.total
      ensures p / c.cols < c.rows
    {
      DivBelow(p, c.cols, c.rows);
    }
  }

  /** `enterStadium`: switch to the stadium view, put every particle back
      at rest (`initCloth`), pin exactly the hoist column, and aim the
      camera at the stadium's home view. */
  method EnterStadium(c: ClothEngine.Cloth, app: Config.AppState, cam: CameraControl.Camera)
    requires c.Valid()
    modifies app`viewMode, c.pos, c.prev, c.uv, c.fixed, cam`tgtTheta, cam`tgtPhi, cam`tgtDist
    ensures app.viewMode == Config.Stadium
    ensures c.AtRest() && c.DefaultPins()
    ensures cam.tgtTheta == 0.0 && cam.tgtPhi == 0.15 && cam.tgtDist == 9.0
  {
    app.viewMode := Config.Stadium;
    c.InitCloth();
    Unpin(c);
    PinColumnZero(c);
    cam.tgtTheta := 0.0;
    cam.tgtPhi := 0.15;
    cam.tgtDist := 9.0;
  }

  // ---------------------------------------------------------------------
  // Reset button (js/ui.js:167-197)

  /** The parameter part of the reset handler (js/ui.js:176-178): the
      sliders' parameters and the flag colour go back to their reset values;
      wind drift, gravity and zoom are left as they are. */
  method ResetParams(sim: Config.Sim)
    modifies sim`windStrength, sim`turbulence, sim`stiffness, sim`damping, sim`opacity
    modifies sim`windAngle, sim`stretch, sim`flagColor
    ensures sim.windStrength == 50.0 && sim.turbulence == 35.0 && sim.stiffness == 55.0
    ensures sim.damping == 94.0 && sim.opacity == 1.0 && sim.windAngle == 0.0 && sim.stretch == 50.0
    ensures sim.flagColor == Config.Rgb(0.91, 0.90, 0.89)
    ensures sim.windDrift == old(sim.windDrift) && sim.gravity == old(sim.gravity) && sim.zoom == old(sim.zoom)
  {
    sim.windStrength, sim.turbulence, sim.stiffness := 50.0, 35.0, 55.0;
    sim.damping, sim.opacity, sim.windAngle, sim.stretch := 94.0, 1.0, 0.0, 50.0;
    sim.flagColor := Config.Rgb(0.91, 0.90, 0.89);
  }

  /** The cloth part of the reset handler (js/ui.js:194-196): `initCloth`,
      then the current view mode is entered again, which any mode other
      than full screen turns into the stadium view. Either way the whole
      cloth ends at rest, since the full-screen corners snap to their rest
      positions. */
  method ReEnter(c: ClothEngine.Cloth, app: Config.AppState, cam: CameraControl.Camera)
    requires c.Valid()
    modifies app`viewMode, c.pos, c.prev, c.uv, c.fixed, cam`tgtTheta, cam`tgtPhi, cam`tgtDist
    ensures c.AtRest()
    ensures old(app.viewMode) == Config.Fullscreen ==>
      app.viewMode == Config.Fullscreen &&
      (forall p :: 0 <= p < c.total ==> c.fixed[p] == IsCorner(c.cols, c.rows, p)) &&
      cam.tgtTheta == old(cam.tgtTheta) && cam.tgtPhi == old(cam.tgtPhi) && cam.tgtDist == old(cam.tgtDist)
    ensures old(app.viewMode) != Config.Fullscreen ==>
      app.viewMode == Config.Stadium && c.DefaultPins() &&
      cam.tgtTheta == 0.0 && cam.tgtPhi == 0.15 && cam.tgtDist == 9.0
  {
    c.InitCloth();
    if app.viewMode == Config.Fullscreen {
      label rest:
      EnterFullscreen(c, app);
      forall p | 0 <= p < c.total
        ensures c.RestVal(p, c.pos[p], c.prev[p], c.uv[p])
      {
        assert old@rest(c.RestVal(p, c.pos[p], c.prev[p], c.uv[p]));
      }
    } else {
      EnterStadium(c, app, cam);
    }
  }

  /** The reset handler: parameters, then the cloth and the view mode. */
  method Reset(c: ClothEngine.Cloth, sim: Config.Sim, app: Config.AppState, cam: CameraControl.Camera)
    requires c.Valid()
    modifies sim`windStrength, sim`turbulence, sim`stiffness, sim`damping, sim`opacity
    modifies sim`windAngle, sim`stretch, sim`flagColor
    modifies app`viewMode, c.pos, c.prev, c.uv, c.fixed, cam`tgtTheta, cam`tgtPhi, cam`tgtDist
    ensures sim.windStrength == 50.0 && sim.turbulence == 35.0 && sim.stiffness == 55.0
    ensures sim.damping == 94.0 && sim.opacity == 1.0 && sim.windAngle == 0.0 && sim.stretch == 50.0
    ensures sim.flagColor == Config.Rgb(0.91, 0.90, 0.89)
    ensures sim.windDrift == old(sim.windDrift) && sim.gravity == old(sim.gravity) && sim.zoom == old(sim.zoom)
    ensures c.AtRest()
    ensures old(app.viewMode) == Config.Fullscreen ==>
      app.viewMode == Config.Fullscreen &&
      (forall p :: 0 <= p < c.total ==> c.fixed[p] == IsCorner(c.cols, c.rows, p)) &&
      cam.tgtTheta == old(cam.tgtTheta) && cam.tgtPhi == old(cam.tgtPhi) && cam.tgtDist == old(cam.tgtDist)
    ensures old(app.viewMode) != Config.Fullscreen ==>
      app.viewMode == Config.Stadium && c.DefaultPins() &&
      cam.tgtTheta == 0.0 && cam.tgtPhi == 0.15 && cam.tgtDist == 9.0
  {
    ResetParams(sim);
    ReEnter(c, app, cam);
  }
}
