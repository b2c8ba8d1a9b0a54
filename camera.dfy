/** The orbit camera of js/camera.js: the `cam` record of target and current
    angles, distance, look-at point and pan offset, the pan box that keeps
    the pan near the flag in each view mode, and the mouse and touch gestures
    that steer it. `Math.sin`, `Math.cos`, `Math.hypot`, `Math.exp` and
    `Math.pow` are parameters, as are the canvas aspect ratio and
    `Math.tan(fov / 2)`. */
module CameraControl {
  import opened Vectors
  import Physics
  import Config

  /** `clamp(v, lo, hi)` (js/camera.js:19): `Math.max(lo, Math.min(hi, v))`. */
  function Clamp(v: real, lo: real, hi: real): real {
    Physics.Max(lo, Physics.Min(hi, v))
  }

  /** For a non-empty range the clamp lands in it, is the identity inside it
      and saturates at the nearer end outside it. */
  lemma ClampBounds(v: real, lo: real, hi: real)
    ensures lo <= hi ==> lo <= Clamp(v, lo, hi) <= hi
    ensures lo <= v <= hi ==> Clamp(v, lo, hi) == v
    ensures lo <= hi && v < lo ==> Clamp(v, lo, hi) == lo
    ensures lo <= hi && v > hi ==> Clamp(v, lo, hi) == hi
  {
  }

  /** Clamping twice is clamping once, even for an empty range (where the
      result is always `lo`). */
  lemma ClampIdempotent(v: real, lo: real, hi: real)
    ensures Clamp(Clamp(v, lo, hi), lo, hi) == Clamp(v, lo, hi)
  {
  }

  lemma ClampMonotone(v: real, w: real, lo: real, hi: real)
    requires v <= w
    ensures Clamp(v, lo, hi) <= Clamp(w, lo, hi)
  {
  }

  /** The two modes in which the camera can be steered. */
  predicate Steerable(mode: Config.ViewMode) {
    mode == Config.Stadium || mode == Config.Fullscreen
  }

  /** The pan box of each mode: around the whole flag in full screen,
      shifted towards the fly end in the stadium, and the single point 0 in
      any other mode. */
  predicate InPanBox(mode: Config.ViewMode, p: Vec3) {
    if mode == Config.Fullscreen then
      -Config.FlagW * 1.8 <= p.x <= Config.FlagW * 1.8 &&
      -Config.FlagH * 1.4 <= p.y <= Config.FlagH * 1.4 &&
      -Config.FlagW * 1.8 <= p.z <= Config.FlagW * 1.8
    else if mode == Config.Stadium then
      -Config.FlagW <= p.x <= Config.FlagW * 2.0 &&
      -Config.FlagH * 1.4 <= p.y <= Config.FlagH * 1.4 &&
      -Config.FlagW * 1.6 <= p.z <= Config.FlagW * 1.6
    else
      p == Zero
  }

  /** The pan offset `clampPan` leaves (js/camera.js:29-45): each component
      clamped into the box of the mode, or all zero outside the two
      steerable modes. */
  function ClampedPan(mode: Config.ViewMode, p: Vec3): Vec3 {
    if mode == Config.Fullscreen then
      Vec3(Clamp(p.x, -Config.FlagW * 1.8, Config.FlagW * 1.8),
           Clamp(p.y, -Config.FlagH * 1.4, Config.FlagH * 1.4),
           Clamp(p.z, -Config.FlagW * 1.8, Config.FlagW * 1.8))
    else if mode != Config.Stadium then
      Zero
    else
      Vec3(Clamp(p.x, -Config.FlagW, Config.FlagW * 2.0),
           Clamp(p.y, -Config.FlagH * 1.4, Config.FlagH * 1.4),
           Clamp(p.z, -Config.FlagW * 1.6, Config.FlagW * 1.6))
  }

  /** The pan box is exactly the set of offsets `clampPan` leaves alone, and
      `clampPan` is idempotent. */
  /** `clampPan` always leaves the pan inside the box of the mode. */
  lemma ClampedPanInBox(mode: Config.ViewMode, p: Vec3)
    ensures InPanBox(mode, ClampedPan(mode, p))
  {
    ClampBounds(p.x, -Config.FlagW * 1.8, Config.FlagW * 1.8);
    ClampBounds(p.y, -Config.FlagH * 1.4, Config.FlagH * 1.4);
    ClampBounds(p.z, -Config.FlagW * 1.8, Config.FlagW * 1.8);
    ClampBounds(p.x, -Config.FlagW, Config.FlagW * 2.0);
    ClampBounds(p.z, -Config.FlagW * 1.6, Config.FlagW * 1.6);
  }

  lemma ClampedPanFixed(mode: Config.ViewMode, p: Vec3)
    ensures ClampedPan(mode, p) == p <==> InPanBox(mode, p)
    ensures ClampedPan(mode, ClampedPan(mode, p)) == ClampedPan(mode, p)
  {
    ClampBounds(p.x, -Config.FlagW * 1.8, Config.FlagW * 1.8);
    ClampBounds(p.y, -Config.FlagH * 1.4, Config.FlagH * 1.4);
    ClampBounds(p.z, -Config.FlagW * 1.8, Config.FlagW * 1.8);
    ClampBounds(p.x, -Config.FlagW, Config.FlagW * 2.0);
    ClampBounds(p.z, -Config.FlagW * 1.6, Config.FlagW * 1.6);
    ClampedPanInBox(mode, p);
    var r := ClampedPan(mode, p);
    ClampBounds(r.x, -Config.FlagW * 1.8, Config.FlagW * 1.8);
    ClampBounds(r.y, -Config.FlagH * 1.4, Config.FlagH * 1.4);
    ClampBounds(r.z, -Config.FlagW * 1.8, Config.FlagW * 1.8);
    ClampBounds(r.x, -Config.FlagW, Config.FlagW * 2.0);
    ClampBounds(r.z, -Config.FlagW * 1.6, Config.FlagW * 1.6);
  }

  /** `eyePos` (js/camera.js:21-27): the eye on the sphere of radius `dist`
      around `target`, at elevation `phi` and azimuth `theta`. */
  function Eye(target: Vec3, dist: real, phi: real, theta: real,
               sin: real -> real, cos: real -> real): Vec3
  {
    Vec3(target.x + dist * cos(phi) * sin(theta),
         target.y + dist * sin(phi),
         target.z + dist * cos(phi) * cos(theta))
  }

  /** From the eye to the look-at point, as `panBy` computes it
      (js/camera.js:50-53). */
  function LookAt(target: Vec3, dist: real, phi: real, theta: real,
                  sin: real -> real, cos: real -> real): Vec3
  {
    Sub(target, Eye(target, dist, phi, theta, sin, cos))
  }

  /** The horizontal right axis of a view direction `f` (world up cross
      `f`, normalised), or the x axis when `f` is (nearly) vertical
      (js/camera.js:61-73). */
  function RightAxis(f: Vec3, sqrt: real -> real): (r: Vec3)
    ensures r.y == 0.0
  {
    var h := Vec3(f.z, 0.0, -f.x);
    var len := sqrt(NormSq(h));
    if len < 0.00001 then Vec3(1.0, 0.0, 0.0) else Div(h, len)
  }

  /** The right axis is a unit vector. */
  lemma RightAxisUnit(f: Vec3, sqrt: real -> real)
    requires IsSqrt(sqrt)
    ensures NormSq(RightAxis(f, sqrt)) == 1.0
  {
    var h := Vec3(f.z, 0.0, -f.x);
    var len := sqrt(NormSq(h));
    NormSqZero(h);
    SqrtPositive(sqrt, NormSq(h));
    if len >= 0.00001 {
      DivByLength(h, len);
    }
  }

  /** Unless the fallback was taken, the right axis is perpendicular to the
      view direction. */
  lemma RightAxisOrthogonal(f: Vec3, sqrt: real -> real)
    requires sqrt(NormSq(Vec3(f.z, 0.0, -f.x))) >= 0.00001
    ensures Dot(RightAxis(f, sqrt), f) == 0.0
  {
    var h := Vec3(f.z, 0.0, -f.x);
    var len := sqrt(NormSq(h));
    DivIsScale(h, len);
    assert Dot(h, f) == 0.0;
    assert Dot(Scale(h, 1.0 / len), f) == (1.0 / len) * Dot(h, f);
  }

  /** The right-axis lines of `panBy` (js/camera.js:61-73); the source's
      division of the fallback axis by the length 1 is left out. */
  method RightAxisOf(f: Vec3, sqrt: real -> real) returns (r: Vec3)
    ensures r == RightAxis(f, sqrt)
  {
    r := Vec3(f.z, 0.0, -f.x);
    var rLen := sqrt(NormSq(r));
    if rLen < 0.00001 {
      r := Vec3(1.0, 0.0, 0.0);
    } else {
      r := Div(r, rLen);
    }
  }

  /** The pan offset of a drag by (dx, dy) for the unit view direction `f`:
      along the right axis and the camera's up axis `f x right`, scaled by
      `k` (js/camera.js:75-83). */
  function PanOffset(f: Vec3, dx: real, dy: real, k: real, sqrt: real -> real): Vec3 {
    var r := RightAxis(f, sqrt);
    var u := Cross(f, r);
    Vec3((dx * r.x - dy * u.x) * k, (dx * r.y - dy * u.y) * k, (dx * r.z - dy * u.z) * k)
  }

  /** The up-axis and offset lines of `panBy` (js/camera.js:75-83). */
  method PanOffsetOf(f: Vec3, dx: real, dy: real, k: real, sqrt: real -> real) returns (o: Vec3)
    ensures o == PanOffset(f, dx, dy, k, sqrt)
  {
    var r := RightAxisOf(f, sqrt);
    var u := Cross(f, r);
    o := Vec3((dx * r.x - dy * u.x) * k, (dx * r.y - dy * u.y) * k, (dx * r.z - dy * u.z) * k);
  }

  lemma DotScaleSub(r: Vec3, u: Vec3, f: Vec3, dx: real, dy: real, k: real)
    ensures Dot(Vec3((dx * r.x - dy * u.x) * k, (dx * r.y - dy * u.y) * k, (dx * r.z - dy * u.z) * k), f)
            == k * (dx * Dot(r, f) - dy * Dot(u, f))
  {
  }

  /** Panning moves the target within the image plane: the offset is
      perpendicular to the view direction (except in the fallback for a
      vertical view, where the right axis is the x axis). */
  lemma PanOffsetInImagePlane(f: Vec3, dx: real, dy: real, k: real, sqrt: real -> real)
    requires sqrt(NormSq(Vec3(f.z, 0.0, -f.x))) >= 0.00001
    ensures Dot(PanOffset(f, dx, dy, k, sqrt), f) == 0.0
  {
    var r := RightAxis(f, sqrt);
    var u := Cross(f, r);
    RightAxisOrthogonal(f, sqrt);
    CrossOrthogonal(f, r);
    assert Dot(r, f) == 0.0 && Dot(u, f) == 0.0;
    DotScaleSub(r, u, f, dx, dy, k);
    assert k * (dx * Dot(r, f) - dy * Dot(u, f)) == 0.0;
  }

  /** The pan offset after `panBy` in a steerable mode, for the vector `look`
      from the eye to the target: unchanged when the eye sits on the target
      (js/camera.js:55), otherwise moved by the drag and clamped into the
      box. */
  function PanTo(mode: Config.ViewMode, pan: Vec3, look: Vec3, dx: real, dy: real, k: real,
                 sqrt: real -> real): Vec3
  {
    var len := sqrt(NormSq(look));
    if len < 0.000001 then pan
    else ClampedPan(mode, Add(pan, PanOffset(Div(look, len), dx, dy, k, sqrt)))
  }

  /** A pan either leaves the offset alone (the eye coincides with the
      target) or ends inside the pan box, and the pan never leaves the box
      it started in. */
  lemma PanToInBox(mode: Config.ViewMode, pan: Vec3, look: Vec3, dx: real, dy: real, k: real,
                   sqrt: real -> real)
    ensures var r := PanTo(mode, pan, look, dx, dy, k, sqrt);
      (sqrt(NormSq(look)) < 0.000001 ==> r == pan) &&
      (sqrt(NormSq(look)) >= 0.000001 ==> InPanBox(mode, r)) &&
      (InPanBox(mode, pan) ==> InPanBox(mode, r))
  {
    var len := sqrt(NormSq(look));
    if len >= 0.000001 {
      ClampedPanInBox(mode, Add(pan, PanOffset(Div(look, len), dx, dy, k, sqrt)));
    }
  }

  /** World units of pan per pixel of drag: proportional to the camera
      distance. */
  function PanScale(dist: real, scale: real): real {
    dist * 0.0017 * scale
  }

  /** One step of the exponential smoothing `cur += (tgt - cur) * f`. */
  function Ease(cur: real, tgt: real, f: real): real {
    cur + (tgt - cur) * f
  }

  function EaseVec(cur: Vec3, tgt: Vec3, f: real): Vec3 {
    Vec3(Ease(cur.x, tgt.x, f), Ease(cur.y, tgt.y, f), Ease(cur.z, tgt.z, f))
  }

  /** A smoothing step removes the fraction `f` of the gap to the target and,
      for `0 <= f <= 1`, lands between the old value and the target. */
  lemma EaseGap(cur: real, tgt: real, f: real)
    ensures tgt - Ease(cur, tgt, f) == (1.0 - f) * (tgt - cur)
    ensures 0.0 <= f <= 1.0 ==> Physics.Min(cur, tgt) <= Ease(cur, tgt, f) <= Physics.Max(cur, tgt)
  {
    if 0.0 <= f <= 1.0 {
      if cur <= tgt {
        MulNonNegative(tgt - cur, f);
        MulNonNegative(tgt - cur, 1.0 - f);
      } else {
        MulNonNegative(cur - tgt, f);
        MulNonNegative(cur - tgt, 1.0 - f);
      }
    }
  }

  /** The full-screen zoom after a wheel or pinch step of `delta` at
      `speed`: scaled by `exp(delta * speed * 0.42)` and kept in [55, 185]
      (js/camera.js:89). `exp` stands for `Math.exp`. */
  function ZoomedZoom(zoom: real, delta: real, speed: real, exp: real -> real): real {
    Clamp(zoom * exp(delta * speed * 0.42), 55.0, 185.0)
  }

  /** The orbit distance after a wheel or pinch step outside full screen:
      scaled by `exp(delta * speed)` and kept in [1.8, 18] (js/camera.js:92). */
  function ZoomedDist(dist: real, delta: real, speed: real, exp: real -> real): real {
    Clamp(dist * exp(delta * speed), 1.8, 18.0)
  }

  /** Zoom steps keep `SIM.zoom` in [55, 185] and the orbit distance in
      [1.8, 18], and inside those ranges they are plain rescalings. */
  lemma ZoomRanges(zoom: real, dist: real, delta: real, speed: real, exp: real -> real)
    ensures 55.0 <= ZoomedZoom(zoom, delta, speed, exp) <= 185.0
    ensures 55.0 <= zoom * exp(delta * speed * 0.42) <= 185.0 ==>
      ZoomedZoom(zoom, delta, speed, exp) == zoom * exp(delta * speed * 0.42)
    ensures 1.8 <= ZoomedDist(dist, delta, speed, exp) <= 18.0
    ensures 1.8 <= dist * exp(delta * speed) <= 18.0 ==>
      ZoomedDist(dist, delta, speed, exp) == dist * exp(delta * speed)
  {
    ClampBounds(zoom * exp(delta * speed * 0.42), 55.0, 185.0);
    ClampBounds(dist * exp(delta * speed), 1.8, 18.0);
  }

  /** A zoom step that scales up never moves the distance in, and one that
      scales down never moves it out. */
  lemma ZoomedDistMonotone(dist: real, delta: real, speed: real, exp: real -> real)
    requires 1.8 <= dist <= 18.0
    ensures exp(delta * speed) >= 1.0 ==> ZoomedDist(dist, delta, speed, exp) >= dist
    ensures 0.0 <= exp(delta * speed) <= 1.0 ==> ZoomedDist(dist, delta, speed, exp) <= dist
  {
    var e := exp(delta * speed);
    ClampBounds(dist, 1.8, 18.0);
    if e >= 1.0 {
      MulNonNegative(dist, e - 1.0);
      ClampMonotone(dist, dist * e, 1.8, 18.0);
    } else if 0.0 <= e {
      MulNonNegative(dist, 1.0 - e);
      ClampMonotone(dist * e, dist, 1.8, 18.0);
    }
  }

  /** The point the look-at point eases towards (js/camera.js:105-123): the
      pan offset from the base point, which is the middle of the flag's
      hoist-to-fly span in full screen and the pole foot otherwise. */
  function AimPoint(mode: Config.ViewMode, pan: Vec3): Vec3 {
    if mode == Config.Fullscreen then Vec3(Config.FlagW * 0.5 + pan.x, pan.y, pan.z) else pan
  }

  /** The full-screen camera distance (js/camera.js:110-116): the larger of
      the distances at which the flag's height and its width fill the view,
      times 0.95, times the zoom factor `SIM.zoom / 100` clamped into
      [0.55, 2.4]. `halfTan` is `tan(fov / 2)`. */
  function FitDistance(halfTan: real, aspect: real, zoom: real): (d: real)
    requires halfTan > 0.0 && aspect > 0.0
  {
    var distH := (Config.FlagH / 2.0) / halfTan;
    var distW := (Config.FlagW / 2.0) / (halfTan * aspect);
    Physics.Max(distH, distW) * 0.95 * Clamp(zoom / 100.0, 0.55, 2.4)
  }

  /** The fitted distance is positive and lies between 0.5225 and 2.28 times
      the distance at which the flag just fills the view; at zoom 100 it is
      0.95 times that distance. */
  lemma FitDistanceRange(halfTan: real, aspect: real, zoom: real)
    requires halfTan > 0.0 && aspect > 0.0
    ensures var fit := Physics.Max((Config.FlagH / 2.0) / halfTan, (Config.FlagW / 2.0) / (halfTan * aspect));
      fit > 0.0 &&
      0.5225 * fit <= FitDistance(halfTan, aspect, zoom) <= 2.28 * fit &&
      (zoom == 100.0 ==> FitDistance(halfTan, aspect, zoom) == 0.95 * fit)
  {
    var fit := Physics.Max((Config.FlagH / 2.0) / halfTan, (Config.FlagW / 2.0) / (halfTan * aspect));
    var z := Clamp(zoom / 100.0, 0.55, 2.4);
    ClampBounds(zoom / 100.0, 0.55, 2.4);
    assert (Config.FlagH / 2.0) / halfTan > 0.0;
    assert fit > 0.0;
    MulNonNegative(fit, z - 0.55);
    MulNonNegative(fit, 2.4 - z);
    assert FitDistance(halfTan, aspect, zoom) == fit * 0.95 * z;
  }

  /** The exported `cam` record (js/camera.js:5-10). */
  class Camera {
    var tgtTheta: real
    var tgtPhi: real
    var tgtDist: real
    var curTheta: real
    var curPhi: real
    var curDist: real
    var target: Vec3
    var tgtPan: Vec3

    constructor ()
      ensures tgtTheta == 0.0 && tgtPhi == 0.06 && tgtDist == 3.0
      ensures curTheta == 0.0 && curPhi == 0.06 && curDist == 3.0
      ensures target == Vec3(Config.FlagW * 0.5, 0.0, 0.0) && tgtPan == Zero
      ensures PhiInRange()
    {
      tgtTheta, tgtPhi, tgtDist := 0.0, 0.06, 3.0;
      curTheta, curPhi, curDist := 0.0, 0.06, 3.0;
      target := Vec3(Config.FlagW * 0.5, 0.0, 0.0);
      tgtPan := Zero;
    }

    /** The target elevation stays short of the poles. */
    ghost predicate PhiInRange()
      reads this`tgtPhi
    {
      -1.45 <= tgtPhi <= 1.45
    }

    /** The orbit step of mouse and touch drags (js/camera.js:164-165 and
        201-202): turn by `dx * kTheta` and tilt by `dy * kPhi`, the
        elevation clamped into [-1.45, 1.45]. */
    method Orbit(dx: real, dy: real, kTheta: real, kPhi: real)
      modifies this`tgtTheta, this`tgtPhi
      ensures tgtTheta == old(tgtTheta) - dx * kTheta
      ensures tgtPhi == Clamp(old(tgtPhi) + dy * kPhi, -1.45, 1.45) && PhiInRange()
    {
      tgtTheta := tgtTheta - dx * kTheta;
      ClampBounds(tgtPhi + dy * kPhi, -1.45, 1.45);
      tgtPhi := Clamp(tgtPhi + dy * kPhi, -1.45, 1.45);
    }

    /** `clampPan` (js/camera.js:29-45), component by component. */
    method ClampPan(app: Config.AppState)
      modifies this`tgtPan
      ensures tgtPan == ClampedPan(app.viewMode, old(tgtPan))
    {
      if app.viewMode == Config.Fullscreen {
        tgtPan := tgtPan.(x := Clamp(tgtPan.x, -Config.FlagW * 1.8, Config.FlagW * 1.8));
        tgtPan := tgtPan.(y := Clamp(tgtPan.y, -Config.FlagH * 1.4, Config.FlagH * 1.4));
        tgtPan := tgtPan.(z := Clamp(tgtPan.z, -Config.FlagW * 1.8, Config.FlagW * 1.8));
        return;
      }
      if app.viewMode != Config.Stadium {
        tgtPan := tgtPan.(x := 0.0);
        tgtPan := tgtPan.(y := 0.0);
        tgtPan := tgtPan.(z := 0.0);
        return;
      }
      tgtPan := tgtPan.(x := Clamp(tgtPan.x, -Config.FlagW, Config.FlagW * 2.0));
      tgtPan := tgtPan.(y := Clamp(tgtPan.y, -Config.FlagH * 1.4, Config.FlagH * 1.4));
      tgtPan := tgtPan.(z := Clamp(tgtPan.z, -Config.FlagW * 1.6, Config.FlagW * 1.6));
    }

    /** `panBy(dx, dy, scale)` (js/camera.js:47-85): ignored outside the two
        steerable modes; otherwise the drag moves the pan offset in the image
        plane, by `tgtDist * 0.0017 * scale` per pixel, and `clampPan`
        follows. `sqrt` stands for `Math.hypot`. */
    method PanBy(app: Config.AppState, dx: real, dy: real, scale: real,
                 sin: real -> real, cos: real -> real, sqrt: real -> real)
      modifies this`tgtPan
      ensures !Steerable(app.viewMode) ==> tgtPan == old(tgtPan)
      ensures Steerable(app.viewMode) ==>
        tgtPan == PanTo(app.viewMode, old(tgtPan), LookAt(target, curDist, curPhi, curTheta, sin, cos), dx, dy, PanScale(tgtDist, scale), sqrt)
    {
      if app.viewMode != Config.Stadium && app.viewMode != Config.Fullscreen {
        return;
      }
      var e := Eye(target, curDist, curPhi, curTheta, sin, cos);
      var f := Sub(target, e);
      var fLen := sqrt(NormSq(f));
      ghost var look := f;
      assert look == LookAt(target, curDist, curPhi, curTheta, sin, cos);
      if fLen < 0.000001 {
        assert tgtPan == PanTo(app.viewMode, tgtPan, look, dx, dy, PanScale(tgtDist, scale), sqrt);
        return;
      }
      f := Div(f, fLen);
      var panScale := PanScale(tgtDist, scale);
      var o := PanOffsetOf(f, dx, dy, panScale, sqrt);
      tgtPan := Vec3(tgtPan.x + o.x, tgtPan.y + o.y, tgtPan.z + o.z);
      ghost var moved := Add(old(tgtPan), PanOffset(Div(look, fLen), dx, dy, panScale, sqrt));
      assert tgtPan == moved;
      assert PanTo(app.viewMode, old(tgtPan), look, dx, dy, panScale, sqrt) == ClampedPan(app.viewMode, moved);
      ClampPan(app);
      assert tgtPan == PanTo(app.viewMode, old(tgtPan), look, dx, dy, panScale, sqrt);
    }

    /** `zoomBy(delta, speed)` (js/camera.js:87-93): in full screen the wheel
        scales `SIM.zoom` by `exp(delta * speed * 0.42)` within [55, 185];
        otherwise it scales the camera distance by `exp(delta * speed)`
        within [1.8, 18]. */
    method ZoomBy(app: Config.AppState, sim: Config.Sim, delta: real, speed: real, exp: real -> real)
      modifies this`tgtDist, sim`zoom
      ensures app.viewMode == Config.Fullscreen ==>
        sim.zoom == ZoomedZoom(old(sim.zoom), delta, speed, exp) && tgtDist == old(tgtDist)
      ensures app.viewMode != Config.Fullscreen ==>
        tgtDist == ZoomedDist(old(tgtDist), delta, speed, exp) && sim.zoom == old(sim.zoom)
    {
      if app.viewMode == Config.Fullscreen {
        sim.zoom := Clamp(sim.zoom * exp(delta * speed * 0.42), 55.0, 185.0);
        return;
      }
      tgtDist := Clamp(tgtDist * exp(delta * speed), 1.8, 18.0);
    }

    /** `updateCamera(dt)` (js/camera.js:102-133): in full screen the
        distance is refitted to the flag; the pan is clamped; the look-at
        point eases towards the mode's base point plus the pan with factor
        `1 - 0.01^dt`; the target elevation is clamped into [-1.45, 1.45];
        and the current angles and distance ease towards their targets with
        factor `1 - 0.0004^dt`. `pow` stands for `Math.pow`, `aspect` for the
        canvas aspect ratio and `halfTan` for `Math.tan(fov / 2)`. */
    method UpdateCamera(app: Config.AppState, sim: Config.Sim, dt: real, pow: (real, real) -> real,
                        halfTan: real, aspect: real)
      requires halfTan > 0.0 && aspect > 0.0
      modifies this`tgtPhi, this`tgtPan, this`tgtDist, this`target, this`curTheta, this`curPhi, this`curDist
      ensures PhiInRange() && tgtPhi == Clamp(old(tgtPhi), -1.45, 1.45)
      ensures tgtPan == ClampedPan(app.viewMode, old(tgtPan)) && InPanBox(app.viewMode, tgtPan)
      ensures tgtDist == if app.viewMode == Config.Fullscreen then FitDistance(halfTan, aspect, sim.zoom)
                         else old(tgtDist)
      ensures tgtTheta == old(tgtTheta)
      ensures target == EaseVec(old(target), AimPoint(app.viewMode, tgtPan), 1.0 - pow(0.01, dt))
      ensures curTheta == Ease(old(curTheta), tgtTheta, 1.0 - pow(0.0004, dt))
      ensures curPhi == Ease(old(curPhi), tgtPhi, 1.0 - pow(0.0004, dt))
      ensures curDist == Ease(old(curDist), tgtDist, 1.0 - pow(0.0004, dt))
    {
      var cf := 1.0 - pow(0.01, dt);
      var tgt := Retarget(app, sim, halfTan, aspect);
      target := EaseVec(target, tgt, cf);
      var lf := 1.0 - pow(0.0004, dt);
      Smooth(lf);
    }

    /** The first half of `updateCamera` (js/camera.js:105-123): refit the
        distance in full screen, clamp the pan, and return the point the
        look-at point eases towards. */
    method Retarget(app: Config.AppState, sim: Config.Sim, halfTan: real, aspect: real) returns (tgt: Vec3)
      requires halfTan > 0.0 && aspect > 0.0
      modifies this`tgtDist, this`tgtPan
      ensures tgtPan == ClampedPan(app.viewMode, old(tgtPan)) && InPanBox(app.viewMode, tgtPan)
      ensures tgtDist == if app.viewMode == Config.Fullscreen then FitDistance(halfTan, aspect, sim.zoom)
                         else old(tgtDist)
      ensures tgt == AimPoint(app.viewMode, tgtPan)
    {
      var baseX, baseY, baseZ := 0.0, 0.0, 0.0;
      if app.viewMode == Config.Fullscreen {
        tgtDist := FitDistance(halfTan, aspect, sim.zoom);
        baseX := Config.FlagW * 0.5;
      }
      ClampedPanInBox(app.viewMode, tgtPan);
      ClampPan(app);
      tgt := Vec3(baseX + tgtPan.x, baseY + tgtPan.y, baseZ + tgtPan.z);
    }

    /** The end of `updateCamera` (js/camera.js:127-132): clamp the target
        elevation, then ease the current angles and distance towards their
        targets with factor `lf`. */
    method Smooth(lf: real)
      modifies this`tgtPhi, this`curTheta, this`curPhi, this`curDist
      ensures PhiInRange() && tgtPhi == Clamp(old(tgtPhi), -1.45, 1.45)
      ensures curTheta == Ease(old(curTheta), tgtTheta, lf)
      ensures curPhi == Ease(old(curPhi), tgtPhi, lf)
      ensures curDist == Ease(old(curDist), tgtDist, lf)
    {
      ClampBounds(tgtPhi, -1.45, 1.45);
      tgtPhi := Clamp(tgtPhi, -1.45, 1.45);
      curTheta := Ease(curTheta, tgtTheta, lf);
      curPhi := Ease(curPhi, tgtPhi, lf);
      curDist := Ease(curDist, tgtDist, lf);
    }
  }

  /** A cursor or touch position in client pixels. */
  datatype Point = Point(x: real, y: real)

  datatype TouchMode = NoTouch | Orbit | PanZoom

  /** `touchInfo` (js/camera.js:95-100): the midpoint of two touches and
      their distance (`sqrt` stands for `Math.hypot`). */
  datatype PinchInfo = PinchInfo(cx: real, cy: real, dist: real)

  function TouchInfo(t0: Point, t1: Point, sqrt: real -> real): PinchInfo {
    PinchInfo((t0.x + t1.x) * 0.5, (t0.y + t1.y) * 0.5, sqrt(Sq(t0.x - t1.x) + Sq(t0.y - t1.y)))
  }

  /** The midpoint is halfway between the two touches, and the distance is
      their Euclidean distance. */
  lemma TouchInfoMeaning(t0: Point, t1: Point, sqrt: real -> real)
    requires IsSqrt(sqrt)
    ensures var r := TouchInfo(t0, t1, sqrt);
      r.cx - t0.x == t1.x - r.cx && r.cy - t0.y == t1.y - r.cy &&
      r.dist >= 0.0 && Sq(r.dist) == Sq(t0.x - t1.x) + Sq(t0.y - t1.y)
  {
    SqNonNegative(t0.x - t1.x);
    SqNonNegative(t0.y - t1.y);
  }

  /** The gesture state of js/camera.js:12-17: whether a mouse drag orbits
      or pans, the last cursor position, and the touch gesture in
      progress with its last midpoint and finger distance. */
  class Gestures {
    var orbiting: bool
    var panning: bool
    var lastM: Point
    var touchMode: TouchMode
    var touchCenter: Point
    var touchDist: real

    constructor ()
      ensures !orbiting && !panning && lastM == Point(0.0, 0.0)
      ensures touchMode == NoTouch && touchCenter == Point(0.0, 0.0) && touchDist == 0.0
    {
      orbiting, panning := false, false;
      lastM := Point(0.0, 0.0);
      touchMode := NoTouch;
      touchCenter := Point(0.0, 0.0);
      touchDist := 0.0;
    }

    /** `mousedown` (js/camera.js:139-152): in a steerable mode, the plain
        left button starts an orbit; the middle or right button, or the left
        button with Alt or Shift, starts a pan. */
    method MouseDown(app: Config.AppState, button: int, altKey: bool, shiftKey: bool, p: Point)
      modifies this`orbiting, this`panning, this`lastM
      ensures var orbit := Steerable(app.viewMode) && button == 0 && !(altKey || shiftKey);
        var pan := Steerable(app.viewMode) && !orbit &&
                   (button == 1 || button == 2 || (button == 0 && (altKey || shiftKey)));
        orbiting == (orbit || old(orbiting)) && panning == (pan || old(panning)) &&
        lastM == (if orbit || pan then p else old(lastM))
    {
      if app.viewMode != Config.Stadium && app.viewMode != Config.Fullscreen {
        return;
      }
      if button == 0 && !(altKey || shiftKey) {
        orbiting := true;
        lastM := p;
      } else if button == 1 || button == 2 || (button == 0 && (altKey || shiftKey)) {
        panning := true;
        lastM := p;
      } else {
        return;
      }
    }

    /** `mouseup` (js/camera.js:154-157) ends every mouse drag. */
    method MouseUp()
      modifies this`orbiting, this`panning
      ensures !orbiting && !panning
    {
      orbiting := false;
      panning := false;
    }

    /** `mousemove` (js/camera.js:159-171): while a drag is active in a
        steerable mode, an orbit turns the camera (elevation clamped into
        [-1.45, 1.45]) and a pan calls `panBy` with scale 1.35; the cursor
        position is then remembered. Otherwise nothing changes. */
    method MouseMove(app: Config.AppState, cam: Camera, p: Point,
                     sin: real -> real, cos: real -> real, sqrt: real -> real)
      modifies this`lastM, cam`tgtTheta, cam`tgtPhi, cam`tgtPan
      ensures var dx, dy := p.x - old(lastM.x), p.y - old(lastM.y);
        if !Steerable(app.viewMode) || (!orbiting && !panning) then
          lastM == old(lastM) && cam.tgtTheta == old(cam.tgtTheta) && cam.tgtPhi == old(cam.tgtPhi) &&
          cam.tgtPan == old(cam.tgtPan)
        else
          lastM == p &&
          (orbiting ==> cam.tgtTheta == old(cam.tgtTheta) - dx * 0.0062 &&
                        cam.tgtPhi == Clamp(old(cam.tgtPhi) + dy * 0.0052, -1.45, 1.45) &&
                        cam.PhiInRange() && cam.tgtPan == old(cam.tgtPan)) &&
          (!orbiting ==> cam.tgtTheta == old(cam.tgtTheta) && cam.tgtPhi == old(cam.tgtPhi) &&
                         cam.tgtPan == PanTo(app.viewMode, old(cam.tgtPan), LookAt(cam.target, cam.curDist, cam.curPhi, cam.curTheta, sin, cos), dx, dy,
                                             PanScale(cam.tgtDist, 1.35), sqrt))
    {
      var dx, dy := p.x - lastM.x, p.y - lastM.y;
      if Steerable(app.viewMode) && (orbiting || panning) {
        if orbiting {
          cam.Orbit(dx, dy, 0.0062, 0.0052);
        } else {
          cam.PanBy(app, dx, dy, 1.35, sin, cos, sqrt);
        }
        lastM := p;
      }
    }

    /** `wheel` (js/camera.js:173-178): in a steerable mode, zoom by the
        wheel delta, faster with Ctrl, Alt or Meta held. */
    method Wheel(app: Config.AppState, cam: Camera, sim: Config.Sim, deltaY: real,
                 ctrlKey: bool, altKey: bool, metaKey: bool, exp: real -> real)
      modifies cam`tgtDist, sim`zoom
      ensures !Steerable(app.viewMode) ==> cam.tgtDist == old(cam.tgtDist) && sim.zoom == old(sim.zoom)
      ensures Steerable(app.viewMode) ==>
        var speed := if ctrlKey || altKey || metaKey then 0.0032 else 0.0017;
        if app.viewMode == Config.Fullscreen then
          sim.zoom == ZoomedZoom(old(sim.zoom), deltaY, speed, exp) && cam.tgtDist == old(cam.tgtDist)
        else
          cam.tgtDist == ZoomedDist(old(cam.tgtDist), deltaY, speed, exp) && sim.zoom == old(sim.zoom)
    {
      if app.viewMode != Config.Stadium && app.viewMode != Config.Fullscreen {
        return;
      }
      var speed := if ctrlKey || altKey || metaKey then 0.0032 else 0.0017;
      cam.ZoomBy(app, sim, deltaY, speed, exp);
    }

    /** `touchstart` (js/camera.js:181-194): in a steerable mode, one finger
        starts an orbit and two or more start a pinch (pan and zoom). */
    method TouchStart(app: Config.AppState, touches: seq<Point>, sqrt: real -> real)
      modifies this`touchMode, this`lastM, this`touchCenter, this`touchDist
      ensures !Steerable(app.viewMode) || |touches| == 0 ==>
        touchMode == old(touchMode) && lastM == old(lastM) &&
        touchCenter == old(touchCenter) && touchDist == old(touchDist)
      ensures Steerable(app.viewMode) && |touches| == 1 ==>
        touchMode == Orbit && lastM == touches[0] &&
        touchCenter == old(touchCenter) && touchDist == old(touchDist)
      ensures Steerable(app.viewMode) && |touches| >= 2 ==>
        var info := TouchInfo(touches[0], touches[1], sqrt);
        touchMode == PanZoom && lastM == old(lastM) &&
        touchCenter == Point(info.cx, info.cy) && touchDist == info.dist
    {
      if app.viewMode != Config.Stadium && app.viewMode != Config.Fullscreen {
        return;
      }
      if |touches| == 1 {
        touchMode := Orbit;
        lastM := touches[0];
      } else if |touches| >= 2 {
        touchMode := PanZoom;
        var info := TouchInfo(touches[0], touches[1], sqrt);
        touchCenter := Point(info.cx, info.cy);
        touchDist := info.dist;
      }
    }

    /** `touchmove` (js/camera.js:196-216): in a steerable mode, a one-finger
        orbit turns the camera (elevation clamped into [-1.45, 1.45]); a
        pinch pans by the midpoint's motion and zooms by the change of finger
        distance, in that order. */
    method TouchMove(app: Config.AppState, cam: Camera, sim: Config.Sim, touches: seq<Point>,
                     sin: real -> real, cos: real -> real, sqrt: real -> real, exp: real -> real)
      modifies this`lastM, this`touchCenter, this`touchDist
      modifies cam`tgtTheta, cam`tgtPhi, cam`tgtPan, cam`tgtDist, sim`zoom
      ensures touchMode == old(touchMode)
      ensures Steerable(app.viewMode) && touchMode == Orbit && |touches| == 1 ==>
        cam.tgtTheta == old(cam.tgtTheta) - (touches[0].x - old(lastM.x)) * 0.006 &&
        cam.tgtPhi == Clamp(old(cam.tgtPhi) + (touches[0].y - old(lastM.y)) * 0.005, -1.45, 1.45) &&
        cam.PhiInRange() && lastM == touches[0] &&
        cam.tgtPan == old(cam.tgtPan) && cam.tgtDist == old(cam.tgtDist) && sim.zoom == old(sim.zoom)
      ensures Steerable(app.viewMode) && touchMode == PanZoom && |touches| >= 2 ==>
        Pinched(app, cam, sim, TouchInfo(touches[0], touches[1], sqrt), sin, cos, sqrt, exp) &&
        cam.tgtTheta == old(cam.tgtTheta) && cam.tgtPhi == old(cam.tgtPhi) && lastM == old(lastM)
      ensures !(Steerable(app.viewMode) && ((touchMode == Orbit && |touches| == 1) ||
                                            (touchMode == PanZoom && |touches| >= 2))) ==>
        lastM == old(lastM) && touchCenter == old(touchCenter) && touchDist == old(touchDist) &&
        cam.tgtTheta == old(cam.tgtTheta) && cam.tgtPhi == old(cam.tgtPhi) &&
        cam.tgtPan == old(cam.tgtPan) && cam.tgtDist == old(cam.tgtDist) && sim.zoom == old(sim.zoom)
    {
      if !Steerable(app.viewMode) {
      } else if touchMode == Orbit && |touches| == 1 {
        TouchOrbit(cam, touches[0]);
      } else if touchMode == PanZoom && |touches| >= 2 {
        Pinch(app, cam, sim, TouchInfo(touches[0], touches[1], sqrt), sin, cos, sqrt, exp);
      }
    }

    /** The one-finger branch of `touchmove` (js/camera.js:198-206): turn
        by the finger's motion, elevation clamped into [-1.45, 1.45]. */
    method TouchOrbit(cam: Camera, p: Point)
      modifies this`lastM, cam`tgtTheta, cam`tgtPhi
      ensures cam.tgtTheta == old(cam.tgtTheta) - (p.x - old(lastM.x)) * 0.006
      ensures cam.tgtPhi == Clamp(old(cam.tgtPhi) + (p.y - old(lastM.y)) * 0.005, -1.45, 1.45)
      ensures cam.PhiInRange() && lastM == p
    {
      var dx, dy := p.x - lastM.x, p.y - lastM.y;
      cam.Orbit(dx, dy, 0.006, 0.005);
      assert cam.tgtPhi == Clamp(old(cam.tgtPhi) + dy * 0.005, -1.45, 1.45);
      lastM := p;
    }

    /** What the pinch branch of `touchmove` (js/camera.js:208-215) leaves
        behind: the pan moved by the motion of the midpoint `info.cx/cy`
        (scaled by 1.35), the zoom changed by the shrinking of the finger
        distance (speed 0.0048), and both remembered for the next event. */
    twostate predicate Pinched(app: Config.AppState, cam: Camera, sim: Config.Sim, info: PinchInfo,
                               sin: real -> real, cos: real -> real, sqrt: real -> real, exp: real -> real)
      reads this, cam, sim, app
    {
      && cam.tgtPan == PanTo(app.viewMode, old(cam.tgtPan),
                             LookAt(cam.target, cam.curDist, cam.curPhi, cam.curTheta, sin, cos),
                             info.cx - old(touchCenter.x), info.cy - old(touchCenter.y),
                             PanScale(old(cam.tgtDist), 1.35), sqrt)
      && (app.viewMode == Config.Fullscreen ==>
            sim.zoom == ZoomedZoom(old(sim.zoom), old(touchDist) - info.dist, 0.0048, exp) &&
            cam.tgtDist == old(cam.tgtDist))
      && (app.viewMode != Config.Fullscreen ==>
            cam.tgtDist == ZoomedDist(old(cam.tgtDist), old(touchDist) - info.dist, 0.0048, exp) &&
            sim.zoom == old(sim.zoom))
      && touchCenter == Point(info.cx, info.cy) && touchDist == info.dist
    }

    /** The pinch branch of `touchmove`: `panBy` then `zoomBy`, then the new
        midpoint and distance are remembered. */
    method Pinch(app: Config.AppState, cam: Camera, sim: Config.Sim, info: PinchInfo,
                 sin: real -> real, cos: real -> real, sqrt: real -> real, exp: real -> real)
      requires Steerable(app.viewMode)
      modifies this`touchCenter, this`touchDist, cam`tgtPan, cam`tgtDist, sim`zoom
      ensures Pinched(app, cam, sim, info, sin, cos, sqrt, exp)
    {
      ghost var look := LookAt(cam.target, cam.curDist, cam.curPhi, cam.curTheta, sin, cos);
      ghost var k := PanScale(cam.tgtDist, 1.35);
      ghost var panned := PanTo(app.viewMode, cam.tgtPan, look, info.cx - touchCenter.x,
                                info.cy - touchCenter.y, k, sqrt);
      cam.PanBy(app, info.cx - touchCenter.x, info.cy - touchCenter.y, 1.35, sin, cos, sqrt);
      assert cam.tgtPan == panned;
      cam.ZoomBy(app, sim, touchDist - info.dist, 0.0048, exp);
      assert cam.tgtPan == panned;
      touchCenter := Point(info.cx, info.cy);
      touchDist := info.dist;
      assert look == LookAt(cam.target, cam.curDist, cam.curPhi, cam.curTheta, sin, cos);
    }

    /** `touchend` (js/camera.js:218-225): with no finger left the gesture
        ends; with one left it becomes an orbit from that finger. */
    method TouchEnd(touches: seq<Point>)
      modifies this`touchMode, this`lastM
      ensures |touches| == 0 ==> touchMode == NoTouch && lastM == old(lastM)
      ensures |touches| == 1 ==> touchMode == Orbit && lastM == touches[0]
      ensures |touches| >= 2 ==> touchMode == old(touchMode) && lastM == old(lastM)
    {
      if |touches| == 0 {
        touchMode := NoTouch;
      } else if |touches| == 1 {
        touchMode := Orbit;
        lastM := touches[0];
      }
    }

    /** `dblclick` (js/camera.js:227-241): in a steerable mode, back to the
        mode's home view with the pan removed. */
    method DoubleClick(app: Config.AppState, cam: Camera, sim: Config.Sim)
      modifies cam`tgtTheta, cam`tgtPhi, cam`tgtDist, cam`tgtPan, sim`zoom
      ensures !Steerable(app.viewMode) ==>
        cam.tgtTheta == old(cam.tgtTheta) && cam.tgtPhi == old(cam.tgtPhi) &&
        cam.tgtDist == old(cam.tgtDist) && cam.tgtPan == old(cam.tgtPan) && sim.zoom == old(sim.zoom)
      ensures app.viewMode == Config.Fullscreen ==>
        cam.tgtTheta == 0.0 && cam.tgtPhi == 0.06 && sim.zoom == 100.0 &&
        cam.tgtDist == old(cam.tgtDist) && cam.tgtPan == Zero
      ensures app.viewMode == Config.Stadium ==>
        cam.tgtTheta == 0.0 && cam.tgtPhi == 0.15 && cam.tgtDist == 9.0 &&
        sim.zoom == old(sim.zoom) && cam.tgtPan == Zero
      ensures Steerable(app.viewMode) ==> cam.PhiInRange() && InPanBox(app.viewMode, cam.tgtPan)
    {
      if app.viewMode != Config.Stadium && app.viewMode != Config.Fullscreen {
        return;
      }
      if app.viewMode == Config.Fullscreen {
        cam.tgtTheta := 0.0;
        cam.tgtPhi := 0.06;
        sim.zoom := 100.0;
      } else {
        cam.tgtTheta := 0.0;
        cam.tgtPhi := 0.15;
        cam.tgtDist := 9.0;
      }
      cam.tgtPan := cam.tgtPan.(x := 0.0);
      cam.tgtPan := cam.tgtPan.(y := 0.0);
      cam.tgtPan := cam.tgtPan.(z := 0.0);
    }
  }
}
