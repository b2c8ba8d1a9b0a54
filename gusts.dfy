/** The wind-gust blobs (js/cloth.js:67-114): each gust has a position in
    texture space, a velocity, a radius and a push strength. Positions drift
    and wrap toroidally over [-0.5, 1.5]; velocities and strengths take a
    damped random walk. `Math.random()` values are parameters. */
module Gusts {
  import Vectors

  const NumGusts: nat := 10

  datatype Gust = Gust(x: real, y: real, vx: real, vy: real, r: real, sx: real, sz: real)

  /** The seven `Math.random()` values drawn when one gust is created, in the
      order the source draws them. */
  datatype GustDraws = GustDraws(x: real, y: real, vx: real, vy: real, r: real, sx: real, sz: real)

  /** The four `Math.random()` values drawn when one gust is updated. */
  datatype StepDraws = StepDraws(vx: real, vy: real, sx: real, sz: real)

  /** What `Math.random()` returns: a number in [0, 1). */
  predicate IsRandom(u: real) {
    0.0 <= u < 1.0
  }

  predicate ValidGustDraws(d: GustDraws) {
    IsRandom(d.x) && IsRandom(d.y) && IsRandom(d.vx) && IsRandom(d.vy) &&
    IsRandom(d.r) && IsRandom(d.sx) && IsRandom(d.sz)
  }

  predicate ValidStepDraws(d: StepDraws) {
    IsRandom(d.vx) && IsRandom(d.vy) && IsRandom(d.sx) && IsRandom(d.sz)
  }

  /** A freshly created gust. */
  function InitGust(d: GustDraws): Gust {
    Gust(d.x * 1.4 - 0.2, d.y * 1.4 - 0.2,
         (d.vx - 0.5) * 0.18, (d.vy - 0.5) * 0.12,
         0.15 + d.r * 0.35,
         (d.sx - 0.5) * 2.0, (d.sz - 0.5) * 2.0)
  }

  /** The toroidal wrap of one coordinate: two sequential tests, first the
      low edge, then the high edge. */
  function Wrap(c: real): real {
    var c1 := if c < -0.5 then c + 2.0 else c;
    if c1 > 1.5 then c1 - 2.0 else c1
  }

  /** The wrap shifts by a whole period or not at all, and leaves a
      coordinate inside the window alone. */
  lemma WrapShift(c: real)
    ensures Wrap(c) == c || Wrap(c) == c + 2.0 || Wrap(c) == c - 2.0
    ensures -0.5 <= c <= 1.5 ==> Wrap(c) == c
  {
  }

  /** Drift of one position coordinate over `dt`, then the wrap. */
  function Drift(c: real, v: real, dt: real): real {
    Wrap(c + v * dt)
  }

  /** One damped random-walk step driven by the draw `u`. */
  function Walk(v: real, u: real, dt: real, gain: real, damping: real): real {
    (v + (u - 0.5) * dt * gain) * damping
  }

  /** One frame of a gust: drift, wrap, then the damped random walks of
      velocity and strength. The radius never changes. */
  function GustStep(g: Gust, dt: real, d: StepDraws): Gust {
    Gust(Drift(g.x, g.vx, dt), Drift(g.y, g.vy, dt),
         Walk(g.vx, d.vx, dt, 0.6, 0.995), Walk(g.vy, d.vy, dt, 0.4, 0.995),
         g.r,
         Walk(g.sx, d.sx, dt, 3.0, 0.99), Walk(g.sz, d.sz, dt, 3.0, 0.99))
  }

  /** The drift of one coordinate followed by the two wrap tests of
      `updateGusts`, low edge first. */
  method DriftCoord(c: real, v: real, dt: real) returns (w: real)
    ensures w == Drift(c, v, dt)
  {
    w := c + v * dt;
    if w < -0.5 { w := w + 2.0; }
    if w > 1.5 { w := w - 2.0; }
  }

  /** One random-walk increment followed by the damping. */
  method WalkCoord(v: real, u: real, dt: real, gain: real, damping: real) returns (w: real)
    ensures w == Walk(v, u, dt, gain, damping)
  {
    w := v + (u - 0.5) * dt * gain;
    w := w * damping;
  }

  /** The loop body of `updateGusts` for one gust, field by field: drift and
      wrap of each coordinate, then the random walks of velocity and
      strength. */
  method StepGust(g: Gust, dt: real, d: StepDraws) returns (r: Gust)
    ensures r == GustStep(g, dt, d)
    ensures r.r == g.r
  {
    var x := DriftCoord(g.x, g.vx, dt);
    var y := DriftCoord(g.y, g.vy, dt);
    var vx := WalkCoord(g.vx, d.vx, dt, 0.6, 0.995);
    var vy := WalkCoord(g.vy, d.vy, dt, 0.4, 0.995);
    var sx := WalkCoord(g.sx, d.sx, dt, 3.0, 0.99);
    var sz := WalkCoord(g.sz, d.sz, dt, 3.0, 0.99);
    r := Gust(x, y, vx, vy, g.r, sx, sz);
  }

  /** The bounds every gust keeps while frames last at most 0.02 s: its
      position inside the wrap window, its radius as created, and velocity and
      strength below the fixed points of their damped walks
      (0.006 / 0.005, 0.004 / 0.005 and 0.03 / 0.01, each times the damping
      factor). */
  predicate Bounded(g: Gust) {
    -0.5 <= g.x <= 1.5 && -0.5 <= g.y <= 1.5 &&
    -1.194 <= g.vx <= 1.194 && -0.796 <= g.vy <= 0.796 &&
    0.15 <= g.r < 0.5 &&
    -2.97 <= g.sx <= 2.97 && -2.97 <= g.sz <= 2.97
  }

  /** New gusts start inside [-0.2, 1.2) and within Bounded. */
  lemma InitGustBounds(d: GustDraws)
    requires ValidGustDraws(d)
    ensures -0.2 <= InitGust(d).x < 1.2 && -0.2 <= InitGust(d).y < 1.2
    ensures Bounded(InitGust(d))
  {
  }

  /** A coordinate inside the window that moves by at most 2 wraps back into
      the window. */
  lemma WrapStaysInWindow(c: real, delta: real)
    requires -0.5 <= c <= 1.5 && -2.0 <= delta <= 2.0
    ensures -0.5 <= Wrap(c + delta) <= 1.5
  {
  }

  lemma MulBound(a: real, b: real, A: real, B: real)
    requires -A <= a <= A && 0.0 <= b <= B
    ensures -(A * B) <= a * b <= A * B
  {
    Vectors.MulNonNegative(A - a, b);
    Vectors.MulNonNegative(a + A, b);
    Vectors.MulNonNegative(A, B - b);
  }

  /** Drift plus wrap keeps a coordinate in the window. */
  lemma DriftStep(c: real, v: real, dt: real, bound: real)
    requires -0.5 <= c <= 1.5 && -bound <= v <= bound && 0.0 <= bound <= 100.0 && 0.0 <= dt <= 0.02
    ensures -0.5 <= Drift(c, v, dt) <= 1.5
  {
    MulBound(v, dt, bound, 0.02);
    WrapStaysInWindow(c, v * dt);
  }

  lemma RandomStep(u: real, dt: real)
    requires IsRandom(u) && 0.0 <= dt <= 0.02
    ensures -0.01 <= (u - 0.5) * dt <= 0.01
  {
    MulBound(u - 0.5, dt, 0.5, 0.02);
  }

  /** A walk step stays within `bound` when `(bound + 0.01 * gain) * damping
      <= bound`; the instances below are the velocity and strength walks. */
  lemma WalkVx(v: real, u: real, dt: real)
    requires -1.194 <= v <= 1.194 && IsRandom(u) && 0.0 <= dt <= 0.02
    ensures -1.194 <= Walk(v, u, dt, 0.6, 0.995) <= 1.194
  {
    RandomStep(u, dt);
  }

  lemma WalkVy(v: real, u: real, dt: real)
    requires -0.796 <= v <= 0.796 && IsRandom(u) && 0.0 <= dt <= 0.02
    ensures -0.796 <= Walk(v, u, dt, 0.4, 0.995) <= 0.796
  {
    RandomStep(u, dt);
  }

  lemma WalkStrength(v: real, u: real, dt: real)
    requires -2.97 <= v <= 2.97 && IsRandom(u) && 0.0 <= dt <= 0.02
    ensures -2.97 <= Walk(v, u, dt, 3.0, 0.99) <= 2.97
  {
    RandomStep(u, dt);
  }

  /** With the clamped frame time (at most 0.02 s) and proper random draws a
      gust step keeps Bounded. */
  lemma GustStepBounded(g: Gust, dt: real, d: StepDraws)
    requires Bounded(g) && 0.0 <= dt <= 0.02 && ValidStepDraws(d)
    ensures Bounded(GustStep(g, dt, d))
  {
    DriftStep(g.x, g.vx, dt, 1.194);
    DriftStep(g.y, g.vy, dt, 0.796);
    WalkVx(g.vx, d.vx, dt);
    WalkVy(g.vy, d.vy, dt);
    WalkStrength(g.sx, d.sx, dt);
    WalkStrength(g.sz, d.sz, dt);
  }
}
