/** The per-frame update of the cloth (js/cloth.js:116-278) as functions on
    the particle buffers: the frame-time clamp, the substep and iteration
    counts, the stadium sweep of column 0, the Verlet step, the distance
    constraint projection and the normal computation. Forces, the damping
    power and the trigonometry are parameters. */
module Physics {
  import opened Vectors
  import Grid

  const Substeps: nat := 3
  const MinDt: real := 0.006
  const MaxDt: real := 0.02
  /** Constraints whose endpoints are closer than this are skipped. */
  const MinDist: real := 0.0000001

  function Min(a: real, b: real): real {
    if a <= b then a else b
  }

  function Max(a: real, b: real): real {
    if a >= b then a else b
  }

  // ---------------------------------------------------------------------
  // Frame time and counts (js/cloth.js:118-137)

  /** The frame time actually simulated. */
  function ClampDt(frameDt: real): (dt: real)
    ensures MinDt <= dt <= MaxDt
    ensures MinDt <= frameDt <= MaxDt ==> dt == frameDt
    ensures frameDt <= MinDt ==> dt == MinDt
    ensures frameDt >= MaxDt ==> dt == MaxDt
  {
    Min(Max(frameDt, MinDt), MaxDt)
  }

  /** Constraint iterations per substep for a stiffness setting. */
  function Iterations(stiffness: real): (k: int)
    ensures (k - 3) as real <= stiffness / 100.0 * 3.0 < (k - 2) as real
  {
    (stiffness / 100.0 * 3.0).Floor + 3
  }

  /** Over the slider range the solver runs 3 to 6 iterations; the shipped
      stiffness 40 and the reset value 55 both give 4. */
  lemma IterationsRange(stiffness: real)
    requires 0.0 <= stiffness <= 100.0
    ensures 3 <= Iterations(stiffness) <= 6
    ensures Iterations(100.0) == 6 && Iterations(0.0) == 3
    ensures Iterations(40.0) == 4 && Iterations(55.0) == 4
  {
  }

  /** Three substeps of a third of the clamped frame cover the frame. */
  lemma SubstepsCoverFrame(frameDt: real, t0: real)
    ensures var subDt := ClampDt(frameDt) / Substeps as real;
      t0 + subDt + subDt + subDt == t0 + ClampDt(frameDt) && subDt > 0.0
  {
  }

  // ---------------------------------------------------------------------
  // Stadium sweep (js/cloth.js:141-155)

  /** Where the stadium sweep puts row `j` of column 0 at time `t`: a
      figure-eight around the pole, bobbing about the row's rest height. */
  function SweepPos(t: real, j: nat, rows: nat, h: real, sin: real -> real, cos: real -> real): Vec3
    requires rows >= 2
  {
    var vn := j as real / (rows - 1) as real;
    var restY := -vn * h + h * 0.5;
    var phase := t * 1.4 + vn * 0.35;
    Vec3(2.8 * sin(phase), restY + 0.25 * sin(2.0 * phase), 1.4 * cos(phase))
  }

  /** The sweep oscillates about the rest height of the row. */
  lemma SweepAboutRest(t: real, cols: nat, rows: nat, w: real, h: real, j: nat,
                       sin: real -> real, cos: real -> real)
    requires cols >= 2 && rows >= 2
    ensures SweepPos(t, j, rows, h, sin, cos).y
         == Grid.RestPos(cols, rows, w, h, 0, j).y
            + 0.25 * sin(2.0 * (t * 1.4 + j as real / (rows - 1) as real * 0.35))
  {
  }

  /** A buffer after the sweep: column 0 takes the sweep positions, every
      other particle keeps its value. */
  function Sweep(ps: seq<Vec3>, cols: nat, rows: nat, h: real, t: real,
                 sin: real -> real, cos: real -> real): (r: seq<Vec3>)
    requires cols >= 1 && rows >= 2
    ensures |r| == |ps|
  {
    seq(|ps|, p requires 0 <= p < |ps| =>
      if p % cols == 0 then SweepPos(t, p / cols, rows, h, sin, cos) else ps[p])
  }

  /** The buffer once the first `j` rows have been swept. */
  function SweepRows(ps: seq<Vec3>, cols: nat, rows: nat, h: real, t: real,
                     sin: real -> real, cos: real -> real, j: nat): (r: seq<Vec3>)
    requires cols >= 1 && rows >= 2
    ensures |r| == |ps|
  {
    seq(|ps|, p requires 0 <= p < |ps| =>
      if p % cols == 0 && p / cols < j then SweepPos(t, p / cols, rows, h, sin, cos) else ps[p])
  }

  /** Sweeping row `j` writes exactly particle `j * cols`. */
  lemma SweepRowsStep(ps: seq<Vec3>, cols: nat, rows: nat, h: real, t: real,
                      sin: real -> real, cos: real -> real, j: nat)
    requires cols >= 1 && rows >= 2 && j < rows && |ps| == cols * rows
    ensures j * cols < |ps|
    ensures SweepRows(ps, cols, rows, h, t, sin, cos, j + 1)
         == SweepRows(ps, cols, rows, h, t, sin, cos, j)[j * cols := SweepPos(t, j, rows, h, sin, cos)]
  {
    Grid.IndexRoundTrip(cols, 0, j);
    Grid.IndexBound(cols, rows, 0, j);
  }

  /** Sweeping every row is the sweep. */
  lemma SweepRowsAll(ps: seq<Vec3>, cols: nat, rows: nat, h: real, t: real,
                     sin: real -> real, cos: real -> real)
    requires cols >= 1 && rows >= 2 && |ps| == cols * rows
    ensures SweepRows(ps, cols, rows, h, t, sin, cos, rows) == Sweep(ps, cols, rows, h, t, sin, cos)
    ensures SweepRows(ps, cols, rows, h, t, sin, cos, 0) == ps
  {
    var all := SweepRows(ps, cols, rows, h, t, sin, cos, rows);
    var none := SweepRows(ps, cols, rows, h, t, sin, cos, 0);
    var sw := Sweep(ps, cols, rows, h, t, sin, cos);
    forall q | 0 <= q < |ps|
      ensures all[q] == sw[q] && none[q] == ps[q]
    {
      assert q < rows * cols;
      Grid.DivBelow(q, cols, rows);
    }
    assert all == sw;
    assert none == ps;
  }

  // ---------------------------------------------------------------------
  // Verlet integration (js/cloth.js:157-236)

  /** Position Verlet with damping: the implicit velocity `x - x0` is damped,
      and the force contributes `f * dt2`. */
  function Verlet(x: Vec3, x0: Vec3, damp: real, dt2: real, f: Vec3): Vec3 {
    Add(Add(x, Scale(Sub(x, x0), damp)), Scale(f, dt2))
  }

  /** The new implicit velocity is the damped old one plus the force
      impulse; a particle at rest without force stays put. */
  lemma VerletVelocity(x: Vec3, x0: Vec3, damp: real, dt2: real, f: Vec3)
    ensures Sub(Verlet(x, x0, damp, dt2, f), x) == Add(Scale(Sub(x, x0), damp), Scale(f, dt2))
    ensures x == x0 && f == Zero ==> Verlet(x, x0, damp, dt2, f) == x
  {
  }

  /** `pos` after the integrator loop of substep `s`: fixed particles are
      skipped; every other particle takes its Verlet step under the force
      `force(s, p, pos[p])` composed for it. */
  function IntegratePos(ps: seq<Vec3>, pv: seq<Vec3>, fixed: seq<bool>, damp: real, dt2: real,
                        force: (nat, nat, Vec3) -> Vec3, s: nat): (r: seq<Vec3>)
    requires |pv| == |ps| && |fixed| == |ps|
    ensures |r| == |ps|
  {
    seq(|ps|, p requires 0 <= p < |ps| =>
      if fixed[p] then ps[p] else Verlet(ps[p], pv[p], damp, dt2, force(s, p, ps[p])))
  }

  /** `prev` after the integrator loop: a free particle stores the position it
      had before its step. */
  function IntegratePrev(ps: seq<Vec3>, pv: seq<Vec3>, fixed: seq<bool>): (r: seq<Vec3>)
    requires |pv| == |ps| && |fixed| == |ps|
    ensures |r| == |ps|
  {
    seq(|ps|, p requires 0 <= p < |ps| => if fixed[p] then pv[p] else ps[p])
  }

  // ---------------------------------------------------------------------
  // Constraint projection (js/cloth.js:238-258)

  /** The distance between the endpoints of a constraint, as the solver
      computes it. */
  function Dist(ps: seq<Vec3>, a: nat, b: nat, sqrt: real -> real): real
    requires a < |ps| && b < |ps|
  {
    sqrt(NormSq(Sub(ps[b], ps[a])))
  }

  /** Half the correction that brings a pair with offset `d` and length
      `dist` to length `rest`. */
  function Correction(d: Vec3, dist: real, rest: real): Vec3
    requires dist != 0.0
  {
    Scale(d, (dist - rest) / dist * 0.5)
  }

  /** One Gauss-Seidel projection of constraint (a, b) with rest length
      `rest`. When both ends are free each moves by half the correction;
      when only one is free it moves by the whole of it. The writes are
      sequential, as in the source. */
  function RelaxStep(ps: seq<Vec3>, fixed: seq<bool>, a: nat, b: nat, rest: real,
                     sqrt: real -> real): (r: seq<Vec3>)
    requires a < |ps| && b < |ps| && |fixed| == |ps|
    ensures |r| == |ps|
  {
    var d := Sub(ps[b], ps[a]);
    var dist := sqrt(NormSq(d));
    if dist < MinDist then ps
    else
      var c := Correction(d, dist, rest);
      if !fixed[a] && !fixed[b] then
        var r1 := ps[a := Add(ps[a], c)];
        r1[b := Sub(r1[b], c)]
      else if !fixed[a] then
        ps[a := Add(ps[a], Scale(c, 2.0))]
      else if !fixed[b] then
        ps[b := Sub(ps[b], Scale(c, 2.0))]
      else
        ps
  }

  /** Only the two endpoints can change, and a fixed endpoint never does. A
      pair closer than MinDist, or with both ends fixed, is left alone. */
  lemma RelaxStepFrame(ps: seq<Vec3>, fixed: seq<bool>, a: nat, b: nat, rest: real, sqrt: real -> real)
    requires a < |ps| && b < |ps| && |fixed| == |ps|
    ensures var r := RelaxStep(ps, fixed, a, b, rest, sqrt);
      (forall k :: 0 <= k < |ps| && k != a && k != b ==> r[k] == ps[k]) &&
      (forall k :: 0 <= k < |ps| && fixed[k] ==> r[k] == ps[k]) &&
      (Dist(ps, a, b, sqrt) < MinDist || (fixed[a] && fixed[b]) ==> r == ps)
  {
  }

  /** Moving both free endpoints by opposite corrections keeps their sum, and
      so the pair's midpoint. */
  lemma RelaxStepKeepsMidpoint(ps: seq<Vec3>, fixed: seq<bool>, a: nat, b: nat, rest: real,
                               sqrt: real -> real)
    requires a < |ps| && b < |ps| && |fixed| == |ps| && a != b
    requires !fixed[a] && !fixed[b]
    ensures var r := RelaxStep(ps, fixed, a, b, rest, sqrt);
      Add(r[a], r[b]) == Add(ps[a], ps[b])
  {
  }

  lemma CorrectionFactor(dist: real, rest: real)
    requires dist != 0.0
    ensures 1.0 - 2.0 * ((dist - rest) / dist * 0.5) == rest / dist
  {
    var e := (dist - rest) / dist;
    var q := rest / dist;
    assert e * dist == dist - rest && q * dist == rest;
    assert (e + q - 1.0) * dist == 0.0;
    MulZero(e + q - 1.0, dist);
  }

  lemma ApplyCorrection(d: Vec3, diff: real, k: real)
    requires 1.0 - 2.0 * diff == k
    ensures Sub(d, Scale(Scale(d, diff), 2.0)) == Scale(d, k)
  {
    assert d.x * k == d.x - d.x * diff * 2.0;
    assert d.y * k == d.y - d.y * diff * 2.0;
    assert d.z * k == d.z - d.z * diff * 2.0;
  }

  /** Taking the whole correction off an offset of length `dist` leaves an
      offset of length `rest`. */
  lemma CorrectedLength(d: Vec3, dist: real, rest: real)
    requires dist > 0.0 && Sq(dist) == NormSq(d)
    ensures NormSq(Sub(d, Scale(Correction(d, dist, rest), 2.0))) == Sq(rest)
  {
    var diff := (dist - rest) / dist * 0.5;
    CorrectionFactor(dist, rest);
    ApplyCorrection(d, diff, rest / dist);
    ScaleToLength(d, dist, rest);
  }

  /** Whenever the projection moves something, the pair ends up exactly at
      its rest length: both free, or only one free (which then takes the
      doubled correction). Only the square root of this one pair's squared
      length matters, so that is all the lemma asks of `sqrt`. */
  lemma RelaxStepRestLength(ps: seq<Vec3>, fixed: seq<bool>, a: nat, b: nat, rest: real,
                            sqrt: real -> real)
    requires a < |ps| && b < |ps| && |fixed| == |ps|
    requires Sq(Dist(ps, a, b, sqrt)) == NormSq(Sub(ps[b], ps[a]))
    requires Dist(ps, a, b, sqrt) >= MinDist && !(fixed[a] && fixed[b])
    ensures var r := RelaxStep(ps, fixed, a, b, rest, sqrt);
      NormSq(Sub(r[b], r[a])) == Sq(rest)
  {
    var d := Sub(ps[b], ps[a]);
    var dist := sqrt(NormSq(d));
    if a == b {
      assert Sq(dist) == 0.0;
      SqZero(dist);
      assert false;
    }
    CorrectedLength(d, dist, rest);
    var c := Correction(d, dist, rest);
    var r := RelaxStep(ps, fixed, a, b, rest, sqrt);
    if !fixed[a] && !fixed[b] {
      assert r[a] == Add(ps[a], c) && r[b] == Sub(ps[b], c);
    } else if !fixed[a] {
      assert r[a] == Add(ps[a], Scale(c, 2.0)) && r[b] == ps[b];
    } else {
      assert r[b] == Sub(ps[b], Scale(c, 2.0)) && r[a] == ps[a];
    }
    assert Sub(r[b], r[a]) == Sub(d, Scale(c, 2.0));
  }

  /** Every constraint joins two particles of the buffer. */
  predicate LinksWithin(n: nat, cA: seq<nat>, cB: seq<nat>, cR: seq<real>) {
    |cA| == |cB| == |cR| && forall k :: 0 <= k < |cA| ==> cA[k] < n && cB[k] < n
  }

  /** The buffer after the first `k` constraints have been projected, in
      list order. */
  function RelaxPass(ps: seq<Vec3>, fixed: seq<bool>, cA: seq<nat>, cB: seq<nat>, cR: seq<real>,
                     sqrt: real -> real, k: nat): (r: seq<Vec3>)
    requires |fixed| == |ps| && LinksWithin(|ps|, cA, cB, cR) && k <= |cA|
    ensures |r| == |ps|
  {
    if k == 0 then ps
    else RelaxStep(RelaxPass(ps, fixed, cA, cB, cR, sqrt, k - 1), fixed, cA[k - 1], cB[k - 1], cR[k - 1], sqrt)
  }

  /** The buffer after `m` full passes over the constraint list. */
  function RelaxIters(ps: seq<Vec3>, fixed: seq<bool>, cA: seq<nat>, cB: seq<nat>, cR: seq<real>,
                      sqrt: real -> real, m: nat): (r: seq<Vec3>)
    requires |fixed| == |ps| && LinksWithin(|ps|, cA, cB, cR)
    ensures |r| == |ps|
  {
    if m == 0 then ps
    else RelaxPass(RelaxIters(ps, fixed, cA, cB, cR, sqrt, m - 1), fixed, cA, cB, cR, sqrt, |cA|)
  }

  /** The number of passes a (possibly negative) iteration count runs. */
  function Passes(iterations: int): nat {
    if iterations < 0 then 0 else iterations
  }

  lemma {:induction false} RelaxPassKeepsFixed(ps: seq<Vec3>, fixed: seq<bool>, cA: seq<nat>, cB: seq<nat>,
                                              cR: seq<real>, sqrt: real -> real, k: nat, p: nat)
    requires |fixed| == |ps| && LinksWithin(|ps|, cA, cB, cR) && k <= |cA|
    requires p < |ps| && fixed[p]
    ensures RelaxPass(ps, fixed, cA, cB, cR, sqrt, k)[p] == ps[p]
  {
    if k > 0 {
      RelaxPassKeepsFixed(ps, fixed, cA, cB, cR, sqrt, k - 1, p);
      RelaxStepFrame(RelaxPass(ps, fixed, cA, cB, cR, sqrt, k - 1), fixed, cA[k - 1], cB[k - 1], cR[k - 1], sqrt);
    }
  }

  /** The constraint solver never moves a fixed particle, however many passes
      it runs. */
  lemma {:induction false} RelaxItersKeepsFixed(ps: seq<Vec3>, fixed: seq<bool>, cA: seq<nat>, cB: seq<nat>,
                                               cR: seq<real>, sqrt: real -> real, m: nat, p: nat)
    requires |fixed| == |ps| && LinksWithin(|ps|, cA, cB, cR)
    requires p < |ps| && fixed[p]
    ensures RelaxIters(ps, fixed, cA, cB, cR, sqrt, m)[p] == ps[p]
  {
    if m > 0 {
      RelaxItersKeepsFixed(ps, fixed, cA, cB, cR, sqrt, m - 1, p);
      RelaxPassKeepsFixed(RelaxIters(ps, fixed, cA, cB, cR, sqrt, m - 1), fixed, cA, cB, cR, sqrt, |cA|, p);
    }
  }

  // ---------------------------------------------------------------------
  // Normals (js/cloth.js:261-277)

  /** The (area-weighted) normal of triangle (a, b, c): the cross product of
      its edges from `a`. */
  function FaceNormal(ps: seq<Vec3>, a: nat, b: nat, c: nat): Vec3
    requires a < |ps| && b < |ps| && c < |ps|
  {
    Cross(Sub(ps[b], ps[a]), Sub(ps[c], ps[a]))
  }

  /** A face normal is orthogonal to both edges of its triangle. */
  lemma FaceNormalOrthogonal(ps: seq<Vec3>, a: nat, b: nat, c: nat)
    requires a < |ps| && b < |ps| && c < |ps|
    ensures Dot(FaceNormal(ps, a, b, c), Sub(ps[b], ps[a])) == 0.0
    ensures Dot(FaceNormal(ps, a, b, c), Sub(ps[c], ps[a])) == 0.0
  {
    CrossOrthogonal(Sub(ps[b], ps[a]), Sub(ps[c], ps[a]));
  }

  /** Adds a face normal to the accumulators of its three corners, one after
      the other. */
  function AddFace(acc: seq<Vec3>, a: nat, b: nat, c: nat, n: Vec3): (r: seq<Vec3>)
    requires a < |acc| && b < |acc| && c < |acc|
    ensures |r| == |acc|
  {
    var r1 := acc[a := Add(acc[a], n)];
    var r2 := r1[b := Add(r1[b], n)];
    r2[c := Add(r2[c], n)]
  }

  /** A triangle adds its normal to exactly its three (distinct) corners. */
  lemma AddFaceCorners(acc: seq<Vec3>, a: nat, b: nat, c: nat, n: Vec3)
    requires a < |acc| && b < |acc| && c < |acc| && a != b && b != c && a != c
    ensures var r := AddFace(acc, a, b, c, n);
      r[a] == Add(acc[a], n) && r[b] == Add(acc[b], n) && r[c] == Add(acc[c], n) &&
      forall k :: 0 <= k < |acc| && k != a && k != b && k != c ==> r[k] == acc[k]
  {
  }

  /** Every triangle index names a particle. */
  predicate TrianglesWithin(n: nat, tri: seq<nat>) {
    forall k :: 0 <= k < |tri| ==> tri[k] < n
  }

  /** The accumulators after the first `m` triangles, starting from zero. */
  function Accumulate(ps: seq<Vec3>, tri: seq<nat>, m: nat): (r: seq<Vec3>)
    requires TrianglesWithin(|ps|, tri) && 3 * m <= |tri|
    ensures |r| == |ps|
  {
    if m == 0 then seq(|ps|, _ => Zero)
    else
      var t := 3 * (m - 1);
      AddFace(Accumulate(ps, tri, m - 1), tri[t], tri[t + 1], tri[t + 2],
              FaceNormal(ps, tri[t], tri[t + 1], tri[t + 2]))
  }

  lemma DotScale(v: Vec3, k: real)
    ensures Dot(Scale(v, k), v) == k * NormSq(v)
  {
  }

  /** The guarded normalisation: an accumulator of positive length becomes
      the unit vector in its direction; one of length zero is the zero
      vector and is kept. */
  function Normalize(v: Vec3, sqrt: real -> real): (r: Vec3)
    requires IsSqrt(sqrt)
    ensures NormSq(v) > 0.0 ==> NormSq(r) == 1.0 && Cross(r, v) == Zero && Dot(r, v) > 0.0
    ensures NormSq(v) == 0.0 ==> r == v == Zero
  {
    NormSqZero(v);
    var len := sqrt(NormSq(v));
    SqrtPositive(sqrt, NormSq(v));
    if len > 0.0 then
      DivByLength(v, len);
      DivIsScale(v, len);
      DotScale(v, 1.0 / len);
      assert (1.0 / len) * Sq(len) == len;
      Div(v, len)
    else
      v
  }

  /** Every accumulator normalised. */
  function NormalizeEach(acc: seq<Vec3>, sqrt: real -> real): (r: seq<Vec3>)
    requires IsSqrt(sqrt)
    ensures |r| == |acc|
  {
    seq(|acc|, i requires 0 <= i < |acc| => Normalize(acc[i], sqrt))
  }

  /** The normal buffer computed from the positions: accumulate every
      triangle, then normalise each particle's sum. */
  function Normals(ps: seq<Vec3>, tri: seq<nat>, sqrt: real -> real): (r: seq<Vec3>)
    requires IsSqrt(sqrt) && TrianglesWithin(|ps|, tri)
    ensures |r| == |ps|
  {
    NormalizeEach(Accumulate(ps, tri, |tri| / 3), sqrt)
  }

  /** Each normal is a unit vector in the direction of its accumulator, or
      the zero vector when the accumulator is zero. */
  lemma NormalizeEachUnit(acc: seq<Vec3>, sqrt: real -> real, p: nat)
    requires IsSqrt(sqrt) && p < |acc|
    ensures acc[p] != Zero ==> NormSq(NormalizeEach(acc, sqrt)[p]) == 1.0
    ensures acc[p] == Zero ==> NormalizeEach(acc, sqrt)[p] == Zero
  {
    NormSqZero(acc[p]);
  }

  // ---------------------------------------------------------------------
  // Substeps (js/cloth.js:128-259)

  /** What a frame reads of the cloth: grid shape, flag height, pin flags and
      the constraint list. */
  datatype Topology = Topology(cols: nat, rows: nat, flagH: real, fixed: seq<bool>,
                               cA: seq<nat>, cB: seq<nat>, cR: seq<real>)

  predicate ValidTopology(tp: Topology, n: nat) {
    tp.cols >= 2 && tp.rows >= 2 && n == tp.cols * tp.rows && |tp.fixed| == n &&
    LinksWithin(n, tp.cA, tp.cB, tp.cR)
  }

  datatype Particles = Particles(pos: seq<Vec3>, prev: seq<Vec3>)

  /** The per-frame settings every substep uses. */
  datatype Settings = Settings(stadium: bool, subDt: real, damp: real, iterations: int)

  /** The settings of a frame: the substep length is a third of the clamped
      frame time, the damping factor is `(damping / 100)` raised to
      `subDt * 60`, and the iteration count follows the stiffness. */
  function FrameSettings(frameDt: real, stadium: bool, damping: real, stiffness: real,
                         pow: (real, real) -> real): (cfg: Settings)
    ensures cfg.subDt * Substeps as real == ClampDt(frameDt)
    ensures MinDt / 3.0 <= cfg.subDt <= MaxDt / 3.0
    ensures cfg.stadium == stadium && cfg.iterations == Iterations(stiffness)
  {
    var subDt := ClampDt(frameDt) / Substeps as real;
    Settings(stadium, subDt, pow(damping / 100.0, subDt * 60.0), Iterations(stiffness))
  }

  /** The stadium override of a substep at time `t`: when the view is
      "stadium" column 0 of both position buffers is set to its sweep
      position, otherwise nothing changes. */
  function Override(tp: Topology, st: Particles, stadium: bool, t: real,
                    sin: real -> real, cos: real -> real): (r: Particles)
    requires ValidTopology(tp, |st.pos|) && |st.prev| == |st.pos|
    ensures |r.pos| == |st.pos| && |r.prev| == |st.pos|
  {
    if stadium then
      Particles(Sweep(st.pos, tp.cols, tp.rows, tp.flagH, t, sin, cos),
                Sweep(st.prev, tp.cols, tp.rows, tp.flagH, t, sin, cos))
    else st
  }

  /** The integrator followed by the constraint passes. */
  function Dynamics(tp: Topology, st: Particles, cfg: Settings, s: nat,
                    force: (nat, nat, Vec3) -> Vec3, sqrt: real -> real): (r: Particles)
    requires ValidTopology(tp, |st.pos|) && |st.prev| == |st.pos|
    ensures |r.pos| == |st.pos| && |r.prev| == |st.pos|
  {
    var pos1 := IntegratePos(st.pos, st.prev, tp.fixed, cfg.damp, Sq(cfg.subDt), force, s);
    Particles(RelaxIters(pos1, tp.fixed, tp.cA, tp.cB, tp.cR, sqrt, Passes(cfg.iterations)),
              IntegratePrev(st.pos, st.prev, tp.fixed))
  }

  /** One substep at time `t` (already advanced): the stadium override, the
      integrator, then the constraint passes. */
  function Substep(tp: Topology, st: Particles, cfg: Settings, s: nat, t: real,
                   force: (nat, nat, Vec3) -> Vec3, sin: real -> real, cos: real -> real,
                   sqrt: real -> real): (r: Particles)
    requires ValidTopology(tp, |st.pos|) && |st.prev| == |st.pos|
    ensures |r.pos| == |st.pos| && |r.prev| == |st.pos|
  {
    Dynamics(tp, Override(tp, st, cfg.stadium, t, sin, cos), cfg, s, force, sqrt)
  }

  /** The clock after `k` substeps of `subDt` from `t0`. */
  function Clock(t0: real, subDt: real, k: nat): real {
    if k == 0 then t0 else Clock(t0, subDt, k - 1) + subDt
  }

  /** The particle state after the first `k` substeps of a frame that starts
      at time `t0`. */
  function Run(tp: Topology, st: Particles, cfg: Settings, t0: real, k: nat,
               force: (nat, nat, Vec3) -> Vec3, sin: real -> real, cos: real -> real,
               sqrt: real -> real): (r: Particles)
    requires ValidTopology(tp, |st.pos|) && |st.prev| == |st.pos|
    ensures |r.pos| == |st.pos| && |r.prev| == |st.pos|
  {
    if k == 0 then st
    else
      Substep(tp, Run(tp, st, cfg, t0, k - 1, force, sin, cos, sqrt), cfg, k - 1,
              Clock(t0, cfg.subDt, k), force, sin, cos, sqrt)
  }

  /** One more substep of a run, from the state `cur` the run has reached. */
  lemma RunNext(tp: Topology, st: Particles, cfg: Settings, t0: real, k: nat,
                force: (nat, nat, Vec3) -> Vec3, sin: real -> real, cos: real -> real,
                sqrt: real -> real, cur: Particles, t: real)
    requires ValidTopology(tp, |st.pos|) && |st.prev| == |st.pos|
    requires cur == Run(tp, st, cfg, t0, k, force, sin, cos, sqrt)
    requires t == Clock(t0, cfg.subDt, k) + cfg.subDt
    ensures t == Clock(t0, cfg.subDt, k + 1)
    ensures Run(tp, st, cfg, t0, k + 1, force, sin, cos, sqrt) == Substep(tp, cur, cfg, k, t, force, sin, cos, sqrt)
  {
  }

  /** Pinned particles in one substep: outside the stadium sweep they are not
      touched; a swept one (column 0 in stadium mode) ends with `pos == prev`
      at its sweep position. A free particle's `prev` is the position it had
      when the integrator reached it. */
  lemma SubstepPinned(tp: Topology, st: Particles, cfg: Settings, s: nat, t: real,
                      force: (nat, nat, Vec3) -> Vec3, sin: real -> real, cos: real -> real,
                      sqrt: real -> real, p: nat)
    requires ValidTopology(tp, |st.pos|) && |st.prev| == |st.pos| && p < |st.pos|
    ensures var r := Substep(tp, st, cfg, s, t, force, sin, cos, sqrt);
      var swept := cfg.stadium && p % tp.cols == 0;
      var sw := SweepPos(t, p / tp.cols, tp.rows, tp.flagH, sin, cos);
      (tp.fixed[p] && swept ==> r.pos[p] == sw && r.prev[p] == sw) &&
      (tp.fixed[p] && !swept ==> r.pos[p] == st.pos[p] && r.prev[p] == st.prev[p]) &&
      (!tp.fixed[p] ==> r.prev[p] == (if swept then sw else st.pos[p]))
  {
    var o := Override(tp, st, cfg.stadium, t, sin, cos);
    var pos1 := IntegratePos(o.pos, o.prev, tp.fixed, cfg.damp, Sq(cfg.subDt), force, s);
    var prev1 := IntegratePrev(o.pos, o.prev, tp.fixed);
    var swept := cfg.stadium && p % tp.cols == 0;
    assert o.pos[p] == (if swept then SweepPos(t, p / tp.cols, tp.rows, tp.flagH, sin, cos) else st.pos[p]);
    assert o.prev[p] == (if swept then SweepPos(t, p / tp.cols, tp.rows, tp.flagH, sin, cos) else st.prev[p]);
    var r := Substep(tp, st, cfg, s, t, force, sin, cos, sqrt);
    assert r == Dynamics(tp, o, cfg, s, force, sqrt);
    assert r.prev == prev1;
    assert r.pos == RelaxIters(pos1, tp.fixed, tp.cA, tp.cB, tp.cR, sqrt, Passes(cfg.iterations));
    if tp.fixed[p] {
      assert pos1[p] == o.pos[p] && prev1[p] == o.prev[p];
      RelaxItersKeepsFixed(pos1, tp.fixed, tp.cA, tp.cB, tp.cR, sqrt, Passes(cfg.iterations), p);
    } else {
      assert prev1[p] == o.pos[p];
    }
  }

  /** In stadium mode a pinned particle of column 0 ends every run of at
      least one substep at the sweep position of the last substep's time,
      with `pos == prev`. */
  lemma RunPinnedSwept(tp: Topology, st: Particles, cfg: Settings, t0: real, k: nat,
                       force: (nat, nat, Vec3) -> Vec3, sin: real -> real,
                       cos: real -> real, sqrt: real -> real, p: nat)
    requires ValidTopology(tp, |st.pos|) && |st.prev| == |st.pos| && p < |st.pos| && tp.fixed[p]
    requires cfg.stadium && p % tp.cols == 0 && k > 0
    ensures Run(tp, st, cfg, t0, k, force, sin, cos, sqrt).pos[p]
         == SweepPos(Clock(t0, cfg.subDt, k), p / tp.cols, tp.rows, tp.flagH, sin, cos)
    ensures Run(tp, st, cfg, t0, k, force, sin, cos, sqrt).prev[p]
         == SweepPos(Clock(t0, cfg.subDt, k), p / tp.cols, tp.rows, tp.flagH, sin, cos)
  {
    SubstepPinned(tp, Run(tp, st, cfg, t0, k - 1, force, sin, cos, sqrt), cfg, k - 1,
                  Clock(t0, cfg.subDt, k), force, sin, cos, sqrt, p);
  }

  /** Over a whole run of substeps a pinned particle outside the sweep never
      moves. */
  lemma {:induction false} RunPinnedStill(tp: Topology, st: Particles, cfg: Settings, t0: real, k: nat,
                                          force: (nat, nat, Vec3) -> Vec3, sin: real -> real,
                                          cos: real -> real, sqrt: real -> real, p: nat)
    requires ValidTopology(tp, |st.pos|) && |st.prev| == |st.pos| && p < |st.pos| && tp.fixed[p]
    requires !(cfg.stadium && p % tp.cols == 0)
    ensures Run(tp, st, cfg, t0, k, force, sin, cos, sqrt).pos[p] == st.pos[p]
    ensures Run(tp, st, cfg, t0, k, force, sin, cos, sqrt).prev[p] == st.prev[p]
  {
    if k > 0 {
      RunPinnedStill(tp, st, cfg, t0, k - 1, force, sin, cos, sqrt, p);
      SubstepPinned(tp, Run(tp, st, cfg, t0, k - 1, force, sin, cos, sqrt), cfg, k - 1,
                    Clock(t0, cfg.subDt, k), force, sin, cos, sqrt, p);
    }
  }
}
