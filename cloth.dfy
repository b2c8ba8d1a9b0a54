/** The cloth engine of js/cloth.js as a class: the particle buffers are arrays
    updated in place by the same loops as the source, and every method is
    proved against the functions of the Physics, Grid and Gusts modules. */
module ClothEngine {
  import opened Vectors
  import opened Grid
  import opened Gusts
  import opened Physics
  import Config

  /** The module-level constants of the cloth: the rest spacings
      (js/config.js:22-24) and the triangle and constraint lists
      (js/cloth.js:34-65). */
  method BuildLayout(cols: nat, rows: nat, flagW: real, flagH: real, sqrt: real -> real)
    returns (dx: real, dy: real, diag: real, tri: seq<nat>, cA: seq<nat>, cB: seq<nat>, cR: seq<real>)
    requires cols >= 2 && rows >= 2
    ensures Layout(cols, rows, flagW, flagH, dx, dy, diag, tri, cA, cB, cR)
    ensures diag == sqrt(Sq(dx) + Sq(dy))
    ensures |tri| % 3 == 0 && forall k :: 0 <= k < |tri| ==> tri[k] < cols * rows
    ensures forall k :: 0 <= k < |cA| ==> cA[k] < cB[k] < cols * rows
  {
    dx := flagW / (cols - 1) as real;
    dy := flagH / (rows - 1) as real;
    diag := sqrt(Sq(dx) + Sq(dy));
    tri := BuildTriangles(cols, rows);
    cA, cB, cR := BuildConstraints(cols, rows, dx, dy, diag);
  }

  class Cloth {
    const cols: nat
    const rows: nat
    /** The number of particles, `cols * rows`. */
    const total: nat
    const flagW: real
    const flagH: real
    const restDx: real
    const restDy: real
    const restDiag: real
    /** One record per particle where the source keeps flat triples. */
    const pos: array<Vec3>
    const prev: array<Vec3>
    const nrm: array<Vec3>
    const uv: array<UV>
    const fixed: array<bool>
    const gusts: array<Gust>
    /** The render triangle list and the constraint lists, built once. */
    const tri: seq<nat>
    const conA: seq<nat>
    const conB: seq<nat>
    const conR: seq<real>
    /** The simulation clock. */
    var time: real

    /** The shape of the buffers: one entry per particle, three separate
        vector buffers, whole triangles and constraints between particles. */
    ghost predicate Valid() {
      cols >= 2 && rows >= 2 && total == cols * rows &&
      pos.Length == total && prev.Length == total && nrm.Length == total &&
      uv.Length == total && fixed.Length == total && gusts.Length == NumGusts &&
      pos != prev && pos != nrm && prev != nrm &&
      |tri| % 3 == 0 && (forall k :: 0 <= k < |tri| ==> tri[k] < total) &&
      |conB| == |conA| && |conR| == |conA| &&
      (forall k :: 0 <= k < |conA| ==> conA[k] < conB[k] < total)
    }

    /** The triangle and constraint lists are the ones the builders produce
        (the six corners of every cell; the constraints of `Grid.ConPushes`,
        which holds every neighbour pair once, in builder order, with the rest
        length of its class), and the rest lengths are the grid spacings. */
    ghost predicate Built()
      requires Valid()
    {
      Layout(cols, rows, flagW, flagH, restDx, restDy, restDiag, tri, conA, conB, conR)
    }

    /** What a frame reads of the cloth besides the particle state. */
    ghost function Topo(): Topology
      reads fixed
    {
      Topology(cols, rows, flagH, fixed[..], conA, conB, conR)
    }

    lemma TopoValid()
      requires Valid()
      ensures ValidTopology(Topo(), pos.Length) && TrianglesWithin(pos.Length, tri)
    {
    }

    /** Values `x`, `x0`, `t` are the rest position, previous position and
        texture coordinate of particle `p`. */
    ghost predicate RestVal(p: nat, x: Vec3, x0: Vec3, t: UV)
      requires Valid()
    {
      x == RestPos(cols, rows, flagW, flagH, p % cols, p / cols) && x0 == x &&
      t == UVAt(cols, rows, p % cols, p / cols)
    }

    /** The first `n` particles are at rest, with `pos == prev`. */
    ghost predicate RestUpTo(n: nat)
      requires Valid()
      reads pos, prev, uv
    {
      n <= total && forall p :: 0 <= p < n ==> RestVal(p, pos[p], prev[p], uv[p])
    }

    /** Every particle is at rest, with `pos == prev`. */
    ghost predicate AtRest()
      reads pos, prev, uv
    {
      Valid() && RestUpTo(total)
    }

    /** Exactly column 0 is pinned. */
    ghost predicate DefaultPins()
      requires Valid()
      reads fixed
    {
      forall p :: 0 <= p < fixed.Length ==> fixed[p] == DefaultPinned(cols, p)
    }

    /** Gust `i` was created from `draws[i]`. */
    ghost predicate GustsFrom(draws: seq<GustDraws>)
      reads gusts
    {
      gusts.Length == |draws| && forall i :: 0 <= i < |draws| ==> gusts[i] == InitGust(draws[i])
    }

    ghost predicate GustsBounded()
      reads gusts
    {
      forall i :: 0 <= i < gusts.Length ==> Bounded(gusts[i])
    }

    /** Module initialisation: allocate the buffers, pin column 0, lay the
        cloth out at rest, build the triangle and constraint lists, create the
        gusts and start the clock at 0. `draws` are the `Math.random()` values
        of the gusts. */
    constructor (cols: nat, rows: nat, flagW: real, flagH: real, sqrt: real -> real,
                 draws: seq<GustDraws>)
      requires cols >= 2 && rows >= 2 && |draws| == NumGusts
      ensures Valid() && Built() && this.cols == cols && this.rows == rows
      ensures this.flagW == flagW && this.flagH == flagH
      ensures restDiag == sqrt(Sq(restDx) + Sq(restDy))
      ensures fresh(pos) && fresh(prev) && fresh(nrm) && fresh(uv) && fresh(fixed) && fresh(gusts)
      ensures DefaultPins() && AtRest() && GustsFrom(draws)
      ensures time == 0.0
    {
      var dx, dy, diag, t, a, b, r := BuildLayout(cols, rows, flagW, flagH, sqrt);
      this.cols := cols;
      this.rows := rows;
      this.flagW := flagW;
      this.flagH := flagH;
      restDx, restDy, restDiag := dx, dy, diag;
      total := cols * rows;
      pos := new Vec3[cols * rows];
      prev := new Vec3[cols * rows];
      nrm := new Vec3[cols * rows];
      uv := new UV[cols * rows];
      fixed := new bool[cols * rows];
      gusts := new Gust[NumGusts];
      tri := t;
      conA, conB, conR := a, b, r;
      time := 0.0;
      new;
      assert Valid() && Built();
      assert restDiag == sqrt(Sq(restDx) + Sq(restDy));
      Setup(draws);
    }

    /** The start-up calls of the module: the default pins, `initCloth` and
        `initGusts`. */
    method Setup(draws: seq<GustDraws>)
      requires Valid() && |draws| == NumGusts
      modifies pos, prev, uv, fixed, gusts
      ensures DefaultPins() && AtRest() && GustsFrom(draws)
    {
      InitFixed();
      InitCloth();
      InitGusts(draws);
    }

    /** The default pin set (js/cloth.js:13-15). */
    method InitFixed()
      requires Valid()
      modifies fixed
      ensures DefaultPins()
    {
      var i := 0;
      while i < fixed.Length
        invariant 0 <= i <= fixed.Length
        invariant forall p :: 0 <= p < i ==> fixed[p] == DefaultPinned(cols, p)
      {
        fixed[i] := i % cols == 0;
        i := i + 1;
      }
    }

    /** `initCloth`: every particle at its rest position, `prev == pos`, and
        its texture coordinate (js/cloth.js:17-31). */
    method InitCloth()
      requires Valid()
      modifies pos, prev, uv
      ensures AtRest()
    {
      var j := 0;
      while j < rows
        invariant 0 <= j <= rows && j * cols <= total
        invariant RestUpTo(j * cols)
      {
        var i := 0;
        while i < cols
          invariant 0 <= i <= cols && j * cols + i <= total
          invariant RestUpTo(j * cols + i)
        {
          PlaceAtRest(i, j);
          i := i + 1;
        }
        assert j * cols + cols == (j + 1) * cols;
        j := j + 1;
      }
      assert rows * cols == total;
    }

    /** The loop body of `initCloth` for particle (i, j), the next one in
        row-major order; nothing else is written. */
    method PlaceAtRest(i: nat, j: nat)
      requires Valid() && i < cols && j < rows && RestUpTo(j * cols + i)
      modifies pos, prev, uv
      ensures RestUpTo(j * cols + i + 1)
      ensures forall p :: 0 <= p < total && p != j * cols + i ==>
        pos[p] == old(pos[p]) && prev[p] == old(prev[p]) && uv[p] == old(uv[p])
    {
      var idx := j * cols + i;
      IndexRoundTrip(cols, i, j);
      IndexBound(cols, rows, i, j);
      var x := (i as real / (cols - 1) as real) * flagW;
      var y := -(j as real / (rows - 1) as real) * flagH + flagH * 0.5;
      pos[idx] := Vec3(x, y, 0.0);
      prev[idx] := Vec3(x, y, 0.0);
      uv[idx] := UV(i as real / (cols - 1) as real, j as real / (rows - 1) as real);
      assert RestVal(idx, pos[idx], prev[idx], uv[idx]);
    }

    /** `initGusts` (js/cloth.js:74-87): gust `i` is built from its seven
        draws. */
    method InitGusts(draws: seq<GustDraws>)
      requires Valid() && |draws| == NumGusts
      modifies gusts
      ensures GustsFrom(draws)
      ensures (forall i :: 0 <= i < NumGusts ==> ValidGustDraws(draws[i])) ==> GustsBounded()
    {
      var i := 0;
      while i < NumGusts
        invariant 0 <= i <= NumGusts
        invariant forall k :: 0 <= k < i ==> gusts[k] == InitGust(draws[k])
      {
        var d := draws[i];
        gusts[i] := Gust(d.x * 1.4 - 0.2, d.y * 1.4 - 0.2,
                         (d.vx - 0.5) * 0.18, (d.vy - 0.5) * 0.12,
                         0.15 + d.r * 0.35,
                         (d.sx - 0.5) * 2.0, (d.sz - 0.5) * 2.0);
        i := i + 1;
      }
      if forall k :: 0 <= k < NumGusts ==> ValidGustDraws(draws[k]) {
        forall k | 0 <= k < NumGusts
          ensures Bounded(gusts[k])
        {
          InitGustBounds(draws[k]);
        }
      }
    }

    /** `updateGusts` (js/cloth.js:90-114): each gust drifts, wraps, and takes
        its random-walk step; `draws[i]` are the four draws of gust `i`. For
        frame times up to 0.02 s the gust bounds are kept. */
    method UpdateGusts(dt: real, draws: seq<StepDraws>)
      requires Valid() && |draws| == NumGusts
      modifies gusts
      ensures forall i :: 0 <= i < NumGusts ==> gusts[i] == GustStep(old(gusts[i]), dt, draws[i])
      ensures (old(GustsBounded()) && 0.0 <= dt <= 0.02 &&
               forall i :: 0 <= i < NumGusts ==> ValidStepDraws(draws[i])) ==> GustsBounded()
    {
      var i := 0;
      while i < NumGusts
        invariant 0 <= i <= NumGusts
        invariant forall k :: 0 <= k < i ==> gusts[k] == GustStep(old(gusts[k]), dt, draws[k])
        invariant forall k :: i <= k < NumGusts ==> gusts[k] == old(gusts[k])
      {
        var g := StepGust(gusts[i], dt, draws[i]);
        gusts[i] := g;
        i := i + 1;
      }
      if old(GustsBounded()) && 0.0 <= dt <= 0.02 &&
         forall k :: 0 <= k < NumGusts ==> ValidStepDraws(draws[k]) {
        forall k | 0 <= k < NumGusts
          ensures Bounded(gusts[k])
        {
          assert Bounded(old(gusts[k]));
          GustStepBounded(old(gusts[k]), dt, draws[k]);
        }
      }
    }

    /** The stadium override (js/cloth.js:142-155): row by row, the pinned
        column-0 particle is moved to its sweep position, with `prev == pos`. */
    method StadiumSweep(sin: real -> real, cos: real -> real)
      requires Valid()
      modifies pos, prev
      ensures pos[..] == Sweep(old(pos[..]), cols, rows, flagH, time, sin, cos)
      ensures prev[..] == Sweep(old(prev[..]), cols, rows, flagH, time, sin, cos)
    {
      ghost var pos0, prev0 := pos[..], prev[..];
      SweepRowsAll(pos0, cols, rows, flagH, time, sin, cos);
      SweepRowsAll(prev0, cols, rows, flagH, time, sin, cos);
      var j := 0;
      while j < rows
        invariant 0 <= j <= rows
        invariant pos[..] == SweepRows(pos0, cols, rows, flagH, time, sin, cos, j)
        invariant prev[..] == SweepRows(prev0, cols, rows, flagH, time, sin, cos, j)
      {
        var p := j * cols;
        SweepRowsStep(pos0, cols, rows, flagH, time, sin, cos, j);
        SweepRowsStep(prev0, cols, rows, flagH, time, sin, cos, j);
        var restY := -(j as real / (rows - 1) as real) * flagH + flagH * 0.5;
        var vn := j as real / (rows - 1) as real;
        var phase := time * 1.4 + vn * 0.35;
        var nx := 2.8 * sin(phase);
        var ny := restY + 0.25 * sin(2.0 * phase);
        var nz := 1.4 * cos(phase);
        pos[p] := Vec3(nx, ny, nz);
        prev[p] := Vec3(nx, ny, nz);
        j := j + 1;
      }
    }

    /** The integrator loop of substep `s` (js/cloth.js:157-236): fixed
        particles are skipped; a free particle first stores its position in
        `prev`, then takes its Verlet step under the composed force. */
    method Integrate(damp: real, dt2: real, force: (nat, nat, Vec3) -> Vec3, s: nat)
      requires Valid()
      modifies pos, prev
      ensures pos[..] == IntegratePos(old(pos[..]), old(prev[..]), fixed[..], damp, dt2, force, s)
      ensures prev[..] == IntegratePrev(old(pos[..]), old(prev[..]), fixed[..])
    {
      ghost var pos0, prev0 := pos[..], prev[..];
      ghost var pos1 := IntegratePos(pos0, prev0, fixed[..], damp, dt2, force, s);
      ghost var prev1 := IntegratePrev(pos0, prev0, fixed[..]);
      var p := 0;
      while p < pos.Length
        invariant 0 <= p <= pos.Length
        invariant forall k :: 0 <= k < p ==> pos[k] == pos1[k] && prev[k] == prev1[k]
        invariant forall k :: p <= k < pos.Length ==> pos[k] == pos0[k] && prev[k] == prev0[k]
      {
        if !fixed[p] {
          var x := pos[p];
          var v := Scale(Sub(x, prev[p]), damp);
          prev[p] := x;
          pos[p] := Add(Add(x, v), Scale(force(s, p, x), dt2));
        }
        p := p + 1;
      }
      assert pos[..] == pos1;
      assert prev[..] == prev1;
    }

    /** The projection of constraint `k` (js/cloth.js:241-256). */
    method Relax(k: nat, sqrt: real -> real)
      requires Valid() && k < |conA|
      modifies pos
      ensures pos[..] == RelaxStep(old(pos[..]), fixed[..], conA[k], conB[k], conR[k], sqrt)
    {
      var a, b := conA[k], conB[k];
      var d := Sub(pos[b], pos[a]);
      var dist := sqrt(NormSq(d));
      if dist < MinDist {
        return;
      }
      var diff := (dist - conR[k]) / dist * 0.5;
      var c := Scale(d, diff);
      var af, bf := fixed[a], fixed[b];
      if !af && !bf {
        pos[a] := Add(pos[a], c);
        pos[b] := Sub(pos[b], c);
      } else if !af {
        pos[a] := Add(pos[a], Scale(c, 2.0));
      } else if !bf {
        pos[b] := Sub(pos[b], Scale(c, 2.0));
      }
    }

    /** The constraint loop (js/cloth.js:238-258): `iterations` passes over
        the constraint list in order; a non-positive count runs none. */
    method SolveConstraints(iterations: int, sqrt: real -> real)
      requires Valid()
      modifies pos
      ensures pos[..] == RelaxIters(old(pos[..]), fixed[..], conA, conB, conR, sqrt, Passes(iterations))
    {
      TopoValid();
      ghost var pos0 := pos[..];
      var it := 0;
      while it < iterations
        invariant 0 <= it <= Passes(iterations)
        invariant pos[..] == RelaxIters(pos0, fixed[..], conA, conB, conR, sqrt, it)
      {
        var c := 0;
        while c < |conA|
          invariant 0 <= c <= |conA|
          invariant pos[..] == RelaxPass(RelaxIters(pos0, fixed[..], conA, conB, conR, sqrt, it),
                                         fixed[..], conA, conB, conR, sqrt, c)
        {
          Relax(c, sqrt);
          c := c + 1;
        }
        it := it + 1;
      }
    }

    /** The normal pass (js/cloth.js:261-277): zero the accumulators, add each
        triangle's face normal to its corners, then normalise. */
    method ComputeNormals(sqrt: real -> real)
      requires Valid() && IsSqrt(sqrt)
      modifies nrm
      ensures nrm[..] == Normals(pos[..], tri, sqrt)
    {
      TopoValid();
      var i := 0;
      while i < nrm.Length
        invariant 0 <= i <= nrm.Length
        invariant forall k :: 0 <= k < i ==> nrm[k] == Zero
      {
        nrm[i] := Zero;
        i := i + 1;
      }
      assert nrm[..] == Accumulate(pos[..], tri, 0);
      var m := 0;
      while 3 * m < |tri|
        invariant 3 * m <= |tri|
        invariant nrm[..] == Accumulate(pos[..], tri, m)
      {
        AddFaceNormal(m);
        m := m + 1;
      }
      assert m == |tri| / 3;
      NormalizeAll(sqrt);
    }

    /** The accumulation of triangle `m`: its face normal is added to its
        three corners in turn. */
    method AddFaceNormal(m: nat)
      requires Valid() && 3 * m + 3 <= |tri|
      requires nrm[..] == Accumulate(pos[..], tri, m)
      modifies nrm
      ensures nrm[..] == Accumulate(pos[..], tri, m + 1)
    {
      TopoValid();
      var t := 3 * m;
      var a, b, c := tri[t], tri[t + 1], tri[t + 2];
      var ab := Sub(pos[b], pos[a]);
      var ac := Sub(pos[c], pos[a]);
      var n := Cross(ab, ac);
      nrm[a] := Add(nrm[a], n);
      nrm[b] := Add(nrm[b], n);
      nrm[c] := Add(nrm[c], n);
    }

    /** The final normalisation loop: every accumulator of positive length is
        divided by it. */
    method NormalizeAll(sqrt: real -> real)
      requires Valid() && IsSqrt(sqrt)
      modifies nrm
      ensures nrm[..] == NormalizeEach(old(nrm[..]), sqrt)
    {
      var i := 0;
      while i < nrm.Length
        invariant 0 <= i <= nrm.Length
        invariant forall k :: 0 <= k < i ==> nrm[k] == Normalize(old(nrm[k]), sqrt)
        invariant forall k :: i <= k < nrm.Length ==> nrm[k] == old(nrm[k])
      {
        var len := sqrt(NormSq(nrm[i]));
        if len > 0.0 {
          nrm[i] := Div(nrm[i], len);
        }
        i := i + 1;
      }
    }

    /** The integrator and the constraint passes of one substep, with the
        substep's damping factor, squared length and iteration count. */
    method Dynamics(damp: real, dt2: real, iterations: int, s: nat,
                    force: (nat, nat, Vec3) -> Vec3, sqrt: real -> real, ghost cfg: Settings)
      requires Valid()
      requires damp == cfg.damp && dt2 == Sq(cfg.subDt) && iterations == cfg.iterations
      modifies pos, prev
      ensures Particles(pos[..], prev[..])
           == Physics.Dynamics(Topo(), Particles(old(pos[..]), old(prev[..])), cfg, s, force, sqrt)
    {
      TopoValid();
      Integrate(damp, dt2, force, s);
      ghost var pos1, prev1 := pos[..], prev[..];
      SolveConstraints(iterations, sqrt);
      assert pos[..] == RelaxIters(pos1, fixed[..], conA, conB, conR, sqrt, Passes(iterations));
    }

    /** One pass of the substep loop of `simulate` (js/cloth.js:129-258):
        the substep's damping factor and iteration count, the clock advance,
        the stadium override when the view is "stadium", the integrator and
        the constraint passes. */
    method Substep(s: nat, subDt: real, sim: Config.Sim, app: Config.AppState, pow: (real, real) -> real,
                   force: (nat, nat, Vec3) -> Vec3, sin: real -> real, cos: real -> real,
                   sqrt: real -> real, ghost cfg: Settings)
      requires Valid()
      requires cfg == Settings(app.viewMode == Config.Stadium, subDt,
                               pow(sim.damping / 100.0, subDt * 60.0), Iterations(sim.stiffness))
      modifies this`time, pos, prev
      ensures time == old(time) + subDt
      ensures Particles(pos[..], prev[..])
           == Physics.Substep(Topo(), Particles(old(pos[..]), old(prev[..])), cfg, s, time, force, sin, cos, sqrt)
    {
      TopoValid();
      var dt2 := Sq(subDt);
      var damp := pow(sim.damping / 100.0, subDt * 60.0);
      var iterations := (sim.stiffness / 100.0 * 3.0).Floor + 3;
      time := time + subDt;
      if app.viewMode == Config.Stadium {
        StadiumSweep(sin, cos);
      }
      assert Particles(pos[..], prev[..])
          == Override(Topo(), Particles(old(pos[..]), old(prev[..])), cfg.stadium, time, sin, cos);
      Dynamics(damp, dt2, iterations, s, force, sqrt, cfg);
    }

    /** The substep loop of `simulate`: `Substeps` calls of `Substep` with the
        clamped substep length, following the reference `Run`. */
    method Advance(subDt: real, sim: Config.Sim, app: Config.AppState, pow: (real, real) -> real,
                   force: (nat, nat, Vec3) -> Vec3, sin: real -> real, cos: real -> real,
                   sqrt: real -> real, ghost cfg: Settings)
      requires Valid()
      requires cfg == Settings(app.viewMode == Config.Stadium, subDt,
                               pow(sim.damping / 100.0, subDt * 60.0), Iterations(sim.stiffness))
      modifies this`time, pos, prev
      ensures Particles(pos[..], prev[..])
           == Run(Topo(), Particles(old(pos[..]), old(prev[..])), cfg, old(time), Substeps, force, sin, cos, sqrt)
      ensures time == Clock(old(time), subDt, Substeps)
    {
      TopoValid();
      ghost var tp := Topo();
      ghost var st0 := Particles(pos[..], prev[..]);
      ghost var t0 := time;
      ghost var cur := st0;
      var s := 0;
      while s < Substeps
        invariant 0 <= s <= Substeps
        invariant Particles(pos[..], prev[..]) == cur
        invariant cur == Run(tp, st0, cfg, t0, s, force, sin, cos, sqrt)
        invariant time == Clock(t0, subDt, s)
      {
        Substep(s, subDt, sim, app, pow, force, sin, cos, sqrt, cfg);
        RunNext(tp, st0, cfg, t0, s, force, sin, cos, sqrt, cur, time);
        cur := Physics.Substep(tp, cur, cfg, s, time, force, sin, cos, sqrt);
        s := s + 1;
      }
    }

    /** `simulate(frameDt)` (js/cloth.js:120-278). The frame time is clamped,
        the gusts take one step, then three substeps each advance the clock,
        apply the stadium override when the view is "stadium", integrate and
        project the constraints; finally the normals are recomputed. `pow`,
        `sin`, `cos` and `sqrt` stand for the Math functions, `force` for the
        force composition and `draws` for the gusts' random values. */
    method Simulate(frameDt: real, sim: Config.Sim, app: Config.AppState, pow: (real, real) -> real,
                    force: (nat, nat, Vec3) -> Vec3, sin: real -> real, cos: real -> real,
                    sqrt: real -> real, draws: seq<StepDraws>)
      requires Valid() && IsSqrt(sqrt) && |draws| == NumGusts
      modifies this`time, pos, prev, nrm, gusts
      ensures forall i :: 0 <= i < NumGusts ==> gusts[i] == GustStep(old(gusts[i]), ClampDt(frameDt), draws[i])
      ensures old(GustsBounded()) && (forall i :: 0 <= i < NumGusts ==> ValidStepDraws(draws[i])) ==> GustsBounded()
      ensures var cfg := FrameSettings(frameDt, app.viewMode == Config.Stadium, sim.damping, sim.stiffness, pow);
              var r := Run(Topo(), Particles(old(pos[..]), old(prev[..])), cfg, old(time), Substeps,
                           force, sin, cos, sqrt);
              pos[..] == r.pos && prev[..] == r.prev && time == Clock(old(time), cfg.subDt, Substeps)
      ensures nrm[..] == Normals(pos[..], tri, sqrt)
    {
      var dt := Physics.Min(Physics.Max(frameDt, MinDt), MaxDt);
      UpdateGusts(dt, draws);
      var subDt := dt / Substeps as real;
      ghost var cfg := FrameSettings(frameDt, app.viewMode == Config.Stadium, sim.damping, sim.stiffness, pow);
      assert cfg == Settings(app.viewMode == Config.Stadium, subDt,
                             pow(sim.damping / 100.0, subDt * 60.0), Iterations(sim.stiffness));
      Advance(subDt, sim, app, pow, force, sin, cos, sqrt, cfg);
      ComputeNormals(sqrt);
    }
  }
}
