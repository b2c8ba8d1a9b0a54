/** The particle grid of the cloth and the topology built over it
    (js/cloth.js:13-65): the row-major layout `idx = j * cols + i`, rest
    positions and texture coordinates, the default pin set, the render
    triangle list and the distance-constraint list. `cols` and `rows` are
    parameters (at least 2 each); the shipped values are Config.Cols and
    Config.Rows. */
module Grid {
  import opened Vectors

  /** Row-major index of column `i` in row `j`. */
  function Index(cols: nat, i: nat, j: nat): nat {
    j * cols + i
  }

  lemma MulAtLeast(k: int, c: int)
    requires k >= 1 && c > 0
    ensures k * c >= c
  {
  }

  /** The layout is a bijection: an index gives back its column and row. */
  lemma IndexRoundTrip(cols: nat, i: nat, j: nat)
    requires 0 <= i < cols
    ensures Index(cols, i, j) % cols == i
    ensures Index(cols, i, j) / cols == j
  {
    var a := j * cols + i;
    var q, r := a / cols, a % cols;
    assert (q - j) * cols == i - r;
    if q > j {
      MulAtLeast(q - j, cols);
    } else if q < j {
      MulAtLeast(j - q, cols);
    }
  }

  lemma MulMonotone(a: int, b: int, c: int)
    requires a <= b && c >= 0
    ensures a * c <= b * c
  {
    assert b * c - a * c == (b - a) * c;
  }

  /** Every in-grid (column, row) pair has an index below `cols * rows`. */
  lemma IndexBound(cols: nat, rows: nat, i: nat, j: nat)
    requires i < cols && j < rows
    ensures Index(cols, i, j) < cols * rows
  {
    MulMonotone(j, rows - 1, cols);
    assert (rows - 1) * cols == rows * cols - cols;
  }

  // ---------------------------------------------------------------------
  // Rest configuration (js/cloth.js:17-31)

  /** Rest position of particle (i, j): the flag spans x in [0, w] and
      y in [-h/2, h/2] with row 0 at the top, in the plane z = 0. */
  function RestPos(cols: nat, rows: nat, w: real, h: real, i: nat, j: nat): Vec3
    requires cols >= 2 && rows >= 2
  {
    Vec3((i as real / (cols - 1) as real) * w,
         -(j as real / (rows - 1) as real) * h + h * 0.5,
         0.0)
  }

  datatype UV = UV(u: real, v: real)

  /** Texture coordinate of particle (i, j). */
  function UVAt(cols: nat, rows: nat, i: nat, j: nat): UV
    requires cols >= 2 && rows >= 2
  {
    UV(i as real / (cols - 1) as real, j as real / (rows - 1) as real)
  }

  lemma DivLeOne(i: nat, n: nat)
    requires 0 < n && i <= n
    ensures 0.0 <= i as real / n as real <= 1.0
  {
  }

  lemma DivInjective(a: real, b: real, c: real)
    requires c != 0.0 && a / c == b / c
    ensures a == b
  {
    assert a == (a / c) * c;
    assert b == (b / c) * c;
  }

  /** Texture coordinates cover the unit square and tell particles apart. */
  lemma UVProperties(cols: nat, rows: nat, i: nat, j: nat, i': nat, j': nat)
    requires cols >= 2 && rows >= 2
    requires i < cols && j < rows && i' < cols && j' < rows
    ensures 0.0 <= UVAt(cols, rows, i, j).u <= 1.0
    ensures 0.0 <= UVAt(cols, rows, i, j).v <= 1.0
    ensures UVAt(cols, rows, i, j) == UVAt(cols, rows, i', j') <==> i == i' && j == j'
  {
    DivLeOne(i, cols - 1);
    DivLeOne(j, rows - 1);
    if UVAt(cols, rows, i, j) == UVAt(cols, rows, i', j') {
      DivInjective(i as real, i' as real, (cols - 1) as real);
      DivInjective(j as real, j' as real, (rows - 1) as real);
    }
  }

  /** The four corners rest at (0, h/2), (w, h/2), (0, -h/2) and (w, -h/2). */
  lemma RestCorners(cols: nat, rows: nat, w: real, h: real)
    requires cols >= 2 && rows >= 2
    ensures RestPos(cols, rows, w, h, 0, 0) == Vec3(0.0, h * 0.5, 0.0)
    ensures RestPos(cols, rows, w, h, cols - 1, 0) == Vec3(w, h * 0.5, 0.0)
    ensures RestPos(cols, rows, w, h, 0, rows - 1) == Vec3(0.0, -h * 0.5, 0.0)
    ensures RestPos(cols, rows, w, h, cols - 1, rows - 1) == Vec3(w, -h * 0.5, 0.0)
  {
    assert (cols - 1) as real / (cols - 1) as real == 1.0;
    assert (rows - 1) as real / (rows - 1) as real == 1.0;
  }

  // ---------------------------------------------------------------------
  // Default pin set (js/cloth.js:13-15)

  /** Initially the particles of column 0 are pinned. */
  predicate DefaultPinned(cols: nat, p: nat)
    requires cols > 0
  {
    p % cols == 0
  }

  /** The default pin set is exactly the first particle of every row. */
  lemma DefaultPinnedIsColumnZero(cols: nat, p: nat)
    requires cols > 0
    ensures DefaultPinned(cols, p) <==> p == Index(cols, 0, p / cols)
    ensures DefaultPinned(cols, Index(cols, 0, p))
  {
    IndexRoundTrip(cols, 0, p);
  }

  // ---------------------------------------------------------------------
  // Triangle list (js/cloth.js:35-42)

  /** Offsets, from cell corner `a`, of the six vertices a cell contributes:
      triangles (a, a+1, a+cols) and (a+1, a+cols+1, a+cols). */
  function CornerOffset(cols: nat, m: nat): nat
    requires m < 6
  {
    [0, 1, cols, 1, cols + 1, cols][m]
  }

  /** Entry `k` of the triangle list: cells are visited row by row, each
      contributing six indices. */
  function TriEntry(cols: nat, k: nat): nat
    requires cols >= 2
  {
    var c := k / 6;
    Index(cols, c % (cols - 1), c / (cols - 1)) + CornerOffset(cols, k % 6)
  }

  function TriCount(cols: nat, rows: nat): nat
    requires cols >= 2 && rows >= 2
  {
    (cols - 1) * (rows - 1) * 6
  }

  /** The list `buildTriangles` produces: six entries per cell, cells in
      row-major order. */
  predicate TriangleList(cols: nat, rows: nat, tri: seq<nat>)
    requires cols >= 2 && rows >= 2
  {
    |tri| == TriCount(cols, rows) && forall k :: 0 <= k < |tri| ==> tri[k] == TriEntry(cols, k)
  }

  /** Cell (i, j) contributes its six vertices at positions
      6 * (j * (cols - 1) + i) .. + 5 of the list. */
  lemma TriEntryCell(cols: nat, i: nat, j: nat, m: nat)
    requires cols >= 2 && i < cols - 1 && m < 6
    ensures TriEntry(cols, 6 * (j * (cols - 1) + i) + m) == Index(cols, i, j) + CornerOffset(cols, m)
  {
    var c := j * (cols - 1) + i;
    IndexRoundTrip(6, m, c);
    IndexRoundTrip(cols - 1, i, j);
  }

  lemma DivBelow(c: nat, d: nat, n: nat)
    requires d > 0 && c < n * d
    ensures c / d < n
  {
    if c / d >= n {
      MulMonotone(n, c / d, d);
    }
  }

  /** Every triangle index names a particle of the grid. */
  lemma TriEntryBound(cols: nat, rows: nat, k: nat)
    requires cols >= 2 && rows >= 2 && k < TriCount(cols, rows)
    ensures TriEntry(cols, k) < cols * rows
  {
    var c := k / 6;
    DivBelow(k, 6, (cols - 1) * (rows - 1));
    DivBelow(c, cols - 1, rows - 1);
    var i, j := c % (cols - 1), c / (cols - 1);
    IndexBound(cols, rows, i + 1, j + 1);
    assert Index(cols, i + 1, j + 1) == Index(cols, i, j) + cols + 1;
  }

  /** `tri` holds the entries of the first `n` cells: it agrees with
      TriEntry on all of its positions. */
  predicate TriUpTo(cols: nat, tri: seq<nat>, n: nat)
    requires cols >= 2
  {
    |tri| == 6 * n && forall k :: 0 <= k < |tri| ==> tri[k] == TriEntry(cols, k)
  }

  lemma AppendCell(cols: nat, i: nat, j: nat, tri: seq<nat>)
    requires cols >= 2 && i < cols - 1
    requires TriUpTo(cols, tri, j * (cols - 1) + i)
    ensures TriUpTo(cols, tri + CellVertices(cols, Index(cols, i, j)), j * (cols - 1) + i + 1)
  {
    var tri' := tri + CellVertices(cols, Index(cols, i, j));
    forall k | 0 <= k < |tri'|
      ensures tri'[k] == TriEntry(cols, k)
    {
      if k >= |tri| {
        TriEntryCell(cols, i, j, k - |tri|);
      }
    }
  }

  /** The six indices cell corner `a` contributes, in push order. */
  function CellVertices(cols: nat, a: nat): (r: seq<nat>)
    ensures |r| == 6 && forall m :: 0 <= m < 6 ==> r[m] == a + CornerOffset(cols, m)
  {
    [a, a + 1, a + cols, a + 1, a + cols + 1, a + cols]
  }

  /** The entries of every cell are the triangle list. */
  lemma TrianglesDone(cols: nat, rows: nat, tri: seq<nat>)
    requires cols >= 2 && rows >= 2 && TriUpTo(cols, tri, (rows - 1) * (cols - 1))
    ensures TriangleList(cols, rows, tri) && |tri| % 3 == 0
    ensures forall k :: 0 <= k < |tri| ==> tri[k] < cols * rows
  {
    assert |tri| == 3 * (2 * ((rows - 1) * (cols - 1)));
    forall k | 0 <= k < |tri|
      ensures tri[k] < cols * rows
    {
      TriEntryBound(cols, rows, k);
    }
  }

  /** Builds the render index list, two triangles per grid cell. */
  method BuildTriangles(cols: nat, rows: nat) returns (tri: seq<nat>)
    requires cols >= 2 && rows >= 2
    ensures TriangleList(cols, rows, tri) && |tri| % 3 == 0
    ensures forall k :: 0 <= k < |tri| ==> tri[k] < cols * rows
  {
    tri := [];
    var j := 0;
    while j < rows - 1
      invariant 0 <= j <= rows - 1
      invariant TriUpTo(cols, tri, j * (cols - 1))
    {
      tri := AppendRow(cols, j, tri);
      j := j + 1;
    }
    TrianglesDone(cols, rows, tri);
  }

  /** The inner loop of the builder: the cells of row `j`, left to right. */
  method AppendRow(cols: nat, j: nat, tri0: seq<nat>) returns (tri: seq<nat>)
    requires cols >= 2 && TriUpTo(cols, tri0, j * (cols - 1))
    ensures TriUpTo(cols, tri, (j + 1) * (cols - 1))
    ensures tri0 <= tri
  {
    tri := tri0;
    var i := 0;
    while i < cols - 1
      invariant 0 <= i <= cols - 1
      invariant TriUpTo(cols, tri, j * (cols - 1) + i) && tri0 <= tri
    {
      var a := j * cols + i;
      AppendCell(cols, i, j, tri);
      tri := tri + [a, a + 1, a + cols, a + 1, a + cols + 1, a + cols];
      i := i + 1;
    }
    assert j * (cols - 1) + (cols - 1) == (j + 1) * (cols - 1);
  }

  // ---------------------------------------------------------------------
  // Constraint list (js/cloth.js:45-65)

  /** The neighbour classes a constraint (a, b, r) can belong to, with the
      rest length each class carries. Particle `a` sits at column a % cols
      and row a / cols. */
  predicate IsLink(cols: nat, rows: nat, dx: real, dy: real, diag: real, a: nat, b: nat, r: real)
    requires cols >= 2
  {
    var i, j := a % cols, a / cols;
    // structural, horizontal and vertical
    (b == a + 1 && i < cols - 1 && r == dx) ||
    (b == a + cols && j < rows - 1 && r == dy) ||
    // shear, both diagonals of a cell
    (b == a + cols + 1 && i < cols - 1 && j < rows - 1 && r == diag) ||
    (b == a + cols - 1 && 0 < i && j < rows - 1 && r == diag) ||
    // bend, skipping one particle
    (b == a + 2 && i < cols - 2 && r == dx * 2.0) ||
    (b == a + cols * 2 && j < rows - 2 && r == dy * 2.0)
  }

  /** Three parallel lists of well-formed constraints over the grid. */
  predicate ValidLinks(cols: nat, rows: nat, dx: real, dy: real, diag: real,
                       cA: seq<nat>, cB: seq<nat>, cR: seq<real>)
    requires cols >= 2
  {
    |cA| == |cB| == |cR| &&
    forall k :: 0 <= k < |cA| ==> LinkAt(cols, rows, dx, dy, diag, cA, cB, cR, k)
  }

  /** Constraint `k` of the lists joins two grid particles, in increasing
      order, as one of the neighbour classes. */
  predicate LinkAt(cols: nat, rows: nat, dx: real, dy: real, diag: real,
                   cA: seq<nat>, cB: seq<nat>, cR: seq<real>, k: nat)
    requires cols >= 2 && k < |cA| && k < |cB| && k < |cR|
  {
    cA[k] < cB[k] < cols * rows && IsLink(cols, rows, dx, dy, diag, cA[k], cB[k], cR[k])
  }

  /** Each push of the builder is a well-formed constraint of its class. */
  lemma LinkClasses(cols: nat, rows: nat, dx: real, dy: real, diag: real, i: nat, j: nat)
    requires cols >= 2 && i < cols && j < rows
    ensures var a := Index(cols, i, j);
      (i < cols - 1 ==> a + 1 < cols * rows && IsLink(cols, rows, dx, dy, diag, a, a + 1, dx)) &&
      (j < rows - 1 ==> a + cols < cols * rows && IsLink(cols, rows, dx, dy, diag, a, a + cols, dy)) &&
      (i < cols - 1 && j < rows - 1 ==>
         a + cols + 1 < cols * rows && IsLink(cols, rows, dx, dy, diag, a, a + cols + 1, diag) &&
         a + cols < cols * rows && IsLink(cols, rows, dx, dy, diag, a + 1, a + cols, diag)) &&
      (i < cols - 2 ==> a + 2 < cols * rows && IsLink(cols, rows, dx, dy, diag, a, a + 2, dx * 2.0)) &&
      (j < rows - 2 ==> a + cols * 2 < cols * rows && IsLink(cols, rows, dx, dy, diag, a, a + cols * 2, dy * 2.0))
  {
    var a := Index(cols, i, j);
    IndexRoundTrip(cols, i, j);
    if i < cols - 1 {
      IndexBound(cols, rows, i + 1, j);
      IndexRoundTrip(cols, i + 1, j);
      assert Index(cols, i + 1, j) == a + 1;
    }
    if j < rows - 1 {
      IndexBound(cols, rows, i, j + 1);
      assert Index(cols, i, j + 1) == a + cols;
    }
    if i < cols - 1 && j < rows - 1 {
      IndexBound(cols, rows, i + 1, j + 1);
      assert Index(cols, i + 1, j + 1) == a + cols + 1;
    }
    if i < cols - 2 {
      IndexBound(cols, rows, i + 2, j);
      assert Index(cols, i + 2, j) == a + 2;
    }
    if j < rows - 2 {
      IndexBound(cols, rows, i, j + 2);
      assert Index(cols, i, j + 2) == a + cols * 2;
    }
  }

  /** Number of constraints the builder produces: structural horizontal and
      vertical, two shear diagonals per cell, and horizontal and vertical
      bend pairs. */
  function ConstraintCount(cols: nat, rows: nat): nat
    requires cols >= 2 && rows >= 2
  {
    rows * (cols - 1) + cols * (rows - 1) + 2 * (cols - 1) * (rows - 1)
      + rows * (cols - 2) + cols * (rows - 2)
  }

  /** The rest spacings of a `cols` x `rows` grid spanning `w` x `h`,
      with the triangle and constraint lists built for it. */
  predicate Layout(cols: nat, rows: nat, w: real, h: real, dx: real, dy: real, diag: real,
                   tri: seq<nat>, cA: seq<nat>, cB: seq<nat>, cR: seq<real>)
    requires cols >= 2 && rows >= 2
  {
    dx == w / (cols - 1) as real && dy == h / (rows - 1) as real &&
    TriangleList(cols, rows, tri) &&
    ValidLinks(cols, rows, dx, dy, diag, cA, cB, cR) && |cA| == ConstraintCount(cols, rows) &&
    Zipped(cols, dx, dy, diag, cA, cB, cR, ConPushes(cols, rows))
  }

  function Min(a: int, b: int): int {
    if a <= b then a else b
  }

  /** Constraints contributed by rows 0 .. j-1. */
  function RowsDone(cols: nat, rows: nat, j: nat): int
    requires cols >= 2 && rows >= 2
  {
    j * (2 * cols - 3) + Min(j, rows - 1) * (3 * cols - 2) + Min(j, rows - 2) * cols
  }

  /** Constraints contributed by the first `i` particles of row `j`. */
  function RowPrefix(cols: nat, rows: nat, j: nat, i: nat): int
    requires cols >= 2 && rows >= 2
  {
    Min(i, cols - 1) + Min(i, cols - 2)
      + (if j < rows - 1 then i + 2 * Min(i, cols - 1) else 0)
      + (if j < rows - 2 then i else 0)
  }

  /** Constraints pushed while visiting particle (i, j). */
  function PerParticle(cols: nat, rows: nat, i: nat, j: nat): nat {
    (if i < cols - 1 then 1 else 0) + (if j < rows - 1 then 1 else 0)
      + (if i < cols - 1 && j < rows - 1 then 2 else 0)
      + (if i < cols - 2 then 1 else 0) + (if j < rows - 2 then 1 else 0)
  }

  lemma RowPrefixStep(cols: nat, rows: nat, j: nat, i: nat)
    requires cols >= 2 && rows >= 2 && i < cols
    ensures RowPrefix(cols, rows, j, i + 1) == RowPrefix(cols, rows, j, i) + PerParticle(cols, rows, i, j)
  {
  }

  lemma RowsDoneStep(cols: nat, rows: nat, j: nat)
    requires cols >= 2 && rows >= 2 && j < rows
    ensures RowsDone(cols, rows, j + 1) == RowsDone(cols, rows, j) + RowPrefix(cols, rows, j, cols)
  {
  }

  lemma RowsDoneAll(cols: nat, rows: nat)
    requires cols >= 2 && rows >= 2
    ensures RowsDone(cols, rows, rows) == ConstraintCount(cols, rows)
  {
  }

  /** One push of the builder: the visit of particle (i, j) adds a
      constraint of class `kind`, numbered in the order of the source: 0 and
      1 the structural links right and down, 2 and 3 the two shear diagonals
      of the cell below-right, 4 and 5 the bend links two to the right and two
      below. */
  datatype Push = Push(i: nat, j: nat, kind: nat)

  /** The guard under which the source makes push `p`. */
  predicate Applies(cols: nat, rows: nat, p: Push) {
    if p.kind == 0 then p.i < cols - 1
    else if p.kind == 1 then p.j < rows - 1
    else if p.kind == 2 || p.kind == 3 then p.i < cols - 1 && p.j < rows - 1
    else if p.kind == 4 then p.i < cols - 2
    else if p.kind == 5 then p.j < rows - 2
    else false
  }

  /** A push the builder makes: a grid particle, a class, and its guard holds. */
  predicate InGrid(cols: nat, rows: nat, p: Push) {
    p.i < cols && p.j < rows && Applies(cols, rows, p)
  }

  /** One constraint: the two particles it joins and its rest length. */
  datatype Link = Link(a: nat, b: nat, rest: real)

  /** The constraint `addC` receives for push `p`. */
  function LinkOf(cols: nat, dx: real, dy: real, diag: real, p: Push): Link {
    var c := Index(cols, p.i, p.j);
    if p.kind == 0 then Link(c, c + 1, dx)
    else if p.kind == 1 then Link(c, c + cols, dy)
    else if p.kind == 2 then Link(c, c + cols + 1, diag)
    else if p.kind == 3 then Link(c + 1, c + cols, diag)
    else if p.kind == 4 then Link(c, c + 2, dx * 2.0)
    else Link(c, c + cols * 2, dy * 2.0)
  }

  // The candidate pushes: every class at every particle, in visiting order

  /** The six classes at particle (i, j), in the order the source tries them. */
  function Slots(i: nat, j: nat): seq<Push> {
    [Push(i, j, 0), Push(i, j, 1), Push(i, j, 2), Push(i, j, 3), Push(i, j, 4), Push(i, j, 5)]
  }

  /** The candidates of the first `i` particles of row `j`. */
  function RowSlots(j: nat, i: nat): seq<Push> {
    if i == 0 then [] else RowSlots(j, i - 1) + Slots(i - 1, j)
  }

  /** The candidates of rows 0 .. j-1. */
  function SlotsUpTo(cols: nat, j: nat): seq<Push> {
    if j == 0 then [] else SlotsUpTo(cols, j - 1) + RowSlots(j - 1, cols)
  }

  /** The candidates whose guard holds, in their order. */
  function Made(cols: nat, rows: nat, s: seq<Push>): seq<Push> {
    if s == [] then []
    else (if Applies(cols, rows, s[0]) then [s[0]] else []) + Made(cols, rows, s[1..])
  }

  /** Every push of the builder, particles visited in row-major order, then
      by class. The relaxation passes run over the constraints in this
      order. */
  function ConPushes(cols: nat, rows: nat): seq<Push> {
    Made(cols, rows, SlotsUpTo(cols, rows))
  }

  /** The parallel lists `cA`, `cB`, `cR` hold the constraints of pushes
      `ps`, in the same order. */
  predicate Zipped(cols: nat, dx: real, dy: real, diag: real, cA: seq<nat>, cB: seq<nat>, cR: seq<real>, ps: seq<Push>) {
    |cA| == |ps| && |cB| == |ps| && |cR| == |ps| &&
    forall k :: 0 <= k < |ps| ==> Link(cA[k], cB[k], cR[k]) == LinkOf(cols, dx, dy, diag, ps[k])
  }

  // Filtering the candidates

  lemma MadeStep(cols: nat, rows: nat, s: seq<Push>, k: nat)
    requires k < |s|
    ensures Made(cols, rows, s[k..]) == (if Applies(cols, rows, s[k]) then [s[k]] else []) + Made(cols, rows, s[k + 1..])
  {
    assert s[k..][0] == s[k] && s[k..][1..] == s[k + 1..];
  }

  lemma {:induction false} MadeConcat(cols: nat, rows: nat, s: seq<Push>, t: seq<Push>)
    ensures Made(cols, rows, s + t) == Made(cols, rows, s) + Made(cols, rows, t)
  {
    if s == [] {
      assert s + t == t;
    } else {
      var one := if Applies(cols, rows, s[0]) then [s[0]] else [];
      assert (s + t)[0] == s[0] && (s + t)[1..] == s[1..] + t;
      MadeConcat(cols, rows, s[1..], t);
      calc {
        Made(cols, rows, s + t);
        one + Made(cols, rows, s[1..] + t);
        one + (Made(cols, rows, s[1..]) + Made(cols, rows, t));
        (one + Made(cols, rows, s[1..])) + Made(cols, rows, t);
      }
    }
  }

  lemma {:induction false} MadeMember(cols: nat, rows: nat, s: seq<Push>, p: Push)
    ensures p in Made(cols, rows, s) <==> p in s && Applies(cols, rows, p)
  {
    if s != [] {
      MadeMember(cols, rows, s[1..], p);
      assert s == [s[0]] + s[1..];
    }
  }

  // The candidates are in order

  /** Push `p` comes before push `q`: an earlier row, an earlier column in
      the same row, or an earlier class of the same particle. */
  predicate Before(p: Push, q: Push) {
    p.j < q.j || (p.j == q.j && (p.i < q.i || (p.i == q.i && p.kind < q.kind)))
  }

  predicate Ordered(ps: seq<Push>) {
    forall k1, k2 :: 0 <= k1 < k2 < |ps| ==> Before(ps[k1], ps[k2])
  }

  /** Each push of `ps` comes before the next one. */
  predicate Sorted(ps: seq<Push>) {
    forall k :: 0 < k < |ps| ==> Before(ps[k - 1], ps[k])
  }

  lemma {:induction false} SortedOrdered(ps: seq<Push>)
    requires Sorted(ps)
    ensures Ordered(ps)
  {
    if |ps| > 1 {
      var init := ps[..|ps| - 1];
      assert Sorted(init) by {
        forall k | 0 < k < |init|
          ensures Before(init[k - 1], init[k])
        {
          assert init[k - 1] == ps[k - 1] && init[k] == ps[k];
        }
      }
      SortedOrdered(init);
      forall k1, k2 | 0 <= k1 < k2 < |ps|
        ensures Before(ps[k1], ps[k2])
      {
        if k2 < |ps| - 1 {
          assert ps[k1] == init[k1] && ps[k2] == init[k2];
        } else if k1 < k2 - 1 {
          assert ps[k1] == init[k1] && ps[k2 - 1] == init[k2 - 1];
          assert Before(ps[k2 - 1], ps[k2]);
        }
      }
    }
  }

  lemma SortedConcat(s: seq<Push>, t: seq<Push>)
    requires Sorted(s) && Sorted(t)
    requires |s| > 0 && |t| > 0 ==> Before(s[|s| - 1], t[0])
    ensures Sorted(s + t)
  {
    var st := s + t;
    forall k | 0 < k < |st|
      ensures Before(st[k - 1], st[k])
    {
      if k < |s| {
        assert st[k - 1] == s[k - 1] && st[k] == s[k];
      } else if k > |s| {
        assert st[k - 1] == t[k - 1 - |s|] && st[k] == t[k - |s|];
      }
    }
  }

  /** `ps` is sorted and holds candidates of the first `i` particles of row `j`. */
  predicate InRow(ps: seq<Push>, j: nat, i: nat) {
    Sorted(ps) && forall k :: 0 <= k < |ps| ==> ps[k].j == j && ps[k].i < i && ps[k].kind < 6
  }

  /** `ps` is sorted and holds candidates of grid particles in rows 0 .. j-1. */
  predicate InRows(cols: nat, ps: seq<Push>, j: nat) {
    Sorted(ps) && forall k :: 0 <= k < |ps| ==> ps[k].j < j && ps[k].i < cols && ps[k].kind < 6
  }

  /** `ps` is sorted and holds candidates of particle (i, j). */
  predicate OfParticle(ps: seq<Push>, i: nat, j: nat) {
    Sorted(ps) && forall k :: 0 <= k < |ps| ==> ps[k].i == i && ps[k].j == j && ps[k].kind < 6
  }

  lemma SlotsSorted(i: nat, j: nat)
    ensures OfParticle(Slots(i, j), i, j)
  {
  }

  lemma RowJoin(s: seq<Push>, t: seq<Push>, j: nat, i: nat)
    requires InRow(s, j, i) && OfParticle(t, i, j)
    ensures InRow(s + t, j, i + 1)
  {
    SortedConcat(s, t);
    var st := s + t;
    forall k | 0 <= k < |st|
      ensures st[k].j == j && st[k].i < i + 1 && st[k].kind < 6
    {
      if k < |s| {
        assert st[k] == s[k];
      } else {
        assert st[k] == t[k - |s|];
      }
    }
  }

  lemma RowsJoin(cols: nat, s: seq<Push>, t: seq<Push>, j: nat)
    requires InRows(cols, s, j) && InRow(t, j, cols)
    ensures InRows(cols, s + t, j + 1)
  {
    SortedConcat(s, t);
    var st := s + t;
    forall k | 0 <= k < |st|
      ensures st[k].j < j + 1 && st[k].i < cols && st[k].kind < 6
    {
      if k < |s| {
        assert st[k] == s[k];
      } else {
        assert st[k] == t[k - |s|];
      }
    }
  }

  lemma {:induction false} RowSlotsSorted(j: nat, i: nat)
    ensures InRow(RowSlots(j, i), j, i)
  {
    if i > 0 {
      RowSlotsSorted(j, i - 1);
      SlotsSorted(i - 1, j);
      var s, t := RowSlots(j, i - 1), Slots(i - 1, j);
      assert InRow(s, j, i - 1) && OfParticle(t, i - 1, j);
      RowJoin(s, t, j, i - 1);
      assert RowSlots(j, i) == s + t;
    }
  }

  lemma {:induction false} SlotsUpToSorted(cols: nat, j: nat)
    ensures InRows(cols, SlotsUpTo(cols, j), j)
  {
    if j > 0 {
      SlotsUpToSorted(cols, j - 1);
      RowSlotsSorted(j - 1, cols);
      var s, t := SlotsUpTo(cols, j - 1), RowSlots(j - 1, cols);
      assert InRows(cols, s, j - 1) && InRow(t, j - 1, cols);
      RowsJoin(cols, s, t, j - 1);
      assert SlotsUpTo(cols, j) == s + t;
    }
  }

  lemma {:induction false} MadeOrdered(cols: nat, rows: nat, s: seq<Push>)
    requires Ordered(s)
    ensures Ordered(Made(cols, rows, s))
  {
    if s != [] {
      var one := if Applies(cols, rows, s[0]) then [s[0]] else [];
      var rest := Made(cols, rows, s[1..]);
      MadeOrdered(cols, rows, s[1..]);
      forall p | p in rest
        ensures Before(s[0], p)
      {
        MadeMember(cols, rows, s[1..], p);
        var k :| 0 <= k < |s[1..]| && s[1..][k] == p;
        assert s[k + 1] == p;
      }
      var m := one + rest;
      forall k1, k2 | 0 <= k1 < k2 < |m|
        ensures Before(m[k1], m[k2])
      {
        if k1 >= |one| {
          assert m[k1] == rest[k1 - |one|] && m[k2] == rest[k2 - |one|];
        } else {
          assert m[k1] == s[0] && m[k2] == rest[k2 - |one|] && rest[k2 - |one|] in rest;
        }
      }
    }
  }

  /** The pushes are in row-major order, then by class, and each is one the
      builder makes: a grid particle whose guard for that class holds. */
  lemma ConPushesOrdered(cols: nat, rows: nat)
    ensures var ps := ConPushes(cols, rows);
      (forall k1, k2 :: 0 <= k1 < k2 < |ps| ==> Before(ps[k1], ps[k2])) &&
      (forall k :: 0 <= k < |ps| ==> InGrid(cols, rows, ps[k]))
  {
    var s := SlotsUpTo(cols, rows);
    SlotsUpToSorted(cols, rows);
    SortedOrdered(s);
    MadeOrdered(cols, rows, s);
    var ps := ConPushes(cols, rows);
    forall k | 0 <= k < |ps|
      ensures InGrid(cols, rows, ps[k])
    {
      MadeMember(cols, rows, s, ps[k]);
      var t :| 0 <= t < |s| && s[t] == ps[k];
    }
  }

  // Soundness, size and completeness of the constraint list

  /** A constraint joining two grid particles, in increasing order, as one
      of the neighbour classes with that class's rest length. */
  predicate ValidLink(cols: nat, rows: nat, dx: real, dy: real, diag: real, l: Link)
    requires cols >= 2
  {
    l.a < l.b < cols * rows && IsLink(cols, rows, dx, dy, diag, l.a, l.b, l.rest)
  }

  lemma PushValid(cols: nat, rows: nat, dx: real, dy: real, diag: real, p: Push)
    requires cols >= 2 && InGrid(cols, rows, p)
    ensures ValidLink(cols, rows, dx, dy, diag, LinkOf(cols, dx, dy, diag, p))
  {
    LinkClasses(cols, rows, dx, dy, diag, p.i, p.j);
  }

  /** Every constraint of the list is a valid neighbour link. */
  lemma ConListValid(cols: nat, rows: nat, dx: real, dy: real, diag: real)
    requires cols >= 2
    ensures var ps := ConPushes(cols, rows);
      forall k :: 0 <= k < |ps| ==> ValidLink(cols, rows, dx, dy, diag, LinkOf(cols, dx, dy, diag, ps[k]))
  {
    ConPushesOrdered(cols, rows);
    var ps := ConPushes(cols, rows);
    forall k | 0 <= k < |ps|
      ensures ValidLink(cols, rows, dx, dy, diag, LinkOf(cols, dx, dy, diag, ps[k]))
    {
      PushValid(cols, rows, dx, dy, diag, ps[k]);
    }
  }

  lemma ParticleCount(cols: nat, rows: nat, i: nat, j: nat)
    ensures |Made(cols, rows, Slots(i, j))| == PerParticle(cols, rows, i, j)
  {
    var s := Slots(i, j);
    MadeStep(cols, rows, s, 0);
    MadeStep(cols, rows, s, 1);
    MadeStep(cols, rows, s, 2);
    MadeStep(cols, rows, s, 3);
    MadeStep(cols, rows, s, 4);
    MadeStep(cols, rows, s, 5);
    assert s[0..] == s && s[6..] == [];
  }

  lemma {:induction false} RowCount(cols: nat, rows: nat, j: nat, i: nat)
    requires cols >= 2 && rows >= 2 && i <= cols
    ensures |Made(cols, rows, RowSlots(j, i))| == RowPrefix(cols, rows, j, i)
  {
    if i > 0 {
      RowCount(cols, rows, j, i - 1);
      MadeConcat(cols, rows, RowSlots(j, i - 1), Slots(i - 1, j));
      ParticleCount(cols, rows, i - 1, j);
      RowPrefixStep(cols, rows, j, i - 1);
    }
  }

  lemma {:induction false} RowsCount(cols: nat, rows: nat, j: nat)
    requires cols >= 2 && rows >= 2 && j <= rows
    ensures |Made(cols, rows, SlotsUpTo(cols, j))| == RowsDone(cols, rows, j)
  {
    if j > 0 {
      RowsCount(cols, rows, j - 1);
      MadeConcat(cols, rows, SlotsUpTo(cols, j - 1), RowSlots(j - 1, cols));
      RowCount(cols, rows, j - 1, cols);
      RowsDoneStep(cols, rows, j - 1);
    }
  }

  /** The list has `ConstraintCount` entries. */
  lemma ConListCount(cols: nat, rows: nat)
    requires cols >= 2 && rows >= 2
    ensures |ConPushes(cols, rows)| == ConstraintCount(cols, rows)
  {
    RowsCount(cols, rows, rows);
    RowsDoneAll(cols, rows);
  }

  lemma {:induction false} InRowSlots(p: Push, i: nat)
    requires p.i < i && p.kind < 6
    ensures p in RowSlots(p.j, i)
  {
    if p.i < i - 1 {
      InRowSlots(p, i - 1);
    }
  }

  lemma {:induction false} InSlotsUpTo(cols: nat, p: Push, j: nat)
    requires p.i < cols && p.j < j && p.kind < 6
    ensures p in SlotsUpTo(cols, j)
  {
    if p.j == j - 1 {
      InRowSlots(p, cols);
    } else {
      InSlotsUpTo(cols, p, j - 1);
    }
  }

  /** Every neighbour pair of the grid is in the list: each push whose
      guard holds, at every grid particle, for every class, is among the
      pushes, and so its constraint is among the constraints. */
  lemma ConListComplete(cols: nat, rows: nat, p: Push)
    requires InGrid(cols, rows, p)
    ensures p in ConPushes(cols, rows)
  {
    InSlotsUpTo(cols, p, rows);
    MadeMember(cols, rows, SlotsUpTo(cols, rows), p);
  }

  // No pair twice

  /** The particle whose visit adds a constraint joining `a` and `b`: the
      second shear diagonal belongs to the particle left of `a`, every other
      class to `a` itself. */
  function Owner(cols: nat, a: nat, b: nat): int
    requires cols >= 2
  {
    if a % cols != 0 && b == a + cols - 1 then a - 1 else a
  }

  /** The class of a constraint joining `a` and `b`, read off the two indices. */
  function Kind(cols: nat, a: nat, b: nat): nat
    requires cols >= 2
  {
    if a % cols != 0 && b == a + cols - 1 then 3
    else if b == a + 1 then 0
    else if b == a + cols then 1
    else if b == a + cols + 1 then 2
    else if b == a + 2 then 4
    else 5
  }

  /** The two indices of a push's constraint determine its particle and class. */
  lemma OwnerKind(cols: nat, rows: nat, dx: real, dy: real, diag: real, p: Push)
    requires cols >= 2 && InGrid(cols, rows, p)
    ensures var l := LinkOf(cols, dx, dy, diag, p);
      Owner(cols, l.a, l.b) == Index(cols, p.i, p.j) && Kind(cols, l.a, l.b) == p.kind
  {
    IndexRoundTrip(cols, p.i, p.j);
    if p.kind == 3 {
      IndexRoundTrip(cols, p.i + 1, p.j);
      assert Index(cols, p.i + 1, p.j) == Index(cols, p.i, p.j) + 1;
    }
  }

  /** Two pushes of the builder with the same pair of particles are the same push. */
  lemma LinkOfInjective(cols: nat, rows: nat, dx: real, dy: real, diag: real, p: Push, q: Push)
    requires cols >= 2 && InGrid(cols, rows, p) && InGrid(cols, rows, q)
    requires LinkOf(cols, dx, dy, diag, p).a == LinkOf(cols, dx, dy, diag, q).a
    requires LinkOf(cols, dx, dy, diag, p).b == LinkOf(cols, dx, dy, diag, q).b
    ensures p == q
  {
    OwnerKind(cols, rows, dx, dy, diag, p);
    OwnerKind(cols, rows, dx, dy, diag, q);
    IndexRoundTrip(cols, p.i, p.j);
    IndexRoundTrip(cols, q.i, q.j);
  }

  /** No two constraints of the list join the same pair of particles. */
  lemma ConListDistinct(cols: nat, rows: nat, dx: real, dy: real, diag: real)
    requires cols >= 2
    ensures var ps := ConPushes(cols, rows);
      forall k1, k2 :: 0 <= k1 < k2 < |ps| ==>
        (LinkOf(cols, dx, dy, diag, ps[k1]).a, LinkOf(cols, dx, dy, diag, ps[k1]).b) !=
        (LinkOf(cols, dx, dy, diag, ps[k2]).a, LinkOf(cols, dx, dy, diag, ps[k2]).b)
  {
    ConPushesOrdered(cols, rows);
    var ps := ConPushes(cols, rows);
    forall k1, k2 | 0 <= k1 < k2 < |ps|
      ensures (LinkOf(cols, dx, dy, diag, ps[k1]).a, LinkOf(cols, dx, dy, diag, ps[k1]).b) !=
              (LinkOf(cols, dx, dy, diag, ps[k2]).a, LinkOf(cols, dx, dy, diag, ps[k2]).b)
    {
      assert Before(ps[k1], ps[k2]);
      if LinkOf(cols, dx, dy, diag, ps[k1]).a == LinkOf(cols, dx, dy, diag, ps[k2]).a &&
         LinkOf(cols, dx, dy, diag, ps[k1]).b == LinkOf(cols, dx, dy, diag, ps[k2]).b {
        LinkOfInjective(cols, rows, dx, dy, diag, ps[k1], ps[k2]);
      }
    }
  }

  // The builder

  /** `addC`: appends one constraint to the three parallel lists. */
  method AddC(cols: nat, dx: real, dy: real, diag: real, cA0: seq<nat>, cB0: seq<nat>, cR0: seq<real>,
              ghost ps: seq<Push>, ghost p: Push, a: nat, b: nat, r: real)
    returns (cA: seq<nat>, cB: seq<nat>, cR: seq<real>)
    requires Zipped(cols, dx, dy, diag, cA0, cB0, cR0, ps) && Link(a, b, r) == LinkOf(cols, dx, dy, diag, p)
    ensures Zipped(cols, dx, dy, diag, cA, cB, cR, ps + [p])
  {
    cA, cB, cR := cA0 + [a], cB0 + [b], cR0 + [r];
    var ps' := ps + [p];
    forall k | 0 <= k < |ps'|
      ensures Link(cA[k], cB[k], cR[k]) == LinkOf(cols, dx, dy, diag, ps'[k])
    {
      if k < |ps| {
        assert ps'[k] == ps[k];
      }
    }
  }

  /** The pushes of `done` followed by those of classes below `k` at (i, j). */
  function MadeBefore(cols: nat, rows: nat, done: seq<Push>, i: nat, j: nat, k: nat): seq<Push>
    requires k <= 6
  {
    done + Made(cols, rows, Slots(i, j)[..k])
  }

  /** Trying class `k` at (i, j) appends its push when its guard holds and
      nothing otherwise. */
  lemma KindStep(cols: nat, rows: nat, done: seq<Push>, i: nat, j: nat, k: nat)
    requires k < 6
    ensures Applies(cols, rows, Push(i, j, k)) ==>
      MadeBefore(cols, rows, done, i, j, k + 1) == MadeBefore(cols, rows, done, i, j, k) + [Push(i, j, k)]
    ensures !Applies(cols, rows, Push(i, j, k)) ==>
      MadeBefore(cols, rows, done, i, j, k + 1) == MadeBefore(cols, rows, done, i, j, k)
  {
    var s := Slots(i, j);
    assert s[..k + 1] == s[..k] + [s[k]];
    MadeConcat(cols, rows, s[..k], [s[k]]);
    assert Made(cols, rows, [s[k]]) == (if Applies(cols, rows, s[k]) then [s[k]] else []) by {
      assert [s[k]][1..] == [];
    }
  }

  lemma KindEnds(cols: nat, rows: nat, done: seq<Push>, i: nat, j: nat)
    ensures MadeBefore(cols, rows, done, i, j, 0) == done
    ensures MadeBefore(cols, rows, done, i, j, 6) == done + Made(cols, rows, Slots(i, j))
  {
    assert Slots(i, j)[..0] == [] && Slots(i, j)[..6] == Slots(i, j);
    assert done + [] == done;
  }

  /** The pushes made while visiting particle (i, j), in the order of the
      source: structural right and down, the two shear diagonals of the cell
      below-right, then the bend pairs right and down. */
  method AddParticleLinks(cols: nat, rows: nat, dx: real, dy: real, diag: real, i: nat, j: nat,
                          cA0: seq<nat>, cB0: seq<nat>, cR0: seq<real>, ghost done: seq<Push>)
    returns (cA: seq<nat>, cB: seq<nat>, cR: seq<real>)
    requires Zipped(cols, dx, dy, diag, cA0, cB0, cR0, done)
    ensures Zipped(cols, dx, dy, diag, cA, cB, cR, done + Made(cols, rows, Slots(i, j)))
  {
    cA, cB, cR := cA0, cB0, cR0;
    var idx := j * cols + i;
    KindEnds(cols, rows, done, i, j);
    KindStep(cols, rows, done, i, j, 0);
    if i < cols - 1 {
      cA, cB, cR := AddC(cols, dx, dy, diag, cA, cB, cR, MadeBefore(cols, rows, done, i, j, 0), Push(i, j, 0), idx, idx + 1, dx);
    }
    KindStep(cols, rows, done, i, j, 1);
    if j < rows - 1 {
      cA, cB, cR := AddC(cols, dx, dy, diag, cA, cB, cR, MadeBefore(cols, rows, done, i, j, 1), Push(i, j, 1), idx, idx + cols, dy);
    }
    KindStep(cols, rows, done, i, j, 2);
    KindStep(cols, rows, done, i, j, 3);
    if i < cols - 1 && j < rows - 1 {
      cA, cB, cR := AddC(cols, dx, dy, diag, cA, cB, cR, MadeBefore(cols, rows, done, i, j, 2), Push(i, j, 2), idx, idx + cols + 1, diag);
      cA, cB, cR := AddC(cols, dx, dy, diag, cA, cB, cR, MadeBefore(cols, rows, done, i, j, 3), Push(i, j, 3), idx + 1, idx + cols, diag);
    }
    KindStep(cols, rows, done, i, j, 4);
    if i < cols - 2 {
      cA, cB, cR := AddC(cols, dx, dy, diag, cA, cB, cR, MadeBefore(cols, rows, done, i, j, 4), Push(i, j, 4), idx, idx + 2, dx * 2.0);
    }
    KindStep(cols, rows, done, i, j, 5);
    if j < rows - 2 {
      cA, cB, cR := AddC(cols, dx, dy, diag, cA, cB, cR, MadeBefore(cols, rows, done, i, j, 5), Push(i, j, 5), idx, idx + cols * 2, dy * 2.0);
    }
  }

  /** Visiting particle (i, j) extends the pushes of the first i particles of row j. */
  lemma RowStep(cols: nat, rows: nat, before: seq<Push>, j: nat, i: nat)
    ensures before + Made(cols, rows, RowSlots(j, i)) + Made(cols, rows, Slots(i, j))
         == before + Made(cols, rows, RowSlots(j, i + 1))
  {
    MadeConcat(cols, rows, RowSlots(j, i), Slots(i, j));
  }

  /** A finished row extends the pushes of the rows above it. */
  lemma RowsStep(cols: nat, rows: nat, j: nat)
    ensures Made(cols, rows, SlotsUpTo(cols, j)) + Made(cols, rows, RowSlots(j, cols))
         == Made(cols, rows, SlotsUpTo(cols, j + 1))
  {
    MadeConcat(cols, rows, SlotsUpTo(cols, j), RowSlots(j, cols));
  }

  /** Lists holding the constraints of `ConPushes` satisfy the structural
      invariant and have `ConstraintCount` entries. */
  lemma ZippedValid(cols: nat, rows: nat, dx: real, dy: real, diag: real, cA: seq<nat>, cB: seq<nat>, cR: seq<real>)
    requires cols >= 2 && rows >= 2
    requires Zipped(cols, dx, dy, diag, cA, cB, cR, ConPushes(cols, rows))
    ensures ValidLinks(cols, rows, dx, dy, diag, cA, cB, cR) && |cA| == ConstraintCount(cols, rows)
    ensures forall k :: 0 <= k < |cA| ==> cA[k] < cB[k] < cols * rows
  {
    ConListValid(cols, rows, dx, dy, diag);
    ConListCount(cols, rows);
    forall k | 0 <= k < |cA|
      ensures LinkAt(cols, rows, dx, dy, diag, cA, cB, cR, k)
    {
      assert ValidLink(cols, rows, dx, dy, diag, LinkOf(cols, dx, dy, diag, ConPushes(cols, rows)[k]));
    }
  }

  /** Builds the constraint list, visiting the particles in row-major order:
      the result holds exactly the constraints of `ConPushes`, in order. */
  method BuildConstraints(cols: nat, rows: nat, dx: real, dy: real, diag: real)
    returns (cA: seq<nat>, cB: seq<nat>, cR: seq<real>)
    requires cols >= 2 && rows >= 2
    ensures Zipped(cols, dx, dy, diag, cA, cB, cR, ConPushes(cols, rows))
    ensures ValidLinks(cols, rows, dx, dy, diag, cA, cB, cR) && |cA| == ConstraintCount(cols, rows)
    ensures forall k :: 0 <= k < |cA| ==> cA[k] < cB[k] < cols * rows
  {
    cA, cB, cR := [], [], [];
    var j := 0;
    while j < rows
      invariant 0 <= j <= rows
      invariant Zipped(cols, dx, dy, diag, cA, cB, cR, Made(cols, rows, SlotsUpTo(cols, j)))
    {
      ghost var before := Made(cols, rows, SlotsUpTo(cols, j));
      assert before + Made(cols, rows, RowSlots(j, 0)) == before;
      var i := 0;
      while i < cols
        invariant 0 <= i <= cols
        invariant Zipped(cols, dx, dy, diag, cA, cB, cR, before + Made(cols, rows, RowSlots(j, i)))
      {
        cA, cB, cR := AddParticleLinks(cols, rows, dx, dy, diag, i, j, cA, cB, cR, before + Made(cols, rows, RowSlots(j, i)));
        RowStep(cols, rows, before, j, i);
        i := i + 1;
      }
      RowsStep(cols, rows, j);
      j := j + 1;
    }
    ZippedValid(cols, rows, dx, dy, diag, cA, cB, cR);
  }
}
