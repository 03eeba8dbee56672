/**
 * Domain discretisation helpers: particle masses from volumes, and seeding
 * of a background grid with 2^dim particles per interior cell at the
 * two-point Gauss positions 0.2113 and 0.7887 of a cell on every axis.
 */
module DomainHelpers {
  import opened Sums
  import opened Wrappers

  /** The particle fields the helpers read or write. */
  datatype Particles = Particles(positionStack: seq<seq<real>>, volumeStack: seq<real>, massStack: seq<real>)

  /** The node fields the helpers read: the uniform spacing and the node count per axis. */
  datatype Nodes = Nodes(nodeSpacing: real, gridSize: seq<nat>)

  /**
   * `discretize`: the particles' volumes come from calculateVolume (given
   * the node spacing and the particles per cell), every mass is the
   * reference density times that particle's volume, and the nodes and the
   * shape function come back untouched.
   */
  function Discretize<S>(particles: Particles, nodes: Nodes, shapefunction: S,
      calculateVolume: (Particles, real, int) -> Particles, ppc: int, densityRef: real)
    : (r: (Particles, Nodes, S))
    ensures var withVolume := calculateVolume(particles, nodes.nodeSpacing, ppc);
      r.0.positionStack == withVolume.positionStack &&
      r.0.volumeStack == withVolume.volumeStack &&
      |r.0.massStack| == |withVolume.volumeStack| &&
      (forall i :: 0 <= i < |r.0.massStack| ==> r.0.massStack[i] == densityRef * withVolume.volumeStack[i])
    ensures r.1 == nodes && r.2 == shapefunction
  {
    var withVolume := calculateVolume(particles, nodes.nodeSpacing, ppc);
    (withVolume.(massStack := Scale(densityRef, withVolume.volumeStack)), nodes, shapefunction)
  }

  /** The total mass after `discretize` is the reference density times the total volume. */
  lemma {:induction false} TotalMass<S>(particles: Particles, nodes: Nodes, shapefunction: S,
      calculateVolume: (Particles, real, int) -> Particles, ppc: int, densityRef: real)
    ensures var r := Discretize(particles, nodes, shapefunction, calculateVolume, ppc, densityRef);
      Sum(r.0.massStack) == densityRef * Sum(r.0.volumeStack)
  {
    var withVolume := calculateVolume(particles, nodes.nodeSpacing, ppc);
    SumScale(densityRef, withVolume.volumeStack);
  }

  // ---------------------------------------------------------------------
  // Grid trimming

  /** How many indices of an axis of n nodes survive dropping 3 in front and 4 at the back. */
  function KeptLen(n: nat): nat {
    if n >= 7 then n - 7 else 0
  }

  /**
   * The slices `[3:]` then `[:-4]` of one axis, with Python's clamping of
   * out-of-range bounds: the entries at indices 3 <= i < n - 4 survive, in
   * order, and none survive when the axis has fewer than 7 entries.
   */
  function Trim<T>(s: seq<T>): (r: seq<T>)
    ensures |r| == KeptLen(|s|)
    ensures forall i :: 0 <= i < |r| ==> r[i] == s[i + 3]
  {
    var front := if |s| >= 3 then s[3..] else [];
    if |front| >= 4 then front[..|front| - 4] else []
  }

  /** The row-major flat index of entry b of row a, rows being w long. */
  function FlatIndex(a: nat, b: nat, w: nat): nat {
    a * w + b
  }

  /** Row-major flat index (a, b) of an n0 x n1 grid stays below n0 * n1. */
  lemma {:induction false} RowMajorBound(a: nat, b: nat, n0: nat, n1: nat)
    requires a < n0 && b < n1
    ensures FlatIndex(a, b, n1) < n0 * n1
  {
    var rest: nat := n0 - (a + 1);
    assert n0 * n1 == a * n1 + n1 + rest * n1;
  }

  /** The number of nodes of a grid: the product of its axis sizes. */
  function NodeCount(gridSize: seq<nat>): nat {
    if |gridSize| == 0 then 1 else NodeCount(gridSize[..|gridSize| - 1]) * gridSize[|gridSize| - 1]
  }

  /** The number of nodes left after trimming every axis. */
  function KeptCount(gridSize: seq<nat>): nat {
    if |gridSize| == 0 then 1 else KeptCount(gridSize[..|gridSize| - 1]) * KeptLen(gridSize[|gridSize| - 1])
  }

  /** The coordinate stack viewed as an n0 x n1 grid, last axis fastest. */
  function Reshape2(c: seq<seq<real>>, n0: nat, n1: nat): seq<seq<seq<real>>>
    requires |c| == n0 * n1
  {
    seq(n0, a requires 0 <= a < n0 =>
      seq(n1, b requires 0 <= b < n1 => RowMajorBound(a, b, n0, n1); c[FlatIndex(a, b, n1)]))
  }

  /** The coordinate stack viewed as an n0 x n1 x n2 grid, last axis fastest. */
  function Reshape3(c: seq<seq<real>>, n0: nat, n1: nat, n2: nat): seq<seq<seq<seq<real>>>>
    requires |c| == n0 * n1 * n2
  {
    seq(n0, a requires 0 <= a < n0 =>
      seq(n1, b requires 0 <= b < n1 =>
        seq(n2, d requires 0 <= d < n2 =>
          RowMajorBound(a, b, n0, n1); RowMajorBound(FlatIndex(a, b, n1), d, n0 * n1, n2);
          c[FlatIndex(FlatIndex(a, b, n1), d, n2)])))
  }

  /** Trimming applied to both axes of a 2D grid. */
  function TrimGrid2<T>(g: seq<seq<T>>): seq<seq<T>> {
    var rows := Trim(g);
    seq(|rows|, a requires 0 <= a < |rows| => Trim(rows[a]))
  }

  /** Trimming applied to all three axes of a 3D grid. */
  function TrimGrid3<T>(g: seq<seq<seq<T>>>): seq<seq<seq<T>>> {
    var slabs := Trim(g);
    seq(|slabs|, a requires 0 <= a < |slabs| => TrimGrid2(slabs[a]))
  }

  /** Concatenation of the rows of x, in order (a reshape to one axis fewer). */
  function Flatten<T>(x: seq<seq<T>>): seq<T> {
    if |x| == 0 then [] else Flatten(x[..|x| - 1]) + x[|x| - 1]
  }

  /** Flattening n rows of common width w gives n * w entries. */
  lemma {:induction false} FlattenLength<T>(x: seq<seq<T>>, w: nat)
    requires forall a :: 0 <= a < |x| ==> |x[a]| == w
    ensures |Flatten(x)| == |x| * w
  {
    if |x| > 0 {
      var n := |x| - 1;
      FlattenLength(x[..n], w);
      assert |Flatten(x)| == n * w + w;
    }
  }

  /** Flattening rows of common width w puts entry b of row a at the row-major index (a, b). */
  lemma {:induction false} FlattenAt<T>(x: seq<seq<T>>, w: nat, a: nat, b: nat)
    requires forall a :: 0 <= a < |x| ==> |x[a]| == w
    requires a < |x| && b < w
    ensures FlatIndex(a, b, w) < |Flatten(x)| && Flatten(x)[FlatIndex(a, b, w)] == x[a][b]
  {
    var n := |x| - 1;
    var prefix := Flatten(x[..n]);
    FlattenLength(x[..n], w);
    if a < n {
      FlattenAt(x[..n], w, a, b);
      assert x[..n][a] == x[a];
    } else {
      assert FlatIndex(a, b, w) == |prefix| + b;
    }
  }

  // ---------------------------------------------------------------------
  // Gauss offsets and seeding

  /** The two Gauss positions inside a cell, as fractions of the spacing. */
  const Low: real := 0.2113
  const High: real := 0.7887

  /** Low for bit 0, High for bit 1. */
  function Level(bit: int): real {
    if bit == 0 then Low else High
  }

  const PntOpt2: seq<seq<real>> := [
    [0.2113, 0.2113],
    [0.2113, 0.7887],
    [0.7887, 0.2113],
    [0.7887, 0.7887]]

  const PntOpt3: seq<seq<real>> := [
    [0.2113, 0.2113, 0.2113],
    [0.2113, 0.7887, 0.2113],
    [0.7887, 0.2113, 0.2113],
    [0.7887, 0.7887, 0.2113],
    [0.2113, 0.2113, 0.7887],
    [0.2113, 0.7887, 0.7887],
    [0.7887, 0.2113, 0.7887],
    [0.7887, 0.7887, 0.7887]]

  /** 2^dim. */
  function Pow2(dim: nat): nat {
    if dim == 0 then 1 else 2 * Pow2(dim - 1)
  }

  /** The offset table of the 2D path (dim 2) or of the 3D path (any other dim). */
  function OffsetTable(dim: int): (t: seq<seq<real>>)
    ensures |t| == if dim == 2 then 4 else 8
    ensures forall j :: 0 <= j < |t| ==> |t[j]| == if dim == 2 then 2 else 3
  {
    if dim == 2 then PntOpt2 else PntOpt3
  }

  /**
   * Row order of the table: per column, row j holds the bit of j that the
   * listing toggles there (the last column of the 3D listing changes slowest).
   */
  lemma {:induction false} OffsetRow(dim: int, j: nat)
    requires j < |OffsetTable(dim)|
    ensures dim == 2 ==> OffsetTable(dim)[j] == [Level(j / 2), Level(j % 2)]
    ensures dim != 2 ==> OffsetTable(dim)[j] == [Level((j / 2) % 2), Level(j % 2), Level(j / 4)]
  {
  }

  /**
   * The table of the dimension's path has 2^dim rows of width dim, every
   * entry is one of the two Gauss positions, strictly inside the cell, and
   * the two positions are mirror images within the cell.
   */
  lemma {:induction false} OffsetEntries(dim: int)
    requires dim == 2 || dim == 3
    ensures |OffsetTable(dim)| == Pow2(dim)
    ensures forall j :: 0 <= j < |OffsetTable(dim)| ==> |OffsetTable(dim)[j]| == dim
    ensures forall j, i :: 0 <= j < |OffsetTable(dim)| && 0 <= i < |OffsetTable(dim)[j]| ==>
      (OffsetTable(dim)[j][i] == Low || OffsetTable(dim)[j][i] == High) &&
      0.0 < OffsetTable(dim)[j][i] < 1.0
    ensures Low + High == 1.0
  {
    var t := OffsetTable(dim);
    assert Pow2(dim) == |t| by {
      assert Pow2(2) == 4;
      assert Pow2(3) == 8;
    }
  }

  /** The rows are pairwise distinct, so every corner combination occurs exactly once. */
  lemma {:induction false} OffsetRowsDistinct(dim: int, j: nat, k: nat)
    requires j < |OffsetTable(dim)| && k < |OffsetTable(dim)| && j != k
    ensures OffsetTable(dim)[j] != OffsetTable(dim)[k]
  {
    var t := OffsetTable(dim);
    OffsetRow(dim, j);
    OffsetRow(dim, k);
    if dim == 2 {
      if j / 2 != k / 2 {
        assert t[j][0] != t[k][0];
      } else {
        assert t[j][1] != t[k][1];
      }
    } else {
      if (j / 2) % 2 != (k / 2) % 2 {
        assert t[j][0] != t[k][0];
      } else if j % 2 != k % 2 {
        assert t[j][1] != t[k][1];
      } else {
        assert t[j][2] != t[k][2];
      }
    }
  }

  /** `get_opt`: an offset row scaled by the spacing and added to a node coordinate. */
  function Shift(node: seq<real>, offset: seq<real>, spacing: real): (p: seq<real>)
    requires |offset| == |node|
    ensures |p| == |node|
  {
    seq(|node|, i requires 0 <= i < |node| => offset[i] * spacing + node[i])
  }

  /** Axis i of a shifted node is the node's coordinate plus offset i times the spacing. */
  lemma {:induction false} ShiftAt(node: seq<real>, offset: seq<real>, spacing: real, i: nat)
    requires |offset| == |node| && i < |node|
    ensures Shift(node, offset, spacing)[i] == offset[i] * spacing + node[i]
  {
  }

  /** Each kept node shifted by each offset row: one group of |offsets| points per node. */
  function Shifted(kept: seq<seq<real>>, offsets: seq<seq<real>>, spacing: real): (x: seq<seq<seq<real>>>)
    requires forall m, j :: 0 <= m < |kept| && 0 <= j < |offsets| ==> |offsets[j]| == |kept[m]|
    ensures |x| == |kept| && forall m :: 0 <= m < |kept| ==> |x[m]| == |offsets|
    ensures forall m, j :: 0 <= m < |kept| && 0 <= j < |offsets| ==> x[m][j] == Shift(kept[m], offsets[j], spacing)
  {
    seq(|kept|, m requires 0 <= m < |kept| =>
      seq(|offsets|, j requires 0 <= j < |offsets| => Shift(kept[m], offsets[j], spacing)))
  }

  /**
   * Every kept node shifted by every offset row, flattened node by node: the
   * vectorised `get_opt` followed by the reshape to one point per row.
   */
  function Seed(kept: seq<seq<real>>, offsets: seq<seq<real>>, spacing: real): (points: seq<seq<real>>)
    requires forall m, j :: 0 <= m < |kept| && 0 <= j < |offsets| ==> |offsets[j]| == |kept[m]|
    ensures |points| == |kept| * |offsets|
  {
    FlattenLength(Shifted(kept, offsets, spacing), |offsets|);
    Flatten(Shifted(kept, offsets, spacing))
  }

  /** Point (m, j) of the seeding, in row-major order, is kept node m shifted by offset row j. */
  lemma {:induction false} SeedAt(kept: seq<seq<real>>, offsets: seq<seq<real>>, spacing: real, m: nat, j: nat)
    requires forall m, j :: 0 <= m < |kept| && 0 <= j < |offsets| ==> |offsets[j]| == |kept[m]|
    requires m < |kept| && j < |offsets|
    ensures var k := FlatIndex(m, j, |offsets|);
      k < |Seed(kept, offsets, spacing)| && Seed(kept, offsets, spacing)[k] == Shift(kept[m], offsets[j], spacing)
  {
    FlattenAt(Shifted(kept, offsets, spacing), |offsets|, m, j);
  }

  lemma {:induction false} PositiveProduct(x: real, y: real)
    requires x > 0.0 && y > 0.0
    ensures x * y > 0.0
  {
  }

  /** A fraction strictly between 0 and 1 of a positive step lands strictly inside it. */
  lemma {:induction false} Between(o: real, step: real, x: real, p: real)
    requires 0.0 < o < 1.0 && step > 0.0 && p == o * step + x
    ensures x < p < x + step
  {
    PositiveProduct(o, step);
    PositiveProduct(1.0 - o, step);
    assert (1.0 - o) * step == step - o * step;
  }

  /**
   * With a positive spacing and an offset strictly between 0 and 1 on an
   * axis, the shifted point lies strictly inside the node's cell there.
   */
  lemma {:induction false} ShiftInside(node: seq<real>, offset: seq<real>, spacing: real, i: nat)
    requires |offset| == |node| && i < |node|
    requires 0.0 < offset[i] < 1.0 && spacing > 0.0
    ensures node[i] < Shift(node, offset, spacing)[i] < node[i] + spacing
  {
    Between(offset[i], spacing, node[i], Shift(node, offset, spacing)[i]);
  }

  /** The coordinate stack of a grid of dim axes has one row of dim coordinates per node. */
  predicate WellShaped(nodes: Nodes, coordinateStack: seq<seq<real>>, dim: int) {
    |nodes.gridSize| == dim && |coordinateStack| == NodeCount(nodes.gridSize) &&
    forall k :: 0 <= k < |coordinateStack| ==> |coordinateStack[k]| == dim
  }

  lemma {:induction false} Counts2(gs: seq<nat>)
    requires |gs| == 2
    ensures NodeCount(gs) == gs[0] * gs[1]
    ensures KeptCount(gs) == KeptLen(gs[0]) * KeptLen(gs[1])
  {
    var front := gs[..1];
    assert front[..0] == [] && front[0] == gs[0];
    assert NodeCount(front) == gs[0];
    assert KeptCount(front) == KeptLen(gs[0]);
    assert gs[..|gs| - 1] == front;
  }

  lemma {:induction false} Counts3(gs: seq<nat>)
    requires |gs| == 3
    ensures NodeCount(gs) == gs[0] * gs[1] * gs[2]
    ensures KeptCount(gs) == KeptLen(gs[0]) * KeptLen(gs[1]) * KeptLen(gs[2])
  {
    assert gs[..2][..1] == gs[..1];
    Counts2(gs[..2]);
  }

  /** Flattening keeps every property that all entries of all rows have. */
  lemma {:induction false} FlattenAll<T>(x: seq<seq<T>>, P: T -> bool)
    requires forall a, b :: 0 <= a < |x| && 0 <= b < |x[a]| ==> P(x[a][b])
    ensures forall k :: 0 <= k < |Flatten(x)| ==> P(Flatten(x)[k])
  {
    if |x| > 0 {
      var n := |x| - 1;
      assert forall a :: 0 <= a < n ==> x[..n][a] == x[a];
      FlattenAll(x[..n], P);
    }
  }

  /**
   * Trimming both axes of a grid with rows of width n1 leaves KeptLen rows
   * of KeptLen(n1) entries, entry (a, b) coming from entry (a + 3, b + 3).
   */
  lemma {:induction false} TrimGrid2Entries<T>(g: seq<seq<T>>, n1: nat)
    requires forall a :: 0 <= a < |g| ==> |g[a]| == n1
    ensures |TrimGrid2(g)| == KeptLen(|g|)
    ensures forall a :: 0 <= a < |TrimGrid2(g)| ==> |TrimGrid2(g)[a]| == KeptLen(n1)
    ensures forall a, b :: 0 <= a < |TrimGrid2(g)| && 0 <= b < |TrimGrid2(g)[a]| ==>
      TrimGrid2(g)[a][b] == g[a + 3][b + 3]
  {
  }

  /** Trimming all three axes: entry (a, b, d) comes from entry (a + 3, b + 3, d + 3). */
  lemma {:induction false} TrimGrid3Entries<T>(g: seq<seq<seq<T>>>, n1: nat, n2: nat)
    requires forall a :: 0 <= a < |g| ==> |g[a]| == n1
    requires forall a, b :: 0 <= a < |g| && 0 <= b < |g[a]| ==> |g[a][b]| == n2
    ensures |TrimGrid3(g)| == KeptLen(|g|)
    ensures forall a :: 0 <= a < |TrimGrid3(g)| ==> |TrimGrid3(g)[a]| == KeptLen(n1)
    ensures forall a, b :: 0 <= a < |TrimGrid3(g)| && 0 <= b < |TrimGrid3(g)[a]| ==>
      |TrimGrid3(g)[a][b]| == KeptLen(n2)
    ensures forall a, b, d :: (0 <= a < |TrimGrid3(g)| && 0 <= b < |TrimGrid3(g)[a]| &&
      0 <= d < |TrimGrid3(g)[a][b]|) ==> TrimGrid3(g)[a][b][d] == g[a + 3][b + 3][d + 3]
  {
    forall a | 0 <= a < |TrimGrid3(g)|
      ensures TrimGrid3(g)[a] == TrimGrid2(g[a + 3])
    {
    }
    forall a | 0 <= a < |TrimGrid3(g)|
      ensures |TrimGrid3(g)[a]| == KeptLen(n1)
      ensures forall b :: 0 <= b < |TrimGrid3(g)[a]| ==> |TrimGrid3(g)[a][b]| == KeptLen(n2)
      ensures forall b, d :: 0 <= b < |TrimGrid3(g)[a]| && 0 <= d < |TrimGrid3(g)[a][b]| ==>
        TrimGrid3(g)[a][b][d] == g[a + 3][b + 3][d + 3]
    {
      TrimGrid2Entries(g[a + 3], n2);
    }
  }

  /** Node (a, b) of the 2D view is row FlatIndex(a, b, n1) of the coordinate stack. */
  lemma {:induction false} Reshape2At(c: seq<seq<real>>, n0: nat, n1: nat, a: nat, b: nat)
    requires |c| == n0 * n1 && a < n0 && b < n1
    ensures FlatIndex(a, b, n1) < |c| && Reshape2(c, n0, n1)[a][b] == c[FlatIndex(a, b, n1)]
  {
    RowMajorBound(a, b, n0, n1);
  }

  /** Node (a, b, d) of the 3D view is row FlatIndex(FlatIndex(a, b, n1), d, n2) of the coordinate stack. */
  lemma {:induction false} Reshape3At(c: seq<seq<real>>, n0: nat, n1: nat, n2: nat, a: nat, b: nat, d: nat)
    requires |c| == n0 * n1 * n2 && a < n0 && b < n1 && d < n2
    ensures var k := FlatIndex(FlatIndex(a, b, n1), d, n2);
      k < |c| && Reshape3(c, n0, n1, n2)[a][b][d] == c[k]
  {
    RowMajorBound(a, b, n0, n1);
    RowMajorBound(FlatIndex(a, b, n1), d, n0 * n1, n2);
  }

  /** The 2D view of a stack of width-w rows: n0 rows of n1 nodes of w coordinates. */
  lemma {:induction false} Reshape2Shape(c: seq<seq<real>>, n0: nat, n1: nat, w: nat)
    requires |c| == n0 * n1 && forall k :: 0 <= k < |c| ==> |c[k]| == w
    ensures var g := Reshape2(c, n0, n1);
      |g| == n0 && (forall a :: 0 <= a < n0 ==> |g[a]| == n1) &&
      forall a, b :: 0 <= a < n0 && 0 <= b < n1 ==> |g[a][b]| == w
  {
    forall a, b | 0 <= a < n0 && 0 <= b < n1
      ensures |Reshape2(c, n0, n1)[a][b]| == w
    {
      Reshape2At(c, n0, n1, a, b);
    }
  }

  /** The 3D view of a stack of width-w rows: n0 x n1 x n2 nodes of w coordinates. */
  lemma {:induction false} Reshape3Shape(c: seq<seq<real>>, n0: nat, n1: nat, n2: nat, w: nat)
    requires |c| == n0 * n1 * n2 && forall k :: 0 <= k < |c| ==> |c[k]| == w
    ensures var g := Reshape3(c, n0, n1, n2);
      |g| == n0 && (forall a :: 0 <= a < n0 ==> |g[a]| == n1) &&
      (forall a, b :: 0 <= a < n0 && 0 <= b < n1 ==> |g[a][b]| == n2) &&
      forall a, b, d :: 0 <= a < n0 && 0 <= b < n1 && 0 <= d < n2 ==> |g[a][b][d]| == w
  {
    forall a, b, d | 0 <= a < n0 && 0 <= b < n1 && 0 <= d < n2
      ensures |Reshape3(c, n0, n1, n2)[a][b][d]| == w
    {
      Reshape3At(c, n0, n1, n2, a, b, d);
    }
  }

  /** A trimmed and flattened 2D grid of width-w nodes has KeptLen(n0) * KeptLen(n1) width-w rows. */
  lemma {:induction false} FlatGrid2Shape(g: seq<seq<seq<real>>>, n1: nat, w: nat)
    requires forall a :: 0 <= a < |g| ==> |g[a]| == n1
    requires forall a, b :: 0 <= a < |g| && 0 <= b < |g[a]| ==> |g[a][b]| == w
    ensures var kept := Flatten(TrimGrid2(g));
      |kept| == KeptLen(|g|) * KeptLen(n1) && forall m :: 0 <= m < |kept| ==> |kept[m]| == w
  {
    TrimGrid2Entries(g, n1);
    var t := TrimGrid2(g);
    FlattenLength(t, KeptLen(n1));
    FlattenAll(t, (row: seq<real>) => |row| == w);
  }

  /** Node (a, b) of the trimmed grid lands at FlatIndex(a, b, KeptLen(n1)) of the flattening. */
  lemma {:induction false} FlatGrid2At(g: seq<seq<seq<real>>>, n1: nat, a: nat, b: nat)
    requires forall a :: 0 <= a < |g| ==> |g[a]| == n1
    requires a < KeptLen(|g|) && b < KeptLen(n1)
    ensures var m := FlatIndex(a, b, KeptLen(n1));
      m < |Flatten(TrimGrid2(g))| && Flatten(TrimGrid2(g))[m] == g[a + 3][b + 3]
  {
    TrimGrid2Entries(g, n1);
    FlattenAt(TrimGrid2(g), KeptLen(n1), a, b);
  }

  /** The trimmed 3D grid flattened once: KeptLen(n0) * KeptLen(n1) lines of KeptLen(n2) width-w nodes. */
  lemma {:induction false} FlatGrid3Rows(g: seq<seq<seq<seq<real>>>>, n1: nat, n2: nat, w: nat)
    requires forall a :: 0 <= a < |g| ==> |g[a]| == n1
    requires forall a, b :: 0 <= a < |g| && 0 <= b < |g[a]| ==> |g[a][b]| == n2
    requires forall a, b, d :: 0 <= a < |g| && 0 <= b < |g[a]| && 0 <= d < |g[a][b]| ==> |g[a][b][d]| == w
    ensures var rows := Flatten(TrimGrid3(g));
      |rows| == KeptLen(|g|) * KeptLen(n1) &&
      (forall q :: 0 <= q < |rows| ==> |rows[q]| == KeptLen(n2)) &&
      (forall q, d :: 0 <= q < |rows| && 0 <= d < |rows[q]| ==> |rows[q][d]| == w)
  {
    TrimGrid3Entries(g, n1, n2);
    var t := TrimGrid3(g);
    FlattenLength(t, KeptLen(n1));
    FlattenAll(t, (r: seq<seq<real>>) => |r| == KeptLen(n2));
    FlattenAll(t, (r: seq<seq<real>>) => forall d :: 0 <= d < |r| ==> |r[d]| == w);
  }

  /** A trimmed and flattened 3D grid of width-w nodes has KeptLen(n0) * KeptLen(n1) * KeptLen(n2) width-w rows. */
  lemma {:induction false} FlatGrid3Shape(g: seq<seq<seq<seq<real>>>>, n1: nat, n2: nat, w: nat)
    requires forall a :: 0 <= a < |g| ==> |g[a]| == n1
    requires forall a, b :: 0 <= a < |g| && 0 <= b < |g[a]| ==> |g[a][b]| == n2
    requires forall a, b, d :: 0 <= a < |g| && 0 <= b < |g[a]| && 0 <= d < |g[a][b]| ==> |g[a][b][d]| == w
    ensures var kept := Flatten(Flatten(TrimGrid3(g)));
      |kept| == KeptLen(|g|) * KeptLen(n1) * KeptLen(n2) && forall m :: 0 <= m < |kept| ==> |kept[m]| == w
  {
    FlatGrid3Rows(g, n1, n2, w);
    var rows := Flatten(TrimGrid3(g));
    FlattenLength(rows, KeptLen(n2));
    FlattenAll(rows, (row: seq<real>) => |row| == w);
  }

  /** Node (a, b, d) of the trimmed grid lands at FlatIndex(FlatIndex(a, b, KeptLen(n1)), d, KeptLen(n2)). */
  lemma {:induction false} FlatGrid3At(g: seq<seq<seq<seq<real>>>>, n1: nat, n2: nat, a: nat, b: nat, d: nat)
    requires forall a :: 0 <= a < |g| ==> |g[a]| == n1
    requires forall a, b :: 0 <= a < |g| && 0 <= b < |g[a]| ==> |g[a][b]| == n2
    requires a < KeptLen(|g|) && b < KeptLen(n1) && d < KeptLen(n2)
    ensures var m := FlatIndex(FlatIndex(a, b, KeptLen(n1)), d, KeptLen(n2));
      m < |Flatten(Flatten(TrimGrid3(g)))| && Flatten(Flatten(TrimGrid3(g)))[m] == g[a + 3][b + 3][d + 3]
  {
    TrimGrid3Entries(g, n1, n2);
    var t := TrimGrid3(g);
    var q := FlatIndex(a, b, KeptLen(n1));
    FlattenAt(t, KeptLen(n1), a, b);
    var rows := Flatten(t);
    FlattenLength(t, KeptLen(n1));
    FlattenAll(t, (r: seq<seq<real>>) => |r| == KeptLen(n2));
    FlattenAt(rows, KeptLen(n2), q, d);
  }

  /**
   * The nodes that survive trimming, flattened in row-major order of the
   * trimmed grid (the 2D path for dim 2, the 3D path for dim 3): one per
   * node index kept on every axis, each with dim coordinates.
   */
  function KeptNodes(nodes: Nodes, coordinateStack: seq<seq<real>>, dim: int): (kept: seq<seq<real>>)
    requires dim == 2 || dim == 3
    requires WellShaped(nodes, coordinateStack, dim)
    ensures |kept| == KeptCount(nodes.gridSize)
    ensures forall m :: 0 <= m < |kept| ==> |kept[m]| == dim
  {
    var gs := nodes.gridSize;
    if dim == 2 then
      Counts2(gs);
      var g := Reshape2(coordinateStack, gs[0], gs[1]);
      Reshape2Shape(coordinateStack, gs[0], gs[1], 2);
      FlatGrid2Shape(g, gs[1], 2);
      Flatten(TrimGrid2(g))
    else
      Counts3(gs);
      var g := Reshape3(coordinateStack, gs[0], gs[1], gs[2]);
      Reshape3Shape(coordinateStack, gs[0], gs[1], gs[2], 3);
      FlatGrid3Shape(g, gs[1], gs[2], 3);
      Flatten(Flatten(TrimGrid3(g)))
  }

  /**
   * The 2D path keeps grid node (a + 3, b + 3) as kept node (a, b) of the
   * trimmed grid, row-major, for a < KeptLen(n0) and b < KeptLen(n1).
   */
  lemma {:induction false} KeptAt2(nodes: Nodes, coordinateStack: seq<seq<real>>, a: nat, b: nat)
    requires WellShaped(nodes, coordinateStack, 2)
    requires a < KeptLen(nodes.gridSize[0]) && b < KeptLen(nodes.gridSize[1])
    ensures var n1 := nodes.gridSize[1]; var kept := KeptNodes(nodes, coordinateStack, 2);
      var m := FlatIndex(a, b, KeptLen(n1)); var k := FlatIndex(a + 3, b + 3, n1);
      m < |kept| && k < |coordinateStack| && kept[m] == coordinateStack[k]
  {
    var gs := nodes.gridSize;
    Counts2(gs);
    var g := Reshape2(coordinateStack, gs[0], gs[1]);
    Reshape2Shape(coordinateStack, gs[0], gs[1], 2);
    assert KeptNodes(nodes, coordinateStack, 2) == Flatten(TrimGrid2(g));
    FlatGrid2At(g, gs[1], a, b);
    Reshape2At(coordinateStack, gs[0], gs[1], a + 3, b + 3);
  }

  /**
   * The 3D path keeps grid node (a + 3, b + 3, d + 3) as kept node (a, b, d)
   * of the trimmed grid, row-major.
   */
  lemma {:induction false} KeptAt3(nodes: Nodes, coordinateStack: seq<seq<real>>, a: nat, b: nat, d: nat)
    requires WellShaped(nodes, coordinateStack, 3)
    requires a < KeptLen(nodes.gridSize[0]) && b < KeptLen(nodes.gridSize[1]) && d < KeptLen(nodes.gridSize[2])
    ensures var n1 := nodes.gridSize[1]; var n2 := nodes.gridSize[2];
      var kept := KeptNodes(nodes, coordinateStack, 3);
      var m := FlatIndex(FlatIndex(a, b, KeptLen(n1)), d, KeptLen(n2));
      var k := FlatIndex(FlatIndex(a + 3, b + 3, n1), d + 3, n2);
      m < |kept| && k < |coordinateStack| && kept[m] == coordinateStack[k]
  {
    var gs := nodes.gridSize;
    Counts3(gs);
    var g := Reshape3(coordinateStack, gs[0], gs[1], gs[2]);
    Reshape3Shape(coordinateStack, gs[0], gs[1], gs[2], 3);
    assert KeptNodes(nodes, coordinateStack, 3) == Flatten(Flatten(TrimGrid3(g)));
    FlatGrid3At(g, gs[1], gs[2], a, b, d);
    Reshape3At(coordinateStack, gs[0], gs[1], gs[2], a + 3, b + 3, d + 3);
  }

  /**
   * `fill_domain_with_particles`: 2^dim points per kept node, point
   * m * 2^dim + j being kept node m shifted by offset row j times the
   * spacing, and the untouched, untrimmed node coordinate stack. Dimension 2
   * takes the 2D path and dimension 3 the 3D path; any other dimension fails
   * inside the array operations.
   */
  function FillDomainWithParticles(nodes: Nodes, coordinateStack: seq<seq<real>>, dim: int)
    : (r: Option<(seq<seq<real>>, seq<seq<real>>)>)
    requires WellShaped(nodes, coordinateStack, dim)
    ensures r.None? <==> !(dim == 2 || dim == 3)
    ensures r.Some? ==> r.value.1 == coordinateStack
    ensures r.Some? ==> |r.value.0| == KeptCount(nodes.gridSize) * Pow2(dim)
    ensures r.Some? ==> r.value.0 == Seed(KeptNodes(nodes, coordinateStack, dim), OffsetTable(dim), nodes.nodeSpacing)
  {
    if dim == 2 || dim == 3 then
      var kept := KeptNodes(nodes, coordinateStack, dim);
      OffsetEntries(dim);
      Some((Seed(kept, OffsetTable(dim), nodes.nodeSpacing), coordinateStack))
    else
      None
  }

  /** Axis i of seeded point (m, j) is offset i of row j times the spacing plus axis i of node m. */
  lemma {:induction false} SeedPoint(kept: seq<seq<real>>, offsets: seq<seq<real>>, spacing: real, m: nat, j: nat)
    requires forall m, j :: 0 <= m < |kept| && 0 <= j < |offsets| ==> |offsets[j]| == |kept[m]|
    requires m < |kept| && j < |offsets|
    ensures var points := Seed(kept, offsets, spacing); var k := FlatIndex(m, j, |offsets|);
      k < |points| && |points[k]| == |kept[m]| &&
      forall i :: 0 <= i < |kept[m]| ==> points[k][i] == offsets[j][i] * spacing + kept[m][i]
  {
    SeedAt(kept, offsets, spacing, m, j);
    var p := Shift(kept[m], offsets[j], spacing);
    forall i | 0 <= i < |kept[m]|
      ensures p[i] == offsets[j][i] * spacing + kept[m][i]
    {
      ShiftAt(kept[m], offsets[j], spacing, i);
    }
  }

  /**
   * Output order: point FlatIndex(m, j, 2^dim) is kept node m plus offset
   * row j times the spacing.
   */
  lemma {:induction false} FillOrder(nodes: Nodes, coordinateStack: seq<seq<real>>, dim: int, m: nat, j: nat)
    requires WellShaped(nodes, coordinateStack, dim) && (dim == 2 || dim == 3)
    requires m < KeptCount(nodes.gridSize) && j < Pow2(dim)
    ensures var points := FillDomainWithParticles(nodes, coordinateStack, dim).value.0;
      var node := KeptNodes(nodes, coordinateStack, dim)[m];
      var k := FlatIndex(m, j, Pow2(dim));
      k < |points| && |points[k]| == dim && points[k] == Shift(node, OffsetTable(dim)[j], nodes.nodeSpacing)
  {
    var kept := KeptNodes(nodes, coordinateStack, dim);
    OffsetEntries(dim);
    SeedAt(kept, OffsetTable(dim), nodes.nodeSpacing, m, j);
  }

  /**
   * Containment: with a positive spacing every seeded point lies strictly
   * inside the cell of its node, on every axis.
   */
  lemma {:induction false} FillContainment(nodes: Nodes, coordinateStack: seq<seq<real>>, dim: int,
      m: nat, j: nat, i: nat)
    requires WellShaped(nodes, coordinateStack, dim) && (dim == 2 || dim == 3)
    requires nodes.nodeSpacing > 0.0
    requires m < KeptCount(nodes.gridSize) && j < Pow2(dim) && i < dim
    ensures var points := FillDomainWithParticles(nodes, coordinateStack, dim).value.0;
      var node := KeptNodes(nodes, coordinateStack, dim)[m];
      var k := FlatIndex(m, j, Pow2(dim));
      k < |points| && i < |points[k]| && node[i] < points[k][i] < node[i] + nodes.nodeSpacing
  {
    var kept := KeptNodes(nodes, coordinateStack, dim);
    var offsets := OffsetTable(dim);
    OffsetEntries(dim);
    SeedAt(kept, offsets, nodes.nodeSpacing, m, j);
    ShiftInside(kept[m], offsets[j], nodes.nodeSpacing, i);
  }
}
