/**
 * The cubic B-spline shape-function container: creation of its stencil and
 * zeroed per-interaction buffers, evaluation of one particle-node
 * interaction (the tensor product of the per-axis splines and its gradient)
 * and the update of every interaction from the signed distances.
 */
module CubicShape {
  import opened CubicSplines
  import opened CubicStencil
  import opened Sums
  import opened Wrappers

  /**
   * Per-interaction buffers, interaction p * |stencil| + j pairing particle p
   * with the node at stencil row j of its cell: ids, node hashes, shape
   * function values and their gradients padded to three components; and the
   * stencil of node offsets.
   */
  datatype CubicShapeFunction = CubicShapeFunction(
    intrIdStack: seq<int>,
    intrHashStack: seq<int>,
    intrShapefStack: seq<real>,
    intrShapefGradStack: seq<seq<real>>,
    stencil: seq<seq<int>>)

  /**
   * `create`: the stencil of dimension dim and numParticles * 4^dim zeroed
   * interactions numbered from 0. Any dimension other than 1, 2 or 3 leaves
   * the stencil unbound, which is an error.
   */
  function Create(numParticles: nat, dim: int): (r: Option<CubicShapeFunction>)
    ensures r.None? <==> !(1 <= dim <= 3)
    ensures 1 <= dim <= 3 ==>
      var n := numParticles * Pow(4, dim);
      r.Some? && r.value.stencil == StencilFor(dim) &&
      |r.value.intrIdStack| == n && |r.value.intrHashStack| == n &&
      |r.value.intrShapefStack| == n && |r.value.intrShapefGradStack| == n &&
      (forall i :: 0 <= i < n ==> r.value.intrIdStack[i] == i) &&
      (forall i :: 0 <= i < n ==> r.value.intrHashStack[i] == 0) &&
      (forall i :: 0 <= i < n ==> r.value.intrShapefStack[i] == 0.0) &&
      (forall i :: 0 <= i < n ==> r.value.intrShapefGradStack[i] == [0.0, 0.0, 0.0])
  {
    if !(1 <= dim <= 3) then None
    else
      var stencil := StencilFor(dim);
      var n := numParticles * |stencil|;
      Some(CubicShapeFunction(
        seq(n, i => i),
        seq(n, _ => 0),
        seq(n, _ => 0.0),
        seq(n, _ => [0.0, 0.0, 0.0]),
        stencil))
  }

  /** The value of family s on every axis of the distance dist. */
  function AxisBasis(s: Species, dist: seq<real>): seq<real> {
    seq(|dist|, i requires 0 <= i < |dist| => Basis(s, dist[i]))
  }

  /** The scaled derivative of family s on every axis of dist. */
  function AxisDBasis(s: Species, dist: seq<real>, h: real): seq<real> {
    seq(|dist|, i requires 0 <= i < |dist| => DBasis(s, dist[i], h))
  }

  /** The product of the entries of s (1 for no entries). */
  function Product(s: seq<real>): real {
    if |s| == 0 then 1.0 else Product(s[..|s| - 1]) * s[|s| - 1]
  }

  /** The product of every entry of b except entry i. */
  function ProductExcept(b: seq<real>, i: nat): real
    requires i < |b|
  {
    Product(b[..i] + b[i + 1..])
  }

  /** The shape function of one interaction and its gradient, three components. */
  datatype ShapeValue = ShapeValue(shapef: real, grad: seq<real>)

  /**
   * The gradient of the tensor product, written out per dimension: the
   * derivative on one axis times the values on the others, zero-padded to
   * three components.
   */
  function TensorGradient(b: seq<real>, db: seq<real>): (g: seq<real>)
    requires 1 <= |b| <= 3 && |db| == |b|
    ensures |g| == 3
  {
    if |b| == 2 then
      [db[0] * b[1], db[1] * b[0], 0.0]
    else if |b| == 3 then
      [db[0] * b[1] * b[2], db[1] * b[0] * b[2], db[2] * b[0] * b[1]]
    else
      [db[0], 0.0, 0.0]
  }

  /**
   * The gradient as cubic.py's `vmap_intr_shp` builds it. For one axis it
   * places the whole one-element derivative array beside two scalars, a
   * ragged array that cannot be built, so no gradient comes back; for two
   * and three axes it is the tensor-product gradient.
   */
  function TensorGradientAsWritten(b: seq<real>, db: seq<real>): (g: Option<seq<real>>)
    requires 1 <= |b| <= 3 && |db| == |b|
    ensures g.None? <==> |b| == 1
    ensures g.Some? ==> g.value == TensorGradient(b, db)
  {
    if |b| == 2 || |b| == 3 then Some(TensorGradient(b, db)) else None
  }

  /**
   * A 1D interaction at any distance f: the branch as written yields no
   * gradient, while the intended gradient is the derivative padded with two
   * zeros.
   */
  lemma {:induction false} OneAxisGradient(f: real, h: real)
    ensures TensorGradientAsWritten(AxisBasis(Middle, [f]), AxisDBasis(Middle, [f], h)).None?
    ensures TensorGradient(AxisBasis(Middle, [f]), AxisDBasis(Middle, [f], h)) == [DBasis(Middle, f, h), 0.0, 0.0]
  {
  }

  /** One interaction evaluated with spline family s. */
  function EvalFamily(s: Species, dist: seq<real>, h: real): (v: ShapeValue)
    requires 1 <= |dist| <= 3
    ensures |v.grad| == 3
  {
    var b := AxisBasis(s, dist);
    ShapeValue(Product(b), TensorGradient(b, AxisDBasis(s, dist, h)))
  }

  /**
   * `vmap_intr_shp` for one interaction: the family switch is indexed by the
   * constant 0, so the node hash and the node species are never consulted
   * and every interaction uses the middle splines.
   */
  function VmapIntrShp(dist: seq<real>, hash: int, nodeSpeciesStack: seq<int>, h: real): (v: ShapeValue)
    requires 1 <= |dist| <= 3
    ensures v == EvalFamily(Middle, dist, h)
  {
    EvalFamily(Branch(0), dist, h)
  }

  lemma {:induction false} ProductOfOne(x: real)
    ensures Product([x]) == x
  {
    assert [x][..0] == [];
  }

  lemma {:induction false} ProductOfTwo(x: real, y: real)
    ensures Product([x, y]) == x * y
  {
    assert [x, y][..1] == [x];
    ProductOfOne(x);
  }

  lemma {:induction false} ProductOfThree(x: real, y: real, z: real)
    ensures Product([x, y, z]) == x * y * z
  {
    assert [x, y, z][..2] == [x, y];
    ProductOfTwo(x, y);
  }

  /**
   * The gradient is the gradient of the tensor product: component i is the
   * derivative on axis i times the product of the values on every other
   * axis, for each axis of the problem, and 0 beyond them.
   */
  lemma {:induction false} TensorProduct(b: seq<real>, db: seq<real>)
    requires 1 <= |b| <= 3 && |db| == |b|
    ensures forall i :: 0 <= i < 3 ==>
      TensorGradient(b, db)[i] == if i < |b| then db[i] * ProductExcept(b, i) else 0.0
  {
    if |b| == 1 {
      assert b[..0] + b[1..] == [];
    } else if |b| == 2 {
      assert b[..0] + b[1..] == [b[1]];
      assert b[..1] + b[2..] == [b[0]];
      ProductOfOne(b[0]);
      ProductOfOne(b[1]);
    } else {
      assert b[..0] + b[1..] == [b[1], b[2]];
      assert b[..1] + b[2..] == [b[0], b[2]];
      assert b[..2] + b[3..] == [b[0], b[1]];
      ProductOfTwo(b[1], b[2]);
      ProductOfTwo(b[0], b[2]);
      ProductOfTwo(b[0], b[1]);
    }
  }

  /** TensorGradient written out for two and three axes. */
  lemma {:induction false} TensorGradientOf(b: seq<real>, db: seq<real>)
    requires 2 <= |b| <= 3 && |db| == |b|
    ensures |b| == 2 ==> TensorGradient(b, db) == [db[0] * b[1], db[1] * b[0], 0.0]
    ensures |b| == 3 ==> TensorGradient(b, db) == [db[0] * b[1] * b[2], db[1] * b[0] * b[2], db[2] * b[0] * b[1]]
  {
  }

  /** The shape function is the product of the per-axis values: 1, 2 or 3 factors. */
  lemma {:induction false} ProductOfAxes(b: seq<real>)
    requires 1 <= |b| <= 3
    ensures |b| == 1 ==> Product(b) == b[0]
    ensures |b| == 2 ==> Product(b) == b[0] * b[1]
    ensures |b| == 3 ==> Product(b) == b[0] * b[1] * b[2]
  {
    if |b| == 1 {
      assert b == [b[0]];
      ProductOfOne(b[0]);
    } else if |b| == 2 {
      assert b == [b[0], b[1]];
      ProductOfTwo(b[0], b[1]);
    } else {
      assert b == [b[0], b[1], b[2]];
      ProductOfThree(b[0], b[1], b[2]);
    }
  }

  /**
   * Signed distances, in cells, from a particle at fraction f of its base
   * cell (axis by axis) to the nodes of the stencil: row k is f minus the
   * offset in stencil row k.
   */
  function StencilDistances(f: seq<real>): (d: seq<seq<real>>)
    requires 1 <= |f| <= 3
    ensures |d| == Pow(4, |f|)
    ensures forall k :: 0 <= k < |d| ==> |d[k]| == |f|
  {
    var stencil := StencilFor(|f|);
    seq(|stencil|, k requires 0 <= k < |stencil| =>
      seq(|f|, i requires 0 <= i < |f| => f[i] - stencil[k][i] as real))
  }

  /** Row k of the 1D distances: f minus the offset k - 1. */
  lemma {:induction false} DistanceRow1(f: seq<real>, k: nat)
    requires |f| == 1 && k < 4
    ensures StencilDistances(f)[k] == [f[0] - (k - 1) as real]
  {
    var d := StencilDistances(f)[k];
    assert StencilFor(1)[k] == Row(1, k);
    assert d[0] == f[0] - (k - 1) as real;
  }

  /** Row k of the 2D distances, with the offsets of stencil row k. */
  lemma {:induction false} DistanceRow2(f: seq<real>, k: nat)
    requires |f| == 2 && k < 16
    ensures StencilDistances(f)[k] == [f[0] - (k % 4 - 1) as real, f[1] - (k / 4 - 1) as real]
  {
    var d := StencilDistances(f)[k];
    var row := Row(2, k);
    assert StencilFor(2)[k] == row;
    assert d[0] == f[0] - row[0] as real && d[1] == f[1] - row[1] as real;
  }

  /** Row k of the 3D distances, with the offsets of stencil row k. */
  lemma {:induction false} DistanceRow3(f: seq<real>, k: nat)
    requires |f| == 3 && k < 64
    ensures StencilDistances(f)[k] ==
      [f[0] - ((k / 4) % 4 - 1) as real, f[1] - (k / 16 - 1) as real, f[2] - (k % 4 - 1) as real]
  {
    var d := StencilDistances(f)[k];
    var row := Row(3, k);
    assert StencilFor(3)[k] == row;
    assert d[0] == f[0] - row[0] as real && d[1] == f[1] - row[1] as real && d[2] == f[2] - row[2] as real;
  }

  /** Every interaction of a distance stack evaluated with VmapIntrShp. */
  function Interactions(dists: seq<seq<real>>, hashes: seq<int>, nodeSpeciesStack: seq<int>, h: real)
    : (v: seq<ShapeValue>)
    requires |hashes| == |dists|
    requires forall k :: 0 <= k < |dists| ==> 1 <= |dists[k]| <= 3
    ensures |v| == |dists|
    ensures forall k :: 0 <= k < |v| ==> |v[k].grad| == 3
  {
    seq(|dists|, k requires 0 <= k < |dists| => VmapIntrShp(dists[k], hashes[k], nodeSpeciesStack, h))
  }

  /** The shape function values of a run of interactions. */
  function Weights(v: seq<ShapeValue>): seq<real> {
    seq(|v|, k requires 0 <= k < |v| => v[k].shapef)
  }

  /** Component a of the gradients of a run of interactions. */
  function GradColumn(v: seq<ShapeValue>, a: nat): seq<real>
    requires forall k :: 0 <= k < |v| ==> a < |v[k].grad|
  {
    seq(|v|, k requires 0 <= k < |v| => v[k].grad[a])
  }

  /** Column a of a stack of rows. */
  function Column(rows: seq<seq<real>>, a: nat): seq<real>
    requires forall k :: 0 <= k < |rows| ==> a < |rows[k]|
  {
    seq(|rows|, k requires 0 <= k < |rows| => rows[k][a])
  }

  /** A distance row padded with zero columns to three components. */
  function Pad3(row: seq<real>): (r: seq<real>)
    requires |row| <= 3
    ensures |r| == 3 && r[..|row|] == row
    ensures forall i :: |row| <= i < 3 ==> r[i] == 0.0
  {
    row + seq(3 - |row|, _ => 0.0)
  }

  /**
   * `calculate_shapefunction`, given the interaction distances and node
   * hashes that the interaction pass produced for numParticles particles:
   * the interactions are renumbered from 0, the hashes are stored, every
   * interaction is evaluated with the middle splines whatever its hash and
   * the species, the stencil is kept, and the distances are returned padded
   * to three columns.
   */
  function CalculateShapefunction(sf: CubicShapeFunction, numParticles: nat, intrDistStack: seq<seq<real>>,
      intrHashStack: seq<int>, speciesStack: seq<int>, invNodeSpacing: real)
    : (r: (CubicShapeFunction, seq<seq<real>>))
    requires |sf.stencil| > 0 && 1 <= |sf.stencil[0]| <= 3
    requires |intrDistStack| == numParticles * |sf.stencil| && |intrHashStack| == |intrDistStack|
    requires forall k :: 0 <= k < |intrDistStack| ==> |intrDistStack[k]| == |sf.stencil[0]|
    ensures var n := |intrDistStack|;
      r.0.stencil == sf.stencil &&
      |r.0.intrIdStack| == n && (forall i :: 0 <= i < n ==> r.0.intrIdStack[i] == i) &&
      r.0.intrHashStack == intrHashStack &&
      |r.0.intrShapefStack| == n && |r.0.intrShapefGradStack| == n &&
      forall k :: 0 <= k < n ==>
        ShapeValue(r.0.intrShapefStack[k], r.0.intrShapefGradStack[k]) ==
          EvalFamily(Middle, intrDistStack[k], invNodeSpacing)
    ensures var n := |intrDistStack|; var dim := |sf.stencil[0]|;
      |r.1| == n &&
      forall k :: 0 <= k < n ==>
        |r.1[k]| == 3 && r.1[k][..dim] == intrDistStack[k] &&
        forall i :: dim <= i < 3 ==> r.1[k][i] == 0.0
  {
    var n := |intrDistStack|;
    var v := Interactions(intrDistStack, intrHashStack, speciesStack, invNodeSpacing);
    (sf.(intrIdStack := seq(n, i => i),
         intrHashStack := intrHashStack,
         intrShapefStack := Weights(v),
         intrShapefGradStack := seq(n, k requires 0 <= k < n => v[k].grad)),
     seq(n, k requires 0 <= k < n => Pad3(intrDistStack[k])))
  }

  /** Particle p's interactions occupy a block inside the interaction stack. */
  lemma {:induction false} BlockInRange(p: nat, numParticles: nat, s: nat)
    requires p < numParticles
    ensures (p + 1) * s <= numParticles * s
  {
    var rest: nat := numParticles - (p + 1);
    assert numParticles * s == (p + 1) * s + rest * s;
  }

  /**
   * A block of interactions forms a partition of unity: the shape functions
   * sum to 1 and each of the three gradient components sums to 0.
   */
  predicate PartitionOfUnity(weights: seq<real>, grads: seq<seq<real>>)
    requires forall k :: 0 <= k < |grads| ==> |grads[k]| == 3
  {
    Sum(weights) == 1.0 && forall a :: 0 <= a < 3 ==> Sum(Column(grads, a)) == 0.0
  }

  /** Stored weights and gradients that match interaction values inherit their sums. */
  lemma {:induction false} StoredPartition(weights: seq<real>, grads: seq<seq<real>>, v: seq<ShapeValue>)
    requires |weights| == |v| && |grads| == |v|
    requires forall j :: 0 <= j < |v| ==> v[j] == ShapeValue(weights[j], grads[j]) && |v[j].grad| == 3
    requires Sum(Weights(v)) == 1.0 && forall a :: 0 <= a < 3 ==> Sum(GradColumn(v, a)) == 0.0
    ensures PartitionOfUnity(weights, grads)
  {
    assert Weights(v) == weights;
    forall a | 0 <= a < 3
      ensures Sum(Column(grads, a)) == 0.0
    {
      assert Column(grads, a) == GradColumn(v, a);
    }
  }

  /** Interactions evaluated afresh agree with stored middle-spline values. */
  lemma {:induction false} InteractionsMatch(weights: seq<real>, grads: seq<seq<real>>, dists: seq<seq<real>>,
      hashes: seq<int>, nodeSpeciesStack: seq<int>, h: real)
    requires |weights| == |dists| && |grads| == |dists| && |hashes| == |dists|
    requires forall j :: 0 <= j < |dists| ==> 1 <= |dists[j]| <= 3
    requires forall j :: 0 <= j < |dists| ==> ShapeValue(weights[j], grads[j]) == EvalFamily(Middle, dists[j], h)
    ensures var v := Interactions(dists, hashes, nodeSpeciesStack, h);
      forall j :: 0 <= j < |v| ==> v[j] == ShapeValue(weights[j], grads[j]) && |v[j].grad| == 3
  {
  }

  /** A block of stored interactions holds the evaluations of the block's distances. */
  lemma {:induction false} BlockValues(weights: seq<real>, grads: seq<seq<real>>, dists: seq<seq<real>>, h: real,
      lo: nat, hi: nat)
    requires lo <= hi <= |dists| && |weights| == |dists| && |grads| == |dists|
    requires forall k :: 0 <= k < |dists| ==> 1 <= |dists[k]| <= 3
    requires forall k :: 0 <= k < |dists| ==> ShapeValue(weights[k], grads[k]) == EvalFamily(Middle, dists[k], h)
    ensures forall j :: 0 <= j < hi - lo ==>
      1 <= |dists[lo..hi][j]| <= 3 &&
      ShapeValue(weights[lo..hi][j], grads[lo..hi][j]) == EvalFamily(Middle, dists[lo..hi][j], h)
  {
    forall j | 0 <= j < hi - lo
      ensures 1 <= |dists[lo..hi][j]| <= 3
      ensures ShapeValue(weights[lo..hi][j], grads[lo..hi][j]) == EvalFamily(Middle, dists[lo..hi][j], h)
    {
      assert dists[lo..hi][j] == dists[lo + j];
      assert weights[lo..hi][j] == weights[lo + j] && grads[lo..hi][j] == grads[lo + j];
    }
  }

  /**
   * Partition of unity through `calculate_shapefunction`: when the block of
   * particle p holds the stencil distances of a position strictly inside its
   * base cell, the block's shape functions sum to 1 and each gradient
   * component sums to 0.
   */
  lemma {:induction false} ParticlePartitionOfUnity(sf: CubicShapeFunction, numParticles: nat,
      intrDistStack: seq<seq<real>>, intrHashStack: seq<int>, speciesStack: seq<int>, invNodeSpacing: real,
      p: nat, f: seq<real>)
    requires 1 <= |f| <= 3 && |sf.stencil| == Pow(4, |f|) && |sf.stencil| > 0 && |sf.stencil[0]| == |f|
    requires |intrDistStack| == numParticles * |sf.stencil| && |intrHashStack| == |intrDistStack|
    requires forall k :: 0 <= k < |intrDistStack| ==> |intrDistStack[k]| == |f|
    requires forall i :: 0 <= i < |f| ==> 0.0 <= f[i] < 1.0
    requires p < numParticles
    requires intrDistStack[p * |sf.stencil| .. (p + 1) * |sf.stencil|] == StencilDistances(f)
    ensures |sf.stencil| > 0 && |sf.stencil[0]| == |f|
    ensures var out := CalculateShapefunction(sf, numParticles, intrDistStack, intrHashStack, speciesStack,
        invNodeSpacing).0;
      var s := |sf.stencil|;
      PartitionOfUnity(out.intrShapefStack[p * s .. (p + 1) * s], out.intrShapefGradStack[p * s .. (p + 1) * s])
  {
    var s := |sf.stencil|;
    BlockInRange(p, numParticles, s);
    var out := CalculateShapefunction(sf, numParticles, intrDistStack, intrHashStack, speciesStack,
      invNodeSpacing).0;
    BlockPartition(out.intrShapefStack, out.intrShapefGradStack, intrDistStack, intrHashStack, speciesStack,
      invNodeSpacing, p * s, (p + 1) * s, f);
  }

  /**
   * The partition of unity of one particle's block [lo, hi) of stored
   * interactions, when every stored value is the evaluation of its distance
   * and the block's distances are the stencil distances of fraction f.
   */
  lemma {:induction false} BlockPartition(weights: seq<real>, grads: seq<seq<real>>, dists: seq<seq<real>>,
      hashes: seq<int>, nodeSpeciesStack: seq<int>, h: real, lo: nat, hi: nat, f: seq<real>)
    requires 1 <= |f| <= 3 && lo <= hi <= |dists| && hi - lo == Pow(4, |f|)
    requires |weights| == |dists| && |grads| == |dists| && |hashes| == |dists|
    requires forall k :: 0 <= k < |dists| ==> 1 <= |dists[k]| <= 3
    requires forall k :: 0 <= k < |dists| ==> ShapeValue(weights[k], grads[k]) == EvalFamily(Middle, dists[k], h)
    requires forall i :: 0 <= i < |f| ==> 0.0 <= f[i] < 1.0
    requires dists[lo..hi] == StencilDistances(f)
    ensures forall k :: lo <= k < hi ==> |grads[k]| == 3
    ensures PartitionOfUnity(weights[lo..hi], grads[lo..hi])
  {
    BlockValues(weights, grads, dists, h, lo, hi);
    var v := Interactions(dists[lo..hi], hashes[lo..hi], nodeSpeciesStack, h);
    InteractionsMatch(weights[lo..hi], grads[lo..hi], dists[lo..hi], hashes[lo..hi], nodeSpeciesStack, h);
    StencilPartitionOfUnity(f, hashes[lo..hi], nodeSpeciesStack, h);
    StoredPartition(weights[lo..hi], grads[lo..hi], v);
  }

  /** The middle spline at the four stencil offsets -1, 0, 1, 2 from fraction x. */
  function AxisTable(x: real): seq<real> {
    [MiddleBasis(x + 1.0), MiddleBasis(x), MiddleBasis(x - 1.0), MiddleBasis(x - 2.0)]
  }

  /** The scaled middle-spline derivative at the four stencil offsets from fraction x. */
  function AxisDTable(x: real, h: real): seq<real> {
    [MiddleDBasis(x + 1.0, h), MiddleDBasis(x, h), MiddleDBasis(x - 1.0, h), MiddleDBasis(x - 2.0, h)]
  }

  lemma {:induction false} AxisTableSums(x: real, h: real)
    requires 0.0 <= x < 1.0
    ensures Sum(AxisTable(x)) == 1.0 && Sum(AxisDTable(x, h)) == 0.0
  {
    Sum4(AxisTable(x));
    Sum4(AxisDTable(x, h));
    MiddlePartitionOfUnity(x, h);
  }

  /** The distance f - (m - 1) to offset m - 1 picks entry m of the axis tables. */
  lemma {:induction false} AxisEntry(x: real, m: int, h: real)
    requires 0 <= m < 4
    ensures Basis(Middle, x - (m - 1) as real) == AxisTable(x)[m]
    ensures DBasis(Middle, x - (m - 1) as real, h) == AxisDTable(x, h)[m]
  {
    if m == 0 {
      assert x - (m - 1) as real == x + 1.0;
    }
  }

  /** Interaction k of a particle's 1D stencil, by axis table. */
  lemma {:induction false} Entry1(f: seq<real>, h: real, k: nat)
    requires |f| == 1 && k < 4
    ensures var v := EvalFamily(Middle, StencilDistances(f)[k], h);
      v.shapef == AxisTable(f[0])[k] && v.grad[0] == AxisDTable(f[0], h)[k] && v.grad[1] == 0.0 && v.grad[2] == 0.0
  {
    var d := StencilDistances(f)[k];
    DistanceRow1(f, k);
    AxisEntry(f[0], k, h);
    var bs := AxisBasis(Middle, d);
    assert bs == [AxisTable(f[0])[k]];
    ProductOfAxes(bs);
  }

  /** The tensor-table form of one 2D interaction, for any axis values. */
  lemma {:induction false} TensorEntry2(bs: seq<real>, dbs: seq<real>, a: seq<real>, b: seq<real>, da: seq<real>, db: seq<real>, k: nat)
    requires |a| == 4 && |b| == 4 && |da| == 4 && |db| == 4 && k < 16
    requires bs == [a[k % 4], b[k / 4]] && dbs == [da[k % 4], db[k / 4]]
    ensures Product(bs) == Outer(a, b)[k]
    ensures var g := TensorGradient(bs, dbs);
      g[0] == Outer(da, b)[k] && g[1] == Outer(a, db)[k] && g[2] == 0.0
  {
    var x, y, dx, dy := a[k % 4], b[k / 4], da[k % 4], db[k / 4];
    ProductOfTwo(x, y);
    assert Outer(da, b)[k] == dx * y;
    assert Outer(a, db)[k] == x * dy == dy * x;
    TensorGradientOf(bs, dbs);
  }

  /** Interaction k of a particle's 2D stencil, as entry k of the tensor tables. */
  lemma {:induction false} Entry2(f: seq<real>, h: real, k: nat)
    requires |f| == 2 && k < 16
    ensures var v := EvalFamily(Middle, StencilDistances(f)[k], h);
      var a := AxisTable(f[0]); var b := AxisTable(f[1]);
      v.shapef == Outer(a, b)[k] &&
      v.grad[0] == Outer(AxisDTable(f[0], h), b)[k] && v.grad[1] == Outer(a, AxisDTable(f[1], h))[k] &&
      v.grad[2] == 0.0
  {
    var d := StencilDistances(f)[k];
    DistanceRow2(f, k);
    AxisEntry(f[0], k % 4, h);
    AxisEntry(f[1], k / 4, h);
    TensorEntry2(AxisBasis(Middle, d), AxisDBasis(Middle, d, h),
      AxisTable(f[0]), AxisTable(f[1]), AxisDTable(f[0], h), AxisDTable(f[1], h), k);
  }

  /** Entry k of a three-axis tensor table: axis 2 fastest, then axis 0, then axis 1. */
  lemma {:induction false} OuterOuter(c: seq<real>, a: seq<real>, b: seq<real>, k: nat)
    requires |a| == 4 && |b| == 4 && |c| == 4 && k < 64
    ensures Outer(c, Outer(a, b))[k] == a[(k / 4) % 4] * b[k / 16] * c[k % 4]
  {
    var j := k / 4;
    assert j / 4 == k / 16 && j < 16;
    assert Outer(a, b)[j] == a[j % 4] * b[j / 4];
  }

  /** The tensor-table form of one 3D interaction, for any axis values. */
  lemma {:induction false} TensorEntry3(bs: seq<real>, dbs: seq<real>, a: seq<real>, b: seq<real>, c: seq<real>,
                     da: seq<real>, db: seq<real>, dc: seq<real>, k: nat)
    requires |a| == 4 && |b| == 4 && |c| == 4 && |da| == 4 && |db| == 4 && |dc| == 4 && k < 64
    requires bs == [a[(k / 4) % 4], b[k / 16], c[k % 4]]
    requires dbs == [da[(k / 4) % 4], db[k / 16], dc[k % 4]]
    ensures Product(bs) == Outer(c, Outer(a, b))[k]
    ensures var g := TensorGradient(bs, dbs);
      g[0] == Outer(c, Outer(da, b))[k] && g[1] == Outer(c, Outer(a, db))[k] && g[2] == Outer(dc, Outer(a, b))[k]
  {
    var x, y, z := a[(k / 4) % 4], b[k / 16], c[k % 4];
    var dx, dy, dz := da[(k / 4) % 4], db[k / 16], dc[k % 4];
    OuterOuter(c, a, b, k);
    OuterOuter(c, da, b, k);
    OuterOuter(c, a, db, k);
    OuterOuter(dc, a, b, k);
    ProductOfThree(x, y, z);
    TensorGradientOf(bs, dbs);
    assert x * dy * z == dy * x * z;
    assert x * y * dz == dz * x * y;
  }

  /** Interaction k of a particle's 3D stencil, as entry k of the tensor tables. */
  lemma {:induction false} Entry3(f: seq<real>, h: real, k: nat)
    requires |f| == 3 && k < 64
    ensures var v := EvalFamily(Middle, StencilDistances(f)[k], h);
      var a := AxisTable(f[0]); var b := AxisTable(f[1]); var c := AxisTable(f[2]);
      v.shapef == Outer(c, Outer(a, b))[k] &&
      v.grad[0] == Outer(c, Outer(AxisDTable(f[0], h), b))[k] &&
      v.grad[1] == Outer(c, Outer(a, AxisDTable(f[1], h)))[k] &&
      v.grad[2] == Outer(AxisDTable(f[2], h), Outer(a, b))[k]
  {
    var d := StencilDistances(f)[k];
    DistanceRow3(f, k);
    AxisEntry(f[0], (k / 4) % 4, h);
    AxisEntry(f[1], k / 16, h);
    AxisEntry(f[2], k % 4, h);
    TensorEntry3(AxisBasis(Middle, d), AxisDBasis(Middle, d, h),
      AxisTable(f[0]), AxisTable(f[1]), AxisTable(f[2]),
      AxisDTable(f[0], h), AxisDTable(f[1], h), AxisDTable(f[2], h), k);
  }

  /**
   * Partition of unity over the stencil: for a particle strictly inside its
   * base cell, whatever the node hashes and species, the shape functions of
   * its 4^dim interactions sum to 1 and each gradient component sums to 0.
   */
  lemma {:induction false} StencilPartitionOfUnity(f: seq<real>, hashes: seq<int>, nodeSpeciesStack: seq<int>, h: real)
    requires 1 <= |f| <= 3 && |hashes| == Pow(4, |f|)
    requires forall i :: 0 <= i < |f| ==> 0.0 <= f[i] < 1.0
    ensures var v := Interactions(StencilDistances(f), hashes, nodeSpeciesStack, h);
      Sum(Weights(v)) == 1.0 &&
      forall a :: 0 <= a < 3 ==> Sum(GradColumn(v, a)) == 0.0
  {
    var v := Interactions(StencilDistances(f), hashes, nodeSpeciesStack, h);
    if |f| == 1 {
      PartitionOfUnity1(f, v, h);
    } else if |f| == 2 {
      PartitionOfUnity2(f, v, h);
    } else {
      PartitionOfUnity3(f, v, h);
    }
  }

  /** The 1D interactions of a particle, summed, as sums of the axis tables. */
  lemma {:induction false} Columns1(f: seq<real>, v: seq<ShapeValue>, h: real)
    requires |f| == 1
    requires |v| == 4 && forall k :: 0 <= k < 4 ==> v[k] == EvalFamily(Middle, StencilDistances(f)[k], h)
    requires forall k :: 0 <= k < 4 ==> |v[k].grad| == 3
    ensures Sum(Weights(v)) == Sum(AxisTable(f[0]))
    ensures Sum(GradColumn(v, 0)) == Sum(AxisDTable(f[0], h))
    ensures Sum(GradColumn(v, 1)) == Sum(seq(4, _ => 0.0)) && Sum(GradColumn(v, 2)) == Sum(seq(4, _ => 0.0))
  {
    forall k | 0 <= k < 4 {
      Entry1(f, h, k);
    }
    assert Weights(v) == AxisTable(f[0]);
    assert GradColumn(v, 0) == AxisDTable(f[0], h);
    assert GradColumn(v, 1) == seq(4, _ => 0.0);
    assert GradColumn(v, 2) == seq(4, _ => 0.0);
  }

  /** The 2D interactions of a particle, summed, as sums of tensor tables. */
  lemma {:induction false} Columns2(f: seq<real>, v: seq<ShapeValue>, h: real)
    requires |f| == 2
    requires |v| == 16 && forall k :: 0 <= k < 16 ==> v[k] == EvalFamily(Middle, StencilDistances(f)[k], h)
    requires forall k :: 0 <= k < 16 ==> |v[k].grad| == 3
    ensures var a, b := AxisTable(f[0]), AxisTable(f[1]);
      var da, db := AxisDTable(f[0], h), AxisDTable(f[1], h);
      Sum(Weights(v)) == Sum(Outer(a, b)) &&
      Sum(GradColumn(v, 0)) == Sum(Outer(da, b)) &&
      Sum(GradColumn(v, 1)) == Sum(Outer(a, db)) &&
      Sum(GradColumn(v, 2)) == Sum(seq(16, _ => 0.0))
  {
    var a, b := AxisTable(f[0]), AxisTable(f[1]);
    var da, db := AxisDTable(f[0], h), AxisDTable(f[1], h);
    forall k | 0 <= k < 16 {
      Entry2(f, h, k);
    }
    assert Weights(v) == Outer(a, b);
    assert GradColumn(v, 0) == Outer(da, b);
    assert GradColumn(v, 1) == Outer(a, db);
    assert GradColumn(v, 2) == seq(16, _ => 0.0);
  }

  /** The 3D interactions of a particle, summed, as sums of tensor tables. */
  lemma {:induction false} Columns3(f: seq<real>, v: seq<ShapeValue>, h: real)
    requires |f| == 3
    requires |v| == 64 && forall k :: 0 <= k < 64 ==> v[k] == EvalFamily(Middle, StencilDistances(f)[k], h)
    requires forall k :: 0 <= k < 64 ==> |v[k].grad| == 3
    ensures var a, b, c := AxisTable(f[0]), AxisTable(f[1]), AxisTable(f[2]);
      var da, db, dc := AxisDTable(f[0], h), AxisDTable(f[1], h), AxisDTable(f[2], h);
      Sum(Weights(v)) == Sum(Outer(c, Outer(a, b))) &&
      Sum(GradColumn(v, 0)) == Sum(Outer(c, Outer(da, b))) &&
      Sum(GradColumn(v, 1)) == Sum(Outer(c, Outer(a, db))) &&
      Sum(GradColumn(v, 2)) == Sum(Outer(dc, Outer(a, b)))
  {
    var a, b, c := AxisTable(f[0]), AxisTable(f[1]), AxisTable(f[2]);
    var da, db, dc := AxisDTable(f[0], h), AxisDTable(f[1], h), AxisDTable(f[2], h);
    forall k | 0 <= k < 64 {
      Entry3(f, h, k);
    }
    assert Weights(v) == Outer(c, Outer(a, b));
    assert GradColumn(v, 0) == Outer(c, Outer(da, b));
    assert GradColumn(v, 1) == Outer(c, Outer(a, db));
    assert GradColumn(v, 2) == Outer(dc, Outer(a, b));
  }

  /** The sum over a two-axis tensor table, with the per-axis sums given. */
  lemma {:induction false} OuterSumIs(a: seq<real>, b: seq<real>, sa: real, sb: real)
    requires |a| == 4 && |b| == 4
    requires Sum(a) == sa && Sum(b) == sb
    ensures Sum(Outer(a, b)) == sa * sb
  {
    OuterSum(a, b);
  }

  /** The sum over a three-axis tensor table is the product of the per-axis sums. */
  lemma {:induction false} TripleSum(c: seq<real>, a: seq<real>, b: seq<real>, sc: real, sa: real, sb: real)
    requires |a| == 4 && |b| == 4 && |c| == 4
    requires Sum(c) == sc && Sum(a) == sa && Sum(b) == sb
    ensures Sum(Outer(c, Outer(a, b))) == sc * (sa * sb)
  {
    OuterSum(a, b);
    OuterSum(c, Outer(a, b));
  }

  /** The three gradient columns, summed one by one, sum to 0 as a family. */
  lemma {:induction false} ColumnsSumToZero(v: seq<ShapeValue>)
    requires forall k :: 0 <= k < |v| ==> |v[k].grad| == 3
    requires Sum(GradColumn(v, 0)) == 0.0 && Sum(GradColumn(v, 1)) == 0.0 && Sum(GradColumn(v, 2)) == 0.0
    ensures forall a :: 0 <= a < 3 ==> Sum(GradColumn(v, a)) == 0.0
  {
    forall a | 0 <= a < 3
      ensures Sum(GradColumn(v, a)) == 0.0
    {
      if a == 0 {
      } else if a == 1 {
      } else {
      }
    }
  }

  /** Partition of unity of a particle's 1D interactions, from the sums of the axis tables. */
  lemma {:induction false} TensorPartition1(v: seq<ShapeValue>, a: seq<real>, da: seq<real>, zeros: seq<real>)
    requires forall k :: 0 <= k < |v| ==> |v[k].grad| == 3
    requires Sum(a) == 1.0 && Sum(da) == 0.0 && Sum(zeros) == 0.0
    requires Sum(Weights(v)) == Sum(a)
    requires Sum(GradColumn(v, 0)) == Sum(da)
    requires Sum(GradColumn(v, 1)) == Sum(zeros) && Sum(GradColumn(v, 2)) == Sum(zeros)
    ensures Sum(Weights(v)) == 1.0 && forall i :: 0 <= i < 3 ==> Sum(GradColumn(v, i)) == 0.0
  {
    ColumnsSumToZero(v);
  }

  /** Partition of unity of a particle's 2D interactions, from the sums of the axis tables. */
  lemma {:induction false} TensorPartition2(v: seq<ShapeValue>, a: seq<real>, b: seq<real>, da: seq<real>, db: seq<real>, zeros: seq<real>)
    requires |a| == 4 && |b| == 4 && |da| == 4 && |db| == 4
    requires forall k :: 0 <= k < |v| ==> |v[k].grad| == 3
    requires Sum(a) == 1.0 && Sum(b) == 1.0 && Sum(da) == 0.0 && Sum(db) == 0.0 && Sum(zeros) == 0.0
    requires Sum(Weights(v)) == Sum(Outer(a, b))
    requires Sum(GradColumn(v, 0)) == Sum(Outer(da, b))
    requires Sum(GradColumn(v, 1)) == Sum(Outer(a, db))
    requires Sum(GradColumn(v, 2)) == Sum(zeros)
    ensures Sum(Weights(v)) == 1.0 && forall i :: 0 <= i < 3 ==> Sum(GradColumn(v, i)) == 0.0
  {
    OuterSumIs(a, b, 1.0, 1.0);
    OuterSumIs(da, b, 0.0, 1.0);
    OuterSumIs(a, db, 1.0, 0.0);
    ColumnsSumToZero(v);
  }

  /** Partition of unity of a particle's 3D interactions, from the sums of the axis tables. */
  lemma {:induction false} TensorPartition3(v: seq<ShapeValue>, a: seq<real>, b: seq<real>, c: seq<real>,
                         da: seq<real>, db: seq<real>, dc: seq<real>)
    requires |a| == 4 && |b| == 4 && |c| == 4 && |da| == 4 && |db| == 4 && |dc| == 4
    requires forall k :: 0 <= k < |v| ==> |v[k].grad| == 3
    requires Sum(a) == 1.0 && Sum(b) == 1.0 && Sum(c) == 1.0
    requires Sum(da) == 0.0 && Sum(db) == 0.0 && Sum(dc) == 0.0
    requires Sum(Weights(v)) == Sum(Outer(c, Outer(a, b)))
    requires Sum(GradColumn(v, 0)) == Sum(Outer(c, Outer(da, b)))
    requires Sum(GradColumn(v, 1)) == Sum(Outer(c, Outer(a, db)))
    requires Sum(GradColumn(v, 2)) == Sum(Outer(dc, Outer(a, b)))
    ensures Sum(Weights(v)) == 1.0 && forall i :: 0 <= i < 3 ==> Sum(GradColumn(v, i)) == 0.0
  {
    TripleSum(c, a, b, 1.0, 1.0, 1.0);
    TripleSum(c, da, b, 1.0, 0.0, 1.0);
    TripleSum(c, a, db, 1.0, 1.0, 0.0);
    TripleSum(dc, a, b, 0.0, 1.0, 1.0);
    ColumnsSumToZero(v);
  }

  lemma {:induction false} PartitionOfUnity1(f: seq<real>, v: seq<ShapeValue>, h: real)
    requires |f| == 1 && 0.0 <= f[0] < 1.0
    requires |v| == 4 && forall k :: 0 <= k < 4 ==> v[k] == EvalFamily(Middle, StencilDistances(f)[k], h)
    requires forall k :: 0 <= k < 4 ==> |v[k].grad| == 3
    ensures Sum(Weights(v)) == 1.0 && forall a :: 0 <= a < 3 ==> Sum(GradColumn(v, a)) == 0.0
  {
    Columns1(f, v, h);
    AxisTableSums(f[0], h);
    SumZeros(4);
    TensorPartition1(v, AxisTable(f[0]), AxisDTable(f[0], h), seq(4, _ => 0.0));
  }

  lemma {:induction false} PartitionOfUnity2(f: seq<real>, v: seq<ShapeValue>, h: real)
    requires |f| == 2 && 0.0 <= f[0] < 1.0 && 0.0 <= f[1] < 1.0
    requires |v| == 16 && forall k :: 0 <= k < 16 ==> v[k] == EvalFamily(Middle, StencilDistances(f)[k], h)
    requires forall k :: 0 <= k < 16 ==> |v[k].grad| == 3
    ensures Sum(Weights(v)) == 1.0 && forall a :: 0 <= a < 3 ==> Sum(GradColumn(v, a)) == 0.0
  {
    Columns2(f, v, h);
    AxisTableSums(f[0], h);
    AxisTableSums(f[1], h);
    SumZeros(16);
    TensorPartition2(v, AxisTable(f[0]), AxisTable(f[1]), AxisDTable(f[0], h), AxisDTable(f[1], h),
      seq(16, _ => 0.0));
  }

  lemma {:induction false} PartitionOfUnity3(f: seq<real>, v: seq<ShapeValue>, h: real)
    requires |f| == 3 && 0.0 <= f[0] < 1.0 && 0.0 <= f[1] < 1.0 && 0.0 <= f[2] < 1.0
    requires |v| == 64 && forall k :: 0 <= k < 64 ==> v[k] == EvalFamily(Middle, StencilDistances(f)[k], h)
    requires forall k :: 0 <= k < 64 ==> |v[k].grad| == 3
    ensures Sum(Weights(v)) == 1.0 && forall a :: 0 <= a < 3 ==> Sum(GradColumn(v, a)) == 0.0
  {
    Columns3(f, v, h);
    AxisTableSums(f[0], h);
    AxisTableSums(f[1], h);
    AxisTableSums(f[2], h);
    TensorPartition3(v, AxisTable(f[0]), AxisTable(f[1]), AxisTable(f[2]),
      AxisDTable(f[0], h), AxisDTable(f[1], h), AxisDTable(f[2], h));
  }
}
