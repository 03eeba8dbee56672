/**
 * The fixed interaction stencil of the cubic B-spline shape functions: the
 * offsets, in cells, from a particle's base node to the 4^dim nodes whose
 * cubic kernels can be non-zero at that particle.
 */
module CubicStencil {

  /** One-dimensional stencil: the offsets -1, 0, 1, 2. */
  const Stencil1: seq<seq<int>> := [[-1], [0], [1], [2]]

  /** Two-dimensional stencil; axis 0 varies fastest. */
  const Stencil2: seq<seq<int>> := [
    [-1, -1], [0, -1], [1, -1], [2, -1],
    [-1, 0], [0, 0], [1, 0], [2, 0],
    [-1, 1], [0, 1], [1, 1], [2, 1],
    [-1, 2], [0, 2], [1, 2], [2, 2]
  ]

  /**
   * Three-dimensional stencil; axis 2 varies fastest, then axis 0, then axis 1.
   * Written as four layers of 16 rows, one per value of the axis-1 offset.
   */
  const Stencil3: seq<seq<int>> := Stencil3Layer0 + Stencil3Layer1 + Stencil3Layer2 + Stencil3Layer3

  const Stencil3Layer0: seq<seq<int>> := [
    [-1, -1, -1], [-1, -1, 0], [-1, -1, 1], [-1, -1, 2],
    [0, -1, -1], [0, -1, 0], [0, -1, 1], [0, -1, 2],
    [1, -1, -1], [1, -1, 0], [1, -1, 1], [1, -1, 2],
    [2, -1, -1], [2, -1, 0], [2, -1, 1], [2, -1, 2]
  ]

  const Stencil3Layer1: seq<seq<int>> := [
    [-1, 0, -1], [-1, 0, 0], [-1, 0, 1], [-1, 0, 2],
    [0, 0, -1], [0, 0, 0], [0, 0, 1], [0, 0, 2],
    [1, 0, -1], [1, 0, 0], [1, 0, 1], [1, 0, 2],
    [2, 0, -1], [2, 0, 0], [2, 0, 1], [2, 0, 2]
  ]

  const Stencil3Layer2: seq<seq<int>> := [
    [-1, 1, -1], [-1, 1, 0], [-1, 1, 1], [-1, 1, 2],
    [0, 1, -1], [0, 1, 0], [0, 1, 1], [0, 1, 2],
    [1, 1, -1], [1, 1, 0], [1, 1, 1], [1, 1, 2],
    [2, 1, -1], [2, 1, 0], [2, 1, 1], [2, 1, 2]
  ]

  const Stencil3Layer3: seq<seq<int>> := [
    [-1, 2, -1], [-1, 2, 0], [-1, 2, 1], [-1, 2, 2],
    [0, 2, -1], [0, 2, 0], [0, 2, 1], [0, 2, 2],
    [1, 2, -1], [1, 2, 0], [1, 2, 1], [1, 2, 2],
    [2, 2, -1], [2, 2, 0], [2, 2, 1], [2, 2, 2]
  ]

  /**
   * The stencil `create` builds for a problem of dimension dim (1, 2 or 3):
   * 4^dim rows, row k being Row(dim, k).
   */
  function StencilFor(dim: int): (r: seq<seq<int>>)
    requires 1 <= dim <= 3
    ensures |r| == Pow(4, dim)
    ensures forall k :: 0 <= k < |r| ==> r[k] == Row(dim, k)
  {
    TablesFollowRows();
    if dim == 1 then Stencil1 else if dim == 2 then Stencil2 else Stencil3
  }

  /** The offsets a stencil component can take. */
  predicate IsOffset(o: int) {
    -1 <= o <= 2
  }

  /** A row of dim offsets, each in {-1, 0, 1, 2}. */
  predicate IsOffsetRow(dim: int, row: seq<int>) {
    |row| == dim && forall i :: 0 <= i < |row| ==> IsOffset(row[i])
  }

  function Pow(b: nat, e: nat): nat {
    if e == 0 then 1 else b * Pow(b, e - 1)
  }

  /** Row k of each stencil, computed from k: the order the tables are written in. */
  function Row(dim: int, k: nat): (r: seq<int>)
    requires 1 <= dim <= 3
    ensures |r| == dim
  {
    if dim == 1 then [k - 1]
    else if dim == 2 then [k % 4 - 1, k / 4 - 1]
    else [(k / 4) % 4 - 1, k / 16 - 1, k % 4 - 1]
  }

  /** The position of an offset row in the stencil: the inverse of Row. */
  function RowIndex(dim: int, row: seq<int>): int
    requires 1 <= dim <= 3 && |row| == dim
  {
    if dim == 1 then row[0] + 1
    else if dim == 2 then 4 * (row[1] + 1) + (row[0] + 1)
    else 16 * (row[1] + 1) + 4 * (row[0] + 1) + (row[2] + 1)
  }

  lemma {:induction false} Stencil2Formula(k: nat)
    requires k < 16
    ensures Stencil2[k] == Row(2, k)
  {
    // one proof path per row
    match k {
      case 0 => case 1 => case 2 => case 3 => case 4 => case 5 => case 6 => case 7 =>
      case 8 => case 9 => case 10 => case 11 => case 12 => case 13 => case 14 => case 15 =>
    }
  }

  lemma {:induction false} Stencil3Slab0(k: nat)
    requires 0 <= k < 16
    ensures Stencil3[k] == Row(3, k)
  {
    assert Stencil3[k] == Stencil3Layer0[k - 0];
    match k - 0 {
      case 0 => case 1 => case 2 => case 3 => case 4 => case 5 => case 6 => case 7 =>
      case 8 => case 9 => case 10 => case 11 => case 12 => case 13 => case 14 => case 15 =>
      case _ => assert false;
    }
  }

  lemma {:induction false} Stencil3Slab1(k: nat)
    requires 16 <= k < 32
    ensures Stencil3[k] == Row(3, k)
  {
    assert Stencil3[k] == Stencil3Layer1[k - 16];
    match k - 16 {
      case 0 => case 1 => case 2 => case 3 => case 4 => case 5 => case 6 => case 7 =>
      case 8 => case 9 => case 10 => case 11 => case 12 => case 13 => case 14 => case 15 =>
      case _ => assert false;
    }
  }

  lemma {:induction false} Stencil3Slab2(k: nat)
    requires 32 <= k < 48
    ensures Stencil3[k] == Row(3, k)
  {
    assert Stencil3[k] == Stencil3Layer2[k - 32];
    match k - 32 {
      case 0 => case 1 => case 2 => case 3 => case 4 => case 5 => case 6 => case 7 =>
      case 8 => case 9 => case 10 => case 11 => case 12 => case 13 => case 14 => case 15 =>
      case _ => assert false;
    }
  }

  lemma {:induction false} Stencil3Slab3(k: nat)
    requires 48 <= k < 64
    ensures Stencil3[k] == Row(3, k)
  {
    assert Stencil3[k] == Stencil3Layer3[k - 48];
    match k - 48 {
      case 0 => case 1 => case 2 => case 3 => case 4 => case 5 => case 6 => case 7 =>
      case 8 => case 9 => case 10 => case 11 => case 12 => case 13 => case 14 => case 15 =>
      case _ => assert false;
    }
  }

  lemma {:induction false} Stencil3Formula(k: nat)
    requires k < 64
    ensures Stencil3[k] == Row(3, k)
  {
    if k < 16 {
      Stencil3Slab0(k);
    } else if k < 32 {
      Stencil3Slab1(k);
    } else if k < 48 {
      Stencil3Slab2(k);
    } else {
      Stencil3Slab3(k);
    }
  }

  /** The three tables list their rows in the order Row computes. */
  lemma {:induction false} TablesFollowRows()
    ensures |Stencil1| == Pow(4, 1) && forall k :: 0 <= k < |Stencil1| ==> Stencil1[k] == Row(1, k)
    ensures |Stencil2| == Pow(4, 2) && forall k :: 0 <= k < |Stencil2| ==> Stencil2[k] == Row(2, k)
    ensures |Stencil3| == Pow(4, 3) && forall k :: 0 <= k < |Stencil3| ==> Stencil3[k] == Row(3, k)
  {
    assert Pow(4, 1) == 4 && Pow(4, 2) == 16 && Pow(4, 3) == 64;
    forall k | 0 <= k < |Stencil2| ensures Stencil2[k] == Row(2, k) {
      Stencil2Formula(k);
    }
    forall k | 0 <= k < |Stencil3| ensures Stencil3[k] == Row(3, k) {
      Stencil3Formula(k);
    }
  }

  /** Row produces offset rows, and RowIndex undoes it. */
  lemma {:induction false} RowRoundTrip(dim: int, k: nat)
    requires 1 <= dim <= 3 && k < Pow(4, dim)
    ensures IsOffsetRow(dim, Row(dim, k))
    ensures RowIndex(dim, Row(dim, k)) == k
  {
    assert Pow(4, 1) == 4 && Pow(4, 2) == 16 && Pow(4, 3) == 64;
    if dim == 3 {
      assert 16 * (k / 16) + 4 * ((k / 4) % 4) + k % 4 == k;
    }
  }

  /** RowIndex maps offset rows into range, and Row undoes it. */
  lemma {:induction false} RowIndexRoundTrip(dim: int, row: seq<int>)
    requires 1 <= dim <= 3 && IsOffsetRow(dim, row)
    ensures 0 <= RowIndex(dim, row) < Pow(4, dim)
    ensures Row(dim, RowIndex(dim, row)) == row
  {
    assert Pow(4, 1) == 4 && Pow(4, 2) == 16 && Pow(4, 3) == 64;
    assert forall i :: 0 <= i < dim ==> IsOffset(row[i]);
    var k := RowIndex(dim, row);
    if dim == 2 {
      assert k % 4 == row[0] + 1 && k / 4 == row[1] + 1;
      assert Row(dim, k) == [row[0], row[1]];
    } else if dim == 3 {
      assert k % 4 == row[2] + 1 && k / 4 == 4 * (row[1] + 1) + (row[0] + 1);
      assert (k / 4) % 4 == row[0] + 1 && k / 16 == row[1] + 1;
      assert Row(dim, k) == [row[0], row[1], row[2]];
    } else {
      assert Row(dim, k) == [row[0]];
    }
  }

  /** Every row of a stencil has dim components, each in {-1, 0, 1, 2}. */
  lemma {:induction false} StencilRowsAreOffsets(dim: int, k: nat)
    requires 1 <= dim <= 3 && k < |StencilFor(dim)|
    ensures IsOffsetRow(dim, StencilFor(dim)[k])
    ensures RowIndex(dim, StencilFor(dim)[k]) == k
  {
    RowRoundTrip(dim, k);
  }

  /** Every offset row appears in the stencil, at position RowIndex. */
  lemma {:induction false} StencilCoversOffsets(dim: int, row: seq<int>)
    requires 1 <= dim <= 3 && IsOffsetRow(dim, row)
    ensures 0 <= RowIndex(dim, row) < |StencilFor(dim)|
    ensures StencilFor(dim)[RowIndex(dim, row)] == row
  {
    RowIndexRoundTrip(dim, row);
  }

  /** The rows of a stencil are pairwise distinct. */
  lemma {:induction false} StencilRowsDistinct(dim: int, j: nat, k: nat)
    requires 1 <= dim <= 3 && j < |StencilFor(dim)| && k < |StencilFor(dim)| && j != k
    ensures StencilFor(dim)[j] != StencilFor(dim)[k]
  {
    StencilRowsAreOffsets(dim, j);
    StencilRowsAreOffsets(dim, k);
  }
}
