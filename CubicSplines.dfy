/**
 * The per-axis cubic B-spline kernels: four families of piecewise cubic
 * polynomials over the half-open sub-intervals [-2,-1), [-1,0), [0,1) and
 * [1,2) of the signed particle-node distance (in cells), and their
 * derivatives scaled by the inverse node spacing.
 */
module CubicSplines {
  import opened Polynomials

  /**
   * The node classification that selects a spline family, in the order of
   * the branch list: interior node, node on the domain edge, node one
   * spacing above the low edge, node one spacing below the high edge.
   */
  datatype Species = Middle | Boundary | NearLow | NearHigh

  /** The position of a family in the branch list. */
  function BranchIndex(s: Species): nat {
    match s
    case Middle => 0
    case Boundary => 1
    case NearLow => 2
    case NearHigh => 3
  }

  /** The branch a switch index selects; out-of-range indices are clamped into the list. */
  function Branch(index: int): (s: Species)
    ensures 0 <= index < 4 ==> BranchIndex(s) == index
    ensures index < 0 ==> s == Middle
    ensures index >= 4 ==> s == NearHigh
  {
    if index <= 0 then Middle
    else if index == 1 then Boundary
    else if index == 2 then NearLow
    else NearHigh
  }

  /** The knots -2, -1, 0, 1, 2 of the splines, numbered 0 to 4. */
  function Knot(k: int): real
    requires 0 <= k <= 4
  {
    (k - 2) as real
  }

  /** x lies in sub-interval k (0 to 3), that is between knots k and k + 1, half-open. */
  predicate InPiece(k: int, x: real) {
    0 <= k < 4 && Knot(k) <= x < Knot(k + 1)
  }

  /**
   * Piecewise selection over the four sub-intervals: the value given for the
   * sub-interval holding x, and 0 when no sub-interval holds it.
   */
  function Piecewise(x: real, v0: real, v1: real, v2: real, v3: real): real {
    if -2.0 <= x < -1.0 then v0
    else if -1.0 <= x < 0.0 then v1
    else if 0.0 <= x < 1.0 then v2
    else if 1.0 <= x < 2.0 then v3
    else 0.0
  }

  function MiddleBasis(x: real): real {
    Piecewise(x,
      ((1.0 / 6.0 * x + 1.0) * x + 2.0) * x + 4.0 / 3.0,
      (-0.5 * x - 1.0) * x * x + 2.0 / 3.0,
      (0.5 * x - 1.0) * x * x + 2.0 / 3.0,
      ((-1.0 / 6.0 * x + 1.0) * x - 2.0) * x + 4.0 / 3.0)
  }

  function MiddleDBasis(x: real, h: real): real {
    Piecewise(x,
      h * ((0.5 * x + 2.0) * x + 2.0),
      h * (-3.0 / 2.0 * x - 2.0) * x,
      h * (3.0 / 2.0 * x - 2.0) * x,
      h * ((-0.5 * x + 2.0) * x - 2.0))
  }

  function BoundaryBasis(x: real): real {
    Piecewise(x,
      ((1.0 / 6.0 * x + 1.0) * x + 2.0) * x + 4.0 / 3.0,
      (-1.0 / 6.0 * x * x + 1.0) * x + 1.0,
      ((1.0 / 6.0) * x * x - 1.0) * x + 1.0,
      ((-1.0 / 6.0 * x + 1.0) * x - 2.0) * x + 4.0 / 3.0)
  }

  function BoundaryDBasis(x: real, h: real): real {
    Piecewise(x,
      h * ((0.5 * x + 2.0) * x + 2.0),
      h * (-0.5 * x * x + 1.0),
      h * (0.5 * x * x - 1.0),
      h * ((-0.5 * x + 2.0) * x - 2.0))
  }

  function NearLowBasis(x: real): real {
    Piecewise(x,
      0.0,
      (-1.0 / 3.0 * x - 1.0) * x * x + 2.0 / 3.0,
      (0.5 * x - 1.0) * x * x + 2.0 / 3.0,
      ((-1.0 / 6.0 * x + 1.0) * x - 2.0) * x + 4.0 / 3.0)
  }

  function NearLowDBasis(x: real, h: real): real {
    Piecewise(x,
      0.0,
      h * (-x - 2.0) * x,
      h * (3.0 / 2.0 * x - 2.0) * x,
      h * ((-0.5 * x + 2.0) * x - 2.0))
  }

  function NearHighBasis(x: real): real {
    Piecewise(x,
      ((1.0 / 6.0 * x + 1.0) * x + 2.0) * x + 4.0 / 3.0,
      (-0.5 * x - 1.0) * x * x + 2.0 / 3.0,
      (1.0 / 3.0 * x - 1.0) * x * x + 2.0 / 3.0,
      0.0)
  }

  function NearHighDBasis(x: real, h: real): real {
    Piecewise(x,
      h * ((0.5 * x + 2.0) * x + 2.0),
      h * (-3.0 / 2.0 * x - 2.0) * x,
      h * (x - 2.0) * x,
      0.0)
  }

  /** The basis value of family s at distance x. */
  function Basis(s: Species, x: real): real {
    match s
    case Middle => MiddleBasis(x)
    case Boundary => BoundaryBasis(x)
    case NearLow => NearLowBasis(x)
    case NearHigh => NearHighBasis(x)
  }

  /** The derivative of family s at distance x, times the inverse node spacing h. */
  function DBasis(s: Species, x: real, h: real): real {
    match s
    case Middle => MiddleDBasis(x, h)
    case Boundary => BoundaryDBasis(x, h)
    case NearLow => NearLowDBasis(x, h)
    case NearHigh => NearHighDBasis(x, h)
  }

  /** (x + 2)^3 / 6, the piece every family except near-low has on [-2, -1). */
  const OuterLeft := Cubic(4.0 / 3.0, 2.0, 1.0, 1.0 / 6.0)
  /** -x^3 / 2 - x^2 + 2/3, the middle piece on [-1, 0). */
  const InnerLeft := Cubic(2.0 / 3.0, 0.0, -1.0, -1.0 / 2.0)
  /** x^3 / 2 - x^2 + 2/3, the middle piece on [0, 1). */
  const InnerRight := Cubic(2.0 / 3.0, 0.0, -1.0, 1.0 / 2.0)
  /** (2 - x)^3 / 6, the piece every family except near-high has on [1, 2). */
  const OuterRight := Cubic(4.0 / 3.0, -2.0, 1.0, -1.0 / 6.0)

  /** The polynomial of family s on sub-interval k, in coefficient form. */
  function Piece(s: Species, k: int): Cubic
    requires 0 <= k < 4
  {
    match s
    case Middle =>
      if k == 0 then OuterLeft else if k == 1 then InnerLeft
      else if k == 2 then InnerRight else OuterRight
    case Boundary =>
      if k == 0 then OuterLeft else if k == 1 then Cubic(1.0, 1.0, 0.0, -1.0 / 6.0)
      else if k == 2 then Cubic(1.0, -1.0, 0.0, 1.0 / 6.0) else OuterRight
    case NearLow =>
      if k == 0 then ZeroCubic else if k == 1 then Cubic(2.0 / 3.0, 0.0, -1.0, -1.0 / 3.0)
      else if k == 2 then InnerRight else OuterRight
    case NearHigh =>
      if k == 0 then OuterLeft else if k == 1 then InnerLeft
      else if k == 2 then Cubic(2.0 / 3.0, 0.0, -1.0, 1.0 / 3.0) else ZeroCubic
  }

  /**
   * The polynomial in force just left of knot k: the piece of sub-interval
   * k - 1, and the zero polynomial left of -2.
   */
  function LeftPiece(s: Species, k: int): Cubic
    requires 0 <= k <= 4
  {
    if k == 0 then ZeroCubic else Piece(s, k - 1)
  }

  /** Every family's dbasis is linear in the inverse spacing h. */
  lemma {:induction false} DBasisScales(s: Species, x: real, h: real)
    ensures DBasis(s, x, h) == h * DBasis(s, x, 1.0)
  {
    if -2.0 <= x < -1.0 {
    } else if -1.0 <= x < 0.0 {
    } else if 0.0 <= x < 1.0 {
    } else if 1.0 <= x < 2.0 {
    }
  }

  /**
   * On each sub-interval every family's basis is its coefficient-form
   * polynomial, and its dbasis at unit spacing is that polynomial's
   * derivative (DBasisScales gives the factor h for other spacings).
   */
  lemma {:induction false} PieceAgreement(s: Species, k: int, x: real)
    requires InPiece(k, x)
    ensures Basis(s, x) == Eval(Piece(s, k), x)
    ensures DBasis(s, x, 1.0) == EvalQuadratic(Derivative(Piece(s, k)), x)
  {
    match s
    case Middle => MiddleAgreement(k, x);
    case Boundary => BoundaryAgreement(k, x);
    case NearLow => NearLowAgreement(k, x);
    case NearHigh => NearHighAgreement(k, x);
  }

  lemma {:induction false} MiddleAgreement(k: int, x: real)
    requires InPiece(k, x)
    ensures Basis(Middle, x) == Eval(Piece(Middle, k), x)
    ensures DBasis(Middle, x, 1.0) == EvalQuadratic(Derivative(Piece(Middle, k)), x)
  {
    if k == 0 {
      assert Basis(Middle, x) == Eval(Piece(Middle, 0), x);
      assert DBasis(Middle, x, 1.0) == EvalQuadratic(Derivative(Piece(Middle, 0)), x);
    } else
    if k == 1 {
      assert Basis(Middle, x) == Eval(Piece(Middle, 1), x);
      assert DBasis(Middle, x, 1.0) == EvalQuadratic(Derivative(Piece(Middle, 1)), x);
    } else
    if k == 2 {
      assert Basis(Middle, x) == Eval(Piece(Middle, 2), x);
      assert DBasis(Middle, x, 1.0) == EvalQuadratic(Derivative(Piece(Middle, 2)), x);
    } else
    {
      assert Basis(Middle, x) == Eval(Piece(Middle, 3), x);
      assert DBasis(Middle, x, 1.0) == EvalQuadratic(Derivative(Piece(Middle, 3)), x);
    }
  }

  lemma {:induction false} BoundaryAgreement(k: int, x: real)
    requires InPiece(k, x)
    ensures Basis(Boundary, x) == Eval(Piece(Boundary, k), x)
    ensures DBasis(Boundary, x, 1.0) == EvalQuadratic(Derivative(Piece(Boundary, k)), x)
  {
    if k == 0 {
      assert Basis(Boundary, x) == Eval(Piece(Boundary, 0), x);
      assert DBasis(Boundary, x, 1.0) == EvalQuadratic(Derivative(Piece(Boundary, 0)), x);
    } else
    if k == 1 {
      assert Basis(Boundary, x) == Eval(Piece(Boundary, 1), x);
      assert DBasis(Boundary, x, 1.0) == EvalQuadratic(Derivative(Piece(Boundary, 1)), x);
    } else
    if k == 2 {
      assert Basis(Boundary, x) == Eval(Piece(Boundary, 2), x);
      assert DBasis(Boundary, x, 1.0) == EvalQuadratic(Derivative(Piece(Boundary, 2)), x);
    } else
    {
      assert Basis(Boundary, x) == Eval(Piece(Boundary, 3), x);
      assert DBasis(Boundary, x, 1.0) == EvalQuadratic(Derivative(Piece(Boundary, 3)), x);
    }
  }

  lemma {:induction false} NearLowAgreement(k: int, x: real)
    requires InPiece(k, x)
    ensures Basis(NearLow, x) == Eval(Piece(NearLow, k), x)
    ensures DBasis(NearLow, x, 1.0) == EvalQuadratic(Derivative(Piece(NearLow, k)), x)
  {
    if k == 0 {
      assert Basis(NearLow, x) == Eval(Piece(NearLow, 0), x);
      assert DBasis(NearLow, x, 1.0) == EvalQuadratic(Derivative(Piece(NearLow, 0)), x);
    } else
    if k == 1 {
      assert Basis(NearLow, x) == Eval(Piece(NearLow, 1), x);
      assert DBasis(NearLow, x, 1.0) == EvalQuadratic(Derivative(Piece(NearLow, 1)), x);
    } else
    if k == 2 {
      assert Basis(NearLow, x) == Eval(Piece(NearLow, 2), x);
      assert DBasis(NearLow, x, 1.0) == EvalQuadratic(Derivative(Piece(NearLow, 2)), x);
    } else
    {
      assert Basis(NearLow, x) == Eval(Piece(NearLow, 3), x);
      assert DBasis(NearLow, x, 1.0) == EvalQuadratic(Derivative(Piece(NearLow, 3)), x);
    }
  }

  lemma {:induction false} NearHighAgreement(k: int, x: real)
    requires InPiece(k, x)
    ensures Basis(NearHigh, x) == Eval(Piece(NearHigh, k), x)
    ensures DBasis(NearHigh, x, 1.0) == EvalQuadratic(Derivative(Piece(NearHigh, k)), x)
  {
    if k == 0 {
      assert Basis(NearHigh, x) == Eval(Piece(NearHigh, 0), x);
      assert DBasis(NearHigh, x, 1.0) == EvalQuadratic(Derivative(Piece(NearHigh, 0)), x);
    } else
    if k == 1 {
      assert Basis(NearHigh, x) == Eval(Piece(NearHigh, 1), x);
      assert DBasis(NearHigh, x, 1.0) == EvalQuadratic(Derivative(Piece(NearHigh, 1)), x);
    } else
    if k == 2 {
      assert Basis(NearHigh, x) == Eval(Piece(NearHigh, 2), x);
      assert DBasis(NearHigh, x, 1.0) == EvalQuadratic(Derivative(Piece(NearHigh, 2)), x);
    } else
    {
      assert Basis(NearHigh, x) == Eval(Piece(NearHigh, 3), x);
      assert DBasis(NearHigh, x, 1.0) == EvalQuadratic(Derivative(Piece(NearHigh, 3)), x);
    }
  }

  /** The four sub-intervals are disjoint and together cover exactly [-2, 2). */
  lemma {:induction false} SubIntervalsPartition(x: real, j: int, k: int)
    ensures InPiece(j, x) && InPiece(k, x) ==> j == k
    ensures -2.0 <= x < 2.0 <==> InPiece(0, x) || InPiece(1, x) || InPiece(2, x) || InPiece(3, x)
  {
  }

  /** Outside [-2, 2) every family gives basis 0 and derivative 0. */
  lemma {:induction false} OutsideSupport(s: Species, x: real, h: real)
    requires !(-2.0 <= x < 2.0)
    ensures Basis(s, x) == 0.0 && DBasis(s, x, h) == 0.0
  {
  }

  /**
   * Every family is continuous: at each knot -2, -1, 0, 1, 2 the polynomial
   * in force to the left reaches the value the family takes at the knot.
   */
  lemma {:induction false} BasisContinuous(s: Species, k: int)
    requires 0 <= k <= 4
    ensures Eval(LeftPiece(s, k), Knot(k)) == Basis(s, Knot(k))
  {
  }

  /** The middle spline vanishes at both ends of its support. */
  lemma {:induction false} MiddleVanishesAtEnds()
    ensures Basis(Middle, -2.0) == 0.0 && Basis(Middle, 2.0) == 0.0
    ensures Eval(Piece(Middle, 0), -2.0) == 0.0 && Eval(Piece(Middle, 3), 2.0) == 0.0
  {
  }

  /**
   * Where the derivative is continuous: at every knot for the middle spline;
   * the boundary family has a kink at 0, the near-low family at -1 and the
   * near-high family at 1 (stated at unit spacing; DBasisScales scales it).
   */
  lemma {:induction false} DerivativeKinks(s: Species, k: int)
    requires 0 <= k <= 4
    ensures EvalQuadratic(Derivative(LeftPiece(s, k)), Knot(k)) == DBasis(s, Knot(k), 1.0)
        <==> !((s == Boundary && k == 2) || (s == NearLow && k == 1) || (s == NearHigh && k == 3))
  {
    var kink := (s == Boundary && k == 2) || (s == NearLow && k == 1) || (s == NearHigh && k == 3);
    match s
    case Middle =>
      MiddleKinks(k);
      assert !kink;
    case Boundary =>
      BoundaryKinks(k);
      assert kink <==> k == 2;
    case NearLow =>
      NearLowKinks(k);
      assert kink <==> k == 1;
    case NearHigh =>
      NearHighKinks(k);
      assert kink <==> k == 3;
  }

  lemma {:induction false} MiddleKinks(k: int)
    requires 0 <= k <= 4
    ensures EvalQuadratic(Derivative(LeftPiece(Middle, k)), Knot(k)) == DBasis(Middle, Knot(k), 1.0)
  {
    var x := Knot(k);
    if k == 0 {
      PieceAgreement(Middle, k, x);
    } else if k == 1 {
      PieceAgreement(Middle, k, x);
    } else if k == 2 {
      PieceAgreement(Middle, k, x);
    } else if k == 3 {
      PieceAgreement(Middle, k, x);
    } else {
      OutsideSupport(Middle, x, 1.0);
    }
  }

  lemma {:induction false} BoundaryKinks(k: int)
    requires 0 <= k <= 4
    ensures EvalQuadratic(Derivative(LeftPiece(Boundary, k)), Knot(k)) == DBasis(Boundary, Knot(k), 1.0) <==> k != 2
  {
    var x := Knot(k);
    if k == 0 {
      PieceAgreement(Boundary, k, x);
    } else if k == 1 {
      PieceAgreement(Boundary, k, x);
    } else if k == 2 {
      PieceAgreement(Boundary, k, x);
    } else if k == 3 {
      PieceAgreement(Boundary, k, x);
    } else {
      OutsideSupport(Boundary, x, 1.0);
    }
  }

  lemma {:induction false} NearLowKinks(k: int)
    requires 0 <= k <= 4
    ensures EvalQuadratic(Derivative(LeftPiece(NearLow, k)), Knot(k)) == DBasis(NearLow, Knot(k), 1.0) <==> k != 1
  {
    var x := Knot(k);
    if k == 0 {
      PieceAgreement(NearLow, k, x);
    } else if k == 1 {
      PieceAgreement(NearLow, k, x);
    } else if k == 2 {
      PieceAgreement(NearLow, k, x);
    } else if k == 3 {
      PieceAgreement(NearLow, k, x);
    } else {
      OutsideSupport(NearLow, x, 1.0);
    }
  }

  lemma {:induction false} NearHighKinks(k: int)
    requires 0 <= k <= 4
    ensures EvalQuadratic(Derivative(LeftPiece(NearHigh, k)), Knot(k)) == DBasis(NearHigh, Knot(k), 1.0) <==> k != 3
  {
    var x := Knot(k);
    if k == 0 {
      PieceAgreement(NearHigh, k, x);
    } else if k == 1 {
      PieceAgreement(NearHigh, k, x);
    } else if k == 2 {
      PieceAgreement(NearHigh, k, x);
    } else if k == 3 {
      PieceAgreement(NearHigh, k, x);
    } else {
      OutsideSupport(NearHigh, x, 1.0);
    }
  }

  /** The near-low family is zero on [-2, -1), the near-high family on [1, 2). */
  lemma {:induction false} NearBoundaryZeros(x: real, h: real)
    ensures -2.0 <= x < -1.0 ==> Basis(NearLow, x) == 0.0 && DBasis(NearLow, x, h) == 0.0
    ensures 1.0 <= x < 2.0 ==> Basis(NearHigh, x) == 0.0 && DBasis(NearHigh, x, h) == 0.0
  {
  }

  /**
   * The near-high family mirrors the near-low one, and the middle and
   * boundary families are symmetric; derivatives mirror with a sign change
   * away from the knots.
   */
  lemma {:induction false} Mirror(x: real, h: real)
    ensures Basis(NearHigh, x) == Basis(NearLow, -x)
    ensures Basis(Middle, x) == Basis(Middle, -x)
    ensures Basis(Boundary, x) == Basis(Boundary, -x)
    ensures x != -2.0 && x != -1.0 && x != 0.0 && x != 1.0 && x != 2.0 ==>
      DBasis(NearHigh, x, h) == -DBasis(NearLow, -x, h) &&
      DBasis(Middle, x, h) == -DBasis(Middle, -x, h) &&
      DBasis(Boundary, x, h) == -DBasis(Boundary, -x, h)
  {
  }

  /**
   * Partition of unity of the middle spline: for a particle at fraction f of
   * its cell, the distances to the stencil nodes at offsets -1, 0, 1, 2 are
   * f + 1, f, f - 1, f - 2; their bases sum to 1 and their derivatives to 0.
   */
  lemma {:induction false} MiddlePartitionOfUnity(f: real, h: real)
    requires 0.0 <= f < 1.0
    ensures MiddleBasis(f + 1.0) + MiddleBasis(f) + MiddleBasis(f - 1.0) + MiddleBasis(f - 2.0) == 1.0
    ensures MiddleDBasis(f + 1.0, h) + MiddleDBasis(f, h) + MiddleDBasis(f - 1.0, h) + MiddleDBasis(f - 2.0, h) == 0.0
  {
  }
}
