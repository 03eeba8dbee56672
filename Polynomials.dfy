/**
 * Real polynomials of degree at most three in coefficient form, the reference
 * against which the Horner-form spline pieces of the cubic shape functions are
 * checked.
 */
module Polynomials {

  /**
   * c0 + c1 x + c2 x^2 + c3 x^3, or the polynomial that vanishes everywhere
   * (the piece a spline family has where it is identically zero).
   */
  datatype Cubic = Cubic(c0: real, c1: real, c2: real, c3: real) | ZeroCubic

  /** c0 + c1 x + c2 x^2, or the zero polynomial: the derivative of a Cubic. */
  datatype Quadratic = Quadratic(c0: real, c1: real, c2: real) | ZeroQuadratic

  function Eval(p: Cubic, x: real): real {
    match p
    case ZeroCubic => 0.0
    case Cubic(c0, c1, c2, c3) => c0 + c1 * x + c2 * x * x + c3 * x * x * x
  }

  function EvalQuadratic(q: Quadratic, x: real): real {
    match q
    case ZeroQuadratic => 0.0
    case Quadratic(c0, c1, c2) => c0 + c1 * x + c2 * x * x
  }

  /** The formal derivative, c1 + 2 c2 x + 3 c3 x^2. */
  function Derivative(p: Cubic): Quadratic {
    match p
    case ZeroCubic => ZeroQuadratic
    case Cubic(_, c1, c2, c3) => Quadratic(c1, 2.0 * c2, 3.0 * c3)
  }

  /** The second-order term of p about x over a step t: c2 + 3 c3 x + c3 t. */
  function Curvature(p: Cubic, x: real, t: real): real {
    match p
    case ZeroCubic => 0.0
    case Cubic(_, _, c2, c3) => c2 + 3.0 * c3 * x + c3 * t
  }

  /**
   * The formal derivative is the derivative: p(x + t) differs from its
   * tangent line p(x) + t p'(x) by t^2 times a term that stays bounded as t
   * goes to 0.
   */
  lemma {:induction false} DerivativeIsTangent(p: Cubic, x: real, t: real)
    ensures Eval(p, x + t) == Eval(p, x) + t * EvalQuadratic(Derivative(p), x) + t * t * Curvature(p, x, t)
  {
    if p.Cubic? {
      assert (x + t) * (x + t) == x * x + 2.0 * x * t + t * t;
      assert (x + t) * (x + t) * (x + t) == x * x * x + 3.0 * x * x * t + 3.0 * x * t * t + t * t * t;
    }
  }
}
