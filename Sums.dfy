/**
 * Finite sums of reals, and the factorisation of a sum over a tensor-product
 * grid into the product of the per-axis sums.
 */
module Sums {

  /** The sum of the entries of s, added from the left. */
  function Sum(s: seq<real>): real {
    if |s| == 0 then 0.0 else Sum(s[..|s| - 1]) + s[|s| - 1]
  }

  lemma {:induction false} SumConcat(s: seq<real>, t: seq<real>)
    ensures Sum(s + t) == Sum(s) + Sum(t)
    decreases |t|
  {
    if |t| == 0 {
      assert s + t == s;
    } else {
      var n := |t| - 1;
      assert (s + t)[..|s + t| - 1] == s + t[..n];
      SumConcat(s, t[..n]);
    }
  }

  /** Every entry of s multiplied by c. */
  function Scale(c: real, s: seq<real>): (r: seq<real>)
    ensures |r| == |s|
  {
    seq(|s|, i requires 0 <= i < |s| => c * s[i])
  }

  /** Scaling every entry scales the sum. */
  lemma {:induction false} SumScale(c: real, s: seq<real>)
    ensures Sum(Scale(c, s)) == c * Sum(s)
    decreases |s|
  {
    if |s| > 0 {
      var n := |s| - 1;
      forall i | 0 <= i < n
        ensures Scale(c, s)[..n][i] == Scale(c, s[..n])[i]
      {
      }
      assert Scale(c, s)[..n] == Scale(c, s[..n]);
      SumScale(c, s[..n]);
      calc {
        Sum(Scale(c, s));
        c * Sum(s[..n]) + c * s[n];
        c * (Sum(s[..n]) + s[n]);
      }
    }
  }

  /** The sum of four entries, written out. */
  lemma {:induction false} Sum4(s: seq<real>)
    requires |s| == 4
    ensures Sum(s) == s[0] + s[1] + s[2] + s[3]
  {
    assert s[..3][..2] == s[..2] && s[..2][..1] == s[..1] && s[..1][..0] == [];
    assert Sum(s[..1]) == s[0];
    assert Sum(s[..2]) == s[0] + s[1];
    assert Sum(s[..3]) == s[0] + s[1] + s[2];
  }

  /** A sequence of zeros sums to zero. */
  lemma {:induction false} SumZeros(n: nat)
    ensures Sum(seq(n, _ => 0.0)) == 0.0
  {
    if n > 0 {
      assert seq(n, _ => 0.0)[..n - 1] == seq(n - 1, _ => 0.0);
      SumZeros(n - 1);
    }
  }

  /**
   * The tensor product of a four-entry factor a with b, a running fastest:
   * entry k is a[k % 4] * b[k / 4].
   */
  function Outer(a: seq<real>, b: seq<real>): (r: seq<real>)
    requires |a| == 4
    ensures |r| == 4 * |b|
  {
    seq(4 * |b|, k requires 0 <= k < 4 * |b| => a[k % 4] * b[k / 4])
  }

  /** Extending b by one entry appends one block of four to the product. */
  lemma {:induction false} OuterSnoc(a: seq<real>, b: seq<real>)
    requires |a| == 4 && |b| > 0
    ensures Outer(a, b) == Outer(a, b[..|b| - 1]) + Scale(b[|b| - 1], a)
  {
    var n := |b| - 1;
    forall k | 0 <= k < 4 * |b|
      ensures Outer(a, b)[k] == (Outer(a, b[..n]) + Scale(b[n], a))[k]
    {
      if k < 4 * n {
        assert b[..n][k / 4] == b[k / 4];
      } else {
        assert k / 4 == n && k % 4 == k - 4 * n;
      }
    }
  }

  /** The sum over one more entry of b adds the sum of one scaled block. */
  lemma {:induction false} OuterSnocSum(a: seq<real>, b: seq<real>)
    requires |a| == 4 && |b| > 0
    ensures Sum(Outer(a, b)) == Sum(Outer(a, b[..|b| - 1])) + Sum(Scale(b[|b| - 1], a))
  {
    OuterSnoc(a, b);
    SumConcat(Outer(a, b[..|b| - 1]), Scale(b[|b| - 1], a));
  }

  /** One inductive step of OuterSum: extending b by one entry. */
  lemma {:induction false} OuterSumStep(a: seq<real>, b: seq<real>)
    requires |a| == 4 && |b| > 0
    requires Sum(Outer(a, b[..|b| - 1])) == Sum(a) * Sum(b[..|b| - 1])
    ensures Sum(Outer(a, b)) == Sum(a) * (Sum(b[..|b| - 1]) + b[|b| - 1])
  {
    var n := |b| - 1;
    OuterSnocSum(a, b);
    SumScale(b[n], a);
    calc {
      Sum(Outer(a, b));
      Sum(a) * Sum(b[..n]) + b[n] * Sum(a);
      Sum(a) * (Sum(b[..n]) + b[n]);
    }
  }

  /** A sum over a tensor-product grid factors into the per-axis sums. */
  lemma {:induction false} OuterSum(a: seq<real>, b: seq<real>)
    requires |a| == 4
    ensures Sum(Outer(a, b)) == Sum(a) * Sum(b)
    decreases |b|
  {
    if |b| > 0 {
      OuterSum(a, b[..|b| - 1]);
      OuterSumStep(a, b);
    }
  }
}
