/** The exact sums every engine accumulates: a dot product, two squared
    magnitudes, the horizontal sum of a SIMD lane group, and the per-lane
    running sums of the wide-accumulator kernel. Floating-point rounding is
    not modelled: every sum is an exact `real`. */
module Sums {

  /** Sum over k < n of a[k] * b[k]. The squared magnitude of a is `Dot(a, a, n)`. */
  function Dot(a: seq<real>, b: seq<real>, n: nat): real
    requires n <= |a| && n <= |b|
  {
    if n == 0 then 0.0 else Dot(a, b, n - 1) + a[n - 1] * b[n - 1]
  }

  /** The dot product does not depend on the order of its arguments. */
  lemma {:induction false} DotSymmetric(a: seq<real>, b: seq<real>, n: nat)
    requires n <= |a| && n <= |b|
    ensures Dot(a, b, n) == Dot(b, a, n)
  {
    if n > 0 {
      DotSymmetric(a, b, n - 1);
    }
  }

  /** A squared magnitude is a sum of squares, hence never negative. */
  lemma {:induction false} SquaredMagnitudeNonNegative(a: seq<real>, n: nat)
    requires n <= |a|
    ensures Dot(a, a, n) >= 0.0
  {
    if n > 0 {
      SquaredMagnitudeNonNegative(a, n - 1);
      assert a[n - 1] * a[n - 1] >= 0.0;
    }
  }

  lemma SquareZero(x: real)
    ensures x * x >= 0.0 && (x * x == 0.0 <==> x == 0.0)
  {
    if x != 0.0 {
      assert x * x / x == x;
    }
  }

  /** A squared magnitude is zero exactly when the first n components are zero. */
  lemma {:induction false} SquaredMagnitudeZero(a: seq<real>, n: nat)
    requires n <= |a|
    ensures Dot(a, a, n) == 0.0 <==> forall k :: 0 <= k < n ==> a[k] == 0.0
  {
    if n > 0 {
      SquaredMagnitudeZero(a, n - 1);
      SquaredMagnitudeNonNegative(a, n - 1);
      SquareZero(a[n - 1]);
    }
  }

  /** A vector whose first n components are zero has a zero dot product with any other. */
  lemma {:induction false} DotZeroLeft(a: seq<real>, b: seq<real>, n: nat)
    requires n <= |a| && n <= |b|
    requires forall k :: 0 <= k < n ==> a[k] == 0.0
    ensures Dot(a, b, n) == 0.0
  {
    if n > 0 {
      DotZeroLeft(a, b, n - 1);
    }
  }

  /** The dot product only reads the first n components. */
  lemma {:induction false} DotPrefix(a: seq<real>, b: seq<real>, a': seq<real>, b': seq<real>, n: nat)
    requires n <= |a| && n <= |b| && n <= |a'| && n <= |b'|
    requires a[..n] == a'[..n] && b[..n] == b'[..n]
    ensures Dot(a, b, n) == Dot(a', b', n)
  {
    if n > 0 {
      assert a[n - 1] == a[..n][n - 1] && b[n - 1] == b[..n][n - 1];
      assert a[..n - 1] == a[..n][..n - 1] && a'[..n - 1] == a'[..n][..n - 1];
      assert b[..n - 1] == b[..n][..n - 1] && b'[..n - 1] == b'[..n][..n - 1];
      DotPrefix(a, b, a', b', n - 1);
    }
  }

  /** Horizontal sum of the w lane products a[i + l] * b[i + l], l < w:
      what `Vector.Dot` returns for one lane group starting at i. */
  function LaneDot(a: seq<real>, b: seq<real>, i: nat, w: nat): real
    requires i + w <= |a| && i + w <= |b|
  {
    if w == 0 then 0.0 else LaneDot(a, b, i, w - 1) + a[i + w - 1] * b[i + w - 1]
  }

  /** Adding the lane group starting at i extends the dot product from i to i + w. */
  lemma {:induction false} DotSplit(a: seq<real>, b: seq<real>, i: nat, w: nat)
    requires i + w <= |a| && i + w <= |b|
    ensures Dot(a, b, i + w) == Dot(a, b, i) + LaneDot(a, b, i, w)
  {
    if w > 0 {
      DotSplit(a, b, i, w - 1);
    }
  }

  /** Sum of all elements of a buffer, what `Enumerable.Sum` returns. */
  function Sum(x: seq<real>): real
  {
    if |x| == 0 then 0.0 else Sum(x[..|x| - 1]) + x[|x| - 1]
  }

  /** Summing a concatenation sums the parts. */
  lemma {:induction false} SumAppend(x: seq<real>, y: seq<real>)
    ensures Sum(x + y) == Sum(x) + Sum(y)
  {
    if |y| == 0 {
      assert x + y == x;
    } else {
      assert (x + y)[..|x + y| - 1] == x + y[..|y| - 1];
      SumAppend(x, y[..|y| - 1]);
    }
  }

  /** The lane-wise update `acc + one * two` of a SIMD accumulator whose
      lanes hold the products of the group starting at i. */
  function AddProducts(acc: seq<real>, a: seq<real>, b: seq<real>, i: nat): (r: seq<real>)
    requires i + |acc| <= |a| && i + |acc| <= |b|
    ensures |r| == |acc|
    ensures forall l :: 0 <= l < |acc| ==> r[l] == acc[l] + a[i + l] * b[i + l]
  {
    seq(|acc|, l requires 0 <= l < |acc| => acc[l] + a[i + l] * b[i + l])
  }

  /** The lane-wise update adds exactly one horizontal lane sum to the total. */
  lemma {:induction false} SumAddProducts(acc: seq<real>, a: seq<real>, b: seq<real>, i: nat)
    requires i + |acc| <= |a| && i + |acc| <= |b|
    ensures Sum(AddProducts(acc, a, b, i)) == Sum(acc) + LaneDot(a, b, i, |acc|)
  {
    var w := |acc|;
    if w > 0 {
      var front := acc[..w - 1];
      assert AddProducts(acc, a, b, i)[..w - 1] == AddProducts(front, a, b, i);
      SumAddProducts(front, a, b, i);
    }
  }

  /** Lane l of a wide accumulator after the lane groups that end at or
      before i: the sum of a[c + l] * b[c + l] over the group starts
      c = i - s, i - 2s, ... that are not negative. */
  function LaneColumn(a: seq<real>, b: seq<real>, s: nat, l: nat, i: nat): real
    requires 0 <= l < s && i <= |a| && i <= |b|
    decreases i
  {
    if i < s then 0.0 else LaneColumn(a, b, s, l, i - s) + a[i - s + l] * b[i - s + l]
  }

  /** Integer data as exact reals: an int product accumulated into a double
      is, without overflow or rounding, the product of the lifted values. */
  function LiftRow(v: seq<int>): (r: seq<real>)
    ensures |r| == |v| && forall k :: 0 <= k < |v| ==> r[k] == v[k] as real
  {
    seq(|v|, k requires 0 <= k < |v| => v[k] as real)
  }

  function Lift(ds: seq<seq<int>>): (r: seq<seq<real>>)
    ensures |r| == |ds| && forall i :: 0 <= i < |ds| ==> r[i] == LiftRow(ds[i])
  {
    seq(|ds|, i requires 0 <= i < |ds| => LiftRow(ds[i]))
  }
}
