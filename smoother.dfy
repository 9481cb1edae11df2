/** `_smooth_curve`: Gaussian smoothing of a per-frame gain curve. The kernel has odd
    length `max(3, window | 1)`, standard deviation `max(1, length / 6)` and is
    normalised to sum 1; the curve is edge-padded by half a kernel on each side and
    convolved in numpy's "valid" mode. */
module Smoother {
  import opened Numerics
  import opened Signals

  /** `max(3, window | 1)`: the least odd number that is at least 3 and at least `window`. */
  function KernelLength(window: int): (len: nat)
    ensures len % 2 == 1 && len >= 3 && len >= window
    ensures len == 3 || len - 2 < window
  {
    var odd := if window % 2 == 0 then window + 1 else window;
    if odd < 3 then 3 else odd
  }

  /** `max(1.0, length / 6.0)`. */
  function Sigma(len: nat): (s: real)
    ensures s >= 1.0
  {
    Max2(1.0, len as real / 6.0)
  }

  /** The unnormalised weights `exp(-(x^2) / (2 sigma^2))` for x = -half .. half. */
  function GaussWeights(m: Math, len: nat): (w: seq<real>)
    ensures |w| == len
    ensures forall j :: 0 <= j < len ==> w[j] == GaussWeight(m, len, j)
  {
    seq(len, j requires 0 <= j < len => GaussWeight(m, len, j))
  }

  /** Weight `j` of a kernel of length `len`, at x = j - len / 2. */
  function GaussWeight(m: Math, len: nat, j: int): real {
    Gauss(m, (j - len / 2) as real, Sigma(len))
  }

  /** `exp(-(x^2) / (2 sigma^2))`. */
  function Gauss(m: Math, x: real, sigma: real): real
    requires sigma >= 1.0
  {
    m.exp(-(x * x) / (2.0 * sigma * sigma))
  }

  lemma GaussEven(m: Math, x: real, sigma: real)
    requires sigma >= 1.0
    ensures Gauss(m, -x, sigma) == Gauss(m, x, sigma)
  {
    assert (-x) * (-x) == x * x;
  }

  /** Elementwise division, `values / c`. */
  function DivideAll(s: seq<real>, c: real): (r: seq<real>)
    requires c != 0.0
    ensures |r| == |s|
    ensures forall i :: 0 <= i < |s| ==> r[i] == s[i] / c
  {
    if |s| == 0 then [] else [s[0] / c] + DivideAll(s[1..], c)
  }

  lemma {:induction false} SumPositive(s: seq<real>)
    requires |s| > 0 && forall i :: 0 <= i < |s| ==> s[i] > 0.0
    ensures Sum(s) > 0.0
  {
    if |s| > 1 {
      SumPositive(s[1..]);
    }
  }

  lemma {:induction false} SumDivide(s: seq<real>, c: real)
    requires c != 0.0
    ensures Sum(DivideAll(s, c)) == Sum(s) / c
  {
    if |s| > 0 {
      var d := DivideAll(s, c);
      assert d[1..] == DivideAll(s[1..], c);
      SumDivide(s[1..], c);
    }
  }

  /** The normalised kernel. */
  function Kernel(m: Math, len: nat): (k: seq<real>)
    requires ExpLaws(m) && len > 0
    ensures |k| == len
  {
    var w := GaussWeights(m, len);
    SumPositive(w);
    DivideAll(w, Sum(w))
  }

  /** The kernel used for any window has odd length of at least 3, positive weights and
      weights that sum to exactly 1. */
  lemma KernelNormalised(m: Math, window: int)
    requires ExpLaws(m)
    ensures var k := Kernel(m, KernelLength(window));
      |k| % 2 == 1 && |k| >= 3 && Sum(k) == 1.0 && forall j :: 0 <= j < |k| ==> k[j] > 0.0
  {
    var len := KernelLength(window);
    var w := GaussWeights(m, len);
    SumPositive(w);
    SumDivide(w, Sum(w));
  }

  /** `np.pad(values, (half, half), mode="edge")`. */
  function EdgePad(values: seq<real>, half: nat): (p: seq<real>)
    requires |values| > 0
    ensures |p| == |values| + 2 * half
  {
    seq(|values| + 2 * half, i requires 0 <= i < |values| + 2 * half =>
      var k := i - half;
      if k < 0 then values[0] else if k >= |values| then values[|values| - 1] else values[k])
  }

  /** `v[::-1]`. */
  function Reverse(v: seq<real>): (r: seq<real>)
    ensures |r| == |v|
    ensures forall j :: 0 <= j < |v| ==> r[j] == v[|v| - 1 - j]
  {
    seq(|v|, j requires 0 <= j < |v| => v[|v| - 1 - j])
  }

  /** The sum of a[j] * v[j]. */
  function Dot(a: seq<real>, v: seq<real>): real
    requires |a| == |v|
  {
    Sum(Products(a, v))
  }

  /** `np.convolve(a, v, mode="valid")`: output i is the dot product of the window
      a[i .. i + |v|] with the reversed kernel. */
  function ConvolveValid(a: seq<real>, v: seq<real>): (r: seq<real>)
    requires 0 < |v| <= |a|
    ensures |r| == |a| - |v| + 1
  {
    seq(|a| - |v| + 1, i requires 0 <= i < |a| - |v| + 1 => Dot(a[i..i + |v|], Reverse(v)))
  }

  /** `_smooth_curve(values, window)`: inputs of zero or one element are returned as
      they are; otherwise the result has the input's length. */
  function SmoothCurve(m: Math, values: seq<real>, window: int): (r: seq<real>)
    requires ExpLaws(m)
    ensures |r| == |values|
    ensures |values| <= 1 ==> r == values
  {
    if |values| <= 1 then values
    else
      var len := KernelLength(window);
      ConvolveValid(EdgePad(values, len / 2), Kernel(m, len))
  }

  /** A dot product with non-negative weights lies between `lo` and `hi` times the sum
      of the weights when every value lies in [lo, hi]. */
  lemma DotBounds(a: seq<real>, v: seq<real>, lo: real, hi: real)
    requires |a| == |v|
    requires forall j :: 0 <= j < |a| ==> lo <= a[j] <= hi
    requires forall j :: 0 <= j < |v| ==> v[j] >= 0.0
    ensures lo * Sum(v) <= Dot(a, v) <= hi * Sum(v)
  {
    forall j | 0 <= j < |a|
      ensures Scale(v, lo)[j] <= Products(a, v)[j] <= Scale(v, hi)[j]
    {
      ProductBetween(a, v, lo, hi, j);
    }
    SumMonotone(Scale(v, lo), Products(a, v));
    SumMonotone(Products(a, v), Scale(v, hi));
    SumScale(v, lo);
    SumScale(v, hi);
  }

  /** The product a[j] * v[j] lies between lo * v[j] and hi * v[j] when a[j] lies in
      [lo, hi] and v[j] >= 0. */
  lemma ProductBetween(a: seq<real>, v: seq<real>, lo: real, hi: real, j: nat)
    requires |a| == |v| && j < |a|
    requires lo <= a[j] <= hi && v[j] >= 0.0
    ensures Scale(v, lo)[j] <= Products(a, v)[j] <= Scale(v, hi)[j]
  {
    assert (a[j] - lo) * v[j] >= 0.0;
    assert (hi - a[j]) * v[j] >= 0.0;
  }

  /** Sums are monotone in every element. */
  lemma {:induction false} SumMonotone(p: seq<real>, q: seq<real>)
    requires |p| == |q|
    requires forall j :: 0 <= j < |p| ==> p[j] <= q[j]
    ensures Sum(p) <= Sum(q)
  {
    if |p| > 0 {
      assert forall j :: 0 <= j < |p| - 1 ==> p[1..][j] <= q[1..][j];
      SumMonotone(p[1..], q[1..]);
    }
  }

  /** Scaling every element scales the sum. */
  lemma {:induction false} SumScale(v: seq<real>, c: real)
    ensures Sum(Scale(v, c)) == Sum(v) * c
  {
    if |v| > 0 {
      var s := Scale(v, c);
      var t := Scale(v[1..], c);
      assert forall j :: 0 <= j < |t| ==> s[1..][j] == t[j];
      assert s[1..] == t;
      SumScale(v[1..], c);
      Distribute(v[0], Sum(v[1..]), c);
    }
  }

  lemma Distribute(x: real, y: real, c: real)
    ensures (x + y) * c == x * c + y * c
  {
  }

  /** The Gaussian kernel is symmetric, so convolving with it (which reverses it) is the
      same as correlating with it. */
  lemma KernelSymmetric(m: Math, len: nat)
    requires ExpLaws(m) && len > 0 && len % 2 == 1
    ensures Reverse(Kernel(m, len)) == Kernel(m, len)
  {
    var w := GaussWeights(m, len);
    forall j | 0 <= j < len ensures w[len - 1 - j] == w[j] {
      assert (len - 1 - j - len / 2) as real == -((j - len / 2) as real);
      GaussEven(m, (j - len / 2) as real, Sigma(len));
    }
  }

  /** Every padded value is one of the input values, so padding keeps bounds. */
  lemma EdgePadWindowBounded(values: seq<real>, half: nat, i: nat, len: nat, lo: real, hi: real)
    requires |values| > 0 && i + len <= |values| + 2 * half
    requires forall k :: 0 <= k < |values| ==> lo <= values[k] <= hi
    ensures var a := EdgePad(values, half)[i..i + len];
      forall j :: 0 <= j < |a| ==> lo <= a[j] <= hi
  {
    var p := EdgePad(values, half);
    forall t | i <= t < i + len ensures lo <= p[t] <= hi {
      var k := t - half;
      if k < 0 {
        assert p[t] == values[0];
      } else if k >= |values| {
        assert p[t] == values[|values| - 1];
      } else {
        assert p[t] == values[k];
      }
    }
  }

  /** Convolving values in [lo, hi] with a kernel whose reversal has non-negative weights
      summing to 1 gives values in [lo, hi]. */
  lemma ConvolveBounded(a: seq<real>, v: seq<real>, lo: real, hi: real)
    requires 0 < |v| <= |a|
    requires forall j :: 0 <= j < |a| ==> lo <= a[j] <= hi
    requires forall j :: 0 <= j < |v| ==> Reverse(v)[j] >= 0.0
    requires Sum(Reverse(v)) == 1.0
    ensures var r := ConvolveValid(a, v);
      forall i :: 0 <= i < |r| ==> lo <= r[i] <= hi
  {
    var r := ConvolveValid(a, v);
    forall i | 0 <= i < |r| ensures lo <= r[i] <= hi {
      assert r[i] == Dot(a[i..i + |v|], Reverse(v));
      DotBounds(a[i..i + |v|], Reverse(v), lo, hi);
    }
  }

  /** Smoothing a curve whose values lie in [lo, hi] gives values in [lo, hi]: every output
      is a convex combination of input values. */
  lemma SmoothCurveBounded(m: Math, values: seq<real>, window: int, lo: real, hi: real)
    requires ExpLaws(m)
    requires forall i :: 0 <= i < |values| ==> lo <= values[i] <= hi
    ensures var r := SmoothCurve(m, values, window);
      forall i :: 0 <= i < |r| ==> lo <= r[i] <= hi
  {
    if |values| > 1 {
      var len := KernelLength(window);
      var k := Kernel(m, len);
      KernelNormalised(m, window);
      KernelSymmetric(m, len);
      var p := EdgePad(values, len / 2);
      EdgePadWindowBounded(values, len / 2, 0, |p|, lo, hi);
      ConvolveBounded(p, k, lo, hi);
    }
  }

  /** Smoothing a constant curve gives the same constant curve (the kernel sums to 1). */
  lemma SmoothCurveConstant(m: Math, values: seq<real>, window: int, c: real)
    requires ExpLaws(m)
    requires forall i :: 0 <= i < |values| ==> values[i] == c
    ensures SmoothCurve(m, values, window) == values
  {
    SmoothCurveBounded(m, values, window, c, c);
  }
}
