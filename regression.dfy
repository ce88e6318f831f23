// Ordinary least squares on one predictor, as `_linear_slope` in the content
// router and the inline regression of `forecast_leads` compute it: means,
// the sum of cross deviations and the sum of squared deviations, each
// accumulated left to right by Python's `sum`.
module Regression {
  import opened Numerics

  function Mean(s: seq<real>): real
    requires |s| > 0
  {
    Sum(s) / |s| as real
  }

  /** `list(range(n))` as reals: the week numbers 0 .. n-1. */
  function Indices(n: nat): (r: seq<real>)
    ensures |r| == n && forall i :: 0 <= i < n ==> r[i] == i as real
  {
    seq(n, i => i as real)
  }

  /** The deviations `[xi - xm for xi in x]`. */
  function Deviations(x: seq<real>, xm: real): (d: seq<real>)
    ensures |d| == |x| && forall i :: 0 <= i < |x| ==> d[i] == x[i] - xm
  {
    seq(|x|, i requires 0 <= i < |x| => x[i] - xm)
  }

  /** `sum(ui * vi for ui, vi in zip(u, v))`, accumulated left to right. */
  function Dot(u: seq<real>, v: seq<real>): real
    requires |u| == |v|
  {
    if |u| == 0 then 0.0 else Dot(u[..|u| - 1], v[..|v| - 1]) + u[|u| - 1] * v[|v| - 1]
  }

  /** `sum((xi - xm) * (yi - ym) for xi, yi in zip(x, y))`. */
  function CrossDeviation(x: seq<real>, y: seq<real>, xm: real, ym: real): real
    requires |x| == |y|
  {
    Dot(Deviations(x, xm), Deviations(y, ym))
  }

  /** `sum((xi - xm) ** 2 for xi in x)`. */
  function SquaredDeviation(x: seq<real>, xm: real): real
  {
    Dot(Deviations(x, xm), Deviations(x, xm))
  }

  /** `_linear_slope(x, y)`: the OLS slope, 0 when there are fewer than two
      points or when the x values do not vary. */
  function LinearSlope(x: seq<real>, y: seq<real>): (r: real)
    requires |x| == |y|
    ensures |x| < 2 ==> r == 0.0
    ensures |x| >= 2 && SquaredDeviation(x, Mean(x)) == 0.0 ==> r == 0.0
    ensures |x| >= 2 && SquaredDeviation(x, Mean(x)) != 0.0 ==>
              r * SquaredDeviation(x, Mean(x)) == CrossDeviation(x, y, Mean(x), Mean(y))
  {
    if |x| < 2 then 0.0
    else
      var num := CrossDeviation(x, y, Mean(x), Mean(y));
      var den := SquaredDeviation(x, Mean(x));
      if den != 0.0 then num / den else 0.0
  }

  lemma SquareNonNegative(d: real)
    ensures 0.0 <= d * d
  {
    if d < 0.0 {
      assert d * d == (-d) * (-d);
    }
  }

  /** A number at least one half away from zero has a square of at least a
      quarter. */
  lemma SquareAtLeastQuarter(d: real)
    requires 0.5 <= Abs(d)
    ensures 0.25 <= d * d
  {
    if d < 0.0 {
      assert d * d == (-d) * (-d);
      assert (-d) * (-d) >= 0.5 * (-d);
    } else {
      assert d * d >= 0.5 * d;
    }
  }

  lemma {:induction false} DotSelfNonNegative(u: seq<real>)
    ensures 0.0 <= Dot(u, u)
  {
    if |u| > 0 {
      DotSelfNonNegative(u[..|u| - 1]);
      SquareNonNegative(u[|u| - 1]);
    }
  }

  /** Each square is bounded by the sum of all of them. */
  lemma {:induction false} DotSelfTermBound(u: seq<real>, k: nat)
    requires k < |u|
    ensures u[k] * u[k] <= Dot(u, u)
  {
    DotSelfNonNegative(u[..|u| - 1]);
    if k < |u| - 1 {
      assert u[..|u| - 1][k] == u[k];
      DotSelfTermBound(u[..|u| - 1], k);
      SquareNonNegative(u[|u| - 1]);
    }
  }

  lemma SquaredDeviationNonNegative(x: seq<real>, xm: real)
    ensures 0.0 <= SquaredDeviation(x, xm)
  {
    DotSelfNonNegative(Deviations(x, xm));
  }

  /** For the week numbers 0 .. n-1 with n >= 2 the slope's denominator is
      positive, so the zero-variance fallback never fires: weeks 0 and 1 are
      a unit apart, so one of them is at least half a unit from any mean. */
  lemma IndicesVary(n: nat)
    requires n >= 2
    ensures 0.0 < SquaredDeviation(Indices(n), Mean(Indices(n)))
  {
    var x := Indices(n);
    var m := Mean(x);
    var u := Deviations(x, m);
    var k := if Abs(m) >= 0.5 then 0 else 1;
    SquareAtLeastQuarter(u[k]);
    DotSelfTermBound(u, k);
  }

  /** `sum(a + b * xi for xi in x)`. */
  lemma {:induction false} SumOfLine(x: seq<real>, y: seq<real>, a: real, b: real)
    requires |x| == |y|
    requires forall i :: 0 <= i < |x| ==> y[i] == a + b * x[i]
    ensures Sum(y) == |x| as real * a + b * Sum(x)
  {
    if |x| > 0 {
      var n := |x|;
      SumOfLine(x[..n - 1], y[..n - 1], a, b);
    }
  }

  /** Scaling one side of a dot product scales the product. */
  lemma {:induction false} DotScale(u: seq<real>, v: seq<real>, b: real)
    requires |u| == |v|
    requires forall i :: 0 <= i < |u| ==> v[i] == b * u[i]
    ensures Dot(u, v) == b * Dot(u, u)
  {
    if |u| > 0 {
      var n := |u|;
      DotScale(u[..n - 1], v[..n - 1], b);
      var p := Dot(u[..n - 1], u[..n - 1]);
      var e := u[n - 1];
      assert Dot(u, v) == b * p + e * (b * e);
      assert Dot(u, u) == p + e * e;
      assert e * (b * e) == b * (e * e);
      assert b * p + b * (e * e) == b * (p + e * e);
    }
  }

  /** The mean of points on a line is the line at the mean. */
  lemma MeanOfLine(x: seq<real>, y: seq<real>, a: real, b: real)
    requires |x| == |y| && |x| > 0
    requires forall i :: 0 <= i < |x| ==> y[i] == a + b * x[i]
    ensures Mean(y) == a + b * Mean(x)
  {
    SumOfLine(x, y, a, b);
    var n := |x| as real;
    assert (n * a + b * Sum(x)) / n == a + b * (Sum(x) / n);
  }

  /** Deviations of points on a line are the slope times the x deviations. */
  lemma DeviationsOfLine(x: seq<real>, y: seq<real>, a: real, b: real, xm: real)
    requires |x| == |y|
    requires forall i :: 0 <= i < |x| ==> y[i] == a + b * x[i]
    ensures forall i :: 0 <= i < |x| ==>
              Deviations(y, a + b * xm)[i] == b * Deviations(x, xm)[i]
  {
  }

  lemma CancelFactor(b: real, den: real)
    requires den != 0.0
    ensures b * den / den == b
  {
  }

  /** OLS recovers an exact line: when every point lies on y = a + b*x and
      the x values vary, the slope is b. */
  lemma LinearSlopeOfLine(x: seq<real>, y: seq<real>, a: real, b: real)
    requires |x| == |y| && |x| >= 2
    requires forall i :: 0 <= i < |x| ==> y[i] == a + b * x[i]
    requires SquaredDeviation(x, Mean(x)) != 0.0
    ensures LinearSlope(x, y) == b
  {
    MeanOfLine(x, y, a, b);
    DeviationsOfLine(x, y, a, b, Mean(x));
    DotScale(Deviations(x, Mean(x)), Deviations(y, Mean(y)), b);
    CancelFactor(b, SquaredDeviation(x, Mean(x)));
  }
}
