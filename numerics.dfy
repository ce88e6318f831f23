// Exact real arithmetic shared by the five routers: the transcendental
// functions of Python's `math` module (left abstract), sums, clamps,
// normalisation of weight vectors and the ceiling of `math.ceil`.
module Numerics {

  /** The library functions the routers call and whose numeric accuracy is
      not modelled: `math.sqrt`, `math.exp`, `math.log` and `math.pow` (also
      Python's `**` with a real exponent). */
  datatype Transcendentals = Transcendentals(
    sqrt: real -> real,
    exp: real -> real,
    log: real -> real,
    pow: (real, real) -> real)

  /** The only facts about the library functions that the routers rely on. */
  ghost predicate Sound(m: Transcendentals)
  {
    && (forall x :: 0.0 <= x ==> 0.0 <= m.sqrt(x))
    && (forall x :: 0.0 < x ==> 0.0 < m.sqrt(x))
    && (forall x, y :: 0.0 <= x <= y ==> m.sqrt(x) <= m.sqrt(y))
    && (forall x :: 0.0 < x <= 1.0 ==> m.log(x) <= 0.0)
    && (forall x :: 1.0 < x ==> 0.0 < m.log(x))
    && (forall b, e :: 0.0 < b ==> 0.0 < m.pow(b, e))
  }

  function Abs(x: real): (r: real)
    ensures 0.0 <= r && (r == x || r == -x)
  {
    if x < 0.0 then -x else x
  }

  /** Python's `min(a, b)` on two numbers. */
  function Min(a: real, b: real): (r: real)
    ensures r <= a && r <= b && (r == a || r == b)
  {
    if b < a then b else a
  }

  /** Python's `max(a, b)` on two numbers. */
  function Max(a: real, b: real): (r: real)
    ensures a <= r && b <= r && (r == a || r == b)
  {
    if b > a then b else a
  }

  /** `max(lo, min(hi, x))`: the clamp the routers write out by hand. */
  function Clamp(lo: real, hi: real, x: real): (r: real)
    requires lo <= hi
    ensures lo <= r <= hi
    ensures lo <= x <= hi ==> r == x
    ensures x < lo ==> r == lo
    ensures hi < x ==> r == hi
  {
    Max(lo, Min(hi, x))
  }

  /** `math.ceil` on a real: the least integer not below `x`. */
  function Ceil(x: real): (r: int)
    ensures x <= r as real < x + 1.0
  {
    -((-x).Floor)
  }

  /** Python's `sum(...)`, accumulated left to right. */
  function Sum(s: seq<real>): real
  {
    if |s| == 0 then 0.0 else Sum(s[..|s| - 1]) + s[|s| - 1]
  }

  /** `[c] * n`. */
  function Repeat(c: real, n: nat): (r: seq<real>)
    ensures |r| == n && forall i :: 0 <= i < n ==> r[i] == c
  {
    seq(n, _ => c)
  }

  lemma {:induction false} SumAppend(a: seq<real>, b: seq<real>)
    ensures Sum(a + b) == Sum(a) + Sum(b)
  {
    if |b| == 0 {
      assert a + b == a;
    } else {
      assert (a + b)[..|a + b| - 1] == a + b[..|b| - 1];
      SumAppend(a, b[..|b| - 1]);
    }
  }

  lemma {:induction false} SumRepeat(c: real, n: nat)
    ensures Sum(Repeat(c, n)) == n as real * c
  {
    if n > 0 {
      assert Repeat(c, n)[..n - 1] == Repeat(c, n - 1);
      SumRepeat(c, n - 1);
    }
  }

  lemma {:induction false} SumNonNegative(s: seq<real>)
    requires forall i :: 0 <= i < |s| ==> 0.0 <= s[i]
    ensures 0.0 <= Sum(s)
  {
    if |s| > 0 {
      SumNonNegative(s[..|s| - 1]);
    }
  }

  lemma {:induction false} SumPositive(s: seq<real>)
    requires |s| > 0
    requires forall i :: 0 <= i < |s| ==> 0.0 < s[i]
    ensures 0.0 < Sum(s)
  {
    SumNonNegative(s[..|s| - 1]);
  }

  /** Element-wise division `[x / t for x in s]`. */
  function Scaled(s: seq<real>, t: real): (r: seq<real>)
    requires t != 0.0
    ensures |r| == |s| && forall i :: 0 <= i < |s| ==> r[i] == s[i] / t
  {
    seq(|s|, i requires 0 <= i < |s| => s[i] / t)
  }

  lemma {:induction false} SumScaled(s: seq<real>, t: real)
    requires t != 0.0
    ensures Sum(Scaled(s, t)) == Sum(s) / t
  {
    if |s| > 0 {
      var n := |s|;
      assert Scaled(s, t)[..n - 1] == Scaled(s[..n - 1], t);
      SumScaled(s[..n - 1], t);
      assert Sum(s[..n - 1]) / t + s[n - 1] / t == (Sum(s[..n - 1]) + s[n - 1]) / t;
    }
  }

  /** `total = sum(raw) or 1.0; [w / total for w in raw]`: the normalisation
      step of the attribution models. */
  function Normalise(raw: seq<real>): (w: seq<real>)
    ensures |w| == |raw|
    ensures Sum(raw) != 0.0 ==> Sum(w) == 1.0
    ensures 0.0 < Sum(raw) && (forall i :: 0 <= i < |raw| ==> 0.0 <= raw[i])
            ==> forall i :: 0 <= i < |w| ==> 0.0 <= w[i]
  {
    var total := if Sum(raw) == 0.0 then 1.0 else Sum(raw);
    SumScaled(raw, total);
    assert Sum(raw) != 0.0 ==> Sum(raw) / total == 1.0;
    Scaled(raw, total)
  }
}
