// The A/B experiment router: the two-proportion z-test, the normal CDF and
// inverse-CDF approximations, the Monte Carlo estimate of P(B beats A), the
// first-match decision table, the winner rule and the sample-size formula.
module Experiments {
  import opened Wrappers
  import opened Numerics

  datatype Arm = A | B

  datatype ExperimentError =
    | NeedVisitorsInBoth   // HTTP 400 when either arm has no visitors
    | MathDomainError      // `math.sqrt` of a negative number raises ValueError
    | DivisionByZero       // ZeroDivisionError

  /** The request body of `/analyze`. Counts are `ge=0` integers; nothing
      stops conversions from exceeding visitors. */
  datatype ExperimentData = ExperimentData(
    experimentName: string,
    visitorsA: nat,
    visitorsB: nat,
    conversionsA: nat,
    conversionsB: nat,
    revenueA: real,
    revenueB: real)

  datatype ZScore = ZScore(z: real, pValue: real)

  /** The fallback `(0.0, 1.0)` of the z-test. */
  const NoEvidence := ZScore(0.0, 1.0)

  function PooledRate(ca: nat, na: nat, cb: nat, nb: nat): real
    requires na + nb > 0
  {
    (ca + cb) as real / (na + nb) as real
  }

  lemma DivSign(a: real, b: real)
    requires 0.0 < b
    ensures a / b > 0.0 <==> a > 0.0
    ensures a / b < 0.0 <==> a < 0.0
  {
    assert a == (a / b) * b;
    if a / b > 0.0 {
      assert (a / b) * b > 0.0 * b;
    } else if a / b < 0.0 {
      assert (a / b) * b < 0.0 * b;
    }
  }

  lemma PositiveProduct(a: real, b: real)
    requires 0.0 < a && 0.0 < b
    ensures 0.0 < a * b
  {
  }

  lemma NegativeProduct(a: real, b: real)
    requires a < 0.0 && 0.0 < b
    ensures a * b < 0.0
  {
  }

  /** The sign of `p_pool * (1 - p_pool) * (1/n_a + 1/n_b)`. */
  lemma PooledVarianceSign(pool: real, spread: real)
    requires 0.0 <= pool && 0.0 < spread
    ensures pool > 1.0 ==> pool * (1.0 - pool) * spread < 0.0
    ensures pool <= 1.0 ==> 0.0 <= pool * (1.0 - pool) * spread
    ensures 0.0 < pool < 1.0 ==> 0.0 < pool * (1.0 - pool) * spread
  {
    if pool > 1.0 {
      NegativeProduct(1.0 - pool, pool);
      NegativeProduct(pool * (1.0 - pool), spread);
    } else if pool > 0.0 {
      if pool < 1.0 {
        PositiveProduct(pool, 1.0 - pool);
        PositiveProduct(pool * (1.0 - pool), spread);
      }
    }
  }

  /** The tail of `_z_test_proportions` once the pooled variance `v` is
      known: `math.sqrt` rejects a negative `v`, and a zero standard error
      falls back to `(0.0, 1.0)`. */
  function ZStatistic(m: Transcendentals, pA: real, pB: real, v: real): (r: Result<ZScore, ExperimentError>)
    ensures r.Err? <==> v < 0.0
  {
    if v < 0.0 then Err(MathDomainError)
    else
      var se := m.sqrt(v);
      if se == 0.0 then Ok(NoEvidence)
      else
        var z := (pB - pA) / se;
        Ok(ZScore(z, 2.0 * (1.0 - NormCdf(m, Abs(z)))))
  }

  function Negated(r: Result<ZScore, ExperimentError>): Result<ZScore, ExperimentError>
  {
    if r.Ok? then Ok(ZScore(-r.value.z, r.value.pValue)) else r
  }

  lemma ZStatisticSwap(m: Transcendentals, pA: real, pB: real, v: real)
    ensures ZStatistic(m, pB, pA, v) == Negated(ZStatistic(m, pA, pB, v))
  {
    if v >= 0.0 && m.sqrt(v) != 0.0 {
      var se := m.sqrt(v);
      assert (pA - pB) / se == -((pB - pA) / se);
      assert Abs((pA - pB) / se) == Abs((pB - pA) / se);
    }
  }

  /** `p_pool * (1 - p_pool) * (1/n_a + 1/n_b)`, the argument of
      `math.sqrt`. */
  function PooledVariance(ca: nat, na: nat, cb: nat, nb: nat): real
    requires na > 0 && nb > 0
  {
    var pool := PooledRate(ca, na, cb, nb);
    pool * (1.0 - pool) * Spread(na, nb)
  }

  /** `_z_test_proportions`. The argument of `math.sqrt` is negative exactly
      when the pooled rate exceeds 1, which the request model allows. */
  function ZTest(m: Transcendentals, ca: nat, na: nat, cb: nat, nb: nat): (r: Result<ZScore, ExperimentError>)
    ensures na == 0 || nb == 0 ==> r == Ok(NoEvidence)
    ensures na > 0 && nb > 0 && (PooledRate(ca, na, cb, nb) == 0.0 || PooledRate(ca, na, cb, nb) == 1.0)
            ==> r == Ok(NoEvidence)
    ensures r.Err? <==> na > 0 && nb > 0 && PooledRate(ca, na, cb, nb) > 1.0
    ensures r.Err? ==> r.error == MathDomainError
  {
    if na == 0 || nb == 0 then Ok(NoEvidence)
    else
      var pool := PooledRate(ca, na, cb, nb);
      if pool == 0.0 || pool == 1.0 then Ok(NoEvidence)
      else
        PooledVarianceSign(pool, Spread(na, nb));
        ZStatistic(m, ca as real / na as real, cb as real / nb as real, PooledVariance(ca, na, cb, nb))
  }

  /** In the non-degenerate case the z statistic has the sign of the
      difference of the observed rates. */
  lemma ZTestSign(m: Transcendentals, ca: nat, na: nat, cb: nat, nb: nat)
    requires Sound(m)
    requires na > 0 && nb > 0
    requires 0.0 < PooledRate(ca, na, cb, nb) < 1.0
    ensures ZTest(m, ca, na, cb, nb).Ok?
    ensures var z := ZTest(m, ca, na, cb, nb).value.z;
            var pA := ca as real / na as real;
            var pB := cb as real / nb as real;
            (z > 0.0 <==> pB > pA) && (z < 0.0 <==> pB < pA)
  {
    var pool := PooledRate(ca, na, cb, nb);
    PooledVarianceSign(pool, Spread(na, nb));
    var se := m.sqrt(pool * (1.0 - pool) * Spread(na, nb));
    assert 0.0 < se;
    DivSign(cb as real / nb as real - ca as real / na as real, se);
  }

  /** `1/n_a + 1/n_b`. */
  function Spread(na: nat, nb: nat): real
    requires na > 0 && nb > 0
  {
    1.0 / na as real + 1.0 / nb as real
  }

  /** Exchanging the arms negates z and leaves the p-value as it is. */
  lemma ZTestSwap(m: Transcendentals, ca: nat, na: nat, cb: nat, nb: nat)
    ensures ZTest(m, cb, nb, ca, na) == Negated(ZTest(m, ca, na, cb, nb))
  {
    if na > 0 && nb > 0 {
      assert PooledRate(cb, nb, ca, na) == PooledRate(ca, na, cb, nb);
      assert PooledVariance(cb, nb, ca, na) == PooledVariance(ca, na, cb, nb);
      ZStatisticSwap(m, ca as real / na as real, cb as real / nb as real, PooledVariance(ca, na, cb, nb));
    }
  }

  /** The upper-tail estimate `prob` of `_norm_cdf`: a polynomial in
      `t = 1/(1 + 0.2316419|x|)` times the density. */
  function UpperTail(m: Transcendentals, x: real): real
  {
    var t := 1.0 / (1.0 + 0.2316419 * Abs(x));
    var d := 0.3989423 * m.exp(-x * x / 2.0);
    d * t * (0.3193815 + t * (-0.3565638 + t * (1.7814779 + t * (-1.8212560 + t * 1.3302744))))
  }

  /** `_norm_cdf`. */
  function NormCdf(m: Transcendentals, x: real): (r: real)
    ensures x >= 0.0 ==> r == 1.0 - UpperTail(m, x)
    ensures x < 0.0 ==> r == UpperTail(m, x)
  {
    var prob := UpperTail(m, x);
    if x >= 0.0 then 1.0 - prob else prob
  }

  lemma UpperTailEven(m: Transcendentals, x: real)
    ensures UpperTail(m, -x) == UpperTail(m, x)
  {
    assert Abs(-x) == Abs(x);
    assert -(-x) * (-x) / 2.0 == -x * x / 2.0;
  }

  /** The approximation is symmetric about 0 everywhere except at 0 itself,
      where both halves take the `x >= 0` branch. */
  lemma NormCdfSymmetric(m: Transcendentals, x: real)
    requires x != 0.0
    ensures NormCdf(m, x) + NormCdf(m, -x) == 1.0
  {
    UpperTailEven(m, x);
  }

  /** `_norm_ppf`: 0.0 outside the open unit interval. */
  function NormPpf(m: Transcendentals, p: real): (r: real)
    requires Sound(m)
    ensures p <= 0.0 || p >= 1.0 ==> r == 0.0
  {
    if p <= 0.0 || p >= 1.0 then 0.0
    else
      var q := if p < 0.5 then p else 1.0 - p;
      var x := PpfMagnitude(m, q);
      if p >= 0.5 then x else -x
  }

  /** The rational approximation `t - num/den` at the lower-tail probability
      `q`, with `t = sqrt(-2 log q)`. */
  function PpfMagnitude(m: Transcendentals, q: real): real
    requires Sound(m)
    requires 0.0 < q <= 1.0
  {
    var t := m.sqrt(-2.0 * m.log(q));
    var num := 2.515517 + t * (0.802853 + t * 0.010328);
    RationalDenominator(t);
    var den := 1.0 + t * (1.432788 + t * (0.189269 + t * 0.001308));
    t - num / den
  }

  /** With `t >= 0` the denominator of the approximation is at least 1. */
  lemma RationalDenominator(t: real)
    requires 0.0 <= t
    ensures 1.0 <= 1.0 + t * (1.432788 + t * (0.189269 + t * 0.001308))
  {
    var inner := 0.189269 + t * 0.001308;
    assert 0.0 <= t * 0.001308;
    var middle := 1.432788 + t * inner;
    NonNegativeProduct(t, inner);
    NonNegativeProduct(t, middle);
  }

  lemma NonNegativeProduct(a: real, b: real)
    requires 0.0 <= a && 0.0 <= b
    ensures 0.0 <= a * b
  {
  }

  /** The argument of `math.sqrt` in `_norm_ppf` is never negative: `q` lies
      in (0, 0.5], where the logarithm is not positive. */
  lemma NormPpfInDomain(m: Transcendentals, p: real)
    requires Sound(m)
    requires 0.0 < p < 1.0
    ensures var q := if p < 0.5 then p else 1.0 - p;
            0.0 < q <= 0.5 && 0.0 <= -2.0 * m.log(q)
  {
  }

  /** The approximation is antisymmetric about 0.5. */
  lemma NormPpfSymmetric(m: Transcendentals, p: real)
    requires Sound(m)
    requires 0.0 < p < 0.5
    ensures NormPpf(m, 1.0 - p) == -NormPpf(m, p)
  {
    assert 1.0 - (1.0 - p) == p;
  }

  /** `_sample_beta` with the Box-Muller deviate `z` given: the normal
      approximation `mu + sigma*z` of a Beta(alpha, beta) draw, clamped. */
  function SampleBeta(m: Transcendentals, alpha: int, beta: int, z: real): (r: real)
    requires alpha + beta > 0
    ensures 0.0 <= r <= 1.0
  {
    var s := (alpha + beta) as real;
    var mu := alpha as real / s;
    AtLeastOne(s * s, s + 1.0);
    var variance := alpha as real * beta as real / (s * s * (s + 1.0));
    var sigma := m.sqrt(Max(variance, 0.0000000001));
    Clamp(0.0, 1.0, mu + sigma * z)
  }

  lemma AtLeastOne(a: real, b: real)
    requires 1.0 <= a && 1.0 <= b
    ensures 1.0 <= a * b
  {
    assert a * b >= a * 1.0;
  }

  /** `num_samples=10_000`, the only value the router passes. */
  const BayesianSamples: nat := 10000

  /** `wins_b` after the first `k` iterations of `_bayesian_probability`:
      iteration `i` draws arm A from deviate `2i` and arm B from `2i + 1`. */
  function WinsB(m: Transcendentals, ca: nat, na: nat, cb: nat, nb: nat, zs: seq<real>, k: nat): (w: nat)
    requires 2 * k <= |zs|
    ensures w <= k
  {
    if k == 0 then 0
    else
      var a := SampleBeta(m, ca + 1, na - ca + 1, zs[2 * (k - 1)]);
      var b := SampleBeta(m, cb + 1, nb - cb + 1, zs[2 * (k - 1) + 1]);
      WinsB(m, ca, na, cb, nb, zs, k - 1) + (if b > a then 1 else 0)
  }

  lemma FractionInUnit(w: nat, n: nat)
    requires 0 < n && w <= n
    ensures 0.0 <= w as real / n as real <= 1.0
  {
    assert w as real / n as real * n as real == w as real;
  }

  /** `_bayesian_probability`: the share of iterations in which the draw for
      B exceeds the draw for A. */
  method BayesianProbability(m: Transcendentals, ca: nat, na: nat, cb: nat, nb: nat,
                             numSamples: nat, zs: seq<real>) returns (p: real)
    requires 0 < numSamples && |zs| == 2 * numSamples
    ensures p == WinsB(m, ca, na, cb, nb, zs, numSamples) as real / numSamples as real
    ensures 0.0 <= p <= 1.0
  {
    var wins: nat := 0;
    var i := 0;
    while i < numSamples
      invariant 0 <= i <= numSamples
      invariant wins == WinsB(m, ca, na, cb, nb, zs, i)
    {
      var sampleA := SampleBeta(m, ca + 1, na - ca + 1, zs[2 * i]);
      var sampleB := SampleBeta(m, cb + 1, nb - cb + 1, zs[2 * i + 1]);
      if sampleB > sampleA {
        wins := wins + 1;
      }
      i := i + 1;
    }
    FractionInUnit(wins, numSamples);
    p := wins as real / numSamples as real;
  }

  datatype Action = Continue | DeclareWinnerB | DeclareWinnerA | Inconclusive | Kill

  /** Which of the six messages of `_make_decision` accompanies the action. */
  datatype Reason =
    | InsufficientSample
    | BWins
    | AWins
    | NegligibleDifference
    | NoSignal
    | StillRunning

  datatype Decision = Decision(action: Action, reason: Reason)

  /** `_make_decision`: a first-match table. */
  function MakeDecision(confidence: real, uplift: real, bIsHigher: bool, totalVisitors: int): Decision
  {
    if totalVisitors < 100 then Decision(Continue, InsufficientSample)
    else if confidence >= 95.0 && bIsHigher && uplift >= 0.05 then Decision(DeclareWinnerB, BWins)
    else if confidence >= 95.0 && !bIsHigher && Abs(uplift) >= 0.05 then Decision(DeclareWinnerA, AWins)
    else if confidence >= 95.0 && Abs(uplift) < 0.05 then Decision(Inconclusive, NegligibleDifference)
    else if totalVisitors > 5000 && confidence < 80.0 then Decision(Kill, NoSignal)
    else Decision(Continue, StillRunning)
  }

  /** Each action of the table, characterised on its own rather than by the
      order of the rules. */
  lemma DecisionTable(confidence: real, uplift: real, bIsHigher: bool, totalVisitors: int)
    ensures var d := MakeDecision(confidence, uplift, bIsHigher, totalVisitors);
      && (totalVisitors < 100 ==> d == Decision(Continue, InsufficientSample))
      && (d.action == DeclareWinnerB <==>
            totalVisitors >= 100 && confidence >= 95.0 && bIsHigher && uplift >= 0.05)
      && (d.action == DeclareWinnerA <==>
            totalVisitors >= 100 && confidence >= 95.0 && !bIsHigher && Abs(uplift) >= 0.05)
      && (d.action == Inconclusive <==>
            totalVisitors >= 100 && confidence >= 95.0 && Abs(uplift) < 0.05)
      && (d.action == Kill <==> totalVisitors > 5000 && confidence < 80.0)
      && (d.action == Continue <==>
            totalVisitors < 100 ||
            (confidence >= 95.0 && bIsHigher && uplift <= -0.05) ||
            (confidence < 95.0 && !(totalVisitors > 5000 && confidence < 80.0)))
  {
  }

  /** `(rate_b - rate_a) / rate_a if rate_a > 0 else 0.0`. */
  function Uplift(rateA: real, rateB: real): (u: real)
    ensures rateA > 0.0 ==> (u > 0.0 <==> rateB > rateA)
    ensures rateA > 0.0 ==> (u < 0.0 <==> rateB < rateA)
    ensures rateA <= 0.0 ==> u == 0.0
  {
    if rateA > 0.0 then
      DivSign(rateB - rateA, rateA);
      (rateB - rateA) / rateA
    else 0.0
  }

  function Confidence(pValue: real): real
  {
    (1.0 - pValue) * 100.0
  }

  /** The `winner` field: the higher arm when the test is significant. */
  function Winner(bIsHigher: bool, significant: bool): Option<Arm>
  {
    if bIsHigher && significant then Some(B)
    else if !bIsHigher && significant then Some(A)
    else None
  }

  /** With at least 100 visitors and a p-value of at most 0.05, the table
      never says "continue": when B's rate is higher its uplift is never
      negative, so the rules for a significant result cover every case. */
  lemma SignificantResultIsDecided(rateA: real, rateB: real, pValue: real, totalVisitors: int)
    requires 0.0 <= rateA
    requires totalVisitors >= 100 && pValue <= 0.05
    ensures MakeDecision(Confidence(pValue), Uplift(rateA, rateB), rateB > rateA, totalVisitors).action != Continue
  {
    DecisionTable(Confidence(pValue), Uplift(rateA, rateB), rateB > rateA, totalVisitors);
  }

  /** Away from a p-value of exactly 0.05, an arm the decision declares the
      winner is the arm the `winner` field names (the decision compares the
      confidence with `>= 95`, the winner the p-value with `< 0.05`). The
      converse does not hold: with too few visitors, say, the field names a
      winner while the decision waits. */
  lemma DecisionAgreesWithWinner(rateA: real, rateB: real, pValue: real, totalVisitors: int)
    requires pValue != 0.05
    ensures var d := MakeDecision(Confidence(pValue), Uplift(rateA, rateB), rateB > rateA, totalVisitors);
            var w := Winner(rateB > rateA, pValue < 0.05);
            (d.action == DeclareWinnerB ==> w == Some(B)) && (d.action == DeclareWinnerA ==> w == Some(A))
  {
    DecisionTable(Confidence(pValue), Uplift(rateA, rateB), rateB > rateA, totalVisitors);
  }

  /** At exactly p = 0.05 the decision declares B while `winner` is None. */
  lemma DecisionDisagreesAtBoundary()
    ensures MakeDecision(Confidence(0.05), Uplift(0.1, 0.2), true, 1000).action == DeclareWinnerB
    ensures Winner(true, 0.05 < 0.05) == None
  {
    assert Uplift(0.1, 0.2) == 1.0;
  }

  datatype Analysis = Analysis(
    experimentName: string,
    rateA: real,
    rateB: real,
    revenuePerVisitorA: real,
    revenuePerVisitorB: real,
    z: real,
    pValue: real,
    confidence: real,
    significant: bool,
    uplift: real,
    probBBeatsA: real,
    decision: Decision,
    winner: Option<Arm>)

  /** `analyze_experiment`, with the 2 * 10000 standard-normal deviates of
      the Monte Carlo loop given as `zs`. */
  method AnalyzeExperiment(m: Transcendentals, data: ExperimentData, zs: seq<real>)
    returns (r: Result<Analysis, ExperimentError>)
    requires |zs| == 2 * BayesianSamples
    ensures data.visitorsA == 0 || data.visitorsB == 0 <==> r == Err(NeedVisitorsInBoth)
    ensures data.visitorsA > 0 && data.visitorsB > 0 ==>
      var zt := ZTest(m, data.conversionsA, data.visitorsA, data.conversionsB, data.visitorsB);
      (r.Err? <==> zt.Err?) &&
      (r.Ok? ==>
        var a := r.value;
        && a.rateA == data.conversionsA as real / data.visitorsA as real
        && a.rateB == data.conversionsB as real / data.visitorsB as real
        && a.revenuePerVisitorA == data.revenueA / data.visitorsA as real
        && a.revenuePerVisitorB == data.revenueB / data.visitorsB as real
        && a.uplift == Uplift(a.rateA, a.rateB)
        && a.z == zt.value.z && a.pValue == zt.value.pValue
        && a.confidence == Confidence(a.pValue)
        && (a.significant <==> a.pValue < 0.05)
        && 0.0 <= a.probBBeatsA <= 1.0
        && a.probBBeatsA == WinsB(m, data.conversionsA, data.visitorsA, data.conversionsB, data.visitorsB,
                                  zs, BayesianSamples) as real / BayesianSamples as real
        && a.decision == MakeDecision(a.confidence, a.uplift, a.rateB > a.rateA, data.visitorsA + data.visitorsB)
        && (a.winner == Some(B) <==> a.rateB > a.rateA && a.pValue < 0.05)
        && (a.winner == Some(A) <==> a.rateB <= a.rateA && a.pValue < 0.05)
        && (a.winner == None <==> a.pValue >= 0.05))
  {
    if data.visitorsA == 0 || data.visitorsB == 0 {
      return Err(NeedVisitorsInBoth);
    }
    var rateA := data.conversionsA as real / data.visitorsA as real;
    var rateB := data.conversionsB as real / data.visitorsB as real;
    var uplift := Uplift(rateA, rateB);
    var zt := ZTest(m, data.conversionsA, data.visitorsA, data.conversionsB, data.visitorsB);
    if zt.Err? {
      return Err(zt.error);
    }
    var confidence := Confidence(zt.value.pValue);
    var significant := zt.value.pValue < 0.05;
    var isWinner := rateB > rateA;
    var prob := BayesianProbability(m, data.conversionsA, data.visitorsA, data.conversionsB, data.visitorsB,
                                    BayesianSamples, zs);
    var rpvA := data.revenueA / data.visitorsA as real;
    var rpvB := data.revenueB / data.visitorsB as real;
    var decision := MakeDecision(confidence, uplift, isWinner, data.visitorsA + data.visitorsB);
    r := Ok(Analysis(data.experimentName, rateA, rateB, rpvA, rpvB, zt.value.z, zt.value.pValue,
                     confidence, significant, uplift, prob, decision, Winner(isWinner, significant)));
  }

  datatype SampleSizeRequest = SampleSizeRequest(
    baselineRate: real,
    minimumDetectable: real,
    power: real,
    significance: real)

  datatype SampleSizePlan = SampleSizePlan(perVariant: int, total: int, targetRate: real)

  /** `(z_alpha + z_beta) ** 2 * (p1(1-p1) + p2(1-p2))`, the numerator of
      the sample-size formula. */
  function SampleSizeNumerator(m: Transcendentals, req: SampleSizeRequest): real
    requires Sound(m)
  {
    var k := NormPpf(m, 1.0 - req.significance / 2.0) + NormPpf(m, req.power);
    var p1 := req.baselineRate;
    var p2 := p1 * (1.0 + req.minimumDetectable);
    k * k * (p1 * (1.0 - p1) + p2 * (1.0 - p2))
  }

  lemma ProductNonZero(a: real, b: real)
    requires a != 0.0 && b != 0.0
    ensures a * b != 0.0
  {
  }

  /** Stated for two equal numbers rather than one: the solver handles
      `d * d` poorly once it knows the factors are the same term. */
  lemma SquareNonZero(d: real, e: real)
    requires d == e && d != 0.0
    ensures d * e != 0.0
  {
    ProductNonZero(d, e);
  }

  /** `p1 - p2`, the absolute effect the experiment must detect. */
  function EffectSize(req: SampleSizeRequest): real
  {
    req.baselineRate - req.baselineRate * (1.0 + req.minimumDetectable)
  }

  /** `calculate_sample_size`. The formula divides by `(p1 - p2) ** 2`
      without a guard; that square is zero exactly when `p1 == p2`, and
      Python then raises ZeroDivisionError. */
  function SampleSize(m: Transcendentals, req: SampleSizeRequest): (r: Result<SampleSizePlan, ExperimentError>)
    requires Sound(m)
    ensures r.Err? <==> EffectSize(req) == 0.0
    ensures r.Err? ==> r.error == DivisionByZero
    ensures r.Ok? ==>
              var need := SampleSizeNumerator(m, req) / (EffectSize(req) * EffectSize(req));
              && need <= r.value.perVariant as real < need + 1.0
              && r.value.total == 2 * r.value.perVariant
              && r.value.targetRate == req.baselineRate * (1.0 + req.minimumDetectable)
  {
    var d := EffectSize(req);
    if d == 0.0 then Err(DivisionByZero)
    else
      SquareNonZero(EffectSize(req), EffectSize(req));
      var n := Ceil(SampleSizeNumerator(m, req) / (EffectSize(req) * EffectSize(req)));
      Ok(SampleSizePlan(n, n * 2, req.baselineRate * (1.0 + req.minimumDetectable)))
  }

  /** The sample size is undefined exactly when the baseline rate or the
      minimum detectable effect is zero. */
  lemma SampleSizeUndefined(m: Transcendentals, req: SampleSizeRequest)
    requires Sound(m)
    ensures SampleSize(m, req).Err? <==> req.baselineRate == 0.0 || req.minimumDetectable == 0.0
  {
    var p1 := req.baselineRate;
    var mde := req.minimumDetectable;
    assert EffectSize(req) == -(p1 * mde);
    if p1 != 0.0 && mde != 0.0 {
      ProductNonZero(p1, mde);
    }
  }
}
