// The revenue forecasting router: month-by-month MRR projection, a linear
// forecast of weekly lead volume with prediction bands, and the timeline to
// the organic thresholds that unlock paid acquisition.
module Forecasting {
  import opened Wrappers
  import opened Numerics
  import opened Regression

  // ---------------------------------------------------------------------
  // MRR projection

  /** `MRRForecastRequest`. */
  datatype MrrRequest = MrrRequest(
    currentMrr: real,
    weeklyNewLeads: real,
    leadToCustomerRate: real,
    avgDealSize: real,
    monthlyChurnRate: real,
    months: nat,
    growthRateWeekly: real)

  /** One entry of `projections`. */
  datatype Projection = Projection(
    month: nat,
    monthlyLeads: real,
    newCustomers: real,
    newMrr: real,
    churnedMrr: real,
    netMrr: real,
    netNewMrr: real)

  /** Weeks per month, as the router counts them. */
  const WeeksPerMonth: real := 4.33

  /** Leads in month `month`: the weekly volume over a month, grown by the
      weekly rate compounded over the weeks elapsed. */
  function MonthlyLeads(m: Transcendentals, req: MrrRequest, month: nat): real
  {
    req.weeklyNewLeads * WeeksPerMonth * m.pow(1.0 + req.growthRateWeekly, month as real * WeeksPerMonth)
  }

  function NewCustomers(m: Transcendentals, req: MrrRequest, month: nat): real
  {
    MonthlyLeads(m, req, month) * req.leadToCustomerRate
  }

  /** MRR won from the month's new customers. */
  function NewMrr(m: Transcendentals, req: MrrRequest, month: nat): real
  {
    NewCustomers(m, req, month) * req.avgDealSize
  }

  /** MRR lost to churn in a month that starts at `mrr`. */
  function Churned(req: MrrRequest, mrr: real): real
  {
    mrr * req.monthlyChurnRate
  }

  /** The MRR after `k` months of the recurrence
      `mrr' = mrr + new_mrr - mrr * churn`, starting from `current_mrr`. */
  function MrrAfter(m: Transcendentals, req: MrrRequest, k: nat): real
  {
    if k == 0 then req.currentMrr
    else
      var before := MrrAfter(m, req, k - 1);
      before + NewMrr(m, req, k) - Churned(req, before)
  }

  /** The entry recorded for month `month` (1-based). */
  function ProjectionAt(m: Transcendentals, req: MrrRequest, month: nat): (p: Projection)
    requires 1 <= month
    ensures p.month == month
    ensures p.netMrr == MrrAfter(m, req, month)
    ensures p.netMrr == MrrAfter(m, req, month - 1) + p.netNewMrr
    ensures p.netNewMrr == p.newMrr - p.churnedMrr
    ensures p.churnedMrr == Churned(req, MrrAfter(m, req, month - 1))
  {
    var before := MrrAfter(m, req, month - 1);
    var newMrr := NewMrr(m, req, month);
    var churned := Churned(req, before);
    Projection(month, MonthlyLeads(m, req, month), NewCustomers(m, req, month), newMrr, churned,
               before + newMrr - churned, newMrr - churned)
  }

  /** Why `forecast_mrr` fails. A growth rate below -1 makes the base of
      `(1 + growth) ** (month * 4.33)` negative and the exponent is not
      integral, so Python yields a complex number, and `round` on it raises
      a `TypeError` in the first month. */
  datatype MrrError = ComplexPower

  /** The loop of `forecast_mrr`: exactly `months` projections, numbered
      1 .. months, each carrying the recurrence forward from the last. */
  method ProjectMrr(m: Transcendentals, req: MrrRequest) returns (r: Result<seq<Projection>, MrrError>)
    ensures r.Err? <==> req.months >= 1 && 1.0 + req.growthRateWeekly < 0.0
    ensures r.Ok? ==> |r.value| == req.months
    ensures r.Ok? ==> forall i :: 0 <= i < |r.value| ==> r.value[i] == ProjectionAt(m, req, i + 1)
    ensures r.Ok? ==> forall i :: 0 <= i < |r.value| ==> r.value[i].month == i + 1
    ensures r.Ok? ==> forall i :: 1 <= i < |r.value| ==>
              r.value[i].netMrr == r.value[i - 1].netMrr + r.value[i].netNewMrr
  {
    // The first month's `round` already raises, before any projection is
    // kept, so the failure is decided before the loop.
    if req.months >= 1 && 1.0 + req.growthRateWeekly < 0.0 {
      return Err(ComplexPower);
    }
    var projections := [];
    var mrr := req.currentMrr;
    var month := 1;
    while month <= req.months
      invariant 1 <= month <= req.months + 1
      invariant |projections| == month - 1
      invariant mrr == MrrAfter(m, req, month - 1)
      invariant forall i :: 0 <= i < |projections| ==> projections[i] == ProjectionAt(m, req, i + 1)
    {
      var monthlyLeads := MonthlyLeads(m, req, month);
      var newCustomers := monthlyLeads * req.leadToCustomerRate;
      assert newCustomers == NewCustomers(m, req, month);
      var newMrr := newCustomers * req.avgDealSize;
      assert newMrr == NewMrr(m, req, month);
      var churnedMrr := mrr * req.monthlyChurnRate;
      assert churnedMrr == Churned(req, MrrAfter(m, req, month - 1));
      mrr := mrr + newMrr - churnedMrr;
      assert mrr == MrrAfter(m, req, month);
      var p := Projection(month, monthlyLeads, newCustomers, newMrr, churnedMrr, mrr, newMrr - churnedMrr);
      assert p == ProjectionAt(m, req, month);
      projections := projections + [p];
      month := month + 1;
    }
    ProjectionsChain(m, req, projections);
    r := Ok(projections);
  }

  /** Consecutive projections chain: each month starts where the last one
      ended. */
  lemma ProjectionsChain(m: Transcendentals, req: MrrRequest, projections: seq<Projection>)
    requires forall i :: 0 <= i < |projections| ==> projections[i] == ProjectionAt(m, req, i + 1)
    ensures forall i :: 1 <= i < |projections| ==>
              projections[i].netMrr == projections[i - 1].netMrr + projections[i].netNewMrr
  {
    forall i | 1 <= i < |projections|
      ensures projections[i].netMrr == projections[i - 1].netMrr + projections[i].netNewMrr
    {
      assert projections[i - 1].netMrr == MrrAfter(m, req, i);
    }
  }

  /** `summary` of `forecast_mrr`. */
  datatype MrrSummary = MrrSummary(
    month3Mrr: real,
    month6Mrr: real,
    month12Mrr: real,
    totalArrAt12Months: real,
    growthFromToday: Option<real>)

  datatype MrrForecast = MrrForecast(currentMrr: real, projections: seq<Projection>, summary: MrrSummary)

  /** The net MRR of month `k`, or 0 when fewer than `k` months were
      projected. */
  function MonthMrr(projections: seq<Projection>, k: nat): (r: real)
    requires 1 <= k
    ensures |projections| >= k ==> r == projections[k - 1].netMrr
    ensures |projections| < k ==> r == 0.0
  {
    if |projections| >= k then projections[k - 1].netMrr else 0.0
  }

  /** The percentage growth of month 12 over today, against a floor of 1;
      absent ("N/A") when the current MRR is zero. */
  function GrowthFromToday(currentMrr: real, month12Mrr: real): (r: Option<real>)
    ensures r.None? <==> currentMrr == 0.0
    ensures 1.0 <= currentMrr && r.Some? ==> (r.value / 100.0 + 1.0) * currentMrr == month12Mrr
  {
    if currentMrr != 0.0 then Some((month12Mrr / Max(currentMrr, 1.0) - 1.0) * 100.0) else None
  }

  function Summarise(currentMrr: real, projections: seq<Projection>): MrrSummary
  {
    var m12 := MonthMrr(projections, 12);
    MrrSummary(MonthMrr(projections, 3), MonthMrr(projections, 6), m12, m12 * 12.0, GrowthFromToday(currentMrr, m12))
  }

  /** `forecast_mrr`. */
  method ForecastMrr(m: Transcendentals, req: MrrRequest) returns (r: Result<MrrForecast, MrrError>)
    ensures r.Err? <==> req.months >= 1 && 1.0 + req.growthRateWeekly < 0.0
    ensures r.Ok? ==> r.value.currentMrr == req.currentMrr
    ensures r.Ok? ==> |r.value.projections| == req.months
    ensures r.Ok? ==> forall i :: 0 <= i < req.months ==> r.value.projections[i] == ProjectionAt(m, req, i + 1)
    ensures r.Ok? ==> r.value.summary.month12Mrr == (if req.months >= 12 then MrrAfter(m, req, 12) else 0.0)
    ensures r.Ok? ==> r.value.summary.month3Mrr == (if req.months >= 3 then MrrAfter(m, req, 3) else 0.0)
    ensures r.Ok? ==> r.value.summary.month6Mrr == (if req.months >= 6 then MrrAfter(m, req, 6) else 0.0)
    ensures r.Ok? ==> r.value.summary.totalArrAt12Months == 12.0 * r.value.summary.month12Mrr
    ensures r.Ok? ==> r.value.summary.growthFromToday == GrowthFromToday(req.currentMrr, r.value.summary.month12Mrr)
  {
    var projected := ProjectMrr(m, req);
    if projected.Err? {
      return Err(projected.error);
    }
    var projections := projected.value;
    r := Ok(MrrForecast(req.currentMrr, projections, Summarise(req.currentMrr, projections)));
  }

  /** The product of two non-negative reals is non-negative. */
  lemma ProductNonNegative(a: real, b: real)
    requires 0.0 <= a && 0.0 <= b
    ensures 0.0 <= a * b
  {
  }

  /** Losing a fraction of a non-negative amount leaves a non-negative one. */
  lemma ChurnLeavesNonNegative(mrr: real, churn: real)
    requires 0.0 <= mrr && 0.0 <= churn <= 1.0
    ensures 0.0 <= mrr - mrr * churn
  {
    assert mrr - mrr * churn == mrr * (1.0 - churn);
    ProductNonNegative(mrr, 1.0 - churn);
  }

  /** With non-negative inputs, a churn rate of at most 100% and lead growth
      above -100%, the projected MRR never goes negative. */
  lemma {:induction false} MrrStaysNonNegative(m: Transcendentals, req: MrrRequest, k: nat)
    requires Sound(m)
    requires 0.0 <= req.currentMrr && 0.0 <= req.weeklyNewLeads
    requires 0.0 <= req.leadToCustomerRate && 0.0 <= req.avgDealSize
    requires 0.0 <= req.monthlyChurnRate <= 1.0
    requires -1.0 < req.growthRateWeekly
    ensures 0.0 <= MrrAfter(m, req, k)
  {
    if k > 0 {
      MrrStaysNonNegative(m, req, k - 1);
      var before := MrrAfter(m, req, k - 1);
      ChurnLeavesNonNegative(before, req.monthlyChurnRate);
      var growth := m.pow(1.0 + req.growthRateWeekly, k as real * WeeksPerMonth);
      assert 0.0 < growth;
      ProductNonNegative(req.weeklyNewLeads, WeeksPerMonth);
      ProductNonNegative(req.weeklyNewLeads * WeeksPerMonth, growth);
      ProductNonNegative(MonthlyLeads(m, req, k), req.leadToCustomerRate);
      ProductNonNegative(NewCustomers(m, req, k), req.avgDealSize);
    }
  }

  /** Without new leads and without churn the MRR stays where it is. */
  lemma {:induction false} MrrFlatWithoutFlow(m: Transcendentals, req: MrrRequest, k: nat)
    requires req.weeklyNewLeads == 0.0 && req.monthlyChurnRate == 0.0
    ensures MrrAfter(m, req, k) == req.currentMrr
  {
    if k > 0 {
      MrrFlatWithoutFlow(m, req, k - 1);
    }
  }

  // ---------------------------------------------------------------------
  // Lead volume forecast

  /** One entry of `forecasts`. */
  datatype LeadForecast = LeadForecast(week: nat, predicted: real, lowerBound: real, upperBound: real)

  datatype LeadForecastError = NeedFourWeeks

  datatype LeadForecastReport = LeadForecastReport(
    rSquared: real,
    slope: real,
    historicalAvg: real,
    forecasts: seq<LeadForecast>,
    totalForecastLeads: real)

  /** The OLS intercept `y_mean - slope * x_mean` over weeks 0 .. n-1. */
  function Intercept(data: seq<real>): real
    requires |data| > 0
  {
    Mean(data) - LinearSlope(Indices(|data|), data) * Mean(Indices(|data|))
  }

  /** The residuals `y - (intercept + slope * x)` of the fitted line. */
  function Residuals(data: seq<real>, intercept: real, slope: real): (r: seq<real>)
    ensures |r| == |data|
    ensures forall i :: 0 <= i < |data| ==> r[i] == data[i] - (intercept + slope * i as real)
  {
    seq(|data|, i requires 0 <= i < |data| => data[i] - (intercept + slope * i as real))
  }

  /** `ss_res`, the sum of squared residuals of the fitted line. */
  function SsRes(data: seq<real>): (r: real)
    requires |data| > 0
    ensures 0.0 <= r
  {
    var e := Residuals(data, Intercept(data), LinearSlope(Indices(|data|), data));
    DotSelfNonNegative(e);
    Dot(e, e)
  }

  /** `ss_tot`, the total sum of squares about the mean. */
  function SsTot(data: seq<real>): (r: real)
    requires |data| > 0
    ensures 0.0 <= r
  {
    SquaredDeviationNonNegative(data, Mean(data));
    SquaredDeviation(data, Mean(data))
  }

  /** `r2`: the share of variance explained, 0 when the data do not vary. */
  function RSquared(data: seq<real>): (r: real)
    requires |data| > 0
    ensures SsTot(data) == 0.0 ==> r == 0.0
    ensures SsTot(data) > 0.0 ==> (1.0 - r) * SsTot(data) == SsRes(data)
  {
    if SsTot(data) > 0.0 then 1.0 - SsRes(data) / SsTot(data) else 0.0
  }

  /** `rmse`: the root of the residual sum of squares over `max(n - 2, 1)`. */
  function Rmse(m: Transcendentals, data: seq<real>): (r: real)
    requires |data| > 0
    ensures Sound(m) ==> 0.0 <= r
  {
    m.sqrt(SsRes(data) / (if |data| - 2 > 1 then |data| - 2 else 1) as real)
  }

  /** The forecast for week `w + 1` ahead: the fitted line at `n + w`,
      floored at zero, with a band of 1.96 root-mean-square errors whose
      lower edge is also floored at zero. */
  function ForecastAt(m: Transcendentals, data: seq<real>, w: nat): (f: LeadForecast)
    requires |data| > 0
    ensures f.week == w + 1
    ensures f.predicted == Max(0.0, Intercept(data) + LinearSlope(Indices(|data|), data) * (|data| + w) as real)
    ensures Sound(m) ==> 0.0 <= f.lowerBound <= f.predicted <= f.upperBound
  {
    var predicted := Max(0.0, Intercept(data) + LinearSlope(Indices(|data|), data) * (|data| + w) as real);
    var band := 1.96 * Rmse(m, data);
    LeadForecast(w + 1, predicted, Max(0.0, predicted - band), predicted + band)
  }

  function Predicted(forecasts: seq<LeadForecast>): (r: seq<real>)
    ensures |r| == |forecasts| && forall i :: 0 <= i < |forecasts| ==> r[i] == forecasts[i].predicted
  {
    seq(|forecasts|, i requires 0 <= i < |forecasts| => forecasts[i].predicted)
  }

  /** `forecast_leads`: refuses fewer than four weeks of history; otherwise
      fits a line to the weekly counts and extends it `weeksAhead` weeks. */
  method ForecastLeads(m: Transcendentals, data: seq<real>, weeksAhead: nat)
    returns (r: Result<LeadForecastReport, LeadForecastError>)
    ensures r.Err? <==> |data| < 4
    ensures r.Ok? ==>
              r.value.slope == LinearSlope(Indices(|data|), data) &&
              r.value.historicalAvg == Mean(data) &&
              r.value.rSquared == RSquared(data)
    ensures r.Ok? ==>
              |r.value.forecasts| == weeksAhead &&
              forall w :: 0 <= w < weeksAhead ==> r.value.forecasts[w] == ForecastAt(m, data, w)
    ensures r.Ok? ==> r.value.totalForecastLeads == Sum(Predicted(r.value.forecasts))
    ensures r.Ok? && Sound(m) ==>
              (forall w :: 0 <= w < weeksAhead ==>
                 0.0 <= r.value.forecasts[w].lowerBound <= r.value.forecasts[w].predicted <= r.value.forecasts[w].upperBound) &&
              0.0 <= r.value.totalForecastLeads
  {
    if |data| < 4 {
      return Err(NeedFourWeeks);
    }
    var forecasts: seq<LeadForecast> := [];
    var w := 0;
    while w < weeksAhead
      invariant 0 <= w <= weeksAhead
      invariant |forecasts| == w
      invariant forall k :: 0 <= k < w ==> forecasts[k] == ForecastAt(m, data, k)
    {
      forecasts := forecasts + [ForecastAt(m, data, w)];
      w := w + 1;
    }
    var total := Sum(Predicted(forecasts));
    if Sound(m) {
      SumNonNegative(Predicted(forecasts));
    }
    r := Ok(LeadForecastReport(RSquared(data), LinearSlope(Indices(|data|), data), Mean(data), forecasts, total));
  }

  /** OLS on a history that lies exactly on a line `a + b * week` recovers
      the line: the slope is `b` and the intercept `a`. */
  lemma LinearHistoryFit(data: seq<real>, a: real, b: real)
    requires |data| >= 2
    requires forall i :: 0 <= i < |data| ==> data[i] == a + b * i as real
    ensures LinearSlope(Indices(|data|), data) == b
    ensures Intercept(data) == a
  {
    var x := Indices(|data|);
    IndicesVary(|data|);
    LinearSlopeOfLine(x, data, a, b);
    MeanOfLine(x, data, a, b);
  }

  /** A history on a line is fitted with no residual, and each forecast is
      the line extended, floored at zero. */
  lemma LinearHistoryIsExtended(m: Transcendentals, data: seq<real>, a: real, b: real, w: nat)
    requires |data| >= 4
    requires forall i :: 0 <= i < |data| ==> data[i] == a + b * i as real
    ensures SsRes(data) == 0.0
    ensures ForecastAt(m, data, w).predicted == Max(0.0, a + b * (|data| + w) as real)
  {
    LinearHistoryFit(data, a, b);
    var e := Residuals(data, a, b);
    assert e == Residuals(data, Intercept(data), LinearSlope(Indices(|data|), data));
    DotOfZeros(e);
  }

  lemma {:induction false} DotOfZeros(e: seq<real>)
    requires forall i :: 0 <= i < |e| ==> e[i] == 0.0
    ensures Dot(e, e) == 0.0
  {
    if |e| > 0 {
      DotOfZeros(e[..|e| - 1]);
    }
  }

  // ---------------------------------------------------------------------
  // Paid-channel unlock timeline

  /** `PaidUnlockRequest`. */
  datatype UnlockRequest = UnlockRequest(
    currentMonthlyLeads: real,
    targetMonthlyLeads: real,
    currentConversionRate: real,
    targetConversionRate: real,
    currentCac: Option<real>,
    targetCac: real,
    weeklyLeadGrowthRate: real)

  /** The keys of `results`. */
  datatype ThresholdName = LeadVolume | ConversionRate | Cac

  datatype Status = Achieved | InProgress | NoGrowth | AboveTarget

  /** One value of `results`; `weeksAway` is absent for the CAC entry and
      when lead volume does not grow. */
  datatype Threshold = Threshold(name: ThresholdName, weeksAway: Option<real>, status: Status)

  /** `math.log` of a ratio that is not positive: the target is not
      positive, so `target / max(current, 1)` is zero or negative. */
  datatype UnlockError = LogOfNonPositive

  /** The lead-volume entry: achieved when the target is already met,
      otherwise the weeks for compound weekly growth to close the ratio, or
      no estimate when leads do not grow. The logarithm fails exactly when
      growth is positive, the target is not met and the target is not
      positive. */
  function LeadVolumeThreshold(m: Transcendentals, req: UnlockRequest): (r: Result<Threshold, UnlockError>)
    requires Sound(m)
    ensures r.Err? <==> req.currentMonthlyLeads < req.targetMonthlyLeads <= 0.0 && req.weeklyLeadGrowthRate > 0.0
    ensures r.Ok? ==> r.value.name == LeadVolume
    ensures r.Ok? ==> (r.value.status == Achieved <==> req.currentMonthlyLeads >= req.targetMonthlyLeads)
    ensures r.Ok? && r.value.status == Achieved ==> r.value.weeksAway == Some(0.0)
    ensures r.Ok? && r.value.status != Achieved ==> (r.value.weeksAway.None? <==> req.weeklyLeadGrowthRate <= 0.0)
    ensures r.Ok? ==> (r.value.status == NoGrowth <==> r.value.status != Achieved && req.weeklyLeadGrowthRate <= 0.0)
    ensures r.Ok? && r.value.status != Achieved && req.weeklyLeadGrowthRate > 0.0 ==> r.value.status == InProgress
    ensures r.Ok? && r.value.weeksAway.Some? ==> 0.0 <= r.value.weeksAway.value
  {
    if req.currentMonthlyLeads >= req.targetMonthlyLeads then Ok(Threshold(LeadVolume, Some(0.0), Achieved))
    else if req.weeklyLeadGrowthRate > 0.0 then
      var ratio := req.targetMonthlyLeads / Max(req.currentMonthlyLeads, 1.0);
      if ratio <= 0.0 then Err(LogOfNonPositive)
      else
        assert 0.0 < m.log(1.0 + req.weeklyLeadGrowthRate);
        var weeks := m.log(ratio) / m.log(1.0 + req.weeklyLeadGrowthRate);
        Ok(Threshold(LeadVolume, Some(Max(0.0, weeks)), InProgress))
    else Ok(Threshold(LeadVolume, None, NoGrowth))
  }

  /** Conversion-rate points gained per month of optimisation work. */
  const ImprovementPerMonth: real := 0.005

  /** The conversion entry: achieved when the target is met, otherwise the
      weeks needed at half a point per month. */
  function ConversionThreshold(req: UnlockRequest): (t: Threshold)
    ensures t.name == ConversionRate && t.weeksAway.Some?
    ensures t.status == Achieved <==> req.currentConversionRate >= req.targetConversionRate
    ensures t.status == Achieved ==> t.weeksAway == Some(0.0)
    ensures t.status != Achieved ==> t.status == InProgress && 0.0 < t.weeksAway.value
  {
    if req.currentConversionRate >= req.targetConversionRate then Threshold(ConversionRate, Some(0.0), Achieved)
    else
      var monthsNeeded := (req.targetConversionRate - req.currentConversionRate) / ImprovementPerMonth;
      Threshold(ConversionRate, Some(monthsNeeded * WeeksPerMonth), InProgress)
  }

  /** The CAC entry, present only when a current CAC is given. */
  function CacThreshold(cac: real, target: real): (t: Threshold)
    ensures t.name == Cac && t.weeksAway.None?
    ensures t.status == Achieved <==> cac <= target
    ensures t.status != Achieved ==> t.status == AboveTarget
  {
    Threshold(Cac, None, if cac <= target then Achieved else AboveTarget)
  }

  /** `max` of the numeric `weeks_away` values, None when there are none. */
  function MaxWeeks(results: seq<Threshold>): (r: Option<real>)
    ensures r.None? <==> forall i :: 0 <= i < |results| ==> results[i].weeksAway.None?
    ensures r.Some? ==> exists i :: 0 <= i < |results| && results[i].weeksAway == r
    ensures r.Some? ==> forall i :: 0 <= i < |results| && results[i].weeksAway.Some? ==>
                          results[i].weeksAway.value <= r.value
  {
    if |results| == 0 then None
    else
      var rest := MaxWeeks(results[..|results| - 1]);
      var last := results[|results| - 1];
      assert forall i :: 0 <= i < |results| - 1 ==> results[..|results| - 1][i] == results[i];
      if last.weeksAway.None? then rest
      else if rest.None? || last.weeksAway.value > rest.value then last.weeksAway
      else rest
  }

  /** The thresholds not yet achieved, in the order of `results`. */
  function Bottlenecks(results: seq<Threshold>): (r: seq<ThresholdName>)
    ensures |r| <= |results|
  {
    if |results| == 0 then []
    else
      var rest := Bottlenecks(results[..|results| - 1]);
      var last := results[|results| - 1];
      if last.status != Achieved then rest + [last.name] else rest
  }

  /** Exactly the names of the entries that are not achieved are listed. */
  lemma {:induction false} BottlenecksExact(results: seq<Threshold>, name: ThresholdName)
    ensures name in Bottlenecks(results) <==>
            exists i :: 0 <= i < |results| && results[i].name == name && results[i].status != Achieved
  {
    if |results| > 0 {
      var prefix := results[..|results| - 1];
      BottlenecksExact(prefix, name);
      if exists i :: 0 <= i < |results| && results[i].name == name && results[i].status != Achieved {
        var i :| 0 <= i < |results| && results[i].name == name && results[i].status != Achieved;
        if i < |prefix| {
          assert prefix[i] == results[i];
        }
      }
      if exists i :: 0 <= i < |prefix| && prefix[i].name == name && prefix[i].status != Achieved {
        var i :| 0 <= i < |prefix| && prefix[i].name == name && prefix[i].status != Achieved;
        assert results[i] == prefix[i];
      }
    }
  }

  /** The list is empty exactly when every entry is achieved. */
  lemma {:induction false} BottlenecksEmpty(results: seq<Threshold>)
    ensures |Bottlenecks(results)| == 0 <==> forall i :: 0 <= i < |results| ==> results[i].status == Achieved
  {
    if |results| > 0 {
      var prefix := results[..|results| - 1];
      BottlenecksEmpty(prefix);
      assert forall i :: 0 <= i < |prefix| ==> prefix[i] == results[i];
    }
  }

  /** Appending an entry appends its name when it is not achieved. */
  lemma BottlenecksSnoc(results: seq<Threshold>, t: Threshold)
    ensures Bottlenecks(results + [t]) == Bottlenecks(results) + (if t.status != Achieved then [t.name] else [])
  {
    assert (results + [t])[..|results|] == results;
  }

  /** Distinct names give a list without repeats. */
  lemma {:induction false} BottlenecksDistinct(results: seq<Threshold>)
    requires forall i, j :: 0 <= i < j < |results| ==> results[i].name != results[j].name
    ensures forall p, q :: 0 <= p < q < |Bottlenecks(results)| ==> Bottlenecks(results)[p] != Bottlenecks(results)[q]
  {
    if |results| > 0 {
      var prefix := results[..|results| - 1];
      var last := results[|results| - 1];
      BottlenecksDistinct(prefix);
      BottlenecksExact(prefix, last.name);
      assert last.name !in Bottlenecks(prefix);
    }
  }

  /** Two entries that are not achieved are listed in the order of
      `results`. */
  lemma {:induction false} BottlenecksOrdered(results: seq<Threshold>, i: nat, j: nat)
    requires i < j < |results|
    requires results[i].status != Achieved && results[j].status != Achieved
    ensures exists p, q :: 0 <= p < q < |Bottlenecks(results)| &&
              Bottlenecks(results)[p] == results[i].name && Bottlenecks(results)[q] == results[j].name
  {
    var prefix := results[..|results| - 1];
    var b := Bottlenecks(prefix);
    assert Bottlenecks(results) == b + [results[|results| - 1].name] || Bottlenecks(results) == b;
    if j == |results| - 1 {
      BottlenecksExact(prefix, results[i].name);
      assert prefix[i] == results[i];
      var p :| 0 <= p < |b| && b[p] == results[i].name;
      assert Bottlenecks(results)[p] == results[i].name;
      assert Bottlenecks(results)[|b|] == results[j].name;
    } else {
      assert prefix[i] == results[i] && prefix[j] == results[j];
      BottlenecksOrdered(prefix, i, j);
      var p, q :| 0 <= p < q < |b| && b[p] == results[i].name && b[q] == results[j].name;
      assert Bottlenecks(results)[p] == results[i].name && Bottlenecks(results)[q] == results[j].name;
    }
  }

  datatype Recommendation = AllThresholdsMet | FixFirst(bottlenecks: seq<ThresholdName>)

  /** `_unlock_recommendation`. */
  function UnlockRecommendation(results: seq<Threshold>): (r: Recommendation)
    ensures r == AllThresholdsMet <==> forall i :: 0 <= i < |results| ==> results[i].status == Achieved
    ensures r.FixFirst? ==> forall name :: name in r.bottlenecks <==>
              exists i :: 0 <= i < |results| && results[i].name == name && results[i].status != Achieved
  {
    BottlenecksEmpty(results);
    var bottlenecks := Bottlenecks(results);
    if |bottlenecks| == 0 then AllThresholdsMet
    else
      assert forall name :: name in bottlenecks <==>
               exists i :: 0 <= i < |results| && results[i].name == name && results[i].status != Achieved by {
        forall name {
          BottlenecksExact(results, name);
        }
      }
      FixFirst(bottlenecks)
  }

  /** The recommendation read off the request: the metrics whose current
      value misses its target, lead volume first, then conversion, then CAC. */
  function PaidBottlenecks(req: UnlockRequest): Recommendation
  {
    var b := (if req.currentMonthlyLeads < req.targetMonthlyLeads then [LeadVolume] else []) +
             (if req.currentConversionRate < req.targetConversionRate then [ConversionRate] else []) +
             (if req.currentCac.Some? && req.currentCac.value > req.targetCac then [Cac] else []);
    if b == [] then AllThresholdsMet else FixFirst(b)
  }

  /** `estimated_unlock_date`: no date when there is no estimate or it is
      zero weeks; the date itself is left to the calendar. */
  datatype UnlockDate = AlreadyUnlocked | WeeksFromToday(weeks: real)

  function UnlockDateOf(maxWeeks: Option<real>): (d: UnlockDate)
    ensures d == AlreadyUnlocked <==> maxWeeks.None? || maxWeeks.value == 0.0
  {
    if maxWeeks.Some? && maxWeeks.value != 0.0 then WeeksFromToday(maxWeeks.value) else AlreadyUnlocked
  }

  datatype UnlockReport = UnlockReport(
    thresholds: seq<Threshold>,
    estimatedUnlockWeeks: Option<real>,
    estimatedUnlockDate: UnlockDate,
    recommendation: Recommendation)

  /** The entries of `results`, in the order they are filled. */
  function PaidThresholds(m: Transcendentals, req: UnlockRequest): seq<Threshold>
    requires Sound(m)
    requires LeadVolumeThreshold(m, req).Ok?
  {
    [LeadVolumeThreshold(m, req).value, ConversionThreshold(req)] +
    (if req.currentCac.Some? then [CacThreshold(req.currentCac.value, req.targetCac)] else [])
  }

  /** `forecast_paid_unlock`: fills the lead-volume and conversion entries,
      the CAC entry when a current CAC is given, and derives the overall
      timeline and the recommendation from them. It fails, like the
      lead-volume entry, when that entry's logarithm is undefined. */
  method ForecastPaidUnlock(m: Transcendentals, req: UnlockRequest) returns (r: Result<UnlockReport, UnlockError>)
    requires Sound(m)
    ensures r.Err? <==> req.currentMonthlyLeads < req.targetMonthlyLeads <= 0.0 && req.weeklyLeadGrowthRate > 0.0
    ensures r.Ok? ==> |r.value.thresholds| == (if req.currentCac.Some? then 3 else 2)
    ensures r.Ok? ==> Ok(r.value.thresholds[0]) == LeadVolumeThreshold(m, req)
    ensures r.Ok? ==> r.value.thresholds[1] == ConversionThreshold(req)
    ensures r.Ok? && req.currentCac.Some? ==> r.value.thresholds[2] == CacThreshold(req.currentCac.value, req.targetCac)
    ensures r.Ok? ==> r.value.estimatedUnlockWeeks == MaxWeeks(r.value.thresholds)
    ensures r.Ok? ==> r.value.estimatedUnlockWeeks.Some?
    ensures r.Ok? ==> r.value.estimatedUnlockDate == UnlockDateOf(r.value.estimatedUnlockWeeks)
    ensures r.Ok? ==> r.value.recommendation == UnlockRecommendation(r.value.thresholds)
    ensures r.Ok? ==> r.value.recommendation == PaidBottlenecks(req)
  {
    var lead := LeadVolumeThreshold(m, req);
    if lead.Err? {
      return Err(lead.error);
    }
    var results := [lead.value];
    results := results + [ConversionThreshold(req)];
    if req.currentCac.Some? {
      results := results + [CacThreshold(req.currentCac.value, req.targetCac)];
    }
    var maxWeeks := MaxWeeks(results);
    assert results == PaidThresholds(m, req);
    PaidRecommendation(m, req);
    r := Ok(UnlockReport(results, maxWeeks, UnlockDateOf(maxWeeks), UnlockRecommendation(results)));
  }

  /** The recommendation over the entries the request produces names the
      metrics that miss their targets, in the order the entries are filled. */
  lemma PaidRecommendation(m: Transcendentals, req: UnlockRequest)
    requires Sound(m)
    requires LeadVolumeThreshold(m, req).Ok?
    ensures UnlockRecommendation(PaidThresholds(m, req)) == PaidBottlenecks(req)
  {
    var lead := LeadVolumeThreshold(m, req).value;
    var conversion := ConversionThreshold(req);
    BottlenecksSnoc([], lead);
    assert [] + [lead] == [lead];
    BottlenecksSnoc([lead], conversion);
    assert [lead] + [conversion] == [lead, conversion];
    if req.currentCac.Some? {
      var cac := CacThreshold(req.currentCac.value, req.targetCac);
      BottlenecksSnoc([lead, conversion], cac);
      assert [lead, conversion] + [cac] == PaidThresholds(m, req);
    }
    BottlenecksEmpty(PaidThresholds(m, req));
  }

  /** When every current metric meets its target, paid growth is unlocked
      now and nothing is named as a bottleneck. */
  lemma AllTargetsMetUnlocks(m: Transcendentals, req: UnlockRequest)
    requires Sound(m)
    requires req.currentMonthlyLeads >= req.targetMonthlyLeads
    requires req.currentConversionRate >= req.targetConversionRate
    requires req.currentCac.Some? ==> req.currentCac.value <= req.targetCac
    ensures LeadVolumeThreshold(m, req).Ok?
    ensures var results := [LeadVolumeThreshold(m, req).value, ConversionThreshold(req)] +
                           (if req.currentCac.Some? then [CacThreshold(req.currentCac.value, req.targetCac)] else []);
            MaxWeeks(results) == Some(0.0) &&
            UnlockDateOf(MaxWeeks(results)) == AlreadyUnlocked &&
            UnlockRecommendation(results) == AllThresholdsMet
  {
    var results := [LeadVolumeThreshold(m, req).value, ConversionThreshold(req)] +
                   (if req.currentCac.Some? then [CacThreshold(req.currentCac.value, req.targetCac)] else []);
    var w := MaxWeeks(results);
    assert results[1].weeksAway == Some(0.0);
    assert forall i :: 0 <= i < |results| && results[i].weeksAway.Some? ==> results[i].weeksAway == Some(0.0);
  }
}
