# Growth-analytics routers, modelled in Dafny

This project models the decision and arithmetic logic behind five routers of a
FastAPI analytics service. It proves what each router promises.

- **Experiments.** The A/B experiment analysis:
  - the two-proportion z-test and its fallbacks;
  - the normal CDF and quantile approximations;
  - the Monte Carlo probability that B beats A;
  - the first-match decision table and the winner rule;
  - the sample-size planner.
- **Attribution.** Multi-touch revenue attribution:
  - the u-shaped, linear, first-touch and last-touch weights;
  - time decay and the Shapley heuristic;
  - exact Shapley over all orderings;
  - the per-touch assembly;
  - channel credit and insights.
- **Scoring.** Lead scoring:
  - the composite score, with its bonus multiplier and clamp;
  - segments and actions;
  - ICP fit and velocity;
  - the top-three signals;
  - the batch loop.
- **ContentIntel.** Content intelligence:
  - Pearson correlation and the OLS slope;
  - the feature regression;
  - decay detection;
  - cluster strength, gaps and expansion ideas.
- **Forecasting.** Forecasting:
  - the MRR recurrence and its summary;
  - the OLS lead forecast with prediction bands;
  - the paid-channel unlock timeline and recommendation.

Shared modules:
- `Wrappers`: `Option` and `Result`.
- `Numerics`: sums, clamps, ceilings and normalisation. It also holds the `Transcendentals` record, which stands for `sqrt`, `exp`, `log` and `pow`.
- `Ranking`: Python's stable `sort(key=…, reverse=True)` and `max(key=…)`.
- `Text`: ASCII lower-casing and substring search.
- `Regression`: means, deviations and the OLS slope.
- `Permutations`: `itertools.permutations` over positions.

How Python becomes Dafny:
- Python floats are Dafny `real`, so arithmetic is exact.
- The math library's functions are fields of a `Numerics.Transcendentals` value, passed as a parameter. `Numerics.Sound(m)` lists the only facts the code relies on:
  - `sqrt` is non-negative, positive on positives and monotone;
  - `log` is at most 0 on (0, 1] and positive above 1;
  - `pow` is positive on a positive base.
- These Python exceptions become an `Err` result: a `ValueError` from `math.sqrt` in the z-test or from `math.log` in the lead-volume timeline, a `ZeroDivisionError` in the sample-size formula, and the `TypeError` that `round` raises on the complex power in the MRR projection. Other exceptions, such as float overflow and dates past year 9999, are not modelled; they are listed under "## Left out".
- An early `{"error": …}` response is an `Err` as well.
- Messages and insight strings are tag datatypes that carry their numbers.
- Loops that append, accumulate or fill a dict are methods with loop invariants. Each is proved equal to a specification function, and the properties are lemmas about that function.

The decision rules are modelled as the code states them: five actions (`continue`, `declare_winner_b`, `declare_winner_a`, `inconclusive`, `kill`), thresholds of 100 and 5000 visitors, a 95 % confidence level, an 80 % kill level and a 0.05 uplift.

The decision table and the `winner` field disagree at exactly p = 0.05. The table tests `confidence >= 95` and declares B the winner. The winner rule tests `p_value < 0.05` and reports no winner. `Experiments.DecisionDisagreesAtBoundary` exhibits this case in exact arithmetic. `Experiments.DecisionAgreesWithWinner` proves one direction for every other p-value: an arm the decision declares the winner is the arm the `winner` field names. The converse is false, since the field can name a winner while the decision still waits for visitors. No correction is modelled. The disagreement is not confined to one point in floating point: in IEEE-754 double arithmetic `(1 - 0.05) * 100` rounds to exactly 95.0, and so does `(1 - p) * 100` for the 14 doubles just above 0.05, where `p_value < 0.05` is false as well. Those p-values give a declared winner B (or A) and a `winner` of None. What is open is only whether the z-test's `2 * (1 - _norm_cdf(|z|))` (experiments.py:175) can produce a p-value in that range; the model's reals cannot settle it, since it leaves rounding out.

## Model

| member | source | states |
|---|---|---|
| Experiments.ZTest | api/routers/experiments.py:158-176 | `(0, 1)` when either arm has no visitors or the pooled rate is 0 or 1; an `Err` (math domain error) exactly when the pooled rate exceeds 1, i.e. more conversions than visitors |
| Experiments.ZStatistic | api/routers/experiments.py:170-176 | `math.sqrt` fails (an `Err`) exactly when the pooled variance is negative |
| Experiments.ZTestSign | api/routers/experiments.py:163-176 | in the non-degenerate case the test succeeds and z is positive iff p_b > p_a and negative iff p_b < p_a |
| Experiments.ZTestSwap | api/routers/experiments.py:158-176 | swapping the arms negates z and leaves the p-value unchanged |
| Experiments.ZStatisticSwap | api/routers/experiments.py:174-175 | exchanging the two rates negates z and keeps the two-tailed p-value |
| Experiments.UpperTailEven | api/routers/experiments.py:181-183 | the tail term depends only on abs(x) and x*x |
| Experiments.NormCdfSymmetric | api/routers/experiments.py:179-184 | norm_cdf(x) + norm_cdf(-x) == 1 for every x != 0 |
| Experiments.NormPpf | api/routers/experiments.py:187-190 | returns 0.0 for p <= 0 or p >= 1 |
| Experiments.NormPpfInDomain | api/routers/experiments.py:193-194 | inside (0, 1) the folded q lies in (0, 0.5], so `-2 log q >= 0` and the square root never fails |
| Experiments.NormPpfSymmetric | api/routers/experiments.py:187-198 | norm_ppf(1 - p) == -norm_ppf(p) for p in (0, 0.5) |
| Experiments.SampleBeta | api/routers/experiments.py:225-235 | every sample is clamped into [0, 1] |
| Experiments.WinsB | api/routers/experiments.py:214-220 | the number of wins for B never exceeds the number of draws |
| Experiments.BayesianProbability | api/routers/experiments.py:201-222 | the loop's result is wins_b / num_samples for the count defined by `WinsB`, and lies in [0, 1] |
| Experiments.DecisionTable | api/routers/experiments.py:238-249 | first-match table: under 100 visitors gives continue; each action holds iff its guard holds and no earlier guard does; kill iff total > 5000 and confidence < 80 |
| Experiments.Uplift | api/routers/experiments.py:59 | the relative uplift has the sign of rate_b - rate_a when rate_a > 0, and is 0 otherwise |
| Experiments.SignificantResultIsDecided | api/routers/experiments.py:238-246 | with at least 100 visitors and p <= 0.05 the decision is never continue |
| Experiments.DecisionAgreesWithWinner | api/routers/experiments.py:67-109 | away from p = 0.05, declaring B (A) the winner implies the winner field is b (a) |
| Experiments.DecisionDisagreesAtBoundary | api/routers/experiments.py:67-109 | at p = 0.05 the table declares B the winner while the winner field is None |
| Experiments.AnalyzeExperiment | api/routers/experiments.py:45-110 | an error iff either arm has no visitors or the z-test fails (the `math.sqrt` `ValueError` when conversions exceed visitors and the pooled rate is above 1); otherwise rates, revenue per visitor, uplift, z, p, confidence = (1 - p) * 100, significance iff p < 0.05, probability in [0, 1], the decision, and winner b / a / None by the rule at line 109 |
| Experiments.SampleSize | api/routers/experiments.py:113-141 | an error iff p1 == p2 (the unguarded division); otherwise n is the ceiling of the formula, the total is 2n and the target rate is p1 * (1 + mde) |
| Experiments.SampleSizeUndefined | api/routers/experiments.py:123-130 | the division fails exactly when the baseline rate or the minimum detectable effect is 0 |
| Attribution.UShapedShape | api/routers/attribution.py:152-167 | [0.5, 0.5] for two touches; otherwise 0.40 at both ends and 0.20/(n-2) in each middle slot; one weight per touch, non-negative, summing to 1 |
| Attribution.UShapedSum | api/routers/attribution.py:164-166 | 0.40 + (n-2) * 0.20/(n-2) + 0.40 == 1 |
| Attribution.UShapedDegenerate | api/routers/attribution.py:161-166 | called with fewer than two touches the list is [0.40, 0.40], which is why the dispatcher handles n <= 1 first |
| Attribution.LinearShape | api/routers/attribution.py:138-139 | every touch gets 1/n and the weights form a distribution |
| Attribution.SingleTouchShape | api/routers/attribution.py:142-145 | first-touch puts 1.0 at index 0 and last-touch 1.0 at index n-1, zeros elsewhere; both are distributions |
| Attribution.NormalisePositive | api/routers/attribution.py:247-248 | dividing positive raw weights by their sum gives a distribution whose entries are raw / total |
| Attribution.TimeDecayShape | api/routers/attribution.py:170-201 | the time-decay weights form a distribution |
| Attribution.ShapleyHeuristicShape | api/routers/attribution.py:251-262 | first and last get exactly twice each middle weight, and the weights form a distribution |
| Attribution.ShapleyTotalPositive | api/routers/attribution.py:241-243 | every position accumulates a positive total |
| Attribution.ShapleyTotalAntitone | api/routers/attribution.py:241-243 | a later position never accumulates more than an earlier one |
| Attribution.DataDrivenShape | api/routers/attribution.py:219-248 | for 2..8 touches the exact-Shapley weights are positive, non-increasing in position and sum to 1 |
| Attribution.CreditOrdering | api/routers/attribution.py:236-244 | one ordering adds sqrt(1/(pos+1)) to each position as often as it occurs in the ordering |
| Attribution.OrderingCoversPositions | api/routers/attribution.py:228-232 | every permutation of range(n) names each position exactly once |
| Attribution.RepeatedTotals | api/routers/attribution.py:232-244 | after all n! orderings each position holds n! * sqrt(1/(pos+1)) |
| Attribution.DataDrivenShapley | api/routers/attribution.py:204-248 | the nested loops compute exactly the data-driven weights |
| Attribution.Weights | api/routers/attribution.py:125-149 | one weight per touch for every model |
| Attribution.WeightsAreDistribution | api/routers/attribution.py:125-149 | [] for no touches; otherwise every model's weights are non-negative and sum to 1 |
| Attribution.CalculateWeights | api/routers/attribution.py:125-149 | the dispatcher returns the model's weights, with an unknown model falling back to u-shaped |
| Attribution.ChannelOrder | api/routers/attribution.py:283-285 | the dict's key order is empty iff there are no entries |
| Attribution.ChannelOrderDistinct | api/routers/attribution.py:283-285 | each channel is a key once |
| Attribution.ChannelOrderMembers | api/routers/attribution.py:283-285 | a channel is a key iff some entry has that channel |
| Attribution.CreditOfAbsentChannel | api/routers/attribution.py:283-285 | a channel that is not a key has no credit |
| Attribution.ChannelCreditTotal | api/routers/attribution.py:283-285 | the channel credits add up to the sum of all attributed amounts |
| Attribution.AggregateChannelCredit | api/routers/attribution.py:282-285 | the loop builds the keys in first-seen order, and each key's value is that channel's total credit |
| Attribution.GenerateInsights | api/routers/attribution.py:269-328 | the lines built from the `channel_credit` dictionary filled touch by touch are exactly `Insights` of the journey |
| Attribution.TopChannelOf | api/routers/attribution.py:290-295 | the top line names the first channel, in order of appearance, whose credit no channel exceeds, with that credit, its share of the revenue and the model |
| Attribution.Insights | api/routers/attribution.py:269-328 | no lines without touches; otherwise the top-channel line first; the organic share iff organic credit is positive, with that credit and share; the model tip iff the model is known; the single-touch note iff n == 1; the long-journey note iff n >= 7, carrying n; each kind at most once, in the order top, organic, tip, journey |
| Attribution.AssembleInsights | api/routers/attribution.py:291-326 | the given top line first; the organic share iff its percentage is positive, the tip iff the model is known, the journey note for n == 1 or n >= 7, each with the given values; every kind at most once and ranked top < organic < tip < journey |
| Attribution.SumOfShares | api/routers/attribution.py:105 | the attributed amounts sum to total_revenue times the sum of the weights |
| Attribution.RevenueFullyAttributed | api/routers/attribution.py:95-108 | weights that sum to 1 attribute exactly the total revenue |
| Attribution.AnalyzeAttribution | api/routers/attribution.py:78-118 | an error iff there are no touchpoints; otherwise one entry per touch in input order with index i and amount total * w_i; the amounts and the channel credits both sum to the total revenue; the insights are `Insights` of the entries |
| Scoring.Base | api/routers/scoring.py:123-127 | for scores in [0, 100] the weighted base lies in [0, 100] |
| Scoring.IsCsuite | api/routers/scoring.py:195-200 | true iff the title is present, non-empty and some C-suite keyword occurs in its lower-cased form |
| Scoring.IsCsuiteIgnoresCase | api/routers/scoring.py:199 | lower-casing a title first does not change the answer |
| Scoring.Multiplier | api/routers/scoring.py:130-142 | the multiplier lies in [1.0, 1.2] and equals 1.0 iff no bonus applies |
| Scoring.CompositeBounds | api/routers/scoring.py:144 | min(100, base * multiplier) lies in [base, 100] |
| Scoring.ValidCompositeBounds | api/routers/scoring.py:123-144 | for a lead with scores in range, the composite lies between the base and 100 |
| Scoring.SegmentBands | api/routers/scoring.py:183-192 | hot iff > 80, warm iff in [60, 80], cool iff in [40, 60), cold iff < 40 |
| Scoring.SegmentMonotone | api/routers/scoring.py:183-192 | a higher composite never gives a lower segment |
| Scoring.RecommendActionInjective | api/routers/scoring.py:313-328 | the segment-to-action map is one-to-one |
| Scoring.SizeFit | api/routers/scoring.py:221-229 | the company-size score is one of 20, 50, 80, 100 |
| Scoring.TitleFit | api/routers/scoring.py:232-241 | the title score is one of 20, 60, 80, 100 |
| Scoring.IndustryFit | api/routers/scoring.py:244-249 | the industry score is 50 or 100 |
| Scoring.IcpComponents | api/routers/scoring.py:218-249 | at most three components, each in [20, 100], none iff no field is present |
| Scoring.IcpFitValue | api/routers/scoring.py:251 | the mean of the components lies in [20, 100], and is 50 when there are none |
| Scoring.CollectIcpScores | api/routers/scoring.py:218-249 | the appends build exactly the present components |
| Scoring.CalculateIcpFit | api/routers/scoring.py:203-251 | the ICP fit equals the mean of the present components and lies in [20, 100] |
| Scoring.Velocity | api/routers/scoring.py:254-271 | velocity lies in [0, 100] and reaches 100 iff the lead took at least 10 actions per day |
| Scoring.VelocityMonotone | api/routers/scoring.py:264-270 | more actions over the same days never lower the velocity |
| Scoring.Candidates | api/routers/scoring.py:287-306 | between 3 and 9 candidates, the first three being the intent, fit and engagement scores weighted 0.40, 0.35 and 0.25 |
| Scoring.CandidatesPresent | api/routers/scoring.py:295-306 | each bonus, with its contribution (10, 7, 6, velocity / 10, 5, 4), is a candidate iff its condition holds |
| Scoring.CandidatesDrawn | api/routers/scoring.py:287-306 | every candidate is a weighted raw score or a bonus with its own contribution, so no other value of a bonus kind appears |
| Scoring.CandidatesRanked | api/routers/scoring.py:287-306 | the candidates follow the append order of their kinds, each kind at most once; with the two lemmas above this fixes the list |
| Scoring.CollectCandidates | api/routers/scoring.py:287-306 | the appends build exactly that candidate list |
| Scoring.TopThreeDominate | api/routers/scoring.py:308-310 | after the stable descending sort, the first three are candidates in descending order, and every other candidate contributes no more than the third |
| Scoring.TopSignals | api/routers/scoring.py:309-310 | exactly three signals |
| Scoring.ExtractTopSignals | api/routers/scoring.py:274-310 | the method returns the top three of the sorted candidates |
| Scoring.ScoredLead | api/routers/scoring.py:119-180 | the id is kept; composite in [base, 100]; the segment and action follow from the composite; ICP fit in [20, 100]; velocity in [0, 100]; three signals |
| Scoring.ScoreLead | api/routers/scoring.py:119-180 | the step-by-step multiplier updates produce `ScoredLead` |
| Scoring.EnhanceScores | api/routers/scoring.py:91-112 | scored_count is the number of leads, and the batch is each lead scored in order |
| Regression.LinearSlope | api/routers/content_intel.py:221-229 | 0 for fewer than two points or zero x-variance; otherwise slope * variance == covariance |
| Regression.IndicesVary | api/routers/content_intel.py:221-229 | for weeks 0..n-1 with n >= 2 the variance is positive, so the zero fallback never fires |
| Regression.LinearSlopeOfLine | api/routers/content_intel.py:221-229 | points on y = a + b*x with varying x give slope b |
| ContentIntel.PearsonCorrelation | api/routers/content_intel.py:210-218 | 0 for fewer than two points or a zero denominator; otherwise r * den == covariance |
| ContentIntel.PearsonSymmetric | api/routers/content_intel.py:210-218 | the correlation of x with y equals that of y with x |
| ContentIntel.GenerateContentInsights | api/routers/content_intel.py:232-242 | the conditional appends build exactly `ContentInsights` of the four looked-up correlations (0 when absent), so each insight is present iff its correlation passes its threshold and none repeats |
| ContentIntel.ContentInsights | api/routers/content_intel.py:232-242 | each insight is present iff its correlation exceeds its threshold (0.3, 0.3, 0.3, 0.4); each at most once, in the order word count, internal links, SEO, E-E-A-T |
| ContentIntel.TrafficWithoutLeadsPositive | api/routers/content_intel.py:250-252 | the count is positive iff some page has over 100 views and no leads |
| ContentIntel.ContentRecommendations | api/routers/content_intel.py:245-258 | the appends build exactly `Recommendations` for the first feature of largest absolute correlation |
| ContentIntel.Recommendations | api/routers/content_intel.py:245-258 | optimise the top feature first; the traffic-without-leads and good-SEO-few-leads lines each present iff their page count is positive and carrying that count; each kind at most once, in that order |
| ContentIntel.CorrelateFeatures | api/routers/content_intel.py:55-70 | the loop records the correlation of each of the six features with leads, and only those |
| ContentIntel.RankingHeadIsStrongest | api/routers/content_intel.py:73-81 | the head of the sort is the feature `max` picks, and no feature has a larger absolute correlation |
| ContentIntel.ContentRegression | api/routers/content_intel.py:45-84 | an error iff fewer than 5 pages; correlations sorted by descending absolute value; top_driver is their head and is strongest; the insights are `ContentInsights` of the correlations and the recommendations are `Recommendations` for the top driver |
| ContentIntel.DecayFromPeak | api/routers/content_intel.py:107 | 0 when the peak is not positive; in [0, 1] when the current value lies between 0 and the peak |
| ContentIntel.DetectContentDecay | api/routers/content_intel.py:87-133 | an error iff fewer than 4 weeks; peak_week is the 1-based index of the first maximum; trends are the OLS slopes; status and urgency follow the first-match chain |
| ContentIntel.DecayIsFraction | api/routers/content_intel.py:104-107 | with non-negative pageviews the decay lies in [0, 1] |
| ContentIntel.SteadyGrowthIsGrowing | api/routers/content_intel.py:99-132 | pageviews on a rising line are classified growing with low urgency |
| ContentIntel.DecayingMeansHighUrgency | api/routers/content_intel.py:110-132 | high urgency iff slope <= 0 and decay >= 0.40; medium iff slope <= 0 and decay in [0.15, 0.40) |
| ContentIntel.ClusterScore | api/routers/content_intel.py:155-165 | the reported score is at most 100, and non-negative when revenue and links are |
| ContentIntel.IdentifyClusterGaps | api/routers/content_intel.py:261-271 | the conditional appends build exactly `ClusterGaps` of the pages and n |
| ContentIntel.ClusterGaps | api/routers/content_intel.py:261-271 | the thin-cluster gap, carrying n, iff n < 5; each missing-page gap iff no page of that kind exists; each at most once, in the order size, comparison, case study, pricing |
| ContentIntel.SuggestClusterExpansion | api/routers/content_intel.py:274-284 | the appends and the cut to five build exactly `ExpansionIdeas` for the missing comparison and case-study pages; 3 to 5 ideas ending with the three fixed ones |
| ContentIntel.ExpansionIdeas | api/routers/content_intel.py:274-284 | 3 to 5 ideas, all about the pillar, ending with pricing, industry and competitor; the alternatives and case-study ideas present iff those pages are missing; each at most once, in the order the source appends them |
| ContentIntel.AnalyzeClusterStrength | api/routers/content_intel.py:136-173 | an error iff the cluster is empty; totals, average SEO score, converting count <= n, score <= 100; the gaps are `ClusterGaps` and the ideas `ExpansionIdeas` of the cluster |
| Forecasting.ProjectionAt | api/routers/forecasting.py:51-73 | month k's net MRR is the previous month's plus new MRR minus churn, with churn = previous MRR * churn rate |
| Forecasting.ProjectMrr | api/routers/forecasting.py:47-73 | an error iff at least one month is projected and the weekly growth rate is below -1 (a negative base to a non-integral power gives a complex number that `round` rejects); otherwise exactly `months` projections numbered 1..months, each step following the recurrence |
| Forecasting.GrowthFromToday | api/routers/forecasting.py:88 | "N/A" iff the current MRR is 0; otherwise the growth percentage relates month 12 to today |
| Forecasting.ForecastMrr | api/routers/forecasting.py:43-96 | an error iff at least one month is projected and the weekly growth rate is below -1; otherwise the projections, the month-3/6/12 summary, ARR = 12 * month-12 MRR, and the growth figure |
| Forecasting.MrrStaysNonNegative | api/routers/forecasting.py:51-63 | with non-negative inputs and churn in [0, 1], MRR never goes negative |
| Forecasting.MrrFlatWithoutFlow | api/routers/forecasting.py:51-63 | with no new leads and no churn, MRR stays at its current value |
| Forecasting.SsRes | api/routers/forecasting.py:122 | the residual sum of squares is non-negative |
| Forecasting.SsTot | api/routers/forecasting.py:123 | the total sum of squares is non-negative |
| Forecasting.RSquared | api/routers/forecasting.py:124 | 0 when ss_tot == 0; otherwise (1 - r2) * ss_tot == ss_res |
| Forecasting.Rmse | api/routers/forecasting.py:132 | the RMSE is non-negative |
| Forecasting.ForecastAt | api/routers/forecasting.py:128-138 | week w+1; predicted = max(0, intercept + slope * (n + w)); 0 <= lower <= predicted <= upper |
| Forecasting.ForecastLeads | api/routers/forecasting.py:99-148 | an error iff fewer than 4 weeks; slope, average and r2; `weeks_ahead` forecasts with ordered bands; the total is the sum of the predicted values and is non-negative |
| Forecasting.LinearHistoryFit | api/routers/forecasting.py:111-119 | a history on an exact line recovers its slope and intercept |
| Forecasting.LinearHistoryIsExtended | api/routers/forecasting.py:111-130 | for such a history ss_res is 0, and the forecast extends the line clamped at 0 |
| Forecasting.LeadVolumeThreshold | api/routers/forecasting.py:158-169 | an error (the `math.log` domain error) iff current < target <= 0 and the growth rate is positive; otherwise achieved with 0 weeks iff current >= target, in progress with non-negative weeks when the target is missed and the rate is positive, and no growth with weeks None iff the target is missed and the rate is <= 0 |
| Forecasting.ConversionThreshold | api/routers/forecasting.py:171-180 | achieved with 0 weeks iff current >= target; otherwise in progress with a positive number of weeks |
| Forecasting.CacThreshold | api/routers/forecasting.py:182-188 | achieved iff current <= target, else above target, never with weeks |
| Forecasting.MaxWeeks | api/routers/forecasting.py:191-192 | None iff no threshold has weeks; otherwise one of the weeks, and at least every other |
| Forecasting.BottlenecksExact | api/routers/forecasting.py:209 | a threshold is named iff its status is not achieved |
| Forecasting.BottlenecksEmpty | api/routers/forecasting.py:209-210 | there are no bottlenecks iff every threshold is achieved |
| Forecasting.BottlenecksOrdered | api/routers/forecasting.py:209 | two thresholds not achieved are named in the order of `results` |
| Forecasting.BottlenecksDistinct | api/routers/forecasting.py:209 | with distinct keys no threshold is named twice |
| Forecasting.UnlockRecommendation | api/routers/forecasting.py:208-212 | all-met iff every threshold is achieved; otherwise it names exactly the thresholds not achieved |
| Forecasting.UnlockDateOf | api/routers/forecasting.py:197 | "Already unlocked!" iff the max weeks are None or 0 |
| Forecasting.ForecastPaidUnlock | api/routers/forecasting.py:151-199 | an error iff the lead-volume logarithm fails; otherwise two or three thresholds in order; unlock weeks are their maximum; the date and recommendation follow, and the recommendation names the metrics that miss their targets, lead volume, conversion, CAC in that order |
| Forecasting.PaidRecommendation | api/routers/forecasting.py:151-212 | the recommendation over the filled thresholds is all-met iff no metric misses its target, and otherwise names exactly the missing ones in fill order |
| Forecasting.AllTargetsMetUnlocks | api/routers/forecasting.py:151-199 | when every target is met the lead-volume entry succeeds and the timeline is 0 weeks, already unlocked, with the all-met recommendation |
| Ranking.SortDescSorted | api/routers/content_intel.py:73 | the stable descending sort is ordered by key |
| Ranking.SortDescPermutes | api/routers/scoring.py:309 | the sort keeps every element as often as it occurs |
| Ranking.SortDescHead | api/routers/content_intel.py:73 | the head of the stable sort is the element `max(key=…)` returns |
| Ranking.SortDescStable | api/routers/content_intel.py:73 | the sort is stable: for every key value, the elements with that key keep their input order |
| Ranking.FirstMaxBy | api/routers/content_intel.py:247 | `max` returns the first element of largest key |
| Text.IsSubstring | api/routers/scoring.py:200 | `kw in s` holds iff kw occurs at some position of s |
| Text.LowerIdempotent | api/routers/scoring.py:199 | lower-casing twice equals lower-casing once |
| Permutations.AllPermutations | api/routers/attribution.py:232 | n! orderings, each a permutation of its input |
| Permutations.AllPermutationsComplete | api/routers/attribution.py:232 | every rearrangement of the input is among the orderings |
| Permutations.AllPermutationsDistinct | api/routers/attribution.py:232 | with distinct input elements no ordering is listed twice |

## Left out

- FastAPI routing, pydantic validation, `HTTPException` plumbing and api/main.py are not part of this model. Field bounds (`months` in 1..36, `weeks_ahead` in 1..52, `amount >= 0`, at least one touchpoint) are not enforced. Where a contract needs one, it states it as a precondition or as a hypothesis of a lemma.
- `round(...)` and f-string formatting are left out. Values are exact reals and messages are tags. As a result, the rounded amounts in attribution and the rounded correlations in regression (which can break ties) are not modelled.
- Floating-point accuracy and range are not modelled. `sqrt`, `exp`, `log` and `pow` are abstract functions, constrained only by `Numerics.Sound`. Reals do not overflow, so the `OverflowError` of a float `**` (for example `(1 + growth_rate_weekly) ** (month * 4.33)` at forecasting.py:53 with a weekly growth of 200 over 36 months) is not captured.
- Experiments.SampleBeta: the Box-Muller draw from `random` becomes a sequence of standard-normal deviates given as input. No claim about the distribution is made.
- Experiments.BayesianProbability: the 10,000 draws are fixed as `BayesianSamples`, and the deviates are an input sequence.
- The `detect_peeking` payload and the SQL template of `get_kill_candidates` are static text with no behaviour.
- Attribution.TimeDecayShape: the days before conversion are an input sequence. ISO-8601 parsing (`_parse_iso`) and its positional fallback are left out, because they are library date handling.
- Attribution.AnalyzeAttribution requires `total_revenue > 0`, which the request model enforces. An unknown model name is the `Unrecognised` model.
- Forecasting.ForecastPaidUnlock: `_weeks_to_date` reads today's date. The unlock date is therefore `WeeksFromToday(weeks)` rather than a calendar date. A week count that carries the date past year 9999 (about 416,000 weeks, for example a target of 100 leads from 1 at a weekly growth of 0.00001) makes Python's date arithmetic raise `OverflowError`; the model still returns `Ok` there.
- Forecasting.LeadVolumeThreshold requires `Sound(m)`, so `log(1 + rate)` is positive for rate > 0. A float underflow that makes it 0, and Python's `ZeroDivisionError` with it, is not modelled. `round(max(0, weeks))` is modelled without the rounding. The `ValueError` of `math.log` on a non-positive ratio is modelled as `LogOfNonPositive`.
- Permutations.AllPermutations is built in the order `itertools.permutations` yields its orderings, but that order is not stated as a contract: no model of `itertools` exists to compare it with. The Shapley totals need only the count and the completeness.
- Forecasting.ConversionThreshold: `round(months_needed * 4.33)` is modelled without the rounding. A gap small enough to round to 0 weeks is not captured.
- Forecasting.GrowthFromToday: the percentage relation is stated only when the current MRR is at least 1, where `max(current, 1)` is the current MRR itself.
- Text.Lower lower-cases ASCII letters only. Python's Unicode case mapping is not modelled.
- `zip` truncation is not modelled: the correlation and slope functions require equal-length inputs, which every caller in these routers supplies.
- `lead_slope` in decay detection uses the leads series as given, including when it is empty (slope 0, as in the code).
