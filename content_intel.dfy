// The content intelligence router: which page attributes go with lead
// generation, whether a page's traffic is decaying, and how strong a topic
// cluster is, with the gap and expansion lists built for it.
module ContentIntel {
  import opened Wrappers
  import opened Numerics
  import opened Ranking
  import opened Text
  import opened Regression

  /** `ContentPerformanceData`. */
  datatype ContentPage = ContentPage(
    contentId: string,
    title: string,
    contentType: string,
    wordCount: int,
    seoScore: real,
    eeatScore: real,
    pageviews: int,
    leadsGenerated: int,
    revenueAttr: real,
    publishedDaysAgo: int,
    internalLinks: int,
    backlinks: int)

  // ---------------------------------------------------------------------
  // Correlation

  /** `_pearson_correlation(x, y)`: 0 for fewer than two points and when
      the denominator vanishes; otherwise the cross deviation over the
      root of the product of the squared deviations. */
  function PearsonCorrelation(m: Transcendentals, x: seq<real>, y: seq<real>): (r: real)
    requires |x| == |y|
    ensures |x| < 2 ==> r == 0.0
    ensures |x| >= 2 && PearsonDenominator(m, x, y) == 0.0 ==> r == 0.0
    ensures |x| >= 2 && PearsonDenominator(m, x, y) != 0.0 ==>
              r * PearsonDenominator(m, x, y) == CrossDeviation(x, y, Mean(x), Mean(y))
  {
    if |x| < 2 then 0.0
    else
      var num := CrossDeviation(x, y, Mean(x), Mean(y));
      var den := PearsonDenominator(m, x, y);
      if den != 0.0 then num / den else 0.0
  }

  /** `math.sqrt(sum((xi - x_mean)**2) * sum((yi - y_mean)**2))`. */
  function PearsonDenominator(m: Transcendentals, x: seq<real>, y: seq<real>): real
    requires |x| >= 2 && |y| >= 2
  {
    m.sqrt(SquaredDeviation(x, Mean(x)) * SquaredDeviation(y, Mean(y)))
  }

  lemma {:induction false} DotSymmetric(u: seq<real>, v: seq<real>)
    requires |u| == |v|
    ensures Dot(u, v) == Dot(v, u)
  {
    if |u| > 0 {
      DotSymmetric(u[..|u| - 1], v[..|v| - 1]);
    }
  }

  /** Correlation does not depend on which series is named first. */
  lemma PearsonSymmetric(m: Transcendentals, x: seq<real>, y: seq<real>)
    requires |x| == |y|
    ensures PearsonCorrelation(m, x, y) == PearsonCorrelation(m, y, x)
  {
    if |x| >= 2 {
      DotSymmetric(Deviations(x, Mean(x)), Deviations(y, Mean(y)));
      var a := SquaredDeviation(x, Mean(x));
      var b := SquaredDeviation(y, Mean(y));
      assert a * b == b * a;
    }
  }

  // ---------------------------------------------------------------------
  // Regression

  /** The page attributes `content_regression` correlates with leads, in the
      order of its `features` dictionary. */
  datatype Feature = WordCount | SeoScore | EeatScore | InternalLinks | Backlinks | ContentAgeDays

  const Features: seq<Feature> := [WordCount, SeoScore, EeatScore, InternalLinks, Backlinks, ContentAgeDays]

  function FeatureValue(p: ContentPage, f: Feature): real
  {
    match f
    case WordCount => p.wordCount as real
    case SeoScore => p.seoScore
    case EeatScore => p.eeatScore
    case InternalLinks => p.internalLinks as real
    case Backlinks => p.backlinks as real
    case ContentAgeDays => p.publishedDaysAgo as real
  }

  /** One attribute's column over the pages. */
  function Column(pages: seq<ContentPage>, f: Feature): (r: seq<real>)
    ensures |r| == |pages| && forall i :: 0 <= i < |pages| ==> r[i] == FeatureValue(pages[i], f)
  {
    seq(|pages|, i requires 0 <= i < |pages| => FeatureValue(pages[i], f))
  }

  function LeadsColumn(pages: seq<ContentPage>): (r: seq<real>)
    ensures |r| == |pages| && forall i :: 0 <= i < |pages| ==> r[i] == pages[i].leadsGenerated as real
  {
    seq(|pages|, i requires 0 <= i < |pages| => pages[i].leadsGenerated as real)
  }

  /** The correlation of attribute `f` with lead generation. */
  function Correlation(m: Transcendentals, pages: seq<ContentPage>, f: Feature): real
  {
    PearsonCorrelation(m, Column(pages, f), LeadsColumn(pages))
  }

  /** The sort key of `sorted_corr`: the size of a correlation. */
  function AbsCorrelation(entry: (Feature, real)): real
  {
    Abs(entry.1)
  }

  datatype ContentInsight = LongerContentWins | InternalLinksPredict | SeoDrivesConversion | EeatStrongest

  datatype ContentRecommendation =
    | OptimizeFirst(feature: Feature)
    | TrafficWithoutLeads(pages: nat)
    | GoodSeoFewLeads(pages: nat)

  datatype RegressionError = TooFewPages(pagesProvided: nat)

  datatype RegressionReport = RegressionReport(
    pagesAnalyzed: nat,
    featureCorrelations: seq<(Feature, real)>,
    topDriver: Option<Feature>,
    insights: seq<ContentInsight>,
    recommendations: seq<ContentRecommendation>)

  /** The correlation of `f` recorded in `correlations`, 0 when absent
      (`correlations.get(f, 0)`). */
  function Get(correlations: map<Feature, real>, f: Feature): real
  {
    if f in correlations then correlations[f] else 0.0
  }

  /** The position of each insight in the order the checks run. */
  function ContentInsightRank(i: ContentInsight): nat
  {
    match i
    case LongerContentWins => 0
    case InternalLinksPredict => 1
    case SeoDrivesConversion => 2
    case EeatStrongest => 3
  }

  /** The insights for the four correlations that have one: each is present
      exactly when its correlation passes its threshold, and they appear
      once each, in the order word count, internal links, SEO, E-E-A-T. */
  function ContentInsights(wordCount: real, internalLinks: real, seoScore: real, eeatScore: real)
    : (r: seq<ContentInsight>)
    ensures LongerContentWins in r <==> wordCount > 0.3
    ensures InternalLinksPredict in r <==> internalLinks > 0.3
    ensures SeoDrivesConversion in r <==> seoScore > 0.3
    ensures EeatStrongest in r <==> eeatScore > 0.4
    ensures StrictlyRanked(r, ContentInsightRank)
  {
    (if wordCount > 0.3 then [LongerContentWins] else []) +
    (if internalLinks > 0.3 then [InternalLinksPredict] else []) +
    (if seoScore > 0.3 then [SeoDrivesConversion] else []) +
    (if eeatScore > 0.4 then [EeatStrongest] else [])
  }

  /** `_generate_content_insights`. */
  method GenerateContentInsights(correlations: map<Feature, real>) returns (insights: seq<ContentInsight>)
    ensures insights == ContentInsights(Get(correlations, WordCount), Get(correlations, InternalLinks),
                                        Get(correlations, SeoScore), Get(correlations, EeatScore))
    ensures LongerContentWins in insights <==> Get(correlations, WordCount) > 0.3
    ensures InternalLinksPredict in insights <==> Get(correlations, InternalLinks) > 0.3
    ensures SeoDrivesConversion in insights <==> Get(correlations, SeoScore) > 0.3
    ensures EeatStrongest in insights <==> Get(correlations, EeatScore) > 0.4
    ensures forall i, j :: 0 <= i < j < |insights| ==> insights[i] != insights[j]
  {
    var wordCount, internalLinks, seoScore, eeatScore :=
      Get(correlations, WordCount), Get(correlations, InternalLinks), Get(correlations, SeoScore), Get(correlations, EeatScore);
    var first := if wordCount > 0.3 then [LongerContentWins] else [];
    var second := if internalLinks > 0.3 then [InternalLinksPredict] else [];
    var third := if seoScore > 0.3 then [SeoDrivesConversion] else [];
    insights := [];
    if wordCount > 0.3 {
      insights := insights + [LongerContentWins];
    }
    assert insights == first;
    if internalLinks > 0.3 {
      insights := insights + [InternalLinksPredict];
    }
    assert insights == first + second;
    if seoScore > 0.3 {
      insights := insights + [SeoDrivesConversion];
    }
    assert insights == first + second + third;
    if eeatScore > 0.4 {
      insights := insights + [EeatStrongest];
    }
    assert insights == ContentInsights(wordCount, internalLinks, seoScore, eeatScore);
  }

  /** Pages with more than 100 views and no lead. */
  function TrafficWithoutLeadsCount(pages: seq<ContentPage>): (r: nat)
    ensures r <= |pages|
  {
    if |pages| == 0 then 0
    else
      var p := pages[|pages| - 1];
      TrafficWithoutLeadsCount(pages[..|pages| - 1]) + (if p.pageviews > 100 && p.leadsGenerated == 0 then 1 else 0)
  }

  /** Pages with an SEO score above 70 and fewer than 5 leads. */
  function GoodSeoFewLeadsCount(pages: seq<ContentPage>): (r: nat)
    ensures r <= |pages|
  {
    if |pages| == 0 then 0
    else
      var p := pages[|pages| - 1];
      GoodSeoFewLeadsCount(pages[..|pages| - 1]) + (if p.seoScore > 70.0 && p.leadsGenerated < 5 then 1 else 0)
  }

  /** A count is positive exactly when some page qualifies. */
  lemma {:induction false} TrafficWithoutLeadsPositive(pages: seq<ContentPage>)
    ensures 0 < TrafficWithoutLeadsCount(pages) <==>
            exists i :: 0 <= i < |pages| && pages[i].pageviews > 100 && pages[i].leadsGenerated == 0
  {
    if |pages| > 0 {
      var prefix := pages[..|pages| - 1];
      TrafficWithoutLeadsPositive(prefix);
      if exists i :: 0 <= i < |pages| && pages[i].pageviews > 100 && pages[i].leadsGenerated == 0 {
        var i :| 0 <= i < |pages| && pages[i].pageviews > 100 && pages[i].leadsGenerated == 0;
        if i < |prefix| {
          assert prefix[i] == pages[i];
        }
      }
      if exists i :: 0 <= i < |prefix| && prefix[i].pageviews > 100 && prefix[i].leadsGenerated == 0 {
        var i :| 0 <= i < |prefix| && prefix[i].pageviews > 100 && prefix[i].leadsGenerated == 0;
        assert pages[i] == prefix[i];
      }
    }
  }

  /** The position of each recommendation in the order they are added. */
  function RecommendationRank(r: ContentRecommendation): nat
  {
    match r
    case OptimizeFirst(_) => 0
    case TrafficWithoutLeads(_) => 1
    case GoodSeoFewLeads(_) => 2
  }

  /** The recommendations for a strongest attribute `top`: optimise it
      first, then one line per kind of under-converting page that exists,
      carrying the number of such pages, in a fixed order. */
  function Recommendations(top: Feature, pages: seq<ContentPage>): (r: seq<ContentRecommendation>)
    ensures |r| > 0 && r[0] == OptimizeFirst(top)
    ensures TrafficWithoutLeads(TrafficWithoutLeadsCount(pages)) in r <==> TrafficWithoutLeadsCount(pages) > 0
    ensures GoodSeoFewLeads(GoodSeoFewLeadsCount(pages)) in r <==> GoodSeoFewLeadsCount(pages) > 0
    ensures forall i :: 0 <= i < |r| && r[i].TrafficWithoutLeads? ==> r[i].pages == TrafficWithoutLeadsCount(pages)
    ensures forall i :: 0 <= i < |r| && r[i].GoodSeoFewLeads? ==> r[i].pages == GoodSeoFewLeadsCount(pages)
    ensures StrictlyRanked(r, RecommendationRank)
  {
    var lowConverters := TrafficWithoutLeadsCount(pages);
    var highSeoLowLeads := GoodSeoFewLeadsCount(pages);
    [OptimizeFirst(top)] +
    (if lowConverters > 0 then [TrafficWithoutLeads(lowConverters)] else []) +
    (if highSeoLowLeads > 0 then [GoodSeoFewLeads(highSeoLowLeads)] else [])
  }

  /** `_content_recommendations(correlations, pages)`, with the dictionary
      given as its items in insertion order; the attribute optimised first
      is the one `max` picks by the size of its correlation. */
  method ContentRecommendations(items: seq<(Feature, real)>, pages: seq<ContentPage>)
    returns (recs: seq<ContentRecommendation>)
    requires |items| > 0
    ensures recs == Recommendations(items[FirstMaxBy(items, AbsCorrelation)].0, pages)
    ensures |recs| > 0 && recs[0] == OptimizeFirst(items[FirstMaxBy(items, AbsCorrelation)].0)
    ensures TrafficWithoutLeads(TrafficWithoutLeadsCount(pages)) in recs <==> TrafficWithoutLeadsCount(pages) > 0
    ensures GoodSeoFewLeads(GoodSeoFewLeadsCount(pages)) in recs <==> GoodSeoFewLeadsCount(pages) > 0
    ensures |recs| <= 3
  {
    var top := FirstMaxBy(items, AbsCorrelation);
    recs := [OptimizeFirst(items[top].0)];
    var lowConverters := TrafficWithoutLeadsCount(pages);
    if lowConverters > 0 {
      recs := recs + [TrafficWithoutLeads(lowConverters)];
    }
    var highSeoLowLeads := GoodSeoFewLeadsCount(pages);
    if highSeoLowLeads > 0 {
      recs := recs + [GoodSeoFewLeads(highSeoLowLeads)];
    }
  }

  /** Each attribute with its correlation, in the order of `features`. */
  function FeatureCorrelations(m: Transcendentals, pages: seq<ContentPage>): (r: seq<(Feature, real)>)
    ensures |r| == |Features|
    ensures forall k :: 0 <= k < |r| ==> r[k] == (Features[k], Correlation(m, pages, Features[k]))
  {
    seq(|Features|, k requires 0 <= k < |Features| => (Features[k], Correlation(m, pages, Features[k])))
  }

  /** The loop of `content_regression` that fills the `correlations`
      dictionary; `items` is its insertion order. */
  method CorrelateFeatures(m: Transcendentals, pages: seq<ContentPage>)
    returns (correlations: map<Feature, real>, items: seq<(Feature, real)>)
    ensures items == FeatureCorrelations(m, pages)
    ensures forall f :: f in correlations <==> f in Features
    ensures forall f :: f in correlations ==> correlations[f] == Correlation(m, pages, f)
    ensures forall f :: Get(correlations, f) == Correlation(m, pages, f)
  {
    correlations := map[];
    items := [];
    var i := 0;
    while i < |Features|
      invariant 0 <= i <= |Features|
      invariant |items| == i
      invariant forall k :: 0 <= k < i ==> items[k] == (Features[k], Correlation(m, pages, Features[k]))
      invariant forall f :: f in correlations <==> f in Features[..i]
      invariant forall f :: f in correlations ==> correlations[f] == Correlation(m, pages, f)
    {
      var f := Features[i];
      var corr := PearsonCorrelation(m, Column(pages, f), LeadsColumn(pages));
      correlations := correlations[f := corr];
      items := items + [(f, corr)];
      assert Features[..i + 1] == Features[..i] + [f];
      i := i + 1;
    }
    assert Features[..i] == Features;
    forall f
      ensures f in correlations
    {
      FeaturesComplete(f);
    }
  }

  /** `features` lists every attribute. */
  lemma FeaturesComplete(f: Feature)
    ensures f in Features
  {
    match f
    case WordCount => assert Features[0] == f;
    case SeoScore => assert Features[1] == f;
    case EeatScore => assert Features[2] == f;
    case InternalLinks => assert Features[3] == f;
    case Backlinks => assert Features[4] == f;
    case ContentAgeDays => assert Features[5] == f;
  }

  /** The first entry of the ranking has the largest correlation in size. */
  lemma RankingHeadIsStrongest(m: Transcendentals, pages: seq<ContentPage>)
    ensures var items := FeatureCorrelations(m, pages);
            var sorted := SortDesc(items, AbsCorrelation);
            sorted[0] == items[FirstMaxBy(items, AbsCorrelation)] &&
            forall f :: f in Features ==> Abs(Correlation(m, pages, f)) <= Abs(sorted[0].1)
  {
    var items := FeatureCorrelations(m, pages);
    SortDescHead(items, AbsCorrelation);
    forall f | f in Features
      ensures Abs(Correlation(m, pages, f)) <= AbsCorrelation(items[FirstMaxBy(items, AbsCorrelation)])
    {
      var k :| 0 <= k < |Features| && Features[k] == f;
      assert AbsCorrelation(items[k]) <= AbsCorrelation(items[FirstMaxBy(items, AbsCorrelation)]);
    }
  }

  /** `content_regression`: refuses fewer than five pages; otherwise
      correlates each attribute with leads, ranks them by the size of the
      correlation and names the strongest as the top driver, which is also
      the attribute the first recommendation names. */
  method ContentRegression(m: Transcendentals, pages: seq<ContentPage>)
    returns (r: Result<RegressionReport, RegressionError>)
    ensures r.Err? <==> |pages| < 5
    ensures r.Err? ==> r.error == TooFewPages(|pages|)
    ensures r.Ok? ==>
              r.value.pagesAnalyzed == |pages| &&
              r.value.featureCorrelations == SortDesc(FeatureCorrelations(m, pages), AbsCorrelation)
    ensures r.Ok? ==>
              r.value.topDriver == Some(r.value.featureCorrelations[0].0) &&
              forall f :: f in Features ==> Abs(Correlation(m, pages, f)) <= Abs(r.value.featureCorrelations[0].1)
    ensures r.Ok? ==>
              |r.value.recommendations| > 0 &&
              r.value.recommendations[0] == OptimizeFirst(r.value.featureCorrelations[0].0)
    ensures r.Ok? ==>
              r.value.recommendations == Recommendations(r.value.featureCorrelations[0].0, pages)
    ensures r.Ok? ==>
              r.value.insights == ContentInsights(Correlation(m, pages, WordCount), Correlation(m, pages, InternalLinks),
                                                  Correlation(m, pages, SeoScore), Correlation(m, pages, EeatScore))
    ensures r.Ok? ==>
              (LongerContentWins in r.value.insights <==> Correlation(m, pages, WordCount) > 0.3) &&
              (InternalLinksPredict in r.value.insights <==> Correlation(m, pages, InternalLinks) > 0.3) &&
              (SeoDrivesConversion in r.value.insights <==> Correlation(m, pages, SeoScore) > 0.3) &&
              (EeatStrongest in r.value.insights <==> Correlation(m, pages, EeatScore) > 0.4)
  {
    if |pages| < 5 {
      return Err(TooFewPages(|pages|));
    }
    var correlations, items := CorrelateFeatures(m, pages);
    var sorted := SortDesc(items, AbsCorrelation);
    RankingHeadIsStrongest(m, pages);
    var insights := GenerateContentInsights(correlations);
    var recommendations := ContentRecommendations(items, pages);
    r := Ok(RegressionReport(|pages|, sorted, Some(sorted[0].0), insights, recommendations));
  }

  // ---------------------------------------------------------------------
  // Decay detection

  datatype DecayStatus = Growing | Stable | Declining | Decaying

  datatype Urgency = High | Medium | Low

  datatype DecayError = NeedFourWeeks

  datatype DecayReport = DecayReport(
    contentId: string,
    status: DecayStatus,
    pageviewTrend: real,
    leadTrend: real,
    decayFromPeak: real,
    peakWeek: nat,
    weeksOfData: nat,
    urgency: Urgency)

  /** The first-match status chain of `detect_content_decay`. */
  function DecayStatusOf(pvSlope: real, decayPct: real): DecayStatus
  {
    if pvSlope > 0.0 then Growing
    else if decayPct < 0.15 then Stable
    else if decayPct < 0.40 then Declining
    else Decaying
  }

  function UrgencyOf(status: DecayStatus): Urgency
  {
    if status == Decaying then High else if status == Declining then Medium else Low
  }

  /** How far the latest week has fallen from the peak, as a fraction of
      the peak; 0 when the peak is not positive. */
  function DecayFromPeak(peak: real, current: real): (r: real)
    ensures peak <= 0.0 ==> r == 0.0
    ensures 0.0 < peak && 0.0 <= current <= peak ==> 0.0 <= r <= 1.0
  {
    if peak > 0.0 then
      FractionBounds(peak, current);
      (peak - current) / peak
    else 0.0
  }

  lemma FractionBounds(peak: real, current: real)
    requires 0.0 < peak
    ensures 0.0 <= current <= peak ==> 0.0 <= (peak - current) / peak <= 1.0
  {
    if 0.0 <= current <= peak {
      assert (peak - current) / peak <= peak / peak;
    }
  }

  /** `detect_content_decay`: refuses fewer than four weeks; otherwise
      classifies the pageview trend against the peak week. */
  function DetectContentDecay(weeklyPageviews: seq<real>, weeklyLeads: seq<real>, contentId: string)
    : (r: Result<DecayReport, DecayError>)
    ensures r.Err? <==> |weeklyPageviews| < 4
    ensures r.Ok? ==>
              var n := |weeklyPageviews|;
              var report := r.value;
              report.contentId == contentId && report.weeksOfData == n &&
              1 <= report.peakWeek <= n &&
              var peak := weeklyPageviews[report.peakWeek - 1];
              (forall i :: 0 <= i < n ==> weeklyPageviews[i] <= peak) &&
              (forall i :: 0 <= i < report.peakWeek - 1 ==> weeklyPageviews[i] < peak) &&
              report.pageviewTrend == LinearSlope(Indices(n), weeklyPageviews) &&
              report.leadTrend == LinearSlope(Indices(|weeklyLeads|), weeklyLeads) &&
              report.decayFromPeak == DecayFromPeak(peak, weeklyPageviews[n - 1]) &&
              report.status == DecayStatusOf(report.pageviewTrend, report.decayFromPeak) &&
              report.urgency == UrgencyOf(report.status)
  {
    if |weeklyPageviews| < 4 then Err(NeedFourWeeks)
    else
      var n := |weeklyPageviews|;
      var pvSlope := LinearSlope(Indices(n), weeklyPageviews);
      var leadSlope := if |weeklyLeads| > 0 then LinearSlope(Indices(|weeklyLeads|), weeklyLeads) else 0.0;
      var peakWeek := FirstMaxBy(weeklyPageviews, v => v);
      var decayPct := DecayFromPeak(weeklyPageviews[peakWeek], weeklyPageviews[n - 1]);
      var status := DecayStatusOf(pvSlope, decayPct);
      Ok(DecayReport(contentId, status, pvSlope, leadSlope, decayPct, peakWeek + 1, n, UrgencyOf(status)))
  }

  /** With non-negative pageviews the decay from the peak is a fraction. */
  lemma DecayIsFraction(weeklyPageviews: seq<real>, weeklyLeads: seq<real>, contentId: string)
    requires |weeklyPageviews| >= 4
    requires forall i :: 0 <= i < |weeklyPageviews| ==> 0.0 <= weeklyPageviews[i]
    ensures var r := DetectContentDecay(weeklyPageviews, weeklyLeads, contentId);
            r.Ok? && 0.0 <= r.value.decayFromPeak <= 1.0
  {
    var r := DetectContentDecay(weeklyPageviews, weeklyLeads, contentId);
    var n := |weeklyPageviews|;
    var peak := weeklyPageviews[r.value.peakWeek - 1];
    assert weeklyPageviews[n - 1] <= peak;
  }

  /** Pageviews that rise by a fixed amount every week are classified as
      growing, at low urgency. */
  lemma SteadyGrowthIsGrowing(weeklyPageviews: seq<real>, weeklyLeads: seq<real>, contentId: string, a: real, b: real)
    requires |weeklyPageviews| >= 4
    requires 0.0 < b
    requires forall i :: 0 <= i < |weeklyPageviews| ==> weeklyPageviews[i] == a + b * i as real
    ensures var r := DetectContentDecay(weeklyPageviews, weeklyLeads, contentId);
            r.Ok? && r.value.status == Growing && r.value.urgency == Low
  {
    var n := |weeklyPageviews|;
    IndicesVary(n);
    LinearSlopeOfLine(Indices(n), weeklyPageviews, a, b);
  }

  /** Urgency is high for decaying pages, medium for declining ones and low
      otherwise; a page is decaying only if it is not growing and has lost
      at least 40% from its peak. */
  lemma DecayingMeansHighUrgency(pvSlope: real, decayPct: real)
    ensures UrgencyOf(DecayStatusOf(pvSlope, decayPct)) == High <==> pvSlope <= 0.0 && decayPct >= 0.40
    ensures UrgencyOf(DecayStatusOf(pvSlope, decayPct)) == Medium <==> pvSlope <= 0.0 && 0.15 <= decayPct < 0.40
  {
  }

  // ---------------------------------------------------------------------
  // Cluster strength

  datatype ClusterError = NoPagesInCluster

  datatype ClusterGap = TooThin(have: nat) | MissingComparison | MissingCaseStudy | MissingPricing

  datatype ExpansionIdea =
    | AlternativesPage(pillar: string)
    | CaseStudyPage(pillar: string)
    | PricingGuide(pillar: string)
    | IndustryUseCase(pillar: string)
    | CompetitorComparison(pillar: string)

  datatype ClusterReport = ClusterReport(
    pillarKeyword: string,
    clusterSize: nat,
    clusterScore: real,
    pagesConverting: nat,
    totalLeads: int,
    totalRevenue: real,
    avgSeoScore: real,
    totalInternalLinks: int,
    gaps: seq<ClusterGap>,
    nextPagesToCreate: seq<ExpansionIdea>)

  function TotalLeads(pages: seq<ContentPage>): int
  {
    if |pages| == 0 then 0 else TotalLeads(pages[..|pages| - 1]) + pages[|pages| - 1].leadsGenerated
  }

  function TotalRevenue(pages: seq<ContentPage>): real
  {
    if |pages| == 0 then 0.0 else TotalRevenue(pages[..|pages| - 1]) + pages[|pages| - 1].revenueAttr
  }

  function TotalSeo(pages: seq<ContentPage>): real
  {
    if |pages| == 0 then 0.0 else TotalSeo(pages[..|pages| - 1]) + pages[|pages| - 1].seoScore
  }

  function TotalLinks(pages: seq<ContentPage>): int
  {
    if |pages| == 0 then 0 else TotalLinks(pages[..|pages| - 1]) + pages[|pages| - 1].internalLinks
  }

  /** Pages with at least one lead. */
  function Converting(pages: seq<ContentPage>): (r: nat)
    ensures r <= |pages|
  {
    if |pages| == 0 then 0
    else Converting(pages[..|pages| - 1]) + (if pages[|pages| - 1].leadsGenerated > 0 then 1 else 0)
  }

  function DepthScore(n: nat): (r: real)
    ensures 0.0 <= r <= 30.0
  {
    Min(30.0, (n * 5) as real)
  }

  function CoverageScore(converting: nat, n: nat): (r: real)
    requires 0 < n && converting <= n
    ensures 0.0 <= r <= 25.0
  {
    assert converting as real / n as real <= 1.0;
    converting as real / n as real * 25.0
  }

  function RevenueScore(totalRevenue: real): (r: real)
    ensures r <= 25.0
    ensures 0.0 <= totalRevenue ==> 0.0 <= r
  {
    Min(25.0, totalRevenue / 100.0)
  }

  function LinkScore(totalLinks: int): (r: real)
    ensures r <= 20.0
    ensures 0 <= totalLinks ==> 0.0 <= r
  {
    Min(20.0, (totalLinks * 2) as real)
  }

  /** The cluster score, `min(100, depth + coverage + revenue + links)`. */
  function ClusterScore(pages: seq<ContentPage>): (r: real)
    requires |pages| > 0
    ensures r <= 100.0
    ensures 0.0 <= TotalRevenue(pages) && 0 <= TotalLinks(pages) ==> 0.0 <= r
  {
    var n := |pages|;
    Min(100.0, DepthScore(n) + CoverageScore(Converting(pages), n) + RevenueScore(TotalRevenue(pages)) +
               LinkScore(TotalLinks(pages)))
  }

  /** Whether some page has the given content type. */
  predicate HasContentType(pages: seq<ContentPage>, contentType: string)
  {
    exists i :: 0 <= i < |pages| && pages[i].contentType == contentType
  }

  /** Whether some page's lower-cased title mentions pricing or cost. */
  predicate HasPricingPage(pages: seq<ContentPage>)
  {
    exists i :: 0 <= i < |pages| && (IsSubstring("pricing", Lower(pages[i].title)) || IsSubstring("cost", Lower(pages[i].title)))
  }

  /** The position of each gap in the order the checks run. */
  function GapRank(g: ClusterGap): nat
  {
    match g
    case TooThin(_) => 0
    case MissingComparison => 1
    case MissingCaseStudy => 2
    case MissingPricing => 3
  }

  /** The gaps of a cluster of `n` pages: each is present exactly when its
      check fails, once, in the order size, comparison, case study, pricing. */
  function ClusterGaps(pages: seq<ContentPage>, n: nat): (r: seq<ClusterGap>)
    ensures TooThin(n) in r <==> n < 5
    ensures MissingComparison in r <==> !HasContentType(pages, "comparison")
    ensures MissingCaseStudy in r <==> !HasContentType(pages, "case_study")
    ensures MissingPricing in r <==> !HasPricingPage(pages)
    ensures forall i :: 0 <= i < |r| && r[i].TooThin? ==> r[i] == TooThin(n)
    ensures StrictlyRanked(r, GapRank)
  {
    (if n < 5 then [TooThin(n)] else []) +
    (if !HasContentType(pages, "comparison") then [MissingComparison] else []) +
    (if !HasContentType(pages, "case_study") then [MissingCaseStudy] else []) +
    (if !HasPricingPage(pages) then [MissingPricing] else [])
  }

  /** `_identify_cluster_gaps(pillar, pages, n)`. */
  method IdentifyClusterGaps(pages: seq<ContentPage>, n: nat) returns (gaps: seq<ClusterGap>)
    ensures gaps == ClusterGaps(pages, n)
    ensures TooThin(n) in gaps <==> n < 5
    ensures MissingComparison in gaps <==> !HasContentType(pages, "comparison")
    ensures MissingCaseStudy in gaps <==> !HasContentType(pages, "case_study")
    ensures MissingPricing in gaps <==> !HasPricingPage(pages)
    ensures forall g :: g in gaps && g.TooThin? ==> g == TooThin(n)
    ensures |gaps| <= 4
  {
    var noComparison, noCaseStudy, noPricing :=
      !HasContentType(pages, "comparison"), !HasContentType(pages, "case_study"), !HasPricingPage(pages);
    var first := if n < 5 then [TooThin(n)] else [];
    var second := if noComparison then [MissingComparison] else [];
    var third := if noCaseStudy then [MissingCaseStudy] else [];
    gaps := [];
    if n < 5 {
      gaps := gaps + [TooThin(n)];
    }
    assert gaps == first;
    if noComparison {
      gaps := gaps + [MissingComparison];
    }
    assert gaps == first + second;
    if noCaseStudy {
      gaps := gaps + [MissingCaseStudy];
    }
    assert gaps == first + second + third;
    if noPricing {
      gaps := gaps + [MissingPricing];
    }
    assert gaps == ClusterGaps(pages, n);
  }

  /** Python's slice `s[:k]`. */
  function Take<T>(s: seq<T>, k: nat): (r: seq<T>)
    ensures |r| == if |s| < k then |s| else k
    ensures |s| <= k ==> r == s
    ensures forall i :: 0 <= i < |r| ==> r[i] == s[i]
  {
    if |s| <= k then s else s[..k]
  }

  /** The position of each idea in the order the ideas are added. */
  function IdeaRank(idea: ExpansionIdea): nat
  {
    match idea
    case AlternativesPage(_) => 0
    case CaseStudyPage(_) => 1
    case PricingGuide(_) => 2
    case IndustryUseCase(_) => 3
    case CompetitorComparison(_) => 4
  }

  /** The alternatives and case-study ideas, each when the cluster lacks
      that kind of page. */
  function OptionalIdeas(pillar: string, noComparison: bool, noCaseStudy: bool): seq<ExpansionIdea>
  {
    (if noComparison then [AlternativesPage(pillar)] else []) +
    (if noCaseStudy then [CaseStudyPage(pillar)] else [])
  }

  /** The optional ideas, in their order, rank before the three ideas that
      are always suggested. */
  lemma OptionalIdeasFirst(pillar: string, noComparison: bool, noCaseStudy: bool)
    ensures StrictlyRanked(OptionalIdeas(pillar, noComparison, noCaseStudy) +
                           [PricingGuide(pillar), IndustryUseCase(pillar), CompetitorComparison(pillar)], IdeaRank)
  {
    var always := [PricingGuide(pillar), IndustryUseCase(pillar), CompetitorComparison(pillar)];
    if noComparison && noCaseStudy {
      assert OptionalIdeas(pillar, noComparison, noCaseStudy) == [AlternativesPage(pillar), CaseStudyPage(pillar)];
    } else if noComparison {
      assert OptionalIdeas(pillar, noComparison, noCaseStudy) == [AlternativesPage(pillar)];
    } else if noCaseStudy {
      assert OptionalIdeas(pillar, noComparison, noCaseStudy) == [CaseStudyPage(pillar)];
    }
  }

  /** The expansion ideas for a pillar, given whether the cluster lacks a
      comparison page and a case study: the alternatives and case-study
      pages only when it lacks them, then always the pricing, industry and
      competitor pages; each once, in that order, all about the pillar. */
  function ExpansionIdeas(pillar: string, noComparison: bool, noCaseStudy: bool): (r: seq<ExpansionIdea>)
    ensures 3 <= |r| <= 5
    ensures r[|r| - 3..] == [PricingGuide(pillar), IndustryUseCase(pillar), CompetitorComparison(pillar)]
    ensures AlternativesPage(pillar) in r <==> noComparison
    ensures CaseStudyPage(pillar) in r <==> noCaseStudy
    ensures forall idea :: idea in r ==> idea.pillar == pillar
    ensures StrictlyRanked(r, IdeaRank)
  {
    var always := [PricingGuide(pillar), IndustryUseCase(pillar), CompetitorComparison(pillar)];
    var optional := OptionalIdeas(pillar, noComparison, noCaseStudy);
    OptionalIdeasFirst(pillar, noComparison, noCaseStudy);
    optional + always
  }

  /** `_suggest_cluster_expansion(pillar, pages)`: appends the ideas one by
      one and keeps the first five, which are all of them. */
  method SuggestClusterExpansion(pillar: string, pages: seq<ContentPage>) returns (suggestions: seq<ExpansionIdea>)
    ensures suggestions == ExpansionIdeas(pillar, !HasContentType(pages, "comparison"), !HasContentType(pages, "case_study"))
    ensures 3 <= |suggestions| <= 5
    ensures suggestions[|suggestions| - 3..] ==
            [PricingGuide(pillar), IndustryUseCase(pillar), CompetitorComparison(pillar)]
    ensures AlternativesPage(pillar) in suggestions <==> !HasContentType(pages, "comparison")
    ensures CaseStudyPage(pillar) in suggestions <==> !HasContentType(pages, "case_study")
  {
    var noComparison := !HasContentType(pages, "comparison");
    var noCaseStudy := !HasContentType(pages, "case_study");
    suggestions := [];
    if noComparison {
      suggestions := suggestions + [AlternativesPage(pillar)];
    }
    if noCaseStudy {
      suggestions := suggestions + [CaseStudyPage(pillar)];
    }
    var optional := suggestions;
    suggestions := suggestions + [PricingGuide(pillar)];
    suggestions := suggestions + [IndustryUseCase(pillar)];
    suggestions := suggestions + [CompetitorComparison(pillar)];
    assert suggestions == optional + [PricingGuide(pillar), IndustryUseCase(pillar), CompetitorComparison(pillar)];
    suggestions := Take(suggestions, 5);
  }

  /** `analyze_cluster_strength`: an empty cluster is refused; otherwise the
      bounded score, the totals, the gaps and the expansion ideas. */
  method AnalyzeClusterStrength(pillar: string, pages: seq<ContentPage>)
    returns (r: Result<ClusterReport, ClusterError>)
    ensures r.Err? <==> |pages| == 0
    ensures r.Ok? ==>
              var report := r.value;
              report.clusterSize == |pages| &&
              report.clusterScore == ClusterScore(pages) && report.clusterScore <= 100.0 &&
              report.pagesConverting == Converting(pages) <= |pages| &&
              report.totalLeads == TotalLeads(pages) && report.totalRevenue == TotalRevenue(pages) &&
              report.avgSeoScore == TotalSeo(pages) / |pages| as real &&
              report.totalInternalLinks == TotalLinks(pages) &&
              report.gaps == ClusterGaps(pages, |pages|) &&
              report.nextPagesToCreate ==
                ExpansionIdeas(pillar, !HasContentType(pages, "comparison"), !HasContentType(pages, "case_study")) &&
              (TooThin(|pages|) in report.gaps <==> |pages| < 5) &&
              3 <= |report.nextPagesToCreate| <= 5
  {
    var n := |pages|;
    if n == 0 {
      return Err(NoPagesInCluster);
    }
    var gaps := IdentifyClusterGaps(pages, n);
    var ideas := SuggestClusterExpansion(pillar, pages);
    r := Ok(ClusterReport(pillar, n, ClusterScore(pages), Converting(pages), TotalLeads(pages), TotalRevenue(pages),
                          TotalSeo(pages) / n as real, TotalLinks(pages), gaps, ideas));
  }
}
