// The lead scoring router: a weighted composite of three raw signals with
// bonus multipliers, segment tiers, an ideal-customer-profile fit, an
// engagement velocity and the three strongest signals behind the score.
module Scoring {
  import opened Wrappers
  import opened Numerics
  import opened Ranking
  import opened Text

  /** `LeadInput`. The request bounds the three raw scores to [0, 100]
      and the counts and minutes to non-negative values. */
  datatype Lead = Lead(
    id: string,
    intentScore: real,
    fitScore: real,
    engagementScore: real,
    companySize: Option<int>,
    jobTitle: Option<string>,
    industry: Option<string>,
    pagesVisited: nat,
    emailOpens: nat,
    contentDownloads: nat,
    timeOnSiteMin: real,
    daysSinceFirstTouch: nat)

  predicate ValidLead(lead: Lead)
  {
    0.0 <= lead.intentScore <= 100.0 &&
    0.0 <= lead.fitScore <= 100.0 &&
    0.0 <= lead.engagementScore <= 100.0 &&
    0.0 <= lead.timeOnSiteMin
  }

  datatype Segment = Hot | Warm | Cool | Cold

  datatype Action = ImmediateOutreach | NurtureSequence | EducationalContent | Disqualify

  /** The reasons `_extract_top_signals` can give, without their wording. */
  datatype Signal =
    | HighIntent(intentScore: real)
    | StrongFit(fitScore: real)
    | ActiveEngagement(engagementScore: real)
    | EnterpriseAccount(companySize: Option<int>)
    | DecisionMaker(jobTitle: Option<string>)
    | HeavyContent(downloads: nat)
    | HighVelocity(velocityScore: real)
    | MultiplePages(pages: nat)
    | LongSession(minutes: real)

  datatype Candidate = Candidate(contribution: real, signal: Signal)

  /** `EnhancedLead`, before the two-decimal rounding. */
  datatype EnhancedLead = EnhancedLead(
    id: string,
    compositeScore: real,
    segment: Segment,
    topSignals: seq<Signal>,
    recommendedAction: Action,
    icpFitPct: real,
    velocityScore: real)

  const CsuiteKeywords: seq<string> :=
    ["ceo", "cto", "coo", "cfo", "cmo", "cpo", "chief", "vp ", "vp,", "vice president"]

  const HighValueIndustries: seq<string> :=
    ["saas", "software", "technology", "fintech", "healthcare", "marketing", "e-commerce", "financial services"]

  const DirectorKeywords: seq<string> := ["director", "head of", "head,"]

  const ManagerKeywords: seq<string> := ["manager", "lead", "senior"]

  /** The weighted base composite: intent 40%, fit 35%, engagement 25%. */
  function Base(lead: Lead): (r: real)
    ensures ValidLead(lead) ==> 0.0 <= r <= 100.0
  {
    lead.intentScore * 0.40 + lead.fitScore * 0.35 + lead.engagementScore * 0.25
  }

  /** `(company_size or 0) > 500`. */
  predicate IsEnterprise(companySize: Option<int>)
  {
    (if companySize.Some? then companySize.value else 0) > 500
  }

  /** `_is_csuite`: a missing or empty title never counts. */
  function IsCsuite(jobTitle: Option<string>): (r: bool)
    ensures r <==> jobTitle.Some? && |jobTitle.value| > 0 &&
                   exists k :: 0 <= k < |CsuiteKeywords| && IsSubstring(CsuiteKeywords[k], Lower(jobTitle.value))
  {
    if jobTitle.None? || |jobTitle.value| == 0 then false
    else ContainsAny(CsuiteKeywords, Lower(jobTitle.value))
  }

  /** The title test ignores case. */
  lemma IsCsuiteIgnoresCase(title: string)
    ensures IsCsuite(Some(Lower(title))) == IsCsuite(Some(title))
  {
    LowerIdempotent(title);
  }

  /** The bonus multiplier: +10% for an enterprise account, +5% for a
      C-suite title, +5% for more than three downloads. */
  function Multiplier(enterprise: bool, csuite: bool, downloads: bool): (r: real)
    ensures 1.0 <= r <= 1.2
    ensures r == 1.0 <==> !enterprise && !csuite && !downloads
  {
    1.0 + (if enterprise then 0.10 else 0.0) + (if csuite then 0.05 else 0.0) + (if downloads then 0.05 else 0.0)
  }

  /** `min(100.0, base * multiplier)`. */
  function Composite(base: real, multiplier: real): real
  {
    Min(100.0, base * multiplier)
  }

  /** The bonuses only ever raise the score, and the clamp caps it at 100. */
  lemma CompositeBounds(base: real, multiplier: real)
    requires 0.0 <= base <= 100.0
    requires 1.0 <= multiplier
    ensures base <= Composite(base, multiplier) <= 100.0
  {
    assert base * 1.0 <= base * multiplier;
  }

  /** For a lead whose scores are in range, the composite lies between the
      base score and 100. */
  lemma ValidCompositeBounds(lead: Lead, multiplier: real)
    requires 1.0 <= multiplier
    ensures ValidLead(lead) ==> Base(lead) <= Composite(Base(lead), multiplier) <= 100.0
  {
    if ValidLead(lead) {
      CompositeBounds(Base(lead), multiplier);
    }
  }

  /** `_classify_segment`. */
  function ClassifySegment(composite: real): Segment
  {
    if composite > 80.0 then Hot
    else if composite >= 60.0 then Warm
    else if composite >= 40.0 then Cool
    else Cold
  }

  /** The tiers in order, coldest first. */
  function Tier(s: Segment): (r: nat)
    ensures r < 4
  {
    match s
    case Cold => 0
    case Cool => 1
    case Warm => 2
    case Hot => 3
  }

  /** A higher composite never lands in a colder tier. */
  lemma SegmentMonotone(a: real, b: real)
    requires a <= b
    ensures Tier(ClassifySegment(a)) <= Tier(ClassifySegment(b))
  {
  }

  /** The lowest composite of each tier: the tiers are the bands
      (80, ∞), [60, 80], [40, 60) and (-∞, 40). */
  lemma SegmentBands(composite: real)
    ensures ClassifySegment(composite) == Hot <==> composite > 80.0
    ensures ClassifySegment(composite) == Warm <==> 60.0 <= composite <= 80.0
    ensures ClassifySegment(composite) == Cool <==> 40.0 <= composite < 60.0
    ensures ClassifySegment(composite) == Cold <==> composite < 40.0
  {
  }

  /** `_recommend_action`. Every segment is one of the four keys, so the
      `educational_content` default of the lookup is never reached. */
  function RecommendAction(segment: Segment): Action
  {
    match segment
    case Hot => ImmediateOutreach
    case Warm => NurtureSequence
    case Cool => EducationalContent
    case Cold => Disqualify
  }

  /** Distinct segments get distinct actions. */
  lemma RecommendActionInjective(a: Segment, b: Segment)
    requires RecommendAction(a) == RecommendAction(b)
    ensures a == b
  {
  }

  /** The size component of the ICP fit. */
  function SizeFit(companySize: int): (r: real)
    ensures r in {20.0, 50.0, 80.0, 100.0}
  {
    if 50 <= companySize <= 500 then 100.0
    else if companySize > 500 then 80.0
    else if 10 <= companySize < 50 then 50.0
    else 20.0
  }

  /** The title component of the ICP fit, for a non-empty title. */
  function TitleFit(title: string): (r: real)
    ensures r in {20.0, 60.0, 80.0, 100.0}
  {
    var lower := Lower(title);
    if IsCsuite(Some(title)) then 100.0
    else if ContainsAny(DirectorKeywords, lower) then 80.0
    else if ContainsAny(ManagerKeywords, lower) then 60.0
    else 20.0
  }

  /** The industry component of the ICP fit, for a non-empty industry. */
  function IndustryFit(industry: string): (r: real)
    ensures r in {50.0, 100.0}
  {
    if ContainsAny(HighValueIndustries, Lower(industry)) then 100.0 else 50.0
  }

  /** The component scores `_calculate_icp_fit` collects, in order: one per
      field that is present (a title or industry also has to be non-empty). */
  function IcpComponents(companySize: Option<int>, jobTitle: Option<string>, industry: Option<string>)
    : (r: seq<real>)
    ensures |r| <= 3
    ensures forall i :: 0 <= i < |r| ==> 20.0 <= r[i] <= 100.0
    ensures |r| == 0 <==> companySize.None? && (jobTitle.None? || |jobTitle.value| == 0) &&
                           (industry.None? || |industry.value| == 0)
  {
    (if companySize.Some? then [SizeFit(companySize.value)] else []) +
    (if jobTitle.Some? && |jobTitle.value| > 0 then [TitleFit(jobTitle.value)] else []) +
    (if industry.Some? && |industry.value| > 0 then [IndustryFit(industry.value)] else [])
  }

  /** Every value in [lo, hi] keeps the sum of `n` of them in [n·lo, n·hi]. */
  lemma {:induction false} SumBetween(s: seq<real>)
    requires forall i :: 0 <= i < |s| ==> 20.0 <= s[i] <= 100.0
    ensures |s| as real * 20.0 <= Sum(s) <= |s| as real * 100.0
  {
    if |s| > 0 {
      SumBetween(s[..|s| - 1]);
    }
  }

  /** The fit the components give: their mean, or 50 when there are none. */
  function IcpFitValue(components: seq<real>): (r: real)
    requires forall i :: 0 <= i < |components| ==> 20.0 <= components[i] <= 100.0
    ensures |components| == 0 ==> r == 50.0
    ensures 20.0 <= r <= 100.0
  {
    if |components| == 0 then 50.0
    else
      SumBetween(components);
      MeanBetween(Sum(components), |components| as real);
      Sum(components) / |components| as real
  }

  lemma MeanBetween(total: real, n: real)
    requires 1.0 <= n
    requires n * 20.0 <= total <= n * 100.0
    ensures 20.0 <= total / n <= 100.0
  {
  }

  /** `_calculate_icp_fit`: collects the present components and averages
      them. */
  method CalculateIcpFit(companySize: Option<int>, jobTitle: Option<string>, industry: Option<string>)
    returns (fit: real)
    ensures fit == IcpFitValue(IcpComponents(companySize, jobTitle, industry))
    ensures 20.0 <= fit <= 100.0
  {
    var scores := CollectIcpScores(companySize, jobTitle, industry);
    if |scores| == 0 {
      fit := 50.0;
    } else {
      fit := Sum(scores) / |scores| as real;
    }
  }

  /** The component-collecting half of `_calculate_icp_fit`. The method keeps
      the source's step-by-step appends; `IcpComponents` is the
      specification it is proved equal to. */
  method CollectIcpScores(companySize: Option<int>, jobTitle: Option<string>, industry: Option<string>)
    returns (scores: seq<real>)
    ensures scores == IcpComponents(companySize, jobTitle, industry)
  {
    ghost var a := if companySize.Some? then [SizeFit(companySize.value)] else [];
    ghost var b := if jobTitle.Some? && |jobTitle.value| > 0 then [TitleFit(jobTitle.value)] else [];
    ghost var c := if industry.Some? && |industry.value| > 0 then [IndustryFit(industry.value)] else [];
    scores := [];
    if companySize.Some? {
      scores := scores + [SizeFit(companySize.value)];
    }
    assert scores == a;
    if jobTitle.Some? && |jobTitle.value| > 0 {
      scores := scores + [TitleFit(jobTitle.value)];
    }
    assert scores == a + b;
    if industry.Some? && |industry.value| > 0 {
      scores := scores + [IndustryFit(industry.value)];
    }
    assert scores == a + b + c;
  }

  /** The actions a lead has taken. */
  function TotalActions(lead: Lead): nat
  {
    lead.pagesVisited + lead.emailOpens + lead.contentDownloads
  }

  /** `_calculate_velocity`: ten points per action per day since the first
      touch, a lead first touched today counting as one day, capped at
      100. */
  function Velocity(lead: Lead): (r: real)
    ensures 0.0 <= r <= 100.0
    ensures r == 100.0 <==> TotalActions(lead) >= 10 * Max(lead.daysSinceFirstTouch as real, 1.0).Floor
  {
    var days := Max(lead.daysSinceFirstTouch as real, 1.0);
    VelocityCap(TotalActions(lead), days);
    Min(100.0, TotalActions(lead) as real / days * 10.0)
  }

  lemma VelocityCap(actions: nat, days: real)
    requires 1.0 <= days && days == days.Floor as real
    ensures 0.0 <= actions as real / days * 10.0
    ensures actions as real / days * 10.0 >= 100.0 <==> actions >= 10 * days.Floor
  {
    var d := days.Floor;
    assert actions as real / days * 10.0 >= 100.0 <==> actions as real >= 10.0 * days;
  }

  /** More activity on the same days never lowers the velocity. */
  lemma VelocityMonotone(a: Lead, b: Lead)
    requires a.daysSinceFirstTouch == b.daysSinceFirstTouch
    requires TotalActions(a) <= TotalActions(b)
    ensures Velocity(a) <= Velocity(b)
  {
    var days := Max(a.daysSinceFirstTouch as real, 1.0);
    DivideMonotone(TotalActions(a) as real, TotalActions(b) as real, days);
  }

  lemma DivideMonotone(x: real, y: real, d: real)
    requires x <= y && 0.0 < d
    ensures x / d * 10.0 <= y / d * 10.0
  {
  }

  function Contribution(c: Candidate): real
  {
    c.contribution
  }

  /** The place of each kind of signal in the order `_extract_top_signals`
      appends them. */
  function SignalRank(c: Candidate): nat
  {
    match c.signal
    case HighIntent(_) => 0
    case StrongFit(_) => 1
    case ActiveEngagement(_) => 2
    case EnterpriseAccount(_) => 3
    case DecisionMaker(_) => 4
    case HeavyContent(_) => 5
    case HighVelocity(_) => 6
    case MultiplePages(_) => 7
    case LongSession(_) => 8
  }

  /** The candidates `_extract_top_signals` collects: the three weighted
      raw scores first, then each bonus that applies, in the order the
      source appends them (`CandidatesPresent`, `CandidatesDrawn` and
      `CandidatesRanked` say which, with what contribution and in what
      order). */
  function Candidates(lead: Lead, enterprise: bool, csuite: bool, downloads: bool, velocity: real)
    : (r: seq<Candidate>)
    ensures 3 <= |r| <= 9
    ensures r[..3] == [Candidate(lead.intentScore * 0.40, HighIntent(lead.intentScore)),
                       Candidate(lead.fitScore * 0.35, StrongFit(lead.fitScore)),
                       Candidate(lead.engagementScore * 0.25, ActiveEngagement(lead.engagementScore))]
  {
    BaseCandidates(lead) +
    Optional(enterprise, Candidate(10.0, EnterpriseAccount(lead.companySize))) +
    Optional(csuite, Candidate(7.0, DecisionMaker(lead.jobTitle))) +
    Optional(downloads, Candidate(6.0, HeavyContent(lead.contentDownloads))) +
    Optional(velocity >= 60.0, Candidate(velocity * 0.1, HighVelocity(velocity))) +
    Optional(lead.pagesVisited >= 5, Candidate(5.0, MultiplePages(lead.pagesVisited))) +
    Optional(lead.timeOnSiteMin >= 10.0, Candidate(4.0, LongSession(lead.timeOnSiteMin)))
  }

  /** The three weighted raw scores. */
  function BaseCandidates(lead: Lead): seq<Candidate>
  {
    [Candidate(lead.intentScore * 0.40, HighIntent(lead.intentScore)),
     Candidate(lead.fitScore * 0.35, StrongFit(lead.fitScore)),
     Candidate(lead.engagementScore * 0.25, ActiveEngagement(lead.engagementScore))]
  }

  /** Every bonus a lead can earn, each with its contribution. */
  function BonusMenu(lead: Lead, velocity: real): seq<Candidate>
  {
    [Candidate(10.0, EnterpriseAccount(lead.companySize)),
     Candidate(7.0, DecisionMaker(lead.jobTitle)),
     Candidate(6.0, HeavyContent(lead.contentDownloads)),
     Candidate(velocity * 0.1, HighVelocity(velocity)),
     Candidate(5.0, MultiplePages(lead.pagesVisited)),
     Candidate(4.0, LongSession(lead.timeOnSiteMin))]
  }

  /** One conditional append keeps the list ranked when `c` ranks after
      everything already there. */
  lemma AppendBonus(s: seq<Candidate>, applies: bool, c: Candidate)
    requires StrictlyRanked(s, SignalRank)
    requires forall x :: x in s ==> SignalRank(x) < SignalRank(c)
    ensures StrictlyRanked(s + Optional(applies, c), SignalRank)
    ensures forall x :: x in s + Optional(applies, c) ==> SignalRank(x) <= SignalRank(c)
  {
    if applies {
      RankedConcat(s, [c], SignalRank);
    } else {
      assert s + Optional(applies, c) == s;
    }
  }

  /** A candidate is a raw score or a bonus whose condition holds. */
  lemma CandidatesMembers(lead: Lead, enterprise: bool, csuite: bool, downloads: bool, velocity: real)
    ensures var menu := BonusMenu(lead, velocity);
            forall x :: x in Candidates(lead, enterprise, csuite, downloads, velocity) <==>
              (x in BaseCandidates(lead) ||
               (enterprise && x == menu[0]) || (csuite && x == menu[1]) || (downloads && x == menu[2]) ||
               (velocity >= 60.0 && x == menu[3]) || (lead.pagesVisited >= 5 && x == menu[4]) ||
               (lead.timeOnSiteMin >= 10.0 && x == menu[5]))
  {
    var menu := BonusMenu(lead, velocity);
    var s0 := BaseCandidates(lead);
    var s1 := s0 + Optional(enterprise, menu[0]);
    var s2 := s1 + Optional(csuite, menu[1]);
    var s3 := s2 + Optional(downloads, menu[2]);
    var s4 := s3 + Optional(velocity >= 60.0, menu[3]);
    var s5 := s4 + Optional(lead.pagesVisited >= 5, menu[4]);
    var s6 := s5 + Optional(lead.timeOnSiteMin >= 10.0, menu[5]);
    assert s6 == Candidates(lead, enterprise, csuite, downloads, velocity);
    forall x
      ensures x in s6 <==> (x in s0 ||
               (enterprise && x == menu[0]) || (csuite && x == menu[1]) || (downloads && x == menu[2]) ||
               (velocity >= 60.0 && x == menu[3]) || (lead.pagesVisited >= 5 && x == menu[4]) ||
               (lead.timeOnSiteMin >= 10.0 && x == menu[5]))
    {
      assert x in s6 <==> x in s5 || (lead.timeOnSiteMin >= 10.0 && x == menu[5]);
      assert x in s5 <==> x in s4 || (lead.pagesVisited >= 5 && x == menu[4]);
      assert x in s4 <==> x in s3 || (velocity >= 60.0 && x == menu[3]);
      assert x in s3 <==> x in s2 || (downloads && x == menu[2]);
      assert x in s2 <==> x in s1 || (csuite && x == menu[1]);
      assert x in s1 <==> x in s0 || (enterprise && x == menu[0]);
    }
  }

  /** Each bonus is among the candidates exactly when its condition holds. */
  lemma CandidatesPresent(lead: Lead, enterprise: bool, csuite: bool, downloads: bool, velocity: real)
    ensures var r := Candidates(lead, enterprise, csuite, downloads, velocity);
            (Candidate(10.0, EnterpriseAccount(lead.companySize)) in r <==> enterprise) &&
            (Candidate(7.0, DecisionMaker(lead.jobTitle)) in r <==> csuite) &&
            (Candidate(6.0, HeavyContent(lead.contentDownloads)) in r <==> downloads) &&
            (Candidate(velocity * 0.1, HighVelocity(velocity)) in r <==> velocity >= 60.0) &&
            (Candidate(5.0, MultiplePages(lead.pagesVisited)) in r <==> lead.pagesVisited >= 5) &&
            (Candidate(4.0, LongSession(lead.timeOnSiteMin)) in r <==> lead.timeOnSiteMin >= 10.0)
  {
    ProfilePresent(lead, enterprise, csuite, downloads, velocity);
    ActivityPresent(lead, enterprise, csuite, downloads, velocity);
  }

  /** The enterprise, decision-maker and content bonuses of `CandidatesPresent`. */
  lemma ProfilePresent(lead: Lead, enterprise: bool, csuite: bool, downloads: bool, velocity: real)
    ensures var r := Candidates(lead, enterprise, csuite, downloads, velocity);
            (Candidate(10.0, EnterpriseAccount(lead.companySize)) in r <==> enterprise) &&
            (Candidate(7.0, DecisionMaker(lead.jobTitle)) in r <==> csuite) &&
            (Candidate(6.0, HeavyContent(lead.contentDownloads)) in r <==> downloads)
  {
    CandidatesMembers(lead, enterprise, csuite, downloads, velocity);
  }

  /** The velocity, page and session bonuses of `CandidatesPresent`. */
  lemma ActivityPresent(lead: Lead, enterprise: bool, csuite: bool, downloads: bool, velocity: real)
    ensures var r := Candidates(lead, enterprise, csuite, downloads, velocity);
            (Candidate(velocity * 0.1, HighVelocity(velocity)) in r <==> velocity >= 60.0) &&
            (Candidate(5.0, MultiplePages(lead.pagesVisited)) in r <==> lead.pagesVisited >= 5) &&
            (Candidate(4.0, LongSession(lead.timeOnSiteMin)) in r <==> lead.timeOnSiteMin >= 10.0)
  {
    CandidatesMembers(lead, enterprise, csuite, downloads, velocity);
  }

  /** Every candidate is one of the three raw scores or a bonus with its
      own contribution: no other value of a bonus kind appears. */
  lemma CandidatesDrawn(lead: Lead, enterprise: bool, csuite: bool, downloads: bool, velocity: real)
    ensures forall c :: c in Candidates(lead, enterprise, csuite, downloads, velocity) ==>
              c in BaseCandidates(lead) || c in BonusMenu(lead, velocity)
  {
    CandidatesMembers(lead, enterprise, csuite, downloads, velocity);
  }

  /** The candidates come in the order of `SignalRank`, each kind at most
      once: with `CandidatesPresent` and `CandidatesDrawn` this fixes the
      whole list. */
  lemma CandidatesRanked(lead: Lead, enterprise: bool, csuite: bool, downloads: bool, velocity: real)
    ensures StrictlyRanked(Candidates(lead, enterprise, csuite, downloads, velocity), SignalRank)
  {
    var menu := BonusMenu(lead, velocity);
    ProfileRanked(lead, enterprise, csuite, downloads);
    var s3 := BaseCandidates(lead) +
      Optional(enterprise, Candidate(10.0, EnterpriseAccount(lead.companySize))) +
      Optional(csuite, Candidate(7.0, DecisionMaker(lead.jobTitle))) +
      Optional(downloads, Candidate(6.0, HeavyContent(lead.contentDownloads)));
    AppendBonus(s3, velocity >= 60.0, menu[3]);
    var s4 := s3 + Optional(velocity >= 60.0, menu[3]);
    AppendBonus(s4, lead.pagesVisited >= 5, menu[4]);
    var s5 := s4 + Optional(lead.pagesVisited >= 5, menu[4]);
    AppendBonus(s5, lead.timeOnSiteMin >= 10.0, menu[5]);
    assert s5 + Optional(lead.timeOnSiteMin >= 10.0, menu[5]) == Candidates(lead, enterprise, csuite, downloads, velocity);
  }

  /** The raw scores and the bonuses about who the lead is come ranked,
      all before the bonuses about what the lead does. */
  lemma ProfileRanked(lead: Lead, enterprise: bool, csuite: bool, downloads: bool)
    ensures var s := BaseCandidates(lead) +
              Optional(enterprise, Candidate(10.0, EnterpriseAccount(lead.companySize))) +
              Optional(csuite, Candidate(7.0, DecisionMaker(lead.jobTitle))) +
              Optional(downloads, Candidate(6.0, HeavyContent(lead.contentDownloads)));
            StrictlyRanked(s, SignalRank) && forall x :: x in s ==> SignalRank(x) <= 5
  {
    var s0 := BaseCandidates(lead);
    AppendBonus(s0, enterprise, Candidate(10.0, EnterpriseAccount(lead.companySize)));
    var s1 := s0 + Optional(enterprise, Candidate(10.0, EnterpriseAccount(lead.companySize)));
    AppendBonus(s1, csuite, Candidate(7.0, DecisionMaker(lead.jobTitle)));
    var s2 := s1 + Optional(csuite, Candidate(7.0, DecisionMaker(lead.jobTitle)));
    AppendBonus(s2, downloads, Candidate(6.0, HeavyContent(lead.contentDownloads)));
  }



  /** `c` when it applies, nothing otherwise. */
  function Optional(applies: bool, c: Candidate): (r: seq<Candidate>)
    ensures |r| <= 1
  {
    if applies then [c] else []
  }

  /** The first three of the stable descending sort are the three largest
      candidates: in descending order, drawn from the candidates, and no
      candidate left out beats the third. */
  lemma TopThreeDominate(cs: seq<Candidate>)
    requires 3 <= |cs|
    ensures var s := SortDesc(cs, Contribution);
            s[0].contribution >= s[1].contribution >= s[2].contribution &&
            (forall j :: 0 <= j < 3 ==> s[j] in cs) &&
            (forall c :: c in cs ==> c in s[..3] || c.contribution <= s[2].contribution)
  {
    var s := SortDesc(cs, Contribution);
    SortDescPermutes(cs, Contribution);
    SortDescSorted(cs, Contribution);
    SortedPrefix(s);
    forall j | 0 <= j < 3
      ensures s[j] in cs
    {
      SameElements(cs, s, s[j]);
    }
    forall c | c in cs
      ensures c in s[..3] || c.contribution <= s[2].contribution
    {
      SameElements(cs, s, c);
      BeyondThird(s, c);
    }
  }

  lemma SameElements(a: seq<Candidate>, b: seq<Candidate>, c: Candidate)
    requires multiset(a) == multiset(b)
    ensures c in a <==> c in b
  {
    assert c in a <==> c in multiset(a);
    assert c in b <==> c in multiset(b);
  }

  lemma SortedPrefix(s: seq<Candidate>)
    requires 3 <= |s| && SortedDesc(s, Contribution)
    ensures s[0].contribution >= s[1].contribution >= s[2].contribution
  {
    assert Contribution(s[0]) >= Contribution(s[1]);
    assert Contribution(s[1]) >= Contribution(s[2]);
  }

  lemma BeyondThird(s: seq<Candidate>, c: Candidate)
    requires 3 <= |s| && SortedDesc(s, Contribution)
    requires c in s
    ensures c in s[..3] || c.contribution <= s[2].contribution
  {
    var j :| 0 <= j < |s| && s[j] == c;
    if j < 3 {
      assert s[..3][j] == c;
    } else {
      assert Contribution(s[2]) >= Contribution(s[j]);
    }
  }

  /** The reasons of the three largest candidates, largest first. */
  function TopSignals(cs: seq<Candidate>): (r: seq<Signal>)
    requires 3 <= |cs|
    ensures |r| == 3
  {
    var s := SortDesc(cs, Contribution);
    [s[0].signal, s[1].signal, s[2].signal]
  }

  /** The candidate-collecting half of `_extract_top_signals`: the three
      weighted raw scores, then each bonus that applies, appended in turn.
      The method keeps the source's step-by-step appends; `Candidates` is
      the specification it is proved equal to. */
  method CollectCandidates(lead: Lead, enterprise: bool, csuite: bool, downloads: bool, velocity: real)
    returns (candidates: seq<Candidate>)
    ensures candidates == Candidates(lead, enterprise, csuite, downloads, velocity)
  {
    candidates := [];
    candidates := candidates + [Candidate(lead.intentScore * 0.40, HighIntent(lead.intentScore))];
    candidates := candidates + [Candidate(lead.fitScore * 0.35, StrongFit(lead.fitScore))];
    candidates := candidates + [Candidate(lead.engagementScore * 0.25, ActiveEngagement(lead.engagementScore))];
    assert candidates == [Candidate(lead.intentScore * 0.40, HighIntent(lead.intentScore)),
                          Candidate(lead.fitScore * 0.35, StrongFit(lead.fitScore)),
                          Candidate(lead.engagementScore * 0.25, ActiveEngagement(lead.engagementScore))];
    candidates := AppendIf(candidates, enterprise, Candidate(10.0, EnterpriseAccount(lead.companySize)));
    candidates := AppendIf(candidates, csuite, Candidate(7.0, DecisionMaker(lead.jobTitle)));
    candidates := AppendIf(candidates, downloads, Candidate(6.0, HeavyContent(lead.contentDownloads)));
    candidates := AppendIf(candidates, velocity >= 60.0, Candidate(velocity * 0.1, HighVelocity(velocity)));
    candidates := AppendIf(candidates, lead.pagesVisited >= 5, Candidate(5.0, MultiplePages(lead.pagesVisited)));
    candidates := AppendIf(candidates, lead.timeOnSiteMin >= 10.0, Candidate(4.0, LongSession(lead.timeOnSiteMin)));
  }

  /** `if applies: candidates.append(c)`. */
  method AppendIf(candidates: seq<Candidate>, applies: bool, c: Candidate) returns (r: seq<Candidate>)
    ensures r == candidates + Optional(applies, c)
  {
    r := candidates;
    if applies {
      r := r + [c];
    }
  }

  /** `_extract_top_signals`: sorts the candidates by contribution,
      largest first, and keeps the first three reasons. */
  method ExtractTopSignals(lead: Lead, enterprise: bool, csuite: bool, downloads: bool, velocity: real)
    returns (signals: seq<Signal>)
    ensures signals == TopSignals(Candidates(lead, enterprise, csuite, downloads, velocity))
  {
    var candidates := CollectCandidates(lead, enterprise, csuite, downloads, velocity);
    assert 3 <= |candidates|;
    candidates := SortDesc(candidates, Contribution);
    assert 3 <= |candidates|;
    signals := [candidates[0].signal, candidates[1].signal, candidates[2].signal];
  }

  /** The enhanced lead `_score_lead` produces: the composite score stays
      between the base score and 100 for a lead whose scores are in range,
      the segment and the action follow from the composite, the ICP fit and
      the velocity stay in their ranges and three signals are named. */
  function ScoredLead(lead: Lead): (e: EnhancedLead)
    ensures e.id == lead.id
    ensures ValidLead(lead) ==> Base(lead) <= e.compositeScore <= 100.0
    ensures e.segment == ClassifySegment(e.compositeScore)
    ensures e.recommendedAction == RecommendAction(e.segment)
    ensures 20.0 <= e.icpFitPct <= 100.0
    ensures 0.0 <= e.velocityScore <= 100.0
    ensures |e.topSignals| == 3
  {
    var enterprise := IsEnterprise(lead.companySize);
    var csuite := IsCsuite(lead.jobTitle);
    var downloads := lead.contentDownloads > 3;
    var composite := Composite(Base(lead), Multiplier(enterprise, csuite, downloads));
    ValidCompositeBounds(lead, Multiplier(enterprise, csuite, downloads));
    var segment := ClassifySegment(composite);
    EnhancedLead(lead.id, composite, segment,
                 TopSignals(Candidates(lead, enterprise, csuite, downloads, Velocity(lead))),
                 RecommendAction(segment),
                 IcpFitValue(IcpComponents(lead.companySize, lead.jobTitle, lead.industry)),
                 Velocity(lead))
  }

  /** `_score_lead`: the multiplier grows bonus by bonus. The method keeps
      the source's step-by-step updates; `ScoredLead` is the specification
      it is proved equal to. */
  method ScoreLead(lead: Lead) returns (e: EnhancedLead)
    ensures e == ScoredLead(lead)
  {
    var base := lead.intentScore * 0.40 + lead.fitScore * 0.35 + lead.engagementScore * 0.25;
    var multiplier := 1.0;
    var enterprise := (if lead.companySize.Some? then lead.companySize.value else 0) > 500;
    if enterprise {
      multiplier := multiplier + 0.10;
    }
    var csuite := IsCsuite(lead.jobTitle);
    if csuite {
      multiplier := multiplier + 0.05;
    }
    var downloads := lead.contentDownloads > 3;
    if downloads {
      multiplier := multiplier + 0.05;
    }
    assert multiplier == Multiplier(enterprise, csuite, downloads);
    assert base == Base(lead);
    var composite := Composite(base, multiplier);
    var segment := ClassifySegment(composite);
    var icpFit := CalculateIcpFit(lead.companySize, lead.jobTitle, lead.industry);
    var velocity := Velocity(lead);
    var topSignals := ExtractTopSignals(lead, enterprise, csuite, downloads, velocity);
    var action := RecommendAction(segment);
    e := EnhancedLead(lead.id, composite, segment, topSignals, action, icpFit, velocity);
  }

  /** `[score(lead) for lead in leads]`. */
  function MapLeads(score: Lead -> EnhancedLead, leads: seq<Lead>): (r: seq<EnhancedLead>)
    ensures |r| == |leads| && forall i :: 0 <= i < |leads| ==> r[i] == score(leads[i])
  {
    seq(|leads|, i requires 0 <= i < |leads| => score(leads[i]))
  }

  /** Scoring one more lead extends the scored list by that lead. */
  lemma MapLeadsExtend(score: Lead -> EnhancedLead, leads: seq<Lead>, i: nat)
    requires i < |leads|
    ensures MapLeads(score, leads[..i + 1]) == MapLeads(score, leads[..i]) + [score(leads[i])]
  {
  }

  /** `enhance_scores`: one enhanced lead per input lead, in order. */
  method EnhanceScores(leads: seq<Lead>) returns (scoredCount: nat, enhanced: seq<EnhancedLead>)
    ensures scoredCount == |leads|
    ensures enhanced == MapLeads(ScoredLead, leads)
  {
    enhanced := [];
    var i := 0;
    while i < |leads|
      invariant 0 <= i <= |leads|
      invariant enhanced == MapLeads(ScoredLead, leads[..i])
    {
      var e := ScoreLead(leads[i]);
      MapLeadsExtend(ScoredLead, leads, i);
      enhanced := enhanced + [e];
      i := i + 1;
    }
    assert leads[..i] == leads;
    scoredCount := |enhanced|;
  }
}
