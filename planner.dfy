/**
 * The strategy planner: the candidate strategies for a site, each scored by its expected yield
 * and its risk, ordered by effectiveness into a plan, and the plan rebuilt after a failure.
 * A plan is a list of strategies with a cursor on the one being executed.
 */
module Planner {
  import opened Wrappers
  import opened Text
  import opened StableSort
  import WM = WorldModel
  import Goal

  datatype StrategyType = SitemapCrawl | AutoDiscovery | DirectListing | ApiExtraction | RssFeed | GoogleCache | WaybackMachine
  {
    /** The enum's string value: the key strategy statistics are filed under. */
    function Value(): string {
      match this
      case SitemapCrawl => "sitemap_crawl"
      case AutoDiscovery => "auto_discovery"
      case DirectListing => "direct_listing"
      case ApiExtraction => "api_extraction"
      case RssFeed => "rss_feed"
      case GoogleCache => "google_cache"
      case WaybackMachine => "wayback_machine"
    }
  }

  datatype StrategyConfig = StrategyConfig(
    maxPages: int,
    maxUrlsPerRun: int,
    timeoutSeconds: int,
    retryCount: int,
    delayBetweenRequests: real)

  const DefaultConfig := StrategyConfig(50, 100, 30, 3, 3.0)

  datatype Strategy = Strategy(
    name: StrategyType,
    targetUrl: string,
    priority: int,
    estimatedYield: int,
    riskLevel: real,
    config: StrategyConfig,
    attemptCount: int,
    lastAttemptSuccess: Option<bool>,
    jobsExtracted: int)

  /** A strategy as the builders create it: no attempts, no result, no jobs yet. */
  function NewStrategy(name: StrategyType, url: string, priority: int, expected: int, risk: real, config: StrategyConfig): Strategy {
    Strategy(name, url, priority, expected, risk, config, 0, None, 0)
  }

  function IncrementAttempt(s: Strategy): (t: Strategy)
    ensures t.attemptCount == s.attemptCount + 1
    ensures t.(attemptCount := s.attemptCount) == s
  {
    s.(attemptCount := s.attemptCount + 1)
  }

  function RecordResult(s: Strategy, success: bool, jobs: int): (t: Strategy)
    ensures t.lastAttemptSuccess == Some(success)
    ensures t.jobsExtracted == s.jobsExtracted + jobs
    ensures t.(lastAttemptSuccess := s.lastAttemptSuccess, jobsExtracted := s.jobsExtracted) == s
  {
    s.(lastAttemptSuccess := Some(success), jobsExtracted := s.jobsExtracted + jobs)
  }

  /** Results accumulate their jobs, and only the latest outcome is remembered. */
  lemma RecordResultTwice(s: Strategy, b1: bool, j1: int, b2: bool, j2: int)
    ensures RecordResult(RecordResult(s, b1, j1), b2, j2) == RecordResult(s, b2, j1 + j2)
  {
  }

  // ---------------------------------------------------------------------------------------------
  // Effectiveness

  /** `effectiveness_score` first rewrites a zero priority to 1 on the strategy itself. */
  function NormalizePriority(s: Strategy): (t: Strategy)
    ensures t.priority != 0
    ensures s.priority != 0 ==> t == s
    ensures t == s.(priority := t.priority)
  {
    if s.priority == 0 then s.(priority := 1) else s
  }

  /** `estimated_yield * (1 - risk_level) / priority`, with a zero priority read as 1. */
  function Effectiveness(s: Strategy): real {
    (s.estimatedYield as real) * (1.0 - s.riskLevel) / (NormalizePriority(s).priority as real)
  }

  /** The priority rewrite never changes the score, so scoring twice gives the same answer. */
  lemma EffectivenessOfNormalized(s: Strategy)
    ensures Effectiveness(NormalizePriority(s)) == Effectiveness(s)
    ensures NormalizePriority(NormalizePriority(s)) == NormalizePriority(s)
  {
  }

  /** With a positive priority, a non-negative yield and a risk in [0, 1], the score lies between 0 and the yield. */
  lemma EffectivenessBounds(s: Strategy)
    requires s.priority >= 1 && s.estimatedYield >= 0 && 0.0 <= s.riskLevel <= 1.0
    ensures 0.0 <= Effectiveness(s) <= s.estimatedYield as real
  {
    var y, p := s.estimatedYield as real, s.priority as real;
    var num := y * (1.0 - s.riskLevel);
    assert 0.0 <= num <= y;
    assert Effectiveness(s) * p == num;
    assert Effectiveness(s) <= num;
  }

  /** At equal priority, more yield and less risk never score lower. */
  lemma EffectivenessMonotone(a: Strategy, b: Strategy)
    requires a.priority == b.priority >= 1
    requires 0 <= b.estimatedYield <= a.estimatedYield
    requires a.riskLevel <= b.riskLevel <= 1.0
    ensures Effectiveness(a) >= Effectiveness(b)
  {
    var p, ya, yb := a.priority as real, a.estimatedYield as real, b.estimatedYield as real;
    ScoreMonotone(ya, p, 1.0 - b.riskLevel, 1.0 - a.riskLevel);
    ScoreMonotone(1.0 - b.riskLevel, p, yb, ya);
    assert ya * (1.0 - b.riskLevel) == (1.0 - b.riskLevel) * ya;
    assert yb * (1.0 - b.riskLevel) == (1.0 - b.riskLevel) * yb;
  }

  /** Scoring every strategy before the sort: the list afterwards holds the rewritten priorities. */
  function NormalizeAll(s: seq<Strategy>): (r: seq<Strategy>)
    ensures |r| == |s| && forall i :: 0 <= i < |s| ==> r[i] == NormalizePriority(s[i])
  {
    seq(|s|, i requires 0 <= i < |s| => NormalizePriority(s[i]))
  }

  /** `list.sort(key=effectiveness_score, reverse=True)`. */
  function SortByEffectiveness(s: seq<Strategy>): (r: seq<Strategy>)
    ensures |r| == |s| && multiset(r) == multiset(NormalizeAll(s))
    ensures SortedDesc(r, Effectiveness)
    ensures forall k :: WithKey(r, Effectiveness, k) == WithKey(NormalizeAll(s), Effectiveness, k)
  {
    SortDesc(NormalizeAll(s), Effectiveness)
  }

  // ---------------------------------------------------------------------------------------------
  // Plans

  function SumYields(s: seq<Strategy>): int {
    if s == [] then 0 else s[0].estimatedYield + SumYields(s[1..])
  }

  lemma {:induction false} SumYieldsAppend(a: seq<Strategy>, b: seq<Strategy>)
    ensures SumYields(a + b) == SumYields(a) + SumYields(b)
    decreases |a|
  {
    if a == [] {
      assert a + b == b;
    } else {
      assert (a + b)[1..] == a[1..] + b;
      SumYieldsAppend(a[1..], b);
    }
  }

  /** An ordered list of strategies and the index of the one to execute next. */
  class Plan {
    var strategies: seq<Strategy>
    var currentIndex: nat
    const createdAt: string
    const goalTarget: int

    constructor (s: seq<Strategy>, stamp: string, target: int)
      ensures strategies == s && currentIndex == 0 && createdAt == stamp && goalTarget == target
    {
      strategies := s;
      currentIndex := 0;
      createdAt := stamp;
      goalTarget := target;
    }

    function CurrentStrategy(): (r: Option<Strategy>)
      reads this
      ensures r.Some? <==> currentIndex < |strategies|
      ensures r.Some? ==> r.value == strategies[currentIndex]
    {
      if currentIndex < |strategies| then Some(strategies[currentIndex]) else None
    }

    /** Moves the cursor on, whether or not a strategy is left. */
    method Advance()
      modifies this
      ensures currentIndex == old(currentIndex) + 1 && strategies == old(strategies)
      ensures old(HasMore()) ==> currentIndex <= |strategies|
      ensures old(HasMore()) ==> GetRemaining() == old(GetRemaining())[1..]
    {
      currentIndex := currentIndex + 1;
    }

    /** A strategy is left at the cursor. */
    predicate HasMore(): (r: bool)
      reads this
      ensures r <==> CurrentStrategy().Some?
      ensures r <==> RemainingCount() > 0
    {
      currentIndex < |strategies|
    }

    function RemainingCount(): (n: nat)
      reads this
      ensures n == if currentIndex < |strategies| then |strategies| - currentIndex else 0
    {
      if |strategies| - currentIndex > 0 then |strategies| - currentIndex else 0
    }

    /** `strategies[current_index:]`: empty once the cursor is past the end. */
    function GetRemaining(): (r: seq<Strategy>)
      reads this
      ensures |r| == RemainingCount()
      ensures forall i :: 0 <= i < |r| ==> r[i] == strategies[currentIndex + i]
    {
      if currentIndex <= |strategies| then strategies[currentIndex..] else []
    }

    /** `list.insert(current_index, s)`: the new strategy becomes current, the others keep their order. */
    method InsertPriorityStrategy(s: Strategy)
      modifies this
      ensures currentIndex == old(currentIndex)
      ensures var k := if old(currentIndex) <= |old(strategies)| then old(currentIndex) else |old(strategies)|;
        strategies == old(strategies)[..k] + [s] + old(strategies)[k..]
      ensures old(currentIndex) <= |old(strategies)| ==> CurrentStrategy() == Some(s) && GetRemaining() == [s] + old(GetRemaining())
      ensures old(currentIndex) <= |old(strategies)| ==> TotalExpectedYield() == old(TotalExpectedYield()) + s.estimatedYield
    {
      var k := if currentIndex <= |strategies| then currentIndex else |strategies|;
      strategies := strategies[..k] + [s] + strategies[k..];
      if currentIndex <= k {
        assert strategies[currentIndex..] == [s] + old(strategies)[currentIndex..];
        SumYieldsAppend([s], old(strategies)[currentIndex..]);
      }
    }

    /** The yields of the strategies not yet executed, added up. */
    function TotalExpectedYield(): int
      reads this
    {
      SumYields(GetRemaining())
    }
  }

  /** The cursor functions agree: there is a current strategy exactly when something remains, and it heads the rest. */
  lemma PlanCursorAgrees(p: Plan)
    ensures p.HasMore() <==> p.RemainingCount() > 0
    ensures p.HasMore() <==> p.CurrentStrategy().Some?
    ensures p.CurrentStrategy().Some? ==> p.GetRemaining()[0] == p.CurrentStrategy().value
    ensures !p.HasMore() ==> p.GetRemaining() == [] && p.TotalExpectedYield() == 0
  {
  }

  // ---------------------------------------------------------------------------------------------
  // Strategy builders

  /** `DEFAULT_SCORES`: the prior (yield, risk) of each strategy type. */
  function DefaultScore(t: StrategyType): (r: (int, real))
    ensures r.0 > 0 && 0.0 < r.1 < 1.0
  {
    match t
    case SitemapCrawl => (30, 0.1)
    case AutoDiscovery => (20, 0.3)
    case DirectListing => (10, 0.2)
    case ApiExtraction => (50, 0.15)
    case RssFeed => (15, 0.05)
    case GoogleCache => (5, 0.4)
    case WaybackMachine => (3, 0.3)
  }

  function Min(a: real, b: real): (m: real)
    ensures m <= a && m <= b && (m == a || m == b)
  {
    if a <= b then a else b
  }

  /** Python's `int(x)` on a float: truncation toward zero. */
  function Trunc(x: real): (n: int)
    ensures x >= 0.0 ==> n as real <= x < n as real + 1.0
    ensures x < 0.0 ==> n as real - 1.0 < x <= n as real
  {
    if x >= 0.0 then x.Floor else -((-x).Floor)
  }

  /**
   * Expected yield and risk from the site's own record once the strategy was tried there (a zero
   * truncated average falls back to the prior yield), otherwise the prior.
   */
  function YieldAndRisk(t: StrategyType, perf: WM.StrategyPerformance): (r: (int, real))
    requires t == SitemapCrawl || t == AutoDiscovery
    ensures r.0 != 0
    ensures perf.attempts == 0 ==> r == DefaultScore(t)
    ensures perf.attempts > 0 ==> r.1 + perf.SuccessRate() == 1.0
    ensures perf.attempts > 0 && perf.AverageYield() >= 1.0 ==> r.0 as real <= perf.AverageYield() < r.0 as real + 1.0
    ensures perf.Valid() ==> 0.0 <= r.1 <= 1.0
  {
    if perf.attempts > 0 then
      var y := Trunc(perf.AverageYield());
      (if y != 0 then y else DefaultScore(t).0, 1.0 - perf.SuccessRate())
    else DefaultScore(t)
  }

  /** The sitemap crawl: the known sitemap (or `/sitemap.xml` of the domain), its risk raised by a tenth per threat step. */
  function SitemapStrategy(domain: string, sitemapUrl: Option<string>, perf: WM.StrategyPerformance, threat: WM.ThreatLevel, delay: real): (s: Strategy)
    ensures s.name == SitemapCrawl && s.priority == 1 && s.estimatedYield == YieldAndRisk(SitemapCrawl, perf).0
    ensures s.targetUrl == if sitemapUrl.Some? && sitemapUrl.value != "" then sitemapUrl.value else "https://" + domain + "/sitemap.xml"
    ensures s.riskLevel == 1.0 || s.riskLevel == YieldAndRisk(SitemapCrawl, perf).1 + 0.1 * threat.Value() as real
    ensures var raised := YieldAndRisk(SitemapCrawl, perf).1 + 0.1 * threat.Value() as real;
      (raised <= 1.0 ==> s.riskLevel == raised) && (raised > 1.0 ==> s.riskLevel == 1.0)
    ensures s.riskLevel <= 1.0
    ensures perf.Valid() ==> YieldAndRisk(SitemapCrawl, perf).1 <= s.riskLevel
    ensures s.config == DefaultConfig.(delayBetweenRequests := delay)
  {
    var (expected, risk) := YieldAndRisk(SitemapCrawl, perf);
    var url := if sitemapUrl.Some? && sitemapUrl.value != "" then sitemapUrl.value else "https://" + domain + "/sitemap.xml";
    NewStrategy(SitemapCrawl, url, 1, expected, Min(1.0, risk + threat.Value() as real * 0.1), DefaultConfig.(delayBetweenRequests := delay))
  }

  /** Auto-discovery from the home page: risk raised by 0.3 behind Cloudflare and by 0.15 per threat step, capped at 1. */
  function AutoDiscoveryStrategy(targetUrl: string, perf: WM.StrategyPerformance, cloudflare: bool, threat: WM.ThreatLevel, delay: real): (s: Strategy)
    ensures s.name == AutoDiscovery && s.priority == 2 && s.targetUrl == targetUrl
    ensures s.estimatedYield == YieldAndRisk(AutoDiscovery, perf).0
    ensures s.riskLevel <= 1.0
    ensures perf.Valid() ==> YieldAndRisk(AutoDiscovery, perf).1 <= s.riskLevel
    ensures perf.Valid() && cloudflare ==> Min(1.0, YieldAndRisk(AutoDiscovery, perf).1 + 0.3) <= s.riskLevel
    ensures !cloudflare && threat == WM.NoThreat ==> s.riskLevel == Min(1.0, YieldAndRisk(AutoDiscovery, perf).1)
    ensures var raised := YieldAndRisk(AutoDiscovery, perf).1 + (if cloudflare then 0.3 else 0.0) + 0.15 * threat.Value() as real;
      (raised <= 1.0 ==> s.riskLevel == raised) && (raised > 1.0 ==> s.riskLevel == 1.0)
    ensures s.config == DefaultConfig.(maxPages := 30, delayBetweenRequests := delay)
  {
    var (expected, risk) := YieldAndRisk(AutoDiscovery, perf);
    var r1 := if cloudflare then Min(1.0, risk + 0.3) else risk;
    var r2 := Min(1.0, r1 + threat.Value() as real * 0.15);
    NewStrategy(AutoDiscovery, targetUrl, 2, expected, r2, DefaultConfig.(maxPages := 30, delayBetweenRequests := delay))
  }

  /**
    * A site seen as more hostile never gets a less risky sitemap crawl or auto-discovery: the risk
    * does not fall as the threat level rises or when Cloudflare protection is detected.
    */
  lemma StrategyRiskMonotone(domain: string, sitemapUrl: Option<string>, targetUrl: string, perf: WM.StrategyPerformance,
                             cf1: bool, cf2: bool, t1: WM.ThreatLevel, t2: WM.ThreatLevel, delay: real)
    requires t1.Value() <= t2.Value() && (cf1 ==> cf2)
    ensures SitemapStrategy(domain, sitemapUrl, perf, t1, delay).riskLevel <= SitemapStrategy(domain, sitemapUrl, perf, t2, delay).riskLevel
    ensures AutoDiscoveryStrategy(targetUrl, perf, cf1, t1, delay).riskLevel <= AutoDiscoveryStrategy(targetUrl, perf, cf2, t2, delay).riskLevel
  {
  }

  /** The API strategy needs a known endpoint; it targets the first. */
  function ApiStrategy(endpoints: seq<string>): (r: Option<Strategy>)
    ensures r.Some? <==> endpoints != []
    ensures r.Some? ==> r.value.name == ApiExtraction && r.value.targetUrl == endpoints[0] && r.value.priority == 1
    ensures r.Some? ==> (r.value.estimatedYield, r.value.riskLevel) == DefaultScore(ApiExtraction)
    ensures r.Some? ==> r.value.config == DefaultConfig.(delayBetweenRequests := 1.0)
  {
    if endpoints == [] then None
    else
      var (expected, risk) := DefaultScore(ApiExtraction);
      Some(NewStrategy(ApiExtraction, endpoints[0], 1, expected, risk, DefaultConfig.(delayBetweenRequests := 1.0)))
  }

  const CachePrefix := "https://webcache.googleusercontent.com/search?q=cache:"
  const WaybackPrefix := "https://web.archive.org/web/"

  function GoogleCacheStrategy(targetUrl: string): (s: Strategy)
    ensures s.name == GoogleCache && s.targetUrl == CachePrefix + targetUrl && s.priority == 10
    ensures (s.estimatedYield, s.riskLevel) == DefaultScore(GoogleCache)
    ensures s.config == DefaultConfig.(maxUrlsPerRun := 10)
  {
    var (expected, risk) := DefaultScore(GoogleCache);
    NewStrategy(GoogleCache, CachePrefix + targetUrl, 10, expected, risk, DefaultConfig.(maxUrlsPerRun := 10))
  }

  function WaybackStrategy(targetUrl: string): (s: Strategy)
    ensures s.name == WaybackMachine && s.targetUrl == WaybackPrefix + targetUrl && s.priority == 11
    ensures s.estimatedYield == 3 && s.riskLevel == 0.3 && s.config == DefaultConfig
  {
    NewStrategy(WaybackMachine, WaybackPrefix + targetUrl, 11, 3, 0.3, DefaultConfig)
  }

  // ---------------------------------------------------------------------------------------------
  // Generating a plan

  /** What the planner reads of a site (after creating the statistics records it asks for). */
  datatype SiteView = SiteView(
    domain: string,
    sitemapUrl: Option<string>,
    sitemapPerf: WM.StrategyPerformance,
    autoPerf: WM.StrategyPerformance,
    threat: WM.ThreatLevel,
    delay: real,
    cloudflare: bool,
    apiAvailable: bool,
    apiEndpoints: seq<string>)

  function ViewOf(site: WM.TargetSiteModel, domain: string): SiteView
    reads site
  {
    SiteView(domain, site.sitemapUrl, site.PerformanceOf(SitemapCrawl.Value()), site.PerformanceOf(AutoDiscovery.Value()),
             site.threatLevel, site.GetRecommendedDelay(), site.HasCapability(WM.CloudflareProtected),
             site.HasCapability(WM.ApiAvailable), site.knownApiEndpoints)
  }

  /** The view of a site met for the first time: no statistics, no threat, the 3-second delay, no capabilities. */
  function FreshView(domain: string): SiteView {
    SiteView(domain, None, WM.FreshPerformance(SitemapCrawl.Value()), WM.FreshPerformance(AutoDiscovery.Value()),
             WM.NoThreat, 3.0, false, false, [])
  }

  /** The candidates in the order `generate_plan` appends them. */
  function Candidates(targetUrl: string, v: SiteView): seq<Strategy> {
    [SitemapStrategy(v.domain, v.sitemapUrl, v.sitemapPerf, v.threat, v.delay),
     AutoDiscoveryStrategy(targetUrl, v.autoPerf, v.cloudflare, v.threat, v.delay)]
    + (if v.apiAvailable && ApiStrategy(v.apiEndpoints).Some? then [ApiStrategy(v.apiEndpoints).value] else [])
    + (if v.threat == WM.Blocked then [GoogleCacheStrategy(targetUrl)] else [])
  }

  /** Priorities renumbered 1, 2, ... in list order. */
  function Renumbered(s: seq<Strategy>): (r: seq<Strategy>)
    ensures |r| == |s| && forall i :: 0 <= i < |s| ==> r[i] == s[i].(priority := i + 1)
  {
    seq(|s|, i requires 0 <= i < |s| => s[i].(priority := i + 1))
  }

  /** The loop that renumbers the sorted candidates. */
  method RenumberPriorities(s: seq<Strategy>) returns (r: seq<Strategy>)
    ensures |r| == |s|
    ensures forall i :: 0 <= i < |s| ==> r[i].priority == i + 1 && r[i] == s[i].(priority := r[i].priority)
  {
    r := s;
    var i := 0;
    while i < |r|
      invariant 0 <= i <= |r| == |s|
      invariant forall j :: 0 <= j < i ==> r[j] == s[j].(priority := j + 1)
      invariant forall j :: i <= j < |s| ==> r[j] == s[j]
    {
      r := r[i := r[i].(priority := i + 1)];
      i := i + 1;
    }
  }

  /** The strategies of the plan `generate_plan` returns for a site seen as `v`. */
  function PlannedStrategies(targetUrl: string, v: SiteView): seq<Strategy> {
    Renumbered(SortByEffectiveness(Candidates(targetUrl, v)))
  }

  function Kinds(s: seq<Strategy>): set<StrategyType> {
    set i | 0 <= i < |s| :: s[i].name
  }

  /** The priority each builder gives its strategy. */
  function InitialPriority(t: StrategyType): int {
    match t
    case SitemapCrawl => 1
    case AutoDiscovery => 2
    case ApiExtraction => 1
    case GoogleCache => 10
    case WaybackMachine => 11
    case _ => 1
  }

  lemma CandidatesShape(targetUrl: string, v: SiteView)
    ensures var c := Candidates(targetUrl, v);
      && |c| == 2 + (if v.apiAvailable && v.apiEndpoints != [] then 1 else 0) + (if v.threat == WM.Blocked then 1 else 0)
      && (forall i :: 0 <= i < |c| ==> c[i].priority == InitialPriority(c[i].name))
      && (forall i, j :: 0 <= i < j < |c| ==> c[i].name != c[j].name)
      && Kinds(c) == {SitemapCrawl, AutoDiscovery}
           + (if v.apiAvailable && v.apiEndpoints != [] then {ApiExtraction} else {})
           + (if v.threat == WM.Blocked then {GoogleCache} else {})
  {
    var c := Candidates(targetUrl, v);
    assert c[0].name == SitemapCrawl && c[1].name == AutoDiscovery;
    if v.apiAvailable && v.apiEndpoints != [] {
      assert c[2].name == ApiExtraction;
    }
    if v.threat == WM.Blocked {
      assert c[|c| - 1].name == GoogleCache;
    }
  }

  lemma KindsOfPermutation(a: seq<Strategy>, b: seq<Strategy>)
    requires multiset(a) == multiset(b)
    ensures Kinds(a) == Kinds(b)
  {
    forall t | t in Kinds(a) ensures t in Kinds(b) {
      var i :| 0 <= i < |a| && a[i].name == t;
      assert a[i] in multiset(b);
      var j :| 0 <= j < |b| && b[j] == a[i];
    }
    forall t | t in Kinds(b) ensures t in Kinds(a) {
      var j :| 0 <= j < |b| && b[j].name == t;
      assert b[j] in multiset(a);
      var i :| 0 <= i < |a| && a[i] == b[j];
    }
  }

  /**
   * Sitemap crawl and auto-discovery are always planned, the API strategy exactly when the site
   * advertises an API and knows an endpoint, the Google-cache fallback exactly when the site is blocked;
   * no kind appears twice.
   */
  lemma PlanKinds(targetUrl: string, v: SiteView)
    ensures var p := PlannedStrategies(targetUrl, v);
      && Kinds(p) == {SitemapCrawl, AutoDiscovery}
           + (if v.apiAvailable && v.apiEndpoints != [] then {ApiExtraction} else {})
           + (if v.threat == WM.Blocked then {GoogleCache} else {})
      && |p| == |Kinds(p)|
  {
    CandidatesShape(targetUrl, v);
    OrderedKinds(Candidates(targetUrl, v));
  }

  /** Sequences that agree on every strategy's kind have the same kinds. */
  lemma SameNames(a: seq<Strategy>, b: seq<Strategy>)
    requires |a| == |b| && forall i :: 0 <= i < |a| ==> a[i].name == b[i].name
    ensures Kinds(a) == Kinds(b)
  {
    forall t | t in Kinds(a) ensures t in Kinds(b) {
      var i :| 0 <= i < |a| && a[i].name == t;
    }
    forall t | t in Kinds(b) ensures t in Kinds(a) {
      var i :| 0 <= i < |b| && b[i].name == t;
    }
  }

  /** Ordering and renumbering distinct candidates keeps each kind once. */
  lemma OrderedKinds(c: seq<Strategy>)
    requires forall i, j :: 0 <= i < j < |c| ==> c[i].name != c[j].name
    ensures var p := Renumbered(SortByEffectiveness(c));
      Kinds(p) == Kinds(c) && |p| == |Kinds(p)|
  {
    var n := NormalizeAll(c);
    var s := SortByEffectiveness(c);
    SameNames(n, c);
    KindsOfPermutation(s, n);
    SameNames(Renumbered(s), s);
    DistinctKinds(c);
  }

  lemma {:induction false} DistinctKinds(c: seq<Strategy>)
    requires forall i, j :: 0 <= i < j < |c| ==> c[i].name != c[j].name
    ensures |Kinds(c)| == |c|
    decreases |c|
  {
    if c != [] {
      var rest := c[1..];
      DistinctKinds(rest);
      assert Kinds(c) == {c[0].name} + Kinds(rest);
      assert c[0].name !in Kinds(rest);
    }
  }

  /**
   * The plan is in non-increasing order of effectiveness as scored with the builders' priorities,
   * and then carries the priorities 1..N in plan order.
   */
  lemma PlanOrder(targetUrl: string, v: SiteView)
    ensures var p := PlannedStrategies(targetUrl, v);
      && (forall i :: 0 <= i < |p| ==> p[i].priority == i + 1)
      && (forall i, j :: 0 <= i < j < |p| ==>
            Effectiveness(p[i].(priority := InitialPriority(p[i].name))) >= Effectiveness(p[j].(priority := InitialPriority(p[j].name))))
  {
    var c := Candidates(targetUrl, v);
    CandidatesShape(targetUrl, v);
    var n := NormalizeAll(c);
    var s := SortByEffectiveness(c);
    var p := Renumbered(s);
    assert forall i :: 0 <= i < |n| ==> n[i] == c[i];
    forall i | 0 <= i < |s| ensures p[i].(priority := InitialPriority(p[i].name)) == s[i] {
      assert s[i] in multiset(n);
      var j :| 0 <= j < |n| && n[j] == s[i];
    }
  }

  /** A site with no statistics, no threat, no Cloudflare and no usable API, as every new site is. */
  predicate Untried(v: SiteView) {
    v.sitemapPerf.attempts == 0 && v.autoPerf.attempts == 0 && v.threat == WM.NoThreat
    && !v.cloudflare && !(v.apiAvailable && v.apiEndpoints != [])
  }

  lemma UntriedCandidates(targetUrl: string, v: SiteView)
    requires Untried(v)
    ensures var c := Candidates(targetUrl, v);
      && |c| == 2 && c[0].name == SitemapCrawl && c[1].name == AutoDiscovery
      && Effectiveness(c[0]) == 27.0 && Effectiveness(c[1]) == 7.0
  {
    var c := Candidates(targetUrl, v);
    assert YieldAndRisk(SitemapCrawl, v.sitemapPerf) == (30, 0.1);
    assert YieldAndRisk(AutoDiscovery, v.autoPerf) == (20, 0.3);
    assert c[0].riskLevel == 0.1 && c[1].riskLevel == 0.3;
  }

  /**
   * A site with no history and no threat (every site met for the first time) gets the sitemap crawl
   * first (score 27) and auto-discovery second (score 7), renumbered 1 and 2.
   */
  lemma UntriedSitePlan(targetUrl: string, v: SiteView)
    requires Untried(v)
    ensures var p := PlannedStrategies(targetUrl, v);
      var c := Candidates(targetUrl, v);
      p == [c[0].(priority := 1), c[1].(priority := 2)] && p[0].name == SitemapCrawl && p[1].name == AutoDiscovery
  {
    var c := Candidates(targetUrl, v);
    UntriedCandidates(targetUrl, v);
    SortTwoStrategies(c);
  }

  /** Two strategies with nonzero priorities whose scores are already in descending order keep their order. */
  lemma SortTwoStrategies(c: seq<Strategy>)
    requires |c| == 2 && c[0].priority != 0 && c[1].priority != 0
    requires Effectiveness(c[0]) > Effectiveness(c[1])
    ensures SortByEffectiveness(c) == c
  {
    assert NormalizeAll(c) == [c[0], c[1]];
    SortDescOfTwo(c[0], c[1], Effectiveness);
  }

  lemma FreshViewUntried(domain: string)
    ensures Untried(FreshView(domain))
  {
  }

  lemma SortDescOfTwo<T>(a: T, b: T, key: T -> real)
    requires key(a) > key(b)
    ensures SortDesc([a, b], key) == [a, b]
  {
    assert [a, b][1..] == [b];
    assert SortDesc([b], key) == [b];
    assert InsertPos(a, [b], key) == 0;
  }

  // ---------------------------------------------------------------------------------------------
  // Replanning

  /** The rate-limit adjustment: risk up by 0.2 (capped at 1) and the request delay doubled. */
  function Penalised(s: Strategy): Strategy {
    s.(riskLevel := Min(1.0, s.riskLevel + 0.2),
       config := s.config.(delayBetweenRequests := s.config.delayBetweenRequests * 2.0))
  }

  function PenalisedAll(s: seq<Strategy>): (r: seq<Strategy>)
    ensures |r| == |s| && forall i :: 0 <= i < |s| ==> r[i] == Penalised(s[i])
  {
    seq(|s|, i requires 0 <= i < |s| => Penalised(s[i]))
  }

  /** The loop over the remaining strategies that applies the rate-limit adjustment to each. */
  method PenaliseRemaining(s: seq<Strategy>) returns (r: seq<Strategy>)
    ensures |r| == |s|
    ensures forall i :: 0 <= i < |s| ==>
      && r[i].riskLevel == Min(1.0, s[i].riskLevel + 0.2)
      && r[i].config.delayBetweenRequests == 2.0 * s[i].config.delayBetweenRequests
      && r[i] == s[i].(riskLevel := r[i].riskLevel, config := s[i].config.(delayBetweenRequests := r[i].config.delayBetweenRequests))
  {
    r := s;
    var i := 0;
    while i < |r|
      invariant 0 <= i <= |r| == |s|
      invariant forall j :: 0 <= j < i ==> r[j] == Penalised(s[j])
      invariant forall j :: i <= j < |s| ==> r[j] == s[j]
    {
      r := r[i := Penalised(r[i])];
      i := i + 1;
    }
  }

  /** `_generate_fallback_plan`: Google cache then the Wayback Machine for the plan's first target, or nothing for an empty plan. */
  function FallbackStrategies(all: seq<Strategy>): (r: seq<Strategy>)
    ensures all == [] <==> r == []
    ensures all != [] ==> r == [GoogleCacheStrategy(all[0].targetUrl), WaybackStrategy(all[0].targetUrl)]
  {
    if all == [] then [] else [GoogleCacheStrategy(all[0].targetUrl), WaybackStrategy(all[0].targetUrl)]
  }

  predicate RateLimitReason(reason: string) {
    Contains(Lower(reason), "429") || Contains(Lower(reason), "rate limit")
  }

  predicate BlockedReason(reason: string) {
    Contains(Lower(reason), "403") || Contains(Lower(reason), "blocked")
  }

  /** The strategies of the plan `replan_after_failure` returns, given the old plan's list and its remainder. */
  function ReplannedStrategies(all: seq<Strategy>, remaining: seq<Strategy>, reason: string): seq<Strategy> {
    if remaining == [] then FallbackStrategies(all)
    else if RateLimitReason(reason) then SortByEffectiveness(PenalisedAll(remaining))
    else if BlockedReason(reason) then SortByEffectiveness(remaining + [GoogleCacheStrategy(remaining[0].targetUrl)])
    else SortByEffectiveness(remaining)
  }

  /** Nothing left: the fallback pair, or an empty plan when the old plan had no strategies at all. */
  lemma ReplanWhenNothingRemains(all: seq<Strategy>, reason: string)
    ensures ReplannedStrategies(all, [], reason) == FallbackStrategies(all)
    ensures ReplannedStrategies(all, [], reason) == [] <==> all == []
  {
  }

  /**
   * After a rate limit every remaining strategy is kept once, with its risk raised by 0.2 (never past 1)
   * and its delay doubled; after a block the remainder gains exactly one Google-cache strategy; any other
   * reason keeps the remainder. In each case the new plan is ordered by effectiveness.
   */
  lemma ReplanContents(all: seq<Strategy>, remaining: seq<Strategy>, reason: string)
    requires remaining != []
    ensures var r := ReplannedStrategies(all, remaining, reason);
      && SortedDesc(r, Effectiveness)
      && (RateLimitReason(reason) ==> multiset(r) == multiset(NormalizeAll(PenalisedAll(remaining))))
      && (!RateLimitReason(reason) && BlockedReason(reason) ==>
            multiset(r) == multiset(NormalizeAll(remaining)) + multiset{NormalizePriority(GoogleCacheStrategy(remaining[0].targetUrl))})
      && (!RateLimitReason(reason) && !BlockedReason(reason) ==> multiset(r) == multiset(NormalizeAll(remaining)))
  {
    if !RateLimitReason(reason) && BlockedReason(reason) {
      var g := GoogleCacheStrategy(remaining[0].targetUrl);
      assert NormalizeAll(remaining + [g]) == NormalizeAll(remaining) + [NormalizePriority(g)];
    }
  }

  /** Every strategy of a rate-limit replan carries a risk of at most 1 and no less than before. */
  lemma PenalisedRiskBounded(s: Strategy)
    requires s.riskLevel <= 1.0
    ensures s.riskLevel <= Penalised(s).riskLevel <= 1.0
    ensures Effectiveness(Penalised(s)) <= Effectiveness(s) || s.estimatedYield * NormalizePriority(s).priority < 0
  {
    var y, p := s.estimatedYield as real, NormalizePriority(s).priority as real;
    var t := Penalised(s);
    assert NormalizePriority(t).priority as real == p;
    if s.estimatedYield * NormalizePriority(s).priority >= 0 {
      assert y * p == (s.estimatedYield * NormalizePriority(s).priority) as real;
      ScoreMonotone(y, p, 1.0 - t.riskLevel, 1.0 - s.riskLevel);
    }
  }

  /** Scaling by `y / p` with `y * p` non-negative keeps the order of the factors. */
  lemma ScoreMonotone(y: real, p: real, a: real, b: real)
    requires p != 0.0 && y * p >= 0.0 && a <= b
    ensures y * a / p <= y * b / p
  {
    if p > 0.0 {
      assert y >= 0.0;
      assert y * a <= y * b by { assert y * (b - a) >= 0.0; }
    } else {
      assert y <= 0.0;
      assert y * a >= y * b by { assert (-y) * (b - a) >= 0.0; }
    }
  }

  /** The second half of `generate_plan`: the candidates sorted by effectiveness, then renumbered. */
  method OrderCandidates(targetUrl: string, view: SiteView) returns (r: seq<Strategy>)
    ensures r == PlannedStrategies(targetUrl, view)
  {
    var candidates := Candidates(targetUrl, view);
    var sorted := SortByEffectiveness(candidates);
    r := RenumberPriorities(sorted);
    assert r == Renumbered(sorted);
  }

  /** A site the agent has just met is seen through the fresh view. */
  lemma FreshSiteView(s: WM.TargetSiteModel, domain: string)
    requires s.Threat() == WM.ThreatState(WM.NoThreat, 0, 0, 0, 3.0) && s.capabilities == {}
    requires s.strategyPerformance == map[] && s.sitemapUrl == None && s.knownApiEndpoints == []
    ensures ViewOf(s, domain) == FreshView(domain)
  {
    FreshRecords(s, SitemapCrawl.Value(), AutoDiscovery.Value());
    CalmDelay(s);
  }

  /** With no statistics filed, a site reports a fresh record for any two strategies. */
  lemma FreshRecords(s: WM.TargetSiteModel, a: string, b: string)
    requires s.strategyPerformance == map[]
    ensures s.PerformanceOf(a) == WM.FreshPerformance(a) && s.PerformanceOf(b) == WM.FreshPerformance(b)
  {
  }

  /** A site with no threat and the default delay asks for 3 seconds. */
  lemma CalmDelay(s: WM.TargetSiteModel)
    requires s.Threat() == WM.ThreatState(WM.NoThreat, 0, 0, 0, 3.0)
    ensures s.threatLevel == WM.NoThreat && s.GetRecommendedDelay() == 3.0
  {
  }

  /** The statistics records after `get_strategy_performance(name)`: a fresh record filed when there is none. */
  function WithRecord(m: map<string, WM.StrategyPerformance>, name: string): (r: map<string, WM.StrategyPerformance>)
    ensures name in r && r.Keys == m.Keys + {name}
    ensures forall n :: n in m ==> r[n] == m[n]
    ensures name !in m ==> r[name] == WM.FreshPerformance(name)
  {
    if name in m then m else m[name := WM.FreshPerformance(name)]
  }

  /**
   * `after` is `before` with the sitemap and auto-discovery statistics records filed: records
   * already there are kept as they were.
   */
  predicate StatisticsFiled(before: map<string, WM.StrategyPerformance>, after: map<string, WM.StrategyPerformance>)
  {
    after == WithRecord(WithRecord(before, SitemapCrawl.Value()), AutoDiscovery.Value())
  }

  /** Every site filed in `before` is still filed, under the same domain, in `after`. */
  ghost predicate KeepsSites(before: map<string, WM.TargetSiteModel>, after: map<string, WM.TargetSiteModel>)
  {
    forall d :: d in before ==> d in after && after[d] == before[d]
  }

  /**
   * `get_or_create_site` under `key` took the table from `before` to `after`: `site` is filed there,
   * the table is unchanged when `key` was already filed, and otherwise gained that one entry.
   */
  ghost predicate FiledAs(before: map<string, WM.TargetSiteModel>, after: map<string, WM.TargetSiteModel>, key: string, site: WM.TargetSiteModel)
  {
    && key in after && after[key] == site
    && (key in before ==> after == before)
    && (key !in before ==> after == before[key := site])
  }

  /** Filing a site keeps every site filed before. */
  lemma FiledKeeps(before: map<string, WM.TargetSiteModel>, after: map<string, WM.TargetSiteModel>, key: string, site: WM.TargetSiteModel)
    requires FiledAs(before, after, key, site)
    ensures KeepsSites(before, after) && (key in before ==> before[key] == site)
  {
  }

  /** The target whose site `_generate_fallback_plan` files: the failed plan's first target, if any. */
  function FallbackTarget(strategies: seq<Strategy>): (u: Option<string>)
    ensures u.Some? <==> strategies != []
  {
    if strategies == [] then None else Some(strategies[0].targetUrl)
  }

  /**
   * The target whose site `replan_after_failure` files: the fallback plan's when nothing remains,
   * the first remaining strategy's on a block, none otherwise.
   */
  function ReplanTarget(strategies: seq<Strategy>, remaining: seq<Strategy>, reason: string): (u: Option<string>)
    ensures remaining == [] ==> u == FallbackTarget(strategies)
    ensures remaining != [] ==> (u.Some? <==> BlockedReason(reason) && !RateLimitReason(reason))
    ensures remaining != [] && u.Some? ==> u.value == remaining[0].targetUrl
  {
    if remaining == [] then FallbackTarget(strategies)
    else if RateLimitReason(reason) then None
    else if BlockedReason(reason) then Some(remaining[0].targetUrl)
    else None
  }

  /** The two `get_strategy_performance` calls of `generate_plan`: each files a fresh record when there is none. */
  method FileStatistics(site: WM.TargetSiteModel, domain: string)
    modifies site
    ensures SitemapCrawl.Value() in site.strategyPerformance && AutoDiscovery.Value() in site.strategyPerformance
    ensures ViewOf(site, domain) == old(ViewOf(site, domain))
    ensures StatisticsFiled(old(site.strategyPerformance), site.strategyPerformance)
    ensures site.firstSeen == old(site.firstSeen) && site.capabilities == old(site.capabilities)
    ensures site.observedRateLimit == old(site.observedRateLimit) && site.knownApiEndpoints == old(site.knownApiEndpoints)
    ensures site.sitemapUrl == old(site.sitemapUrl) && site.sitemapType == old(site.sitemapType)
    ensures site.lastSitemapCheck == old(site.lastSitemapCheck)
    ensures site.Threat() == old(site.Threat()) && site.lastAccessed == old(site.lastAccessed)
    ensures site.lastRequestTime == old(site.lastRequestTime)
  {
    ghost var sitemapPerf, autoPerf := site.PerformanceOf(SitemapCrawl.Value()), site.PerformanceOf(AutoDiscovery.Value());
    ghost var delay := site.GetRecommendedDelay();
    var _ := site.GetStrategyPerformance(SitemapCrawl.Value());
    assert site.PerformanceOf(AutoDiscovery.Value()) == autoPerf;
    var _ := site.GetStrategyPerformance(AutoDiscovery.Value());
    assert site.PerformanceOf(SitemapCrawl.Value()) == sitemapPerf;
    assert site.GetRecommendedDelay() == delay by {
      assert site.Threat() == old(site.Threat());
    }
  }

  // ---------------------------------------------------------------------------------------------
  // The planner

  class StrategyPlanner {
    const goal: Goal.ScrapingGoal
    const worldModel: WM.WorldModel

    constructor (g: Goal.ScrapingGoal, w: WM.WorldModel)
      ensures goal == g && worldModel == w
    {
      goal := g;
      worldModel := w;
    }

    /** The site filed for the domain of `targetUrl`, the only site planning may change. */
    function TargetSite(targetUrl: string): (r: set<WM.TargetSiteModel>)
      reads worldModel`sites
      ensures var key := WM.NormalizeDomain(worldModel.ExtractDomain(targetUrl));
        && (key in worldModel.sites ==> r == {worldModel.sites[key]})
        && (key !in worldModel.sites ==> r == {})
    {
      var key := WM.NormalizeDomain(worldModel.ExtractDomain(targetUrl));
      if key in worldModel.sites then {worldModel.sites[key]} else {}
    }

    /**
     * What planning for `targetUrl` reads: the view of the site filed for its domain, or the fresh
     * view when no site is filed yet.
     */
    function ViewBefore(targetUrl: string): (v: SiteView)
      reads worldModel`sites, TargetSite(targetUrl)
      ensures var key := WM.NormalizeDomain(worldModel.ExtractDomain(targetUrl));
        && (key in worldModel.sites ==> v == ViewOf(worldModel.sites[key], worldModel.ExtractDomain(targetUrl)))
        && (key !in worldModel.sites ==> v == FreshView(worldModel.ExtractDomain(targetUrl)))
    {
      var key := WM.NormalizeDomain(worldModel.ExtractDomain(targetUrl));
      if key in worldModel.sites then ViewOf(worldModel.sites[key], worldModel.ExtractDomain(targetUrl))
      else FreshView(worldModel.ExtractDomain(targetUrl))
    }

    /**
     * The site table went from `before` to what it is now by filing the domain of `target`, if any,
     * as `get_or_create_site` does; with no target it is unchanged.
     */
    ghost predicate FiledFor(before: map<string, WM.TargetSiteModel>, target: Option<string>)
      reads worldModel
    {
      if target.None? then worldModel.sites == before
      else
        var key := WM.NormalizeDomain(worldModel.ExtractDomain(target.value));
        key in worldModel.sites && FiledAs(before, worldModel.sites, key, worldModel.sites[key])
    }

    /** Filing the domain of a target keeps every site filed before. */
    lemma FiledForKeeps(before: map<string, WM.TargetSiteModel>, target: Option<string>)
      requires FiledFor(before, target)
      ensures KeepsSites(before, worldModel.sites)
    {
    }

    /** `get_or_create_site` for the domain of `targetUrl`: the site filed for it, seen as planning saw it. */
    method FileSite(targetUrl: string, now: real) returns (s: WM.TargetSiteModel)
      requires worldModel.Valid()
      modifies worldModel
      ensures worldModel.Valid()
      ensures var key := WM.NormalizeDomain(worldModel.ExtractDomain(targetUrl));
        && key in worldModel.sites && worldModel.sites[key] == s
        && (key in old(worldModel.sites) ==> worldModel.sites == old(worldModel.sites))
        && (key !in old(worldModel.sites) ==> fresh(s) && worldModel.sites == old(worldModel.sites)[key := s])
      ensures ViewOf(s, worldModel.ExtractDomain(targetUrl)) == old(ViewBefore(targetUrl))
      ensures worldModel.Rest() == old(worldModel.Rest())
    {
      s := worldModel.GetOrCreateSite(worldModel.ExtractDomain(targetUrl), now);
      assert ViewOf(s, worldModel.ExtractDomain(targetUrl)) == old(ViewBefore(targetUrl)) by {
        if WM.NormalizeDomain(worldModel.ExtractDomain(targetUrl)) !in old(worldModel.sites) {
          FreshSiteView(s, worldModel.ExtractDomain(targetUrl));
        }
      }
    }

    /** Filing a site under `key`, new or already there, is what `FiledAs` describes. */
    static lemma KeptSites(before: map<string, WM.TargetSiteModel>, after: map<string, WM.TargetSiteModel>, key: string, s: WM.TargetSiteModel)
      requires key in before ==> after == before
      requires key !in before ==> after == before[key := s]
      requires key in after && after[key] == s
      ensures FiledAs(before, after, key, s)
    {
    }

    /**
     * The first half of `generate_plan`: the target's site (created and filed if new) and its
     * sitemap and auto-discovery statistics records (created if missing), read into a view.
     */
    method ReadSite(targetUrl: string, now: real) returns (view: SiteView, ghost site: WM.TargetSiteModel)
      requires worldModel.Valid()
      modifies worldModel, TargetSite(targetUrl)
      ensures worldModel.Valid()
      ensures FiledAs(old(worldModel.sites), worldModel.sites, WM.NormalizeDomain(worldModel.ExtractDomain(targetUrl)), site)
      ensures WM.NormalizeDomain(worldModel.ExtractDomain(targetUrl)) !in old(worldModel.sites) ==> fresh(site)
      ensures view == ViewOf(site, worldModel.ExtractDomain(targetUrl)) && view == old(ViewBefore(targetUrl))
      ensures SitemapCrawl.Value() in site.strategyPerformance && AutoDiscovery.Value() in site.strategyPerformance
      ensures worldModel.Rest() == old(worldModel.Rest())
    {
      var domain := worldModel.ExtractDomain(targetUrl);
      var s := FileSite(targetUrl, now);
      ghost var filed, rest := worldModel.sites, worldModel.Rest();
      KeptSites(old(worldModel.sites), filed, WM.NormalizeDomain(domain), s);
      // `get_strategy_performance` returns the record already filed, or the fresh one it files,
      // so reading the view after filing gives what the site held before.
      assert s in old(TargetSite(targetUrl)) || fresh(s);
      FileStatistics(s, domain);
      assert worldModel.sites == filed && worldModel.Rest() == rest;
      view, site := ViewOf(s, domain), s;
    }

    /**
     * `generate_plan`: reads the target's site, then returns the candidates ordered by effectiveness
     * and renumbered, as a plan for the goal's target.
     */
    method GeneratePlan(targetUrl: string, now: real, stamp: string) returns (plan: Plan, ghost view: SiteView, ghost site: WM.TargetSiteModel)
      requires worldModel.Valid()
      modifies worldModel, TargetSite(targetUrl)
      ensures worldModel.Valid()
      ensures fresh(plan) && plan.currentIndex == 0 && plan.createdAt == stamp && plan.goalTarget == goal.targetValidJobs
      ensures plan.strategies == PlannedStrategies(targetUrl, view)
      ensures view == old(ViewBefore(targetUrl)) && view == ViewOf(site, worldModel.ExtractDomain(targetUrl))
      ensures FiledAs(old(worldModel.sites), worldModel.sites, WM.NormalizeDomain(worldModel.ExtractDomain(targetUrl)), site)
      ensures WM.NormalizeDomain(worldModel.ExtractDomain(targetUrl)) in old(worldModel.sites) ==>
        view == old(ViewOf(site, worldModel.ExtractDomain(targetUrl)))
      ensures WM.NormalizeDomain(worldModel.ExtractDomain(targetUrl)) !in old(worldModel.sites) ==> fresh(site)
      ensures worldModel.Rest() == old(worldModel.Rest())
    {
      var v;
      v, site := ReadSite(targetUrl, now);
      var strategies := OrderCandidates(targetUrl, v);
      view := v;
      plan := new Plan(strategies, stamp, goal.targetValidJobs);
    }

    /**
     * `replan_after_failure`: a fresh plan (cursor 0) over what remained of `plan`, adjusted for the
     * failure reason and re-sorted; the fallback plan when nothing remained.
     */
    method ReplanAfterFailure(plan: Plan, reason: string, now: real, stamp: string) returns (newPlan: Plan)
      requires worldModel.Valid()
      modifies worldModel
      ensures worldModel.Valid()
      ensures fresh(newPlan) && newPlan.currentIndex == 0 && newPlan.goalTarget == 0
      ensures newPlan.strategies == ReplannedStrategies(plan.strategies, plan.GetRemaining(), reason)
      ensures newPlan.createdAt == if plan.strategies == [] then "" else stamp
      ensures FiledFor(old(worldModel.sites), ReplanTarget(plan.strategies, plan.GetRemaining(), reason))
      ensures worldModel.Rest() == old(worldModel.Rest())
    {
      var remaining := plan.GetRemaining();
      if remaining == [] {
        newPlan := GenerateFallbackPlan(plan, now, stamp);
        return;
      }
      var adjusted := remaining;
      if RateLimitReason(reason) {
        adjusted := PenaliseRemaining(remaining);
        assert adjusted == PenalisedAll(remaining);
      } else if BlockedReason(reason) {
        var target := remaining[0].targetUrl;
        var _ := worldModel.GetOrCreateSite(worldModel.ExtractDomain(target), now);
        adjusted := remaining + [GoogleCacheStrategy(target)];
      }
      newPlan := new Plan(SortByEffectiveness(adjusted), stamp, 0);
    }

    /** `_generate_fallback_plan`: files the site of the old plan's first target and plans the two archive strategies. */
    method GenerateFallbackPlan(failed: Plan, now: real, stamp: string) returns (p: Plan)
      requires worldModel.Valid()
      modifies worldModel
      ensures worldModel.Valid()
      ensures fresh(p) && p.currentIndex == 0 && p.goalTarget == 0
      ensures p.strategies == FallbackStrategies(failed.strategies)
      ensures p.createdAt == if failed.strategies == [] then "" else stamp
      ensures FiledFor(old(worldModel.sites), FallbackTarget(failed.strategies))
      ensures worldModel.Rest() == old(worldModel.Rest())
    {
      if failed.strategies == [] {
        p := new Plan([], "", 0);
        return;
      }
      var original := failed.strategies[0].targetUrl;
      var _ := worldModel.GetOrCreateSite(worldModel.ExtractDomain(original), now);
      p := new Plan(FallbackStrategies(failed.strategies), stamp, 0);
    }
  }
}
