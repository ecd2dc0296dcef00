/**
 * The agent's beliefs about the sites it crawls: a threat level per domain driven by the HTTP
 * status codes it sees (429 Too Many Requests from section 4 of RFC 6585, 403 Forbidden from
 * section 15.5.4 of RFC 9110 and the 2xx class from section 15.3 of RFC 9110), per-strategy
 * statistics, remembered selectors, and the global sets of visited URLs and seen apply links,
 * including the shared newline-separated ledger of apply links.
 */
module WorldModel {
  import opened Wrappers
  import opened Text
  import opened Url

  // ---------------------------------------------------------------------------------------------
  // Enumerations

  datatype SiteCapability =
    | SitemapAvailable | SitemapXml | SitemapHtml | PaginationDetected | InfiniteScroll
    | ApiAvailable | JavascriptRequired | AuthenticatedOnly | CloudflareProtected | CaptchaPresent
  {
    /** The enum's string value, as persisted by `to_dict`. */
    function Value(): string {
      match this
      case SitemapAvailable => "sitemap_available"
      case SitemapXml => "sitemap_xml"
      case SitemapHtml => "sitemap_html"
      case PaginationDetected => "pagination_detected"
      case InfiniteScroll => "infinite_scroll"
      case ApiAvailable => "api_available"
      case JavascriptRequired => "js_required"
      case AuthenticatedOnly => "authenticated_only"
      case CloudflareProtected => "cloudflare_protected"
      case CaptchaPresent => "captcha_present"
    }
  }

  const AllCapabilities: set<SiteCapability> :=
    {SitemapAvailable, SitemapXml, SitemapHtml, PaginationDetected, InfiniteScroll,
     ApiAvailable, JavascriptRequired, AuthenticatedOnly, CloudflareProtected, CaptchaPresent}

  /** `SiteCapability(v)`: `None` is the `ValueError` for a string no member carries. */
  function CapabilityFromValue(v: string): (r: Option<SiteCapability>)
    ensures r.Some? ==> r.value.Value() == v
    ensures r.None? ==> forall c: SiteCapability :: c.Value() != v
  {
    if v == "sitemap_available" then Some(SitemapAvailable)
    else if v == "sitemap_xml" then Some(SitemapXml)
    else if v == "sitemap_html" then Some(SitemapHtml)
    else if v == "pagination_detected" then Some(PaginationDetected)
    else if v == "infinite_scroll" then Some(InfiniteScroll)
    else if v == "api_available" then Some(ApiAvailable)
    else if v == "js_required" then Some(JavascriptRequired)
    else if v == "authenticated_only" then Some(AuthenticatedOnly)
    else if v == "cloudflare_protected" then Some(CloudflareProtected)
    else if v == "captcha_present" then Some(CaptchaPresent)
    else None
  }

  lemma CapabilityValueRoundTrip(c: SiteCapability)
    ensures CapabilityFromValue(c.Value()) == Some(c)
  {
  }

  /** Distinct capabilities persist as distinct strings. */
  lemma CapabilityValueInjective(a: SiteCapability, b: SiteCapability)
    requires a.Value() == b.Value()
    ensures a == b
  {
    CapabilityValueRoundTrip(a);
    CapabilityValueRoundTrip(b);
  }

  /** `[c.value for c in caps]`, as a set: the list's order plays no part in reading it back. */
  function EncodeCapabilities(caps: set<SiteCapability>): set<string> {
    set c | c in caps :: c.Value()
  }

  /** `{SiteCapability(c) for c in values}`: every string must name a capability. */
  function DecodeCapabilities(values: set<string>): (r: Option<set<SiteCapability>>)
    ensures r.Some? <==> forall v :: v in values ==> CapabilityFromValue(v).Some?
    ensures r.Some? ==> forall c :: c in r.value <==> c.Value() in values
  {
    if forall v :: v in values ==> CapabilityFromValue(v).Some? then
      Some(set c | c in AllCapabilities && c.Value() in values)
    else None
  }

  lemma {:induction false} CapabilitiesRoundTrip(caps: set<SiteCapability>)
    ensures DecodeCapabilities(EncodeCapabilities(caps)) == Some(caps)
  {
    var enc := EncodeCapabilities(caps);
    forall v | v in enc ensures CapabilityFromValue(v).Some? {
      var c :| c in caps && c.Value() == v;
      CapabilityValueRoundTrip(c);
    }
    var dec := DecodeCapabilities(enc).value;
    forall c ensures c in dec <==> c in caps {
      if c in dec {
        var d :| d in caps && d.Value() == c.Value();
        CapabilityValueInjective(c, d);
      }
    }
    assert dec == caps;
  }

  datatype ThreatLevel = NoThreat | Low | Medium | High | Blocked {
    function Value(): (v: int)
      ensures 0 <= v <= 4
    {
      match this
      case NoThreat => 0
      case Low => 1
      case Medium => 2
      case High => 3
      case Blocked => 4
    }

    /** `ThreatLevel.get_recommended_delay`: seconds to wait between requests at this level. */
    function Delay(): real {
      match this
      case NoThreat => 3.0
      case Low => 5.0
      case Medium => 10.0
      case High => 30.0
      case Blocked => 60.0
    }
  }

  /** `ThreatLevel(v)`: `None` is the `ValueError` for an integer outside 0..4. */
  function ThreatFromValue(v: int): (r: Option<ThreatLevel>)
    ensures r.Some? <==> 0 <= v <= 4
    ensures r.Some? ==> r.value.Value() == v
  {
    if v == 0 then Some(NoThreat)
    else if v == 1 then Some(Low)
    else if v == 2 then Some(Medium)
    else if v == 3 then Some(High)
    else if v == 4 then Some(Blocked)
    else None
  }

  lemma ThreatValueRoundTrip(t: ThreatLevel)
    ensures ThreatFromValue(t.Value()) == Some(t)
  {
  }

  /** A higher threat level never recommends a shorter delay. */
  lemma ThreatDelayMonotone(a: ThreatLevel, b: ThreatLevel)
    requires a.Value() <= b.Value()
    ensures a.Delay() <= b.Delay()
  {
  }

  // ---------------------------------------------------------------------------------------------
  // Threat state machine

  /** The part of a site's state the threat machine reads and writes. */
  datatype ThreatState = ThreatState(level: ThreatLevel, count429: nat, count403: nat, totalBlocks: int, delay: real)

  /** The part of a site's state that request bookkeeping leaves alone: what was learned about the site. */
  datatype SiteProfile = SiteProfile(
    firstSeen: real, capabilities: set<SiteCapability>, observedRateLimit: Option<int>,
    strategyPerformance: map<string, StrategyPerformance>, sitemapUrl: Option<string>,
    sitemapType: Option<string>, lastSitemapCheck: Option<real>, knownApiEndpoints: seq<string>)

  /** What a site the agent has just met knows about itself. */
  function NewProfile(now: real): SiteProfile
  {
    SiteProfile(now, {}, None, map[], None, None, None, [])
  }

  /** `update_threat_level`: 429 escalates (even from BLOCKED), 403 blocks, 2xx steps down unless blocked. */
  function ThreatStep(s: ThreatState, status: int): (r: ThreatState)
    ensures r.level == Blocked <==> status == 403 || (s.level == Blocked && status != 429)
    ensures r.totalBlocks == s.totalBlocks + (if status == 403 then 1 else 0)
    ensures status != 429 && status != 403 && !(200 <= status < 300) ==> r == s
  {
    if status == 429 then
      var c := s.count429 + 1;
      if c >= 3 then s.(count429 := c, count403 := 0, level := High, delay := 30.0)
      else s.(count429 := c, count403 := 0, level := Medium, delay := 15.0)
    else if status == 403 then
      s.(count403 := s.count403 + 1, totalBlocks := s.totalBlocks + 1, level := Blocked, delay := 60.0)
    else if 200 <= status < 300 then
      var t := s.(count429 := 0, count403 := 0);
      if s.level == High then t.(level := Medium, delay := 10.0)
      else if s.level == Medium then t.(level := Low, delay := 5.0)
      else if s.level != Blocked then t.(level := NoThreat, delay := 3.0)
      else t
    else s
  }

  /** The threat state after a sequence of responses, in order. */
  function ThreatAfter(s: ThreatState, statuses: seq<int>): ThreatState
    decreases |statuses|
  {
    if statuses == [] then s else ThreatAfter(ThreatStep(s, statuses[0]), statuses[1..])
  }

  function Repeat(status: int, n: nat): (r: seq<int>)
    ensures |r| == n && forall i :: 0 <= i < n ==> r[i] == status
  {
    if n == 0 then [] else [status] + Repeat(status, n - 1)
  }

  /**
    * A 429 lengthens the 429 streak by one and ends the 403 streak; the site is MEDIUM with a
    * 15-second delay while the streak is shorter than three and HIGH with 30 seconds from then on,
    * whatever its level was (a blocked site included). The block count is not touched.
    */
  lemma RateLimitStep(s: ThreatState)
    ensures var r := ThreatStep(s, 429);
      && r.count429 == s.count429 + 1 && r.count403 == 0 && r.totalBlocks == s.totalBlocks
      && (r.count429 < 3 ==> r.level == Medium && r.delay == 15.0)
      && (r.count429 >= 3 ==> r.level == High && r.delay == 30.0)
  {
  }

  /** A 403 blocks the site with a 60-second delay, lengthens the 403 streak and counts one more block; the 429 streak is kept. */
  lemma ForbiddenStep(s: ThreatState)
    ensures var r := ThreatStep(s, 403);
      && r.level == Blocked && r.delay == 60.0
      && r.count403 == s.count403 + 1 && r.totalBlocks == s.totalBlocks + 1 && r.count429 == s.count429
  {
  }

  /**
    * A 2xx lowers the level by one step (to no lower than NONE) unless the site is blocked, and
    * clears both streaks; the new delay is 10 seconds from HIGH, 5 from MEDIUM and 3 from LOW or
    * NONE, and a blocked site keeps its delay.
    */
  lemma SuccessStepsDown(s: ThreatState, status: int)
    requires 200 <= status < 300
    ensures var r := ThreatStep(s, status);
      && r.count429 == 0 && r.count403 == 0 && r.totalBlocks == s.totalBlocks
      && (s.level == Blocked ==> r.level == Blocked && r.delay == s.delay)
      && (s.level != Blocked ==> r.level.Value() == if s.level.Value() > 0 then s.level.Value() - 1 else 0)
      && (s.level == High ==> r.delay == 10.0)
      && (s.level == Medium ==> r.delay == 5.0)
      && (s.level == Low || s.level == NoThreat ==> r.delay == 3.0)
  {
  }

  /** Two 429s in a row from a clean streak leave the site at MEDIUM; the third makes it HIGH. */
  lemma {:induction false} ThirdRateLimitIsHigh(s: ThreatState)
    requires s.count429 == 0
    ensures ThreatAfter(s, [429, 429]).level == Medium
    ensures ThreatAfter(s, [429, 429, 429]).level == High
  {
    var a := ThreatStep(s, 429);
    var b := ThreatStep(a, 429);
    var c := ThreatStep(b, 429);
    assert [429, 429][1..] == [429];
    assert [429, 429, 429][1..] == [429, 429];
    assert [429][1..] == [];
    assert ThreatAfter(b, []) == b;
    assert ThreatAfter(c, []) == c;
  }

  /** A 403 leaves the site blocked with the 60-second delay through any later run of responses without a 429. */
  lemma {:induction false} ForbiddenBlocksUntilRateLimited(s: ThreatState, statuses: seq<int>)
    requires forall i :: 0 <= i < |statuses| ==> statuses[i] != 429
    ensures ThreatAfter(s, [403] + statuses).level == Blocked
    ensures ThreatAfter(s, [403] + statuses).delay == 60.0
  {
    assert ([403] + statuses)[1..] == statuses;
    ForbiddenStep(s);
    BlockedUntilRateLimited(ThreatStep(s, 403), statuses);
  }

  /** Three 429s in a row make any site, blocked or not, HIGH with a 30-second delay. */
  lemma {:induction false} RateLimitsEscalate(s: ThreatState, n: nat)
    requires n >= 3
    ensures var r := ThreatAfter(s, Repeat(429, n));
      r.level == High && r.delay == 30.0 && r.count429 == s.count429 + n && r.count403 == 0
    decreases n
  {
    var t := ThreatStep(s, 429);
    assert Repeat(429, n)[1..] == Repeat(429, n - 1);
    if n == 3 {
      var u := ThreatStep(t, 429);
      assert Repeat(429, 2)[1..] == Repeat(429, 1);
      assert Repeat(429, 1)[1..] == [];
      assert ThreatAfter(u, Repeat(429, 1)) == ThreatStep(u, 429);
    } else {
      RateLimitsEscalate(t, n - 1);
    }
  }

  /** Three 2xx responses bring any site that is not blocked back to NONE with the 3-second delay. */
  lemma {:induction false} SuccessesCalmDown(s: ThreatState, n: nat)
    requires s.level != Blocked && n >= 3
    ensures var r := ThreatAfter(s, Repeat(200, n)); r.level == NoThreat && r.delay == 3.0
    decreases n
  {
    assert Repeat(200, n)[1..] == Repeat(200, n - 1);
    var t := ThreatStep(s, 200);
    if n == 3 {
      var u := ThreatStep(t, 200);
      assert Repeat(200, 2)[1..] == Repeat(200, 1);
      assert Repeat(200, 1)[1..] == [];
      assert ThreatAfter(u, Repeat(200, 1)) == ThreatStep(u, 200);
    } else {
      if t.level == NoThreat {
        CalmStaysCalm(t, n - 1);
      } else {
        SuccessesCalmDown(t, n - 1);
      }
    }
  }

  lemma {:induction false} CalmStaysCalm(s: ThreatState, n: nat)
    requires s.level == NoThreat && n >= 1
    ensures var r := ThreatAfter(s, Repeat(200, n)); r.level == NoThreat && r.delay == 3.0
    decreases n
  {
    assert Repeat(200, n)[1..] == Repeat(200, n - 1);
    if n > 1 {
      CalmStaysCalm(ThreatStep(s, 200), n - 1);
    } else {
      assert Repeat(200, 1)[1..] == [];
    }
  }

  /** A blocked site stays blocked, with its delay, through any run of responses that holds no 429. */
  lemma {:induction false} BlockedUntilRateLimited(s: ThreatState, statuses: seq<int>)
    requires s.level == Blocked && s.delay == 60.0
    requires forall i :: 0 <= i < |statuses| ==> statuses[i] != 429
    ensures ThreatAfter(s, statuses).level == Blocked && ThreatAfter(s, statuses).delay == 60.0
    decreases |statuses|
  {
    if statuses != [] {
      BlockedUntilRateLimited(ThreatStep(s, statuses[0]), statuses[1..]);
    }
  }

  // ---------------------------------------------------------------------------------------------
  // Strategy performance

  /** Statistics of one strategy on one site; a value held in the site's table. */
  datatype StrategyPerformance = StrategyPerformance(
    strategyName: string,
    attempts: nat,
    successes: nat,
    failures: nat,
    totalJobsExtracted: int,
    totalTimeSeconds: real,
    lastAttempt: Option<real>,
    lastSuccess: Option<real>)
  {
    predicate Valid() {
      attempts == successes + failures
    }

    /** Successes per attempt, with the prior 0.5 for an untried strategy. */
    function SuccessRate(): (r: real)
      ensures attempts == 0 ==> r == 0.5
      ensures attempts > 0 ==> r * (attempts as real) == successes as real
      ensures Valid() ==> 0.0 <= r <= 1.0
    {
      if attempts == 0 then 0.5 else (successes as real) / (attempts as real)
    }

    /** Jobs per attempt; 0 for an untried strategy. */
    function AverageYield(): (r: real)
      ensures attempts == 0 ==> r == 0.0
      ensures attempts > 0 ==> r * (attempts as real) == totalJobsExtracted as real
    {
      if attempts == 0 then 0.0 else (totalJobsExtracted as real) / (attempts as real)
    }

    /** Jobs per minute of recorded time; 0 when no time was recorded. */
    function Efficiency(): (r: real)
      ensures totalTimeSeconds == 0.0 ==> r == 0.0
      ensures totalTimeSeconds != 0.0 ==> r * totalTimeSeconds == 60.0 * totalJobsExtracted as real
    {
      if totalTimeSeconds == 0.0 then 0.0 else (totalJobsExtracted as real) / totalTimeSeconds * 60.0
    }
  }

  function FreshPerformance(name: string): (p: StrategyPerformance)
    ensures p.strategyName == name && p.Valid() && p.attempts == 0 && p.totalJobsExtracted == 0
  {
    StrategyPerformance(name, 0, 0, 0, 0, 0.0, None, None)
  }

  /** `record_attempt`: one more attempt, counted as a success (with its jobs) or a failure. */
  function RecordAttempt(p: StrategyPerformance, success: bool, jobs: int, duration: real, now: real): (q: StrategyPerformance)
    ensures q.attempts == p.attempts + 1
    ensures p.Valid() ==> q.Valid()
    ensures q.totalJobsExtracted == p.totalJobsExtracted + (if success then jobs else 0)
    ensures q.strategyName == p.strategyName && q.lastAttempt == Some(now)
  {
    var t := p.(attempts := p.attempts + 1, lastAttempt := Some(now), totalTimeSeconds := p.totalTimeSeconds + duration);
    if success then t.(successes := p.successes + 1, lastSuccess := Some(now), totalJobsExtracted := p.totalJobsExtracted + jobs)
    else t.(failures := p.failures + 1)
  }

  /** A success never lowers the success rate of a valid record, and a failure never raises it. */
  lemma RecordAttemptMovesRate(p: StrategyPerformance, success: bool, jobs: int, duration: real, now: real)
    requires p.Valid() && p.attempts > 0
    ensures var q := RecordAttempt(p, success, jobs, duration, now);
      if success then q.SuccessRate() >= p.SuccessRate() else q.SuccessRate() <= p.SuccessRate()
  {
    var q := RecordAttempt(p, success, jobs, duration, now);
    var a, s := p.attempts as real, p.successes as real;
    var x, y := p.SuccessRate(), q.SuccessRate();
    assert x * a == s && 0.0 <= x <= 1.0;
    assert y * (a + 1.0) == q.successes as real;
    assert x * (a + 1.0) == s + x;
    // Scaling both rates by `a + 1` keeps their order, and the scaled rates are the counts.
    MulMonotone(y, x, a + 1.0);
    MulMonotone(x, y, a + 1.0);
  }

  lemma MulMonotone(y: real, x: real, c: real)
    requires c > 0.0
    ensures y < x ==> y * c < x * c
  {
  }

  // ---------------------------------------------------------------------------------------------
  // Selector memory

  /** Selectors that worked on a site: the latest per selector type, success counts, and per-type fallbacks. */
  class SelectorMemory {
    /** The attribute `setattr(self, selector_type, selector)` writes, per selector type. */
    var primary: map<string, string>
    var alternatives: map<string, seq<string>>
    var successCount: map<string, int>
    var lastSuccess: map<string, real>

    /** No selector type lists the same fallback twice. */
    predicate Valid()
      reads this
    {
      forall t :: t in alternatives ==> forall i, j :: 0 <= i < j < |alternatives[t]| ==> alternatives[t][i] != alternatives[t][j]
    }

    constructor ()
      ensures primary == map[] && alternatives == map[] && successCount == map[] && lastSuccess == map[]
      ensures Valid()
    {
      primary, alternatives, successCount, lastSuccess := map[], map[], map[], map[];
    }

    /** The fallbacks for a selector type, oldest first; none for an unknown type. */
    function GetAlternatives(selectorType: string): (r: seq<string>)
      reads this
      ensures selectorType !in alternatives ==> r == []
      ensures selectorType in alternatives ==> r == alternatives[selectorType]
    {
      if selectorType in alternatives then alternatives[selectorType] else []
    }

    method RecordSuccess(selectorType: string, selector: string, now: real)
      requires Valid()
      modifies this
      ensures Valid()
      ensures primary == old(primary)[selectorType := selector]
      ensures successCount == old(successCount)[selector := (if selector in old(successCount) then old(successCount)[selector] else 0) + 1]
      ensures lastSuccess == old(lastSuccess)[selector := now]
      ensures selector in GetAlternatives(selectorType)
      ensures var before := old(GetAlternatives(selectorType));
        GetAlternatives(selectorType) == if selector in before then before else before + [selector]
      ensures forall t :: t != selectorType ==> GetAlternatives(t) == old(GetAlternatives(t))
    {
      primary := primary[selectorType := selector];
      successCount := successCount[selector := (if selector in successCount then successCount[selector] else 0) + 1];
      lastSuccess := lastSuccess[selector := now];
      var list := if selectorType in alternatives then alternatives[selectorType] else [];
      if selector !in list {
        list := list + [selector];
      }
      alternatives := alternatives[selectorType := list];
    }
  }

  // ---------------------------------------------------------------------------------------------
  // One target site

  /** What `to_dict` writes for a site (timestamps as seconds; capabilities as their values). */
  datatype SiteRecord = SiteRecord(
    domain: string,
    firstSeen: real,
    lastAccessed: real,
    capabilities: set<string>,
    threatLevel: int,
    totalBlocks: int,
    recommendedDelay: real,
    sitemapUrl: Option<string>,
    sitemapType: Option<string>)

  class TargetSiteModel {
    const domain: string
    var firstSeen: real
    var lastAccessed: real
    var capabilities: set<SiteCapability>
    var threatLevel: ThreatLevel
    var consecutive429: nat
    var consecutive403: nat
    var totalBlocks: int
    var lastRequestTime: Option<real>
    var recommendedDelaySeconds: real
    var observedRateLimit: Option<int>
    var strategyPerformance: map<string, StrategyPerformance>
    const selectors: SelectorMemory
    var sitemapUrl: Option<string>
    var sitemapType: Option<string>
    var lastSitemapCheck: Option<real>
    var knownApiEndpoints: seq<string>

    /** A site the agent has just met: no capabilities, no threat, the 3-second delay, no history. */
    constructor (d: string, now: real)
      ensures domain == d && firstSeen == now && lastAccessed == now
      ensures capabilities == {} && threatLevel == NoThreat && consecutive429 == 0 && consecutive403 == 0
      ensures totalBlocks == 0 && lastRequestTime == None && recommendedDelaySeconds == 3.0
      ensures observedRateLimit == None && strategyPerformance == map[] && fresh(selectors)
      ensures sitemapUrl == None && sitemapType == None && lastSitemapCheck == None && knownApiEndpoints == []
    {
      domain := d;
      firstSeen, lastAccessed := now, now;
      capabilities := {};
      threatLevel := NoThreat;
      consecutive429, consecutive403, totalBlocks := 0, 0, 0;
      lastRequestTime := None;
      recommendedDelaySeconds := 3.0;
      observedRateLimit := None;
      strategyPerformance := map[];
      selectors := new SelectorMemory();
      sitemapUrl, sitemapType, lastSitemapCheck := None, None, None;
      knownApiEndpoints := [];
    }

    function Threat(): ThreatState
      reads this
    {
      ThreatState(threatLevel, consecutive429, consecutive403, totalBlocks, recommendedDelaySeconds)
    }

    function Profile(): SiteProfile
      reads this
    {
      SiteProfile(firstSeen, capabilities, observedRateLimit, strategyPerformance,
                  sitemapUrl, sitemapType, lastSitemapCheck, knownApiEndpoints)
    }

    method AddCapability(c: SiteCapability)
      modifies this
      ensures capabilities == old(capabilities) + {c}
      ensures Threat() == old(Threat()) && strategyPerformance == old(strategyPerformance)
      ensures sitemapUrl == old(sitemapUrl) && sitemapType == old(sitemapType) && knownApiEndpoints == old(knownApiEndpoints)
      ensures lastAccessed == old(lastAccessed) && lastSitemapCheck == old(lastSitemapCheck)
    {
      capabilities := capabilities + {c};
    }

    predicate HasCapability(c: SiteCapability)
      reads this
    {
      c in capabilities
    }

    /** Records where the sitemap is; "xml" marks an XML sitemap, any other type an HTML one. */
    method DetectSitemap(url: string, kind: string, now: real)
      modifies this
      ensures sitemapUrl == Some(url) && sitemapType == Some(kind) && lastSitemapCheck == Some(now)
      ensures capabilities == old(capabilities) + {if kind == "xml" then SitemapXml else SitemapHtml, SitemapAvailable}
      ensures Threat() == old(Threat()) && strategyPerformance == old(strategyPerformance)
      ensures knownApiEndpoints == old(knownApiEndpoints) && lastAccessed == old(lastAccessed)
    {
      sitemapUrl := Some(url);
      sitemapType := Some(kind);
      lastSitemapCheck := Some(now);
      if kind == "xml" {
        AddCapability(SitemapXml);
      } else {
        AddCapability(SitemapHtml);
      }
      AddCapability(SitemapAvailable);
    }

    method UpdateThreatLevel(status: int, now: real)
      modifies this
      ensures Threat() == ThreatStep(old(Threat()), status)
      ensures lastAccessed == now
      ensures capabilities == old(capabilities) && strategyPerformance == old(strategyPerformance)
      ensures sitemapUrl == old(sitemapUrl) && sitemapType == old(sitemapType) && knownApiEndpoints == old(knownApiEndpoints)
      ensures lastRequestTime == old(lastRequestTime) && lastSitemapCheck == old(lastSitemapCheck)
      ensures Profile() == old(Profile())
    {
      lastAccessed := now;
      if status == 429 {
        consecutive429 := consecutive429 + 1;
        consecutive403 := 0;
        if consecutive429 >= 3 {
          threatLevel := High;
          recommendedDelaySeconds := 30.0;
        } else if consecutive429 >= 1 {
          threatLevel := Medium;
          recommendedDelaySeconds := 15.0;
        }
      } else if status == 403 {
        consecutive403 := consecutive403 + 1;
        totalBlocks := totalBlocks + 1;
        threatLevel := Blocked;
        recommendedDelaySeconds := 60.0;
      } else if 200 <= status < 300 {
        consecutive429 := 0;
        consecutive403 := 0;
        if threatLevel == High {
          threatLevel := Medium;
          recommendedDelaySeconds := 10.0;
        } else if threatLevel == Medium {
          threatLevel := Low;
          recommendedDelaySeconds := 5.0;
        } else if threatLevel != Blocked {
          threatLevel := NoThreat;
          recommendedDelaySeconds := 3.0;
        }
      }
    }

    /** Requests are safe unless the site is blocked; a blocked site asks for at least a minute between requests. */
    predicate IsSafeToRequest(): (r: bool)
      reads this
      ensures r <==> threatLevel != Blocked
      ensures !r ==> GetRecommendedDelay() >= 60.0
    {
      threatLevel != Blocked
    }

    /** The larger of the site's own delay and the one its threat level recommends. */
    function GetRecommendedDelay(): (d: real)
      reads this
      ensures d >= recommendedDelaySeconds && d >= threatLevel.Delay()
      ensures d == recommendedDelaySeconds || d == threatLevel.Delay()
    {
      if recommendedDelaySeconds >= threatLevel.Delay() then recommendedDelaySeconds else threatLevel.Delay()
    }

    /** The statistics recorded for a strategy, or a fresh record when there are none. */
    function PerformanceOf(name: string): (p: StrategyPerformance)
      reads this
      ensures name in strategyPerformance ==> p == strategyPerformance[name]
      ensures name !in strategyPerformance ==> p == FreshPerformance(name)
    {
      if name in strategyPerformance then strategyPerformance[name] else FreshPerformance(name)
    }

    /** Get-or-create: an unknown strategy gets a fresh record, stored before it is returned. */
    method GetStrategyPerformance(name: string) returns (p: StrategyPerformance)
      modifies this
      ensures p == old(PerformanceOf(name))
      ensures strategyPerformance == old(strategyPerformance)[name := p]
      ensures Threat() == old(Threat()) && capabilities == old(capabilities)
      ensures sitemapUrl == old(sitemapUrl) && sitemapType == old(sitemapType) && knownApiEndpoints == old(knownApiEndpoints)
      ensures lastAccessed == old(lastAccessed) && lastRequestTime == old(lastRequestTime)
      ensures Profile() == old(Profile()).(strategyPerformance := strategyPerformance)
    {
      if name !in strategyPerformance {
        strategyPerformance := strategyPerformance[name := FreshPerformance(name)];
      }
      p := strategyPerformance[name];
    }

    method RecordStrategyAttempt(name: string, success: bool, jobs: int, duration: real, now: real)
      modifies this
      ensures strategyPerformance == old(strategyPerformance)[name := RecordAttempt(old(PerformanceOf(name)), success, jobs, duration, now)]
      ensures Threat() == old(Threat()) && capabilities == old(capabilities)
      ensures sitemapUrl == old(sitemapUrl) && sitemapType == old(sitemapType) && knownApiEndpoints == old(knownApiEndpoints)
      ensures lastAccessed == old(lastAccessed)
    {
      var p := GetStrategyPerformance(name);
      strategyPerformance := strategyPerformance[name := RecordAttempt(p, success, jobs, duration, now)];
    }

    /** The success rate of a strategy, with the 0.5 prior for one never tried here. */
    function GetStrategySuccessRate(name: string): (r: real)
      reads this
      ensures name !in strategyPerformance ==> r == 0.5
      ensures name in strategyPerformance && strategyPerformance[name].Valid() ==> 0.0 <= r <= 1.0
    {
      PerformanceOf(name).SuccessRate()
    }

    /** A strategy whose (success rate, efficiency) pair is largest in lexicographic order; `None` with no statistics. */
    method GetBestStrategy() returns (r: Option<string>)
      ensures r.None? <==> strategyPerformance == map[]
      ensures r.Some? ==> r.value in strategyPerformance
      ensures r.Some? ==> forall n :: n in strategyPerformance ==> !RanksAbove(strategyPerformance[n], strategyPerformance[r.value])
    {
      if strategyPerformance == map[] {
        return None;
      }
      var left := strategyPerformance.Keys;
      var best :| best in left;
      left := left - {best};
      while left != {}
        invariant left <= strategyPerformance.Keys && best in strategyPerformance
        invariant forall n :: n in strategyPerformance && n !in left ==> !RanksAbove(strategyPerformance[n], strategyPerformance[best])
        decreases |left|
      {
        var n :| n in left;
        if RanksAbove(strategyPerformance[n], strategyPerformance[best]) {
          best := n;
        }
        left := left - {n};
      }
      r := Some(best);
    }

    function ToDict(): (d: SiteRecord)
      reads this
      ensures d.domain == domain && d.threatLevel == threatLevel.Value() && d.totalBlocks == totalBlocks
      ensures d.capabilities == EncodeCapabilities(capabilities)
      ensures d.recommendedDelay == recommendedDelaySeconds && d.sitemapUrl == sitemapUrl && d.sitemapType == sitemapType
    {
      SiteRecord(domain, firstSeen, lastAccessed, EncodeCapabilities(capabilities), threatLevel.Value(),
                 totalBlocks, recommendedDelaySeconds, sitemapUrl, sitemapType)
    }
  }

  /** The lexicographic order `sorted(..., key=(success_rate, efficiency), reverse=True)` ranks by. */
  predicate RanksAbove(a: StrategyPerformance, b: StrategyPerformance) {
    a.SuccessRate() > b.SuccessRate() || (a.SuccessRate() == b.SuccessRate() && a.Efficiency() > b.Efficiency())
  }

  /** `from_dict`: a site rebuilt from its record; `None` when a capability or the threat value is unknown. */
  method FromDict(d: SiteRecord, now: real) returns (r: Option<TargetSiteModel>)
    ensures r.Some? <==> DecodeCapabilities(d.capabilities).Some? && ThreatFromValue(d.threatLevel).Some?
    ensures r.Some? ==> fresh(r.value)
    ensures r.Some? ==> var s := r.value;
      && s.domain == d.domain && s.firstSeen == d.firstSeen && s.lastAccessed == d.lastAccessed
      && Some(s.capabilities) == DecodeCapabilities(d.capabilities)
      && Some(s.threatLevel) == ThreatFromValue(d.threatLevel)
      && s.totalBlocks == d.totalBlocks && s.recommendedDelaySeconds == d.recommendedDelay
      && s.sitemapUrl == d.sitemapUrl && s.sitemapType == d.sitemapType
      && s.consecutive429 == 0 && s.consecutive403 == 0 && s.strategyPerformance == map[]
      && s.knownApiEndpoints == [] && s.lastRequestTime == None
  {
    var caps := DecodeCapabilities(d.capabilities);
    var level := ThreatFromValue(d.threatLevel);
    if caps.None? || level.None? {
      return None;
    }
    var s := new TargetSiteModel(d.domain, now);
    s.firstSeen := d.firstSeen;
    s.lastAccessed := d.lastAccessed;
    s.capabilities := caps.value;
    s.threatLevel := level.value;
    s.totalBlocks := d.totalBlocks;
    s.recommendedDelaySeconds := d.recommendedDelay;
    s.sitemapUrl := d.sitemapUrl;
    s.sitemapType := d.sitemapType;
    r := Some(s);
  }

  /**
   * `from_dict(to_dict(site))`: domain, capabilities, threat level, block count, delay and sitemap
   * survive; the 429/403 streaks and the strategy statistics start again from their defaults.
   */
  method RoundTripSite(site: TargetSiteModel, now: real) returns (copy: TargetSiteModel)
    ensures copy.domain == site.domain && copy.capabilities == site.capabilities
    ensures copy.threatLevel == site.threatLevel && copy.totalBlocks == site.totalBlocks
    ensures copy.recommendedDelaySeconds == site.recommendedDelaySeconds
    ensures copy.sitemapUrl == site.sitemapUrl && copy.sitemapType == site.sitemapType
    ensures copy.consecutive429 == 0 && copy.consecutive403 == 0 && copy.strategyPerformance == map[]
  {
    CapabilitiesRoundTrip(site.capabilities);
    ThreatValueRoundTrip(site.threatLevel);
    var r := FromDict(site.ToDict(), now);
    copy := r.value;
  }

  // ---------------------------------------------------------------------------------------------
  // Domain keys and the shared ledger

  /** `domain.lower().replace('www.', '')`: the key of the site table. */
  function NormalizeDomain(domain: string): string {
    RemoveAll(Lower(domain), "www.")
  }

  /** Removing every "www." can expose a new one, so normalising a key again may change it. */
  lemma NormalizeNotIdempotent()
    ensures NormalizeDomain("wwwww.w.x") == "www.x"
    ensures NormalizeDomain("www.x") == "x"
  {
    var s := "wwwww.w.x";
    assert Lower(s) == s;
    assert s[..4] == "wwww" && s[1..] == "wwww.w.x";
    assert s[1..][..4] == "wwww" && s[1..][1..] == "www.w.x";
    assert s[2..][..4] == "www." && s[2..][4..] == "w.x";
    assert RemoveAll(s, "www.") == "ww" + RemoveAll("w.x", "www.");
    var t := "www.x";
    assert Lower(t) == t;
    assert t[..4] == "www." && t[4..] == "x";
  }

  /** `link.strip() in seen`: membership in a set of stripped apply links. */
  predicate LinkSeen(seen: set<string>, link: string) {
    Strip(link) in seen
  }

  /** The distinct links a ledger holds: its non-blank lines, stripped. */
  function LedgerLinks(lines: seq<string>): (r: set<string>)
    ensures "" !in r
  {
    if lines == [] then {}
    else (if Strip(lines[0]) != "" then {Strip(lines[0])} else {}) + LedgerLinks(lines[1..])
  }

  /** How many non-blank lines a ledger has, repeats included. */
  function NonBlankCount(lines: seq<string>): (n: nat)
    ensures n <= |lines|
  {
    if lines == [] then 0 else (if Strip(lines[0]) != "" then 1 else 0) + NonBlankCount(lines[1..])
  }

  lemma {:induction false} NonBlankCountAppend(a: seq<string>, b: seq<string>)
    ensures NonBlankCount(a + b) == NonBlankCount(a) + NonBlankCount(b)
    decreases |a|
  {
    if a == [] {
      assert a + b == b;
    } else {
      assert (a + b)[1..] == a[1..] + b;
      NonBlankCountAppend(a[1..], b);
    }
  }

  lemma {:induction false} LedgerLinksAppend(a: seq<string>, b: seq<string>)
    ensures LedgerLinks(a + b) == LedgerLinks(a) + LedgerLinks(b)
    decreases |a|
  {
    if a == [] {
      assert a + b == b;
    } else {
      assert (a + b)[1..] == a[1..] + b;
      LedgerLinksAppend(a[1..], b);
    }
  }

  /** Every non-blank line of a ledger, stripped, is one of its links. */
  lemma {:induction false} LedgerHasLine(lines: seq<string>, i: nat)
    requires i < |lines| && Strip(lines[i]) != ""
    ensures Strip(lines[i]) in LedgerLinks(lines)
    decreases i
  {
    if i > 0 {
      LedgerHasLine(lines[1..], i - 1);
    }
  }

  lemma LedgerOfOneLine(line: string)
    ensures LedgerLinks([line]) == if Strip(line) != "" then {Strip(line)} else {}
    ensures NonBlankCount([line]) == if Strip(line) != "" then 1 else 0
  {
    assert [line][1..] == [];
  }

  /** A character that ends a line when a file is read in text mode (universal newlines). */
  predicate IsLineBreak(c: char) {
    c == '\n' || c == '\r'
  }

  predicate NoLineBreak(s: string) {
    forall k :: 0 <= k < |s| ==> !IsLineBreak(s[k])
  }

  /**
   * The lines `for line in f` yields for a file opened in text mode: "\n", "\r" and "\r\n" each end
   * a line and come back as "\n"; a last line without a terminator is yielded as it is.
   */
  function FileLines(file: string): seq<string> {
    LinesFrom(file, "")
  }

  /** The lines of `rest`, the first of which starts with the partial line `line`. */
  function LinesFrom(rest: string, line: string): seq<string>
    decreases |rest|
  {
    if rest == [] then (if line == [] then [] else [line])
    else if rest[0] == '\n' then [line + "\n"] + LinesFrom(rest[1..], "")
    else if rest[0] == '\r' then
      if |rest| > 1 && rest[1] == '\n' then [line + "\n"] + LinesFrom(rest[2..], "")
      else [line + "\n"] + LinesFrom(rest[1..], "")
    else LinesFrom(rest[1..], line + [rest[0]])
  }

  /** Text that ends with "\n" closes its last line, so what follows it starts a new one. */
  lemma {:induction false} LinesFromAppend(a: string, b: string, line: string)
    requires a != [] && a[|a| - 1] == '\n'
    ensures LinesFrom(a + b, line) == LinesFrom(a, line) + LinesFrom(b, "")
    decreases |a|
  {
    var ab := a + b;
    assert ab[0] == a[0];
    if a[0] == '\n' || (a[0] == '\r' && !(|a| > 1 && a[1] == '\n')) || !IsLineBreak(a[0]) {
      assert ab[1..] == a[1..] + b;
      if |a| == 1 {
        assert ab[1..] == b;
      } else {
        LinesFromAppend(a[1..], b, if IsLineBreak(a[0]) then "" else line + [a[0]]);
      }
    } else {
      assert |ab| > 1 && ab[1] == '\n';
      assert ab[2..] == a[2..] + b;
      if |a| == 2 {
        assert ab[2..] == b;
      } else {
        LinesFromAppend(a[2..], b, "");
      }
    }
  }

  /** The lines of a file that is empty or ends with "\n", followed by anything, are the lines of each. */
  lemma FileLinesAppend(a: string, b: string)
    requires a == [] || a[|a| - 1] == '\n'
    ensures FileLines(a + b) == FileLines(a) + FileLines(b)
  {
    if a == [] {
      assert a + b == b;
    } else {
      LinesFromAppend(a, b, "");
    }
  }

  /** Text without a line break, closed by "\n", is one line. */
  lemma {:induction false} OneLine(x: string, line: string)
    requires NoLineBreak(x)
    ensures LinesFrom(x + "\n", line) == [line + x + "\n"]
    decreases |x|
  {
    if x == [] {
      assert x + "\n" == "\n";
      assert "\n"[1..] == [];
      assert line + x + "\n" == line + "\n";
    } else {
      assert (x + "\n")[0] == x[0];
      assert (x + "\n")[1..] == x[1..] + "\n";
      assert NoLineBreak(x[1..]) by {
        forall k | 0 <= k < |x[1..]| ensures !IsLineBreak(x[1..][k]) {
          assert x[1..][k] == x[k + 1];
        }
      }
      OneLine(x[1..], line + [x[0]]);
      assert line + [x[0]] + x[1..] == line + x;
    }
  }

  /** What `save_to_shared_history` writes: one stripped link and "\n" per new link, in order. */
  function SavedText(links: seq<string>): (r: string)
    ensures r == [] || r[|r| - 1] == '\n'
  {
    if links == [] then [] else Strip(links[0]) + "\n" + SavedText(links[1..])
  }

  lemma {:induction false} SavedTextAppend(a: seq<string>, b: seq<string>)
    ensures SavedText(a + b) == SavedText(a) + SavedText(b)
    decreases |a|
  {
    if a == [] {
      assert a + b == b;
    } else {
      assert (a + b)[0] == a[0] && (a + b)[1..] == a[1..] + b;
      SavedTextAppend(a[1..], b);
    }
  }

  /** `save_to_shared_history`: the file opened for appending, with the new links' lines written at its end. */
  function SaveToSharedHistory(file: string, newLinks: seq<string>): (r: string)
    ensures |r| >= |file| && r[..|file|] == file
    ensures newLinks == [] <==> r == file
    ensures r != file ==> r[|r| - 1] == '\n'
  {
    assert newLinks != [] ==> |SavedText(newLinks)| >= 1;
    file + SavedText(newLinks)
  }

  /**
   * Reading saved text back yields one line per saved link, the link stripped, provided no stripped
   * link holds a line break of its own.
   */
  lemma {:induction false} SavedTextReadBack(links: seq<string>)
    requires forall k :: 0 <= k < |links| ==> NoLineBreak(Strip(links[k]))
    ensures FileLines(SavedText(links)) == seq(|links|, k requires 0 <= k < |links| => Strip(links[k]) + "\n")
    decreases |links|
  {
    if links != [] {
      var head := Strip(links[0]) + "\n";
      FileLinesAppend(head, SavedText(links[1..]));
      OneLine(Strip(links[0]), "");
      assert "" + Strip(links[0]) + "\n" == head;
      SavedTextReadBack(links[1..]);
    }
  }

  /** A line without a break in it, closed by "\n", is the whole of a file. */
  lemma OneLineFile(x: string)
    requires NoLineBreak(x)
    ensures FileLines(x + "\n") == [x + "\n"]
  {
    OneLine(x, "");
    assert "" + x + "\n" == x + "\n";
  }

  /** Saved text splits around any one saved link. */
  lemma {:induction false} SavedTextAround(links: seq<string>, i: nat)
    requires i < |links|
    ensures SavedText(links) == SavedText(links[..i]) + ((Strip(links[i]) + "\n") + SavedText(links[i + 1..]))
    decreases i
  {
    if i > 0 {
      SavedTextAround(links[1..], i - 1);
      assert links[1..][..i - 1] == links[1..i];
      assert links[1..][i - 1 + 1..] == links[i + 1..];
      assert links[..i][0] == links[0] && links[..i][1..] == links[1..i];
    } else {
      assert links[..i] == [];
    }
  }

  /** A save splits around any one of the new links. */
  lemma SaveAround(file: string, links: seq<string>, i: nat)
    requires i < |links|
    ensures SaveToSharedHistory(file, links) ==
            (file + SavedText(links[..i])) + ((Strip(links[i]) + "\n") + SavedText(links[i + 1..]))
  {
    SavedTextAround(links, i);
  }

  /** A line closed by "\n" between two parts of a file, the first empty or ending with "\n", is read whole. */
  lemma LinesAround(front: string, x: string, back: string)
    requires front == [] || front[|front| - 1] == '\n'
    requires NoLineBreak(x)
    ensures FileLines(front + ((x + "\n") + back)) == FileLines(front) + ([x + "\n"] + FileLines(back))
  {
    FileLinesAppend(front, (x + "\n") + back);
    FileLinesAppend(x + "\n", back);
    OneLineFile(x);
  }

  /** The line a saved link becomes when the file it is appended to is empty or ends with "\n". */
  lemma LineOfSavedLink(file: string, newLinks: seq<string>, i: nat) returns (at: nat)
    requires file == [] || file[|file| - 1] == '\n'
    requires i < |newLinks| && NoLineBreak(Strip(newLinks[i]))
    ensures at < |FileLines(SaveToSharedHistory(file, newLinks))|
    ensures FileLines(SaveToSharedHistory(file, newLinks))[at] == Strip(newLinks[i]) + "\n"
  {
    var pre := SavedText(newLinks[..i]);
    SaveAround(file, newLinks, i);
    var front := file + pre;
    assert front == [] || front[|front| - 1] == '\n' by {
      if pre == [] {
        assert front == file;
      } else {
        assert front[|front| - 1] == pre[|pre| - 1];
      }
    }
    LinesAround(front, Strip(newLinks[i]), SavedText(newLinks[i + 1..]));
    at := |FileLines(front)|;
  }

  /**
   * After saving to a file that is empty or ends with "\n", reading the file back sees every saved
   * link that is not blank and holds no line break once stripped, whatever white space surrounded it.
   */
  lemma SavedLinksSeenAfterReload(seen: set<string>, file: string, newLinks: seq<string>, i: nat)
    requires file == [] || file[|file| - 1] == '\n'
    requires i < |newLinks| && Strip(newLinks[i]) != "" && NoLineBreak(Strip(newLinks[i]))
    ensures LinkSeen(seen + LedgerLinks(FileLines(SaveToSharedHistory(file, newLinks))), newLinks[i])
  {
    var link := Strip(newLinks[i]);
    var at := LineOfSavedLink(file, newLinks, i);
    StripPadding("", link, "\n");
    assert "" + link + "\n" == link + "\n";
    StripIdempotent(newLinks[i]);
    LedgerHasLine(FileLines(SaveToSharedHistory(file, newLinks)), at);
  }

  /**
   * Saving to a file that is empty or ends with "\n" adds to what a reload counts exactly the
   * non-blank new links, provided no stripped link holds a line break.
   */
  lemma SaveThenCount(file: string, newLinks: seq<string>)
    requires file == [] || file[|file| - 1] == '\n'
    requires forall k :: 0 <= k < |newLinks| ==> NoLineBreak(Strip(newLinks[k]))
    ensures NonBlankCount(FileLines(SaveToSharedHistory(file, newLinks))) ==
            NonBlankCount(FileLines(file)) + NonBlankCount(newLinks)
  {
    FileLinesAppend(file, SavedText(newLinks));
    SavedTextReadBack(newLinks);
    NonBlankCountAppend(FileLines(file), FileLines(SavedText(newLinks)));
    ReadBackCount(newLinks);
  }

  lemma {:induction false} ReadBackCount(links: seq<string>)
    ensures NonBlankCount(seq(|links|, k requires 0 <= k < |links| => Strip(links[k]) + "\n")) == NonBlankCount(links)
    decreases |links|
  {
    var lines := seq(|links|, k requires 0 <= k < |links| => Strip(links[k]) + "\n");
    if links != [] {
      assert lines[1..] == seq(|links[1..]|, k requires 0 <= k < |links[1..]| => Strip(links[1..][k]) + "\n");
      ReadBackCount(links[1..]);
      StripPadding("", Strip(links[0]), "\n");
      assert "" + Strip(links[0]) + "\n" == lines[0];
      StripIdempotent(links[0]);
    }
  }

  /** A file whose last line has no terminator: the first saved link joins it, and neither is seen. */
  lemma UnterminatedLineSwallowsLink()
    ensures FileLines(SaveToSharedHistory("a", ["b"])) == ["ab\n"]
    ensures var seen := LedgerLinks(FileLines(SaveToSharedHistory("a", ["b"])));
      !LinkSeen(seen, "a") && !LinkSeen(seen, "b") && LinkSeen(seen, "ab")
  {
    Unpadded("a");
    Unpadded("b");
    Unpadded("ab");
    assert SaveToSharedHistory("a", ["b"]) == "ab" + "\n";
    OneLine("ab", "");
    assert "" + "ab" + "\n" == "ab\n";
    StripPadding("", "ab", "\n");
    LedgerOfOneLine("ab\n");
  }

  /** A link with a line break inside it is read back as two links, and the link itself is not seen. */
  lemma InnerBreakSplitsLink()
    ensures FileLines(SaveToSharedHistory("", ["a\nb"])) == ["a\n", "b\n"]
    ensures var seen := LedgerLinks(FileLines(SaveToSharedHistory("", ["a\nb"])));
      LinkSeen(seen, "a") && LinkSeen(seen, "b") && !LinkSeen(seen, "a\nb")
  {
    InnerBreakLines();
    TwoLineLedger();
  }

  /** The ledger with the lines "a" and "b" holds exactly the links "a" and "b". */
  lemma TwoLineLedger()
    ensures var seen := LedgerLinks(["a\n", "b\n"]);
      LinkSeen(seen, "a") && LinkSeen(seen, "b") && !LinkSeen(seen, "a\nb")
  {
    Unpadded("a\nb");
    StripPadding("", "a", "\n");
    StripPadding("", "b", "\n");
    Unpadded("a");
    Unpadded("b");
    assert "" + "a" + "\n" == "a\n" && "" + "b" + "\n" == "b\n";
    LedgerLinksAppend(["a\n"], ["b\n"]);
    LedgerOfOneLine("a\n");
    LedgerOfOneLine("b\n");
    assert ["a\n", "b\n"] == ["a\n"] + ["b\n"];
  }

  lemma InnerBreakLines()
    ensures FileLines(SaveToSharedHistory("", ["a\nb"])) == ["a\n", "b\n"]
  {
    Unpadded("a\nb");
    assert SavedText(["a\nb"]) == "a\nb" + "\n" + SavedText([]);
    assert "a\nb" + "\n" == ("a" + "\n") + ("b" + "\n");
    assert SaveToSharedHistory("", ["a\nb"]) == ("a" + "\n") + ("b" + "\n");
    FileLinesAppend("a" + "\n", "b" + "\n");
    OneLineFile("a");
    OneLineFile("b");
    assert "a" + "\n" == "a\n" && "b" + "\n" == "b\n";
    assert ["a\n"] + ["b\n"] == ["a\n", "b\n"];
  }

  /** A string that neither starts nor ends with white space strips to itself. */
  lemma Unpadded(s: string)
    requires s != [] && !IsSpace(s[0]) && !IsSpace(s[|s| - 1])
    ensures Strip(s) == s
  {
    LStripOfNoLeadingSpace(s);
    RStripOfNoTrailingSpace(s);
  }

  // ---------------------------------------------------------------------------------------------
  // The global world model

  class WorldModel {
    var sites: map<string, TargetSiteModel>
    var seenUrls: set<string>
    var failedUrls: set<string>
    var extractedJobs: seq<map<string, string>>
    var seenApplyLinks: set<string>
    var globalRateLimitActive: bool
    var sessionStartTime: Option<real>
    var totalRequests: nat

    /** Each site is filed under its own domain. */
    predicate Valid()
      reads this, sites.Values
    {
      forall d :: d in sites ==> sites[d].domain == d
    }

    /** Everything the world model holds besides its site table. */
    function Rest(): (set<string>, set<string>, seq<map<string, string>>, set<string>, bool, Option<real>, nat)
      reads this
    {
      (seenUrls, failedUrls, extractedJobs, seenApplyLinks, globalRateLimitActive, sessionStartTime, totalRequests)
    }

    constructor ()
      ensures sites == map[] && seenUrls == {} && failedUrls == {} && extractedJobs == []
      ensures seenApplyLinks == {} && !globalRateLimitActive && sessionStartTime == None && totalRequests == 0
      ensures Valid()
    {
      sites := map[];
      seenUrls, failedUrls := {}, {};
      extractedJobs := [];
      seenApplyLinks := {};
      globalRateLimitActive := false;
      sessionStartTime := None;
      totalRequests := 0;
    }

    /** The site filed under the normalised domain, created (and filed) when there is none. */
    method GetOrCreateSite(domain: string, now: real) returns (site: TargetSiteModel)
      requires Valid()
      modifies this
      ensures Valid()
      ensures NormalizeDomain(domain) in sites && site == sites[NormalizeDomain(domain)]
      ensures NormalizeDomain(domain) in old(sites) ==> sites == old(sites)
      ensures NormalizeDomain(domain) !in old(sites) ==>
        && sites == old(sites)[NormalizeDomain(domain) := site] && fresh(site) && fresh(site.selectors)
        && site.Threat() == ThreatState(NoThreat, 0, 0, 0, 3.0) && site.capabilities == {}
        && site.strategyPerformance == map[] && site.sitemapUrl == None && site.knownApiEndpoints == []
        && site.Profile() == NewProfile(now) && site.domain == NormalizeDomain(domain)
      ensures forall d :: d in old(sites) ==> d in sites && sites[d] == old(sites[d])
      ensures seenUrls == old(seenUrls) && failedUrls == old(failedUrls) && extractedJobs == old(extractedJobs)
      ensures seenApplyLinks == old(seenApplyLinks) && totalRequests == old(totalRequests)
      ensures sessionStartTime == old(sessionStartTime) && globalRateLimitActive == old(globalRateLimitActive)
    {
      var key := NormalizeDomain(domain);
      if key !in sites {
        var s := new TargetSiteModel(key, now);
        sites := sites[key := s];
      }
      site := sites[key];
    }

    function GetSite(domain: string): (r: Option<TargetSiteModel>)
      reads this
      ensures r.Some? <==> NormalizeDomain(domain) in sites
      ensures r.Some? ==> r.value == sites[NormalizeDomain(domain)]
    {
      var key := NormalizeDomain(domain);
      if key in sites then Some(sites[key]) else None
    }

    /** The normalised host of a URL. */
    function ExtractDomain(url: string): string {
      NormalizeDomain(Netloc(url))
    }

    method MarkUrlVisited(url: string)
      modifies this
      ensures seenUrls == old(seenUrls) + {url}
      ensures sites == old(sites) && failedUrls == old(failedUrls) && seenApplyLinks == old(seenApplyLinks)
      ensures extractedJobs == old(extractedJobs) && totalRequests == old(totalRequests)
      ensures sessionStartTime == old(sessionStartTime) && globalRateLimitActive == old(globalRateLimitActive)
    {
      seenUrls := seenUrls + {url};
    }

    method MarkUrlFailed(url: string)
      modifies this
      ensures failedUrls == old(failedUrls) + {url} && seenUrls == old(seenUrls) + {url}
      ensures sites == old(sites) && seenApplyLinks == old(seenApplyLinks)
      ensures extractedJobs == old(extractedJobs) && totalRequests == old(totalRequests)
      ensures sessionStartTime == old(sessionStartTime) && globalRateLimitActive == old(globalRateLimitActive)
    {
      failedUrls := failedUrls + {url};
      seenUrls := seenUrls + {url};
    }

    /** A URL is seen once it was visited or failed in this or an earlier session. */
    predicate IsUrlSeen(url: string): (r: bool)
      reads this
      ensures r <==> url in seenUrls
    {
      url in seenUrls
    }

    /** `link.strip() in seen_apply_links`: white space around a link does not make it new. */
    predicate IsApplyLinkSeen(link: string): (r: bool)
      reads this
      ensures r <==> Strip(link) in seenApplyLinks
    {
      LinkSeen(seenApplyLinks, link)
    }

    /** Stores the stripped link, so the link is seen afterwards with any white space around it. */
    method AddApplyLink(link: string)
      modifies this
      ensures seenApplyLinks == old(seenApplyLinks) + {Strip(link)}
      ensures IsApplyLinkSeen(link)
      ensures forall w1, w2 :: AllSpace(w1) && AllSpace(w2) ==> IsApplyLinkSeen(w1 + link + w2)
      ensures sites == old(sites) && seenUrls == old(seenUrls) && failedUrls == old(failedUrls)
      ensures extractedJobs == old(extractedJobs) && totalRequests == old(totalRequests)
      ensures sessionStartTime == old(sessionStartTime) && globalRateLimitActive == old(globalRateLimitActive)
    {
      seenApplyLinks := seenApplyLinks + {Strip(link)};
      forall w1, w2 | AllSpace(w1) && AllSpace(w2) ensures IsApplyLinkSeen(w1 + link + w2) {
        StripPadding(w1, link, w2);
      }
    }

    /** Stores the job and remembers its "link" (or else its "Apply_Link") as seen. */
    method AddExtractedJob(job: map<string, string>)
      modifies this
      ensures extractedJobs == old(extractedJobs) + [job]
      ensures seenApplyLinks == old(seenApplyLinks) +
        (if "link" in job then {Strip(job["link"])} else if "Apply_Link" in job then {Strip(job["Apply_Link"])} else {})
      ensures sites == old(sites) && seenUrls == old(seenUrls) && failedUrls == old(failedUrls)
      ensures totalRequests == old(totalRequests) && sessionStartTime == old(sessionStartTime)
      ensures globalRateLimitActive == old(globalRateLimitActive)
    {
      extractedJobs := extractedJobs + [job];
      if "link" in job {
        AddApplyLink(job["link"]);
      } else if "Apply_Link" in job {
        AddApplyLink(job["Apply_Link"]);
      }
    }

    method StartSession(now: real)
      modifies this
      ensures sessionStartTime == Some(now) && totalRequests == 0
      ensures sites == old(sites) && seenUrls == old(seenUrls) && failedUrls == old(failedUrls)
      ensures seenApplyLinks == old(seenApplyLinks) && extractedJobs == old(extractedJobs)
      ensures globalRateLimitActive == old(globalRateLimitActive)
    {
      sessionStartTime := Some(now);
      totalRequests := 0;
    }

    /** Counts a request and feeds its status code to the threat machine of the (possibly new) site. */
    method RecordRequest(domain: string, status: int, now: real)
      requires Valid()
      modifies this, sites.Values
      ensures Valid()
      ensures totalRequests == old(totalRequests) + 1
      ensures NormalizeDomain(domain) in sites
      ensures var site := sites[NormalizeDomain(domain)];
        && (NormalizeDomain(domain) in old(sites) ==> site == old(sites[NormalizeDomain(domain)]) && site.Threat() == ThreatStep(old(site.Threat()), status))
        && (NormalizeDomain(domain) !in old(sites) ==> site.Threat() == ThreatStep(ThreatState(NoThreat, 0, 0, 0, 3.0), status))
        && site.lastRequestTime == Some(now) && site.lastAccessed == now
      ensures NormalizeDomain(domain) in old(sites) ==> sites == old(sites)
      ensures NormalizeDomain(domain) in old(sites) ==> sites[NormalizeDomain(domain)].Profile() == old(sites[NormalizeDomain(domain)].Profile())
      ensures NormalizeDomain(domain) !in old(sites) ==> sites.Keys == old(sites.Keys) + {NormalizeDomain(domain)}
      ensures NormalizeDomain(domain) !in old(sites) ==> sites[NormalizeDomain(domain)].Profile() == NewProfile(now)
      ensures forall d :: d in old(sites) && d != NormalizeDomain(domain) ==> d in sites && sites[d] == old(sites[d])
      ensures forall d :: d in old(sites) && d != NormalizeDomain(domain) ==> unchanged(old(sites[d]))
      ensures seenUrls == old(seenUrls) && seenApplyLinks == old(seenApplyLinks)
    {
      totalRequests := totalRequests + 1;
      var site := GetOrCreateSite(domain, now);
      site.UpdateThreatLevel(status, now);
      site.lastRequestTime := Some(now);
    }

    /** The highest threat level of any site, compared by value; NONE when there are no sites. */
    method GetTotalThreatLevel() returns (t: ThreatLevel)
      ensures sites == map[] ==> t == NoThreat
      ensures sites != map[] ==> exists d :: d in sites && sites[d].threatLevel == t
      ensures forall d :: d in sites ==> sites[d].threatLevel.Value() <= t.Value()
    {
      t := NoThreat;
      var left := sites.Keys;
      var first := true;
      while left != {}
        invariant left <= sites.Keys
        invariant first <==> left == sites.Keys
        invariant !first ==> exists d :: d in sites && sites[d].threatLevel == t
        invariant first ==> t == NoThreat
        invariant forall d :: d in sites && d !in left ==> sites[d].threatLevel.Value() <= t.Value()
        decreases |left|
      {
        var d :| d in left;
        if first || sites[d].threatLevel.Value() > t.Value() {
          t := sites[d].threatLevel;
        }
        first := false;
        left := left - {d};
      }
    }

    /** Reads the ledger file line by line: every non-blank line, stripped, becomes a seen link; returns how many there were. */
    method LoadSharedHistory(file: string) returns (loaded: nat)
      modifies this
      ensures seenApplyLinks == old(seenApplyLinks) + LedgerLinks(FileLines(file))
      ensures loaded == NonBlankCount(FileLines(file))
      ensures sites == old(sites) && seenUrls == old(seenUrls) && failedUrls == old(failedUrls)
      ensures extractedJobs == old(extractedJobs) && totalRequests == old(totalRequests)
      ensures sessionStartTime == old(sessionStartTime) && globalRateLimitActive == old(globalRateLimitActive)
    {
      var links;
      links, loaded := ReadLedger(FileLines(file));
      seenApplyLinks := seenApplyLinks + links;
    }
  }

  /** The loop over the ledger's lines: each non-blank line, stripped, is collected and counted. */
  method ReadLedger(lines: seq<string>) returns (links: set<string>, loaded: nat)
    ensures links == LedgerLinks(lines)
    ensures loaded == NonBlankCount(lines)
  {
    links := {};
    loaded := 0;
    var i := 0;
    while i < |lines|
      invariant 0 <= i <= |lines|
      invariant links == LedgerLinks(lines[..i])
      invariant loaded == NonBlankCount(lines[..i])
    {
      var link := Strip(lines[i]);
      assert lines[..i + 1] == lines[..i] + [lines[i]];
      LedgerLinksAppend(lines[..i], [lines[i]]);
      NonBlankCountAppend(lines[..i], [lines[i]]);
      LedgerOfOneLine(lines[i]);
      if link != "" {
        links := links + {link};
        loaded := loaded + 1;
      }
      i := i + 1;
    }
    assert lines[..i] == lines;
  }

  /** White space around a link never changes whether the world has seen it. */
  lemma ApplyLinkSeenIgnoresPadding(w: WorldModel, link: string, w1: string, w2: string)
    requires AllSpace(w1) && AllSpace(w2)
    ensures w.IsApplyLinkSeen(w1 + link + w2) == w.IsApplyLinkSeen(link)
  {
    StripPadding(w1, link, w2);
  }

  /**
   * `max(site.threat_level for site in sites.values())` as written: Python's `Enum` defines no order,
   * so with two or more sites the comparison raises `TypeError` (`None` here); with one site `max`
   * returns it without comparing.
   */
  function TotalThreatAsWritten(levels: seq<ThreatLevel>): (r: Option<ThreatLevel>)
    ensures levels == [] ==> r == Some(NoThreat)
    ensures |levels| == 1 ==> r == Some(levels[0])
    ensures |levels| <= 1 ==> r == Some(MaxByValue(levels))
    ensures |levels| >= 2 ==> r.None?
  {
    if levels == [] then Some(NoThreat) else if |levels| == 1 then Some(levels[0]) else None
  }

  /** Two sites are enough for the as-written maximum to fail where the value-ordered one answers HIGH. */
  lemma TotalThreatAsWrittenFails()
    ensures TotalThreatAsWritten([Low, High]) == None
    ensures MaxByValue([Low, High]) == High
  {
  }

  /** The maximum by `.value`, the evident intent of `get_total_threat_level`. */
  function MaxByValue(levels: seq<ThreatLevel>): (t: ThreatLevel)
    ensures levels == [] ==> t == NoThreat
    ensures levels != [] ==> t in levels
    ensures forall i :: 0 <= i < |levels| ==> levels[i].Value() <= t.Value()
  {
    if levels == [] then NoThreat
    else
      var rest := MaxByValue(levels[1..]);
      if levels[0].Value() >= rest.Value() then levels[0] else rest
  }
}
