/**
 * The recovery engine: what the agent does after a failed strategy. A failure is classified, counted
 * (per run and per strategy), and answered by an ordered decision table: abort, wait and retry,
 * skip the current strategy, or rebuild the plan.
 */
module Recovery {
  import opened Wrappers
  import opened Text
  import Goal
  import P = Planner
  import WM = WorldModel

  datatype FailureType =
    | NetworkTimeout | RateLimited | Blocked | CaptchaDetected | LayoutChanged
    | NoContentFound | AuthenticationRequired | ServerError | Unknown

  /** Why the engine gave up; the source carries these as message strings. */
  datatype AbortReason =
    | MaxConsecutiveFailuresReached
    | GoalFailed
    | ExhaustedWithJobs(found: nat)
    | ExhaustedWithNoResults
    | PersistentNetworkTimeout
    | AllStrategiesExhausted

  /** `RecoveryDecision`, without its log message. */
  datatype Decision = Decision(
    shouldRetry: bool,
    newPlan: Option<P.Plan>,
    waitSeconds: real,
    rotateIdentity: bool,
    switchStrategy: bool,
    abortReason: Option<AbortReason>)

  function Abort(reason: AbortReason): Decision {
    Decision(false, None, 0.0, false, false, Some(reason))
  }

  function RetryAfter(seconds: real, rotate: bool): Decision {
    Decision(true, None, seconds, rotate, false, None)
  }

  /** One entry of the failure history (the free-form error context is not kept). */
  datatype FailureRecord = FailureRecord(failureType: FailureType, strategy: string, timestamp: real)

  const MaxRetriesPerStrategy: nat := 3
  const MaxConsecutiveFailures: nat := 10

  // ---------------------------------------------------------------------------------------------
  // Wait times

  function Pow2(n: nat): (r: nat)
    ensures r >= 1
    ensures n >= 1 ==> r >= 2
  {
    if n == 0 then 1 else 2 * Pow2(n - 1)
  }

  function MinNat(a: nat, b: nat): (m: nat)
    ensures m <= a && m <= b && (m == a || m == b)
  {
    if a <= b then a else b
  }

  /** The rate-limit wait, `min(300, 30 * 2**min(c, 4))`: at least a minute once one failure is counted. */
  function RateLimitWait(c: nat): (w: nat)
    ensures w <= 300
    ensures c >= 1 ==> w >= 60
    ensures c >= 4 ==> w == 300
  {
    var e := MinNat(c, 4);
    if c >= 4 then assert Pow2(e) == 16; MinNat(300, 30 * Pow2(e))
    else MinNat(300, 30 * Pow2(e))
  }

  /** The wait after a block, 120 s plus up to 30 s of jitter (`u` is the uniform draw scaled to [0, 1]). */
  function BlockedWait(u: real): (w: real)
    requires 0.0 <= u <= 1.0
    ensures 120.0 <= w <= 150.0
  {
    120.0 + 30.0 * u
  }

  /** The base of the exponential backoff, `min(60, 5 * 2**min(c, 5))`. */
  function BackoffDelay(c: nat): (d: real)
    ensures 5.0 <= d <= 60.0
    ensures c >= 1 ==> d >= 10.0
    ensures c >= 4 ==> d == 60.0
  {
    var e := MinNat(c, 5);
    var raw := 5.0 * (Pow2(e) as real);
    if c >= 4 then
      assert Pow2(e) >= 16 by {
        assert Pow2(4) == 16;
        Pow2Monotone(4, e);
      }
      P.Min(60.0, raw)
    else P.Min(60.0, raw)
  }

  lemma {:induction false} Pow2Monotone(a: nat, b: nat)
    requires a <= b
    ensures Pow2(a) <= Pow2(b)
    decreases b - a
  {
    if a < b {
      Pow2Monotone(a, b - 1);
    }
  }

  /** `_calculate_backoff`: the delay plus a jitter of up to 30% of it. */
  function Backoff(c: nat, u: real): (w: real)
    requires 0.0 <= u <= 1.0
    ensures BackoffDelay(c) <= w <= 1.3 * BackoffDelay(c)
    ensures 5.0 <= w <= 78.0
  {
    var d := BackoffDelay(c);
    d + d * 0.3 * u
  }

  /** The wait after a server error, `min(30 * c, 120)`. */
  function ServerErrorWait(c: nat): (w: nat)
    ensures w <= 120
    ensures w == 30 * c || w == 120
  {
    MinNat(30 * c, 120)
  }

  // ---------------------------------------------------------------------------------------------
  // The decision table

  /**
   * `_check_abort_conditions`, with `c` the counter after this failure: too many failures in a row,
   * a goal whose status reads FAILED, or a goal out of time or requests each end the run.
   */
  function AbortCheck(c: nat, status: Goal.GoalStatus, exhausted: bool, found: nat): (r: Option<AbortReason>)
    ensures r.None? <==> c < MaxConsecutiveFailures && status != Goal.Failed && !exhausted
    ensures c >= MaxConsecutiveFailures ==> r == Some(MaxConsecutiveFailuresReached)
    ensures r == Some(GoalFailed) <==> c < MaxConsecutiveFailures && status == Goal.Failed
    ensures exhausted && c < MaxConsecutiveFailures && status != Goal.Failed ==>
      r == Some(if found > 0 then ExhaustedWithJobs(found) else ExhaustedWithNoResults)
  {
    if c >= MaxConsecutiveFailures then Some(MaxConsecutiveFailuresReached)
    else if status == Goal.Failed then Some(GoalFailed)
    else if exhausted then (if found > 0 then Some(ExhaustedWithJobs(found)) else Some(ExhaustedWithNoResults))
    else None
  }

  /** The answer the table picks; the engine then carries it out against the plan and the planner. */
  datatype Action =
    | Stop(reason: AbortReason)
    | Wait(seconds: real, rotate: bool)
    | SkipStrategy
    | ReplanBlocked
    | NextStrategy
    | Fallback

  /**
   * `_handle_specific_failure`: the targeted answer for every failure kind that has one. Only
   * "no content" and "unknown" get none and go on to the retry-count test.
   */
  function SpecificAction(ft: FailureType, c: nat, u: real): (r: Option<Action>)
    requires 0.0 <= u <= 1.0
    ensures r.None? <==> ft == NoContentFound || ft == Unknown
    ensures ft == RateLimited ==>
      (r.Some? && r.value.Wait? && r.value.rotate && (c >= 1 ==> 60.0 <= r.value.seconds <= 300.0))
    ensures ft == Blocked ==>
      if c < 3 then r.Some? && r.value.Wait? && r.value.rotate && 120.0 <= r.value.seconds <= 150.0
      else r == Some(ReplanBlocked)
    ensures ft == CaptchaDetected || ft == AuthenticationRequired ==> r == Some(SkipStrategy)
    ensures ft == LayoutChanged ==> r == Some(Wait(5.0, false))
    ensures ft == ServerError ==> r.Some? && r.value.Wait? && !r.value.rotate && r.value.seconds <= 120.0
    ensures ft == NetworkTimeout ==>
      r == Some(if c < 3 then Wait(10.0 * (c as real), false) else Stop(PersistentNetworkTimeout))
  {
    match ft
    case RateLimited => Some(Wait(RateLimitWait(c) as real, true))
    case Blocked => if c < 3 then Some(Wait(BlockedWait(u), true)) else Some(ReplanBlocked)
    case CaptchaDetected => Some(SkipStrategy)
    case LayoutChanged => Some(Wait(5.0, false))
    case AuthenticationRequired => Some(SkipStrategy)
    case ServerError => Some(Wait(ServerErrorWait(c) as real, false))
    case NetworkTimeout => if c < 3 then Some(Wait(10.0 * (c as real), false)) else Some(Stop(PersistentNetworkTimeout))
    case NoContentFound => None
    case Unknown => None
  }

  /**
   * Steps 3 and 4 of `analyze_and_decide`: a strategy that has failed three times is given up
   * (the next one, or the fallback plan when none is left); otherwise back off and retry,
   * rotating the identity from the second failure in a row on.
   */
  function LaterAction(retries: nat, hasMore: bool, c: nat, u: real): (r: Action)
    requires 0.0 <= u <= 1.0
    ensures retries >= MaxRetriesPerStrategy <==> r == NextStrategy || r == Fallback
    ensures r == NextStrategy <==> retries >= MaxRetriesPerStrategy && hasMore
    ensures r.Wait? ==> 5.0 <= r.seconds <= 78.0 && (r.rotate <==> c >= 2)
    ensures !r.Stop? && r != SkipStrategy && r != ReplanBlocked
  {
    if retries >= MaxRetriesPerStrategy then (if hasMore then NextStrategy else Fallback)
    else Wait(Backoff(c, u), c >= 2)
  }

  /** The whole table, in the order the engine consults it. */
  function Decide(ft: FailureType, c: nat, retries: nat, status: Goal.GoalStatus, exhausted: bool, found: nat,
                  hasMore: bool, u: real): (r: Action)
    requires 0.0 <= u <= 1.0
    ensures c >= MaxConsecutiveFailures || status == Goal.Failed || exhausted ==>
      r.Stop? && AbortCheck(c, status, exhausted, found) == Some(r.reason)
    ensures r == SkipStrategy <==>
      AbortCheck(c, status, exhausted, found).None? && (ft == CaptchaDetected || ft == AuthenticationRequired)
    ensures r == ReplanBlocked <==> AbortCheck(c, status, exhausted, found).None? && ft == Blocked && c >= 3
    ensures (r == NextStrategy || r == Fallback) <==>
      AbortCheck(c, status, exhausted, found).None? && (ft == NoContentFound || ft == Unknown) && retries >= MaxRetriesPerStrategy
    ensures r == NextStrategy ==> hasMore
  {
    var gate := AbortCheck(c, status, exhausted, found);
    if gate.Some? then Stop(gate.value)
    else
      var specific := SpecificAction(ft, c, u);
      if specific.Some? then specific.value
      else LaterAction(retries, hasMore, c, u)
  }

  /** The abort gate comes first: whatever the failure, a tripped gate stops the run with the gate's reason. */
  lemma AbortGateFirst(ft: FailureType, c: nat, retries: nat, status: Goal.GoalStatus, exhausted: bool, found: nat,
                       hasMore: bool, u: real)
    requires 0.0 <= u <= 1.0
    requires c >= MaxConsecutiveFailures || status == Goal.Failed || exhausted
    ensures Decide(ft, c, retries, status, exhausted, found, hasMore, u) == Stop(AbortCheck(c, status, exhausted, found).value)
  {
  }

  /** Only failures without a targeted answer ever reach the retry count, the strategy switch and the backoff. */
  lemma OnlyUnclassifiedReachLaterSteps(ft: FailureType, c: nat, retries: nat, status: Goal.GoalStatus, exhausted: bool,
                                        found: nat, hasMore: bool, u: real)
    requires 0.0 <= u <= 1.0
    ensures var a := Decide(ft, c, retries, status, exhausted, found, hasMore, u);
      (a == NextStrategy || a == Fallback) ==> ft == NoContentFound || ft == Unknown
  {
  }

  /** The engine only stops for a reason from the gate or a persistent timeout; running out of strategies is decided later. */
  lemma StopReasons(ft: FailureType, c: nat, retries: nat, status: Goal.GoalStatus, exhausted: bool, found: nat,
                    hasMore: bool, u: real)
    requires 0.0 <= u <= 1.0
    ensures var a := Decide(ft, c, retries, status, exhausted, found, hasMore, u);
      a.Stop? ==> a.reason == PersistentNetworkTimeout || AbortCheck(c, status, exhausted, found) == Some(a.reason)
  {
  }

  /**
   * A goal with no valid job that is out of resources already reads FAILED, so "exhausted with no
   * results" is only reported for a goal that is achieved with nothing found, i.e. a target of zero or less.
   */
  lemma ExhaustedWithNoResultsNeedsAchievedGoal(g: Goal.ScrapingGoal, c: nat, now: real)
    requires AbortCheck(c, g.GetStatus(now), g.IsResourceExhausted(now), g.validJobsFound) == Some(ExhaustedWithNoResults)
    ensures g.validJobsFound == 0 && g.targetValidJobs <= 0
  {
  }

  // ---------------------------------------------------------------------------------------------
  // Classifying an error

  /** The markers each failure kind is recognised by, in lower case. */
  function Markers(ft: FailureType): seq<string> {
    match ft
    case RateLimited => ["429", "rate limit"]
    case Blocked => ["403", "forbidden"]
    case CaptchaDetected => ["captcha", "challenge"]
    case NetworkTimeout => ["timeout"]
    case AuthenticationRequired => ["login", "auth", "sign in"]
    case LayoutChanged => ["not found", "element", "selector"]
    case NoContentFound => ["empty", "no content"]
    case ServerError => []
    case Unknown => []
  }

  /** The kinds the message tests try, in order. */
  const TextOrder: seq<FailureType> :=
    [RateLimited, Blocked, CaptchaDetected, NetworkTimeout, AuthenticationRequired, LayoutChanged, NoContentFound]

  predicate HasMarker(text: string, ft: FailureType) {
    ContainsAny(text, Markers(ft))
  }

  /**
   * The message half of `classify_error` on the lower-cased text: the first kind in `TextOrder`
   * one of whose markers occurs in it, and UNKNOWN when none does.
   */
  function ClassifyText(t: string): (r: FailureType)
    ensures r != Unknown ==>
      exists i :: 0 <= i < |TextOrder| && TextOrder[i] == r && HasMarker(t, r) && forall j :: 0 <= j < i ==> !HasMarker(t, TextOrder[j])
    ensures r == Unknown <==> forall i :: 0 <= i < |TextOrder| ==> !HasMarker(t, TextOrder[i])
  {
    if Contains(t, "429") || Contains(t, "rate limit") then
      assert HasMarker(t, RateLimited) by { MarkerAt(t, RateLimited); }
      assert TextOrder[0] == RateLimited;
      RateLimited
    else if Contains(t, "403") || Contains(t, "forbidden") then
      assert HasMarker(t, Blocked) by { MarkerAt(t, Blocked); }
      assert TextOrder[1] == Blocked;
      NoMarker(t, RateLimited);
      Blocked
    else if Contains(t, "captcha") || Contains(t, "challenge") then
      assert HasMarker(t, CaptchaDetected) by { MarkerAt(t, CaptchaDetected); }
      assert TextOrder[2] == CaptchaDetected;
      NoMarker(t, RateLimited); NoMarker(t, Blocked);
      CaptchaDetected
    else if Contains(t, "timeout") then
      assert HasMarker(t, NetworkTimeout) by { MarkerAt(t, NetworkTimeout); }
      assert TextOrder[3] == NetworkTimeout;
      NoMarker(t, RateLimited); NoMarker(t, Blocked); NoMarker(t, CaptchaDetected);
      NetworkTimeout
    else if Contains(t, "login") || Contains(t, "auth") || Contains(t, "sign in") then
      assert HasMarker(t, AuthenticationRequired) by { MarkerAt(t, AuthenticationRequired); }
      assert TextOrder[4] == AuthenticationRequired;
      NoMarker(t, RateLimited); NoMarker(t, Blocked); NoMarker(t, CaptchaDetected); NoMarker(t, NetworkTimeout);
      AuthenticationRequired
    else if Contains(t, "not found") || Contains(t, "element") || Contains(t, "selector") then
      assert HasMarker(t, LayoutChanged) by { MarkerAt(t, LayoutChanged); }
      assert TextOrder[5] == LayoutChanged;
      NoMarker(t, RateLimited); NoMarker(t, Blocked); NoMarker(t, CaptchaDetected); NoMarker(t, NetworkTimeout);
      NoMarker(t, AuthenticationRequired);
      LayoutChanged
    else if Contains(t, "empty") || Contains(t, "no content") then
      assert HasMarker(t, NoContentFound) by { MarkerAt(t, NoContentFound); }
      assert TextOrder[6] == NoContentFound;
      NoMarker(t, RateLimited); NoMarker(t, Blocked); NoMarker(t, CaptchaDetected); NoMarker(t, NetworkTimeout);
      NoMarker(t, AuthenticationRequired); NoMarker(t, LayoutChanged);
      NoContentFound
    else
      NoMarker(t, RateLimited); NoMarker(t, Blocked); NoMarker(t, CaptchaDetected); NoMarker(t, NetworkTimeout);
      NoMarker(t, AuthenticationRequired); NoMarker(t, LayoutChanged); NoMarker(t, NoContentFound);
      Unknown
  }

  /** A kind's marker test, spelled out, agrees with `HasMarker`. */
  predicate MarkerTest(t: string, ft: FailureType) {
    match ft
    case RateLimited => Contains(t, "429") || Contains(t, "rate limit")
    case Blocked => Contains(t, "403") || Contains(t, "forbidden")
    case CaptchaDetected => Contains(t, "captcha") || Contains(t, "challenge")
    case NetworkTimeout => Contains(t, "timeout")
    case AuthenticationRequired => Contains(t, "login") || Contains(t, "auth") || Contains(t, "sign in")
    case LayoutChanged => Contains(t, "not found") || Contains(t, "element") || Contains(t, "selector")
    case NoContentFound => Contains(t, "empty") || Contains(t, "no content")
    case ServerError => false
    case Unknown => false
  }

  lemma MarkerAt(t: string, ft: FailureType)
    requires MarkerTest(t, ft)
    ensures HasMarker(t, ft)
  {
    var ms := Markers(ft);
    match ft
    case RateLimited => if Contains(t, "429") { AnyAt(t, ms, 0); } else { AnyAt(t, ms, 1); }
    case Blocked => if Contains(t, "403") { AnyAt(t, ms, 0); } else { AnyAt(t, ms, 1); }
    case CaptchaDetected => if Contains(t, "captcha") { AnyAt(t, ms, 0); } else { AnyAt(t, ms, 1); }
    case NetworkTimeout => AnyAt(t, ms, 0);
    case AuthenticationRequired =>
      if Contains(t, "login") { AnyAt(t, ms, 0); } else if Contains(t, "auth") { AnyAt(t, ms, 1); } else { AnyAt(t, ms, 2); }
    case LayoutChanged =>
      if Contains(t, "not found") { AnyAt(t, ms, 0); } else if Contains(t, "element") { AnyAt(t, ms, 1); } else { AnyAt(t, ms, 2); }
    case NoContentFound => if Contains(t, "empty") { AnyAt(t, ms, 0); } else { AnyAt(t, ms, 1); }
  }

  lemma AnyAt(t: string, ms: seq<string>, k: nat)
    requires k < |ms| && Contains(t, ms[k])
    ensures ContainsAny(t, ms)
  {
  }

  lemma NoMarker(t: string, ft: FailureType)
    requires !MarkerTest(t, ft)
    ensures !HasMarker(t, ft)
  {
  }

  /**
   * `classify_error`: a truthy status code of 429, 403 or 500 and above decides the kind; any
   * other code (or none) leaves it to the lower-cased message.
   */
  function ClassifyError(message: string, code: Option<int>): (r: FailureType)
    ensures code.Some? && code.value == 429 ==> r == RateLimited
    ensures code.Some? && code.value == 403 ==> r == Blocked
    ensures code.Some? && code.value >= 500 ==> r == ServerError
    ensures (code.None? || code.value == 0 || (code.value != 429 && code.value != 403 && code.value < 500)) ==>
      r == ClassifyText(Lower(message))
  {
    if code.Some? && code.value != 0 && code.value == 429 then RateLimited
    else if code.Some? && code.value != 0 && code.value == 403 then Blocked
    else if code.Some? && code.value != 0 && code.value >= 500 then ServerError
    else ClassifyText(Lower(message))
  }

  /** Without a status code a server error is never recognised: the messages have no marker for it. */
  lemma MessagesNeverGiveServerError(message: string)
    ensures ClassifyError(message, None) != ServerError
  {
  }

  // ---------------------------------------------------------------------------------------------
  // Failure bookkeeping

  /** The name a failure is filed under: the current strategy's kind, or "unknown" past the end of the plan. */
  function StrategyName(cur: Option<P.Strategy>): string {
    if cur.Some? then cur.value.name.Value() else "unknown"
  }

  function RetryCount(counts: map<string, nat>, name: string): nat {
    if name in counts then counts[name] else 0
  }

  /** The retry counts with one more failure filed under `name`. */
  function Counted(counts: map<string, nat>, name: string): map<string, nat> {
    counts[name := RetryCount(counts, name) + 1]
  }

  /** How many entries of the history are of the given kind. */
  function CountOf(history: seq<FailureRecord>, ft: FailureType): (n: nat)
    ensures n <= |history|
  {
    if history == [] then 0
    else (if history[0].failureType == ft then 1 else 0) + CountOf(history[1..], ft)
  }

  lemma {:induction false} CountOfAppend(history: seq<FailureRecord>, r: FailureRecord, ft: FailureType)
    ensures CountOf(history + [r], ft) == CountOf(history, ft) + (if r.failureType == ft then 1 else 0)
  {
    if history != [] {
      assert (history + [r])[1..] == history[1..] + [r];
      CountOfAppend(history[1..], r, ft);
    }
  }

  const AllFailureTypes: seq<FailureType> :=
    [NetworkTimeout, RateLimited, Blocked, CaptchaDetected, LayoutChanged, NoContentFound,
     AuthenticationRequired, ServerError, Unknown]

  function SumCounts(history: seq<FailureRecord>, kinds: seq<FailureType>): nat {
    if kinds == [] then 0 else CountOf(history, kinds[0]) + SumCounts(history, kinds[1..])
  }

  /** The per-kind counts of the summary add up to its total. */
  lemma {:induction false} CountsAddUp(history: seq<FailureRecord>)
    ensures SumCounts(history, AllFailureTypes) == |history|
  {
    if history != [] {
      CountsAddUp(history[1..]);
      var h := history[1..];
      assert history == [history[0]] + h;
      SumCountsSplit(history[0], h, AllFailureTypes);
      OneKindCounts(history[0].failureType);
    } else {
      NothingToCount(AllFailureTypes);
    }
  }

  lemma {:induction false} NothingToCount(kinds: seq<FailureType>)
    ensures SumCounts([], kinds) == 0
  {
    if kinds != [] {
      NothingToCount(kinds[1..]);
    }
  }

  lemma {:induction false} SumCountsSplit(r: FailureRecord, h: seq<FailureRecord>, kinds: seq<FailureType>)
    ensures SumCounts([r] + h, kinds) == SumCounts(h, kinds) + Occurrences(kinds, r.failureType)
    decreases |kinds|
  {
    if kinds != [] {
      assert ([r] + h)[1..] == h;
      SumCountsSplit(r, h, kinds[1..]);
    }
  }

  function Occurrences(kinds: seq<FailureType>, ft: FailureType): nat {
    if kinds == [] then 0 else (if kinds[0] == ft then 1 else 0) + Occurrences(kinds[1..], ft)
  }

  lemma OneKindCounts(ft: FailureType)
    ensures Occurrences(AllFailureTypes, ft) == 1
  {
    OccurrencesOfDistinct(AllFailureTypes, ft, KindIndex(ft));
  }

  /** Where a kind sits in `AllFailureTypes`. */
  function KindIndex(ft: FailureType): (i: nat)
    ensures i < |AllFailureTypes| && AllFailureTypes[i] == ft
  {
    match ft
    case NetworkTimeout => 0
    case RateLimited => 1
    case Blocked => 2
    case CaptchaDetected => 3
    case LayoutChanged => 4
    case NoContentFound => 5
    case AuthenticationRequired => 6
    case ServerError => 7
    case Unknown => 8
  }

  lemma {:induction false} OccurrencesOfDistinct(ks: seq<FailureType>, ft: FailureType, i: nat)
    requires i < |ks| && ks[i] == ft
    requires forall a, b :: 0 <= a < b < |ks| ==> ks[a] != ks[b]
    ensures Occurrences(ks, ft) == 1
  {
    if i == 0 {
      NotOccurring(ks[1..], ft);
    } else {
      OccurrencesOfDistinct(ks[1..], ft, i - 1);
    }
  }

  lemma {:induction false} NotOccurring(ks: seq<FailureType>, ft: FailureType)
    requires forall a :: 0 <= a < |ks| ==> ks[a] != ft
    ensures Occurrences(ks, ft) == 0
  {
    if ks != [] {
      NotOccurring(ks[1..], ft);
    }
  }

  datatype FailureSummary = FailureSummary(
    totalFailures: nat,
    consecutiveFailures: nat,
    byType: map<FailureType, nat>,
    byStrategy: map<string, nat>)

  // ---------------------------------------------------------------------------------------------
  // The engine

  class RecoveryEngine {
    const goal: Goal.ScrapingGoal
    const planner: P.StrategyPlanner
    var consecutiveFailures: nat
    var strategyRetryCounts: map<string, nat>
    var failureHistory: seq<FailureRecord>

    constructor (g: Goal.ScrapingGoal, p: P.StrategyPlanner)
      ensures goal == g && planner == p
      ensures consecutiveFailures == 0 && strategyRetryCounts == map[] && failureHistory == []
    {
      goal := g;
      planner := p;
      consecutiveFailures := 0;
      strategyRetryCounts := map[];
      failureHistory := [];
    }

    /** The action the table picks for a failure of kind `ft` in the current state, on the given plan. */
    function NextAction(ft: FailureType, plan: P.Plan, now: real, u: real): Action
      requires 0.0 <= u <= 1.0
      reads this, goal, plan
    {
      var name := StrategyName(plan.CurrentStrategy());
      Decide(ft, consecutiveFailures + 1, RetryCount(strategyRetryCounts, name) + 1,
             goal.GetStatus(now), goal.IsResourceExhausted(now), goal.validJobsFound, plan.HasMore(), u)
    }

    /**
     * `analyze_and_decide`: counts the failure against the run and the current strategy, files it
     * in the history, then carries out the action the table picks. Skipping a strategy advances the
     * caller's plan; replanning asks the planner for a new plan and leaves the old one alone.
     */
    method AnalyzeAndDecide(ft: FailureType, plan: P.Plan, now: real, u: real, stamp: string) returns (d: Decision)
      requires 0.0 <= u <= 1.0
      requires planner.worldModel.Valid()
      modifies this, plan, planner.worldModel
      ensures planner.worldModel.Valid()
      ensures var name := StrategyName(old(plan.CurrentStrategy()));
        && strategyRetryCounts == Counted(old(strategyRetryCounts), name)
        && failureHistory == old(failureHistory) + [FailureRecord(ft, name, now)]
      ensures var a := old(NextAction(ft, plan, now, u));
        && consecutiveFailures == (if a == NextStrategy then 0 else old(consecutiveFailures) + 1)
        && plan.strategies == old(plan.strategies)
        && plan.currentIndex == (if a == SkipStrategy || a == NextStrategy then old(plan.currentIndex) + 1 else old(plan.currentIndex))
        && (a.Stop? ==> d == Abort(a.reason))
        && (a.Wait? ==> d == RetryAfter(a.seconds, a.rotate))
        && (a == SkipStrategy ==> d == Decision(plan.HasMore(), None, 0.0, false, true, None))
        && (a == NextStrategy ==> d == Decision(true, None, 0.0, false, true, None))
        && (a == ReplanBlocked ==>
              && d.newPlan.Some? && fresh(d.newPlan.value) && d.newPlan.value.currentIndex == 0
              && d.newPlan.value.strategies == P.ReplannedStrategies(old(plan.strategies), old(plan.GetRemaining()), "blocked")
              && d.newPlan.value.createdAt == (if old(plan.strategies) == [] then "" else stamp)
              && d == Decision(d.newPlan.value.HasMore(), d.newPlan, 0.0, false, true, None)
              && planner.FiledFor(old(planner.worldModel.sites), P.ReplanTarget(old(plan.strategies), old(plan.GetRemaining()), "blocked")))
        && (a == Fallback ==>
              && planner.FiledFor(old(planner.worldModel.sites), P.FallbackTarget(old(plan.strategies)))
              && if old(plan.strategies) == [] then d == Abort(AllStrategiesExhausted)
                 else && d.newPlan.Some? && fresh(d.newPlan.value) && d.newPlan.value.currentIndex == 0
                      && d.newPlan.value.strategies == P.FallbackStrategies(old(plan.strategies))
                      && d.newPlan.value.createdAt == stamp
                      && d == Decision(true, d.newPlan, 0.0, false, true, None))
        && (a != ReplanBlocked && a != Fallback ==> planner.worldModel.sites == old(planner.worldModel.sites))
      ensures P.KeepsSites(old(planner.worldModel.sites), planner.worldModel.sites)
      ensures planner.worldModel.Rest() == old(planner.worldModel.Rest())
    {
      ghost var a := NextAction(ft, plan, now, u);
      ghost var sites0, strategies0 := planner.worldModel.sites, plan.strategies;
      consecutiveFailures := consecutiveFailures + 1;
      var name := StrategyName(plan.CurrentStrategy());
      strategyRetryCounts := strategyRetryCounts[name := RetryCount(strategyRetryCounts, name) + 1];
      failureHistory := failureHistory + [FailureRecord(ft, name, now)];

      // Step 1: the abort gate.
      var gate := AbortCheck(consecutiveFailures, goal.GetStatus(now), goal.IsResourceExhausted(now), goal.validJobsFound);
      if gate.Some? {
        d := Abort(gate.value);
        return;
      }

      // Step 2: the targeted answer.
      var specific := SpecificAction(ft, consecutiveFailures, u);
      if specific.Some? {
        match specific.value
        case Stop(reason) =>
          d := Abort(reason);
        case Wait(seconds, rotate) =>
          d := RetryAfter(seconds, rotate);
        case SkipStrategy =>
          plan.Advance();
          d := Decision(plan.HasMore(), None, 0.0, false, true, None);
        case ReplanBlocked =>
          d := ReplanForBlock(plan, now, stamp);
          planner.FiledForKeeps(sites0, P.ReplanTarget(strategies0, plan.GetRemaining(), "blocked"));
        case NextStrategy =>
          assert false;
        case Fallback =>
          assert false;
      } else if strategyRetryCounts[name] >= MaxRetriesPerStrategy {
        // Steps 3 and 4: the retry count, then the backoff.
        d := SwitchStrategyDecision(plan, now, stamp);
        if a == Fallback {
          planner.FiledForKeeps(sites0, P.FallbackTarget(strategies0));
        }
      } else {
        d := RetryAfter(Backoff(consecutiveFailures, u), consecutiveFailures >= 2);
      }
    }

    /** The blocked branch past the second failure: the planner's replan for "blocked", retried iff it has strategies. */
    method ReplanForBlock(plan: P.Plan, now: real, stamp: string) returns (d: Decision)
      requires planner.worldModel.Valid()
      modifies planner.worldModel
      ensures planner.worldModel.Valid()
      ensures d.newPlan.Some? && fresh(d.newPlan.value) && d.newPlan.value.currentIndex == 0
      ensures d.newPlan.value.strategies == P.ReplannedStrategies(plan.strategies, plan.GetRemaining(), "blocked")
      ensures d.newPlan.value.createdAt == if plan.strategies == [] then "" else stamp
      ensures d == Decision(d.newPlan.value.HasMore(), d.newPlan, 0.0, false, true, None)
      ensures planner.FiledFor(old(planner.worldModel.sites), P.ReplanTarget(plan.strategies, plan.GetRemaining(), "blocked"))
      ensures planner.worldModel.Rest() == old(planner.worldModel.Rest())
    {
      var newPlan := planner.ReplanAfterFailure(plan, "blocked", now, stamp);
      d := Decision(newPlan.HasMore(), Some(newPlan), 0.0, false, true, None);
    }

    /**
     * `_switch_strategy_decision`: move to the next strategy and forgive the failures; with none
     * left, the planner's fallback plan, and an abort only when even that is empty.
     */
    method SwitchStrategyDecision(plan: P.Plan, now: real, stamp: string) returns (d: Decision)
      requires planner.worldModel.Valid()
      modifies this, plan, planner.worldModel
      ensures planner.worldModel.Valid()
      ensures strategyRetryCounts == old(strategyRetryCounts) && failureHistory == old(failureHistory)
      ensures plan.strategies == old(plan.strategies)
      ensures old(plan.HasMore()) ==>
        && plan.currentIndex == old(plan.currentIndex) + 1 && consecutiveFailures == 0
        && d == Decision(true, None, 0.0, false, true, None)
      ensures !old(plan.HasMore()) ==>
        && plan.currentIndex == old(plan.currentIndex) && consecutiveFailures == old(consecutiveFailures)
        && if old(plan.strategies) == [] then d == Abort(AllStrategiesExhausted)
           else && d.newPlan.Some? && fresh(d.newPlan.value) && d.newPlan.value.currentIndex == 0
                && d.newPlan.value.strategies == P.FallbackStrategies(old(plan.strategies))
                && d.newPlan.value.createdAt == stamp
                && d == Decision(true, d.newPlan, 0.0, false, true, None)
      ensures old(plan.HasMore()) ==> planner.worldModel.sites == old(planner.worldModel.sites)
      ensures !old(plan.HasMore()) ==> planner.FiledFor(old(planner.worldModel.sites), P.FallbackTarget(old(plan.strategies)))
      ensures planner.worldModel.Rest() == old(planner.worldModel.Rest())
    {
      if plan.HasMore() {
        plan.Advance();
        consecutiveFailures := 0;
        d := Decision(true, None, 0.0, false, true, None);
      } else {
        var newPlan := planner.ReplanAfterFailure(plan, "exhausted", now, stamp);
        assert plan.GetRemaining() == [];
        if newPlan.HasMore() {
          d := Decision(true, Some(newPlan), 0.0, false, true, None);
        } else {
          d := Abort(AllStrategiesExhausted);
        }
      }
    }

    /** `reset_on_success`. */
    method ResetOnSuccess()
      modifies this
      ensures consecutiveFailures == 0
      ensures strategyRetryCounts == old(strategyRetryCounts) && failureHistory == old(failureHistory)
    {
      consecutiveFailures := 0;
    }

    /** `get_failure_summary`: the history's length and per-kind counts, the run counter and the per-strategy counts. */
    method GetFailureSummary() returns (s: FailureSummary)
      ensures s.totalFailures == |failureHistory| && s.consecutiveFailures == consecutiveFailures
      ensures s.byStrategy == strategyRetryCounts
      ensures forall ft :: ft in s.byType <==> CountOf(failureHistory, ft) > 0
      ensures forall ft :: ft in s.byType ==> s.byType[ft] == CountOf(failureHistory, ft)
    {
      var counts: map<FailureType, nat> := map[];
      var i := 0;
      while i < |failureHistory|
        invariant 0 <= i <= |failureHistory|
        invariant forall ft :: ft in counts <==> CountOf(failureHistory[..i], ft) > 0
        invariant forall ft :: ft in counts ==> counts[ft] == CountOf(failureHistory[..i], ft)
      {
        var ft := failureHistory[i].failureType;
        assert failureHistory[..i + 1] == failureHistory[..i] + [failureHistory[i]];
        forall k
          ensures CountOf(failureHistory[..i + 1], k) == CountOf(failureHistory[..i], k) + (if k == ft then 1 else 0)
        {
          CountOfAppend(failureHistory[..i], failureHistory[i], k);
        }
        counts := counts[ft := (if ft in counts then counts[ft] else 0) + 1];
        i := i + 1;
      }
      assert failureHistory[..i] == failureHistory;
      s := FailureSummary(|failureHistory|, consecutiveFailures, counts, strategyRetryCounts);
    }
  }
}
