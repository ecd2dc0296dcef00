/**
 * The agent's control loop: start the goal and the session, settle the date range, load the shared
 * ledger of apply links, plan, then execute strategies one by one, handing every exception to the
 * recovery engine, and finally append the links found in this run to the ledger.
 *
 * What the network answers is not computed here: each strategy execution meets an outcome given
 * as input (the sitemap items with what link extraction gave for each, or the log lines of the
 * auto-discovery crawl, each possibly followed by an exception), and every clock reading is an input.
 */
module Orchestrator {
  import opened Wrappers
  import opened Text
  import Dates
  import Goal
  import WM = WorldModel
  import P = Planner
  import R = Recovery

  // ---------------------------------------------------------------------------------------------
  // What executions meet

  /** What `extract_official_link` gave for one sitemap post. */
  datatype ItemOutcome =
    | NoData
    | Extracted(link: string, title: string, text: string, context: string)
    | ExtractError(message: string)

  /** One post of the sitemap window, the clock when the loop reaches it, and its extraction outcome. */
  datatype SitemapItem = SitemapItem(url: string, date: string, now: real, outcome: ItemOutcome)

  /** The parser's item list, or the exception it raised (for instance on a malformed date). */
  datatype SitemapFetch = Items(items: seq<SitemapItem>) | FetchRaised(message: string)

  /** The lines the auto-discovery crawl yields, and the exception it raises after them, if any. */
  datatype AutoCrawl = AutoCrawl(lines: seq<string>, raised: Option<string>)

  /**
   * One turn of the main loop: the clock the stop test reads, what a sitemap or an auto-discovery
   * execution would meet, and the jitter draw (scaled to [0, 1]) and the ISO time stamp recovery
   * would use for a backoff and a new plan.
   */
  datatype Attempt = Attempt(now: real, sitemap: SitemapFetch, auto: AutoCrawl, jitter: UnitDraw, stamp: string)

  /** A uniform random draw scaled to [0, 1]. */
  type UnitDraw = u: real | 0.0 <= u <= 1.0

  /**
   * How a turn of the main loop ended: the strategy ran through, the goal was met, or it raised, in
   * which case recovery picked `action` from its table and returned `decision`.
   */
  datatype TurnEnd = Completed | GoalMet | Raised(message: string, action: R.Action, decision: R.Decision)

  /** Where the main loop stands: the plan it runs, that plan's strategies and its index. */
  datatype Cursor = Cursor(plan: P.Plan, strategies: seq<P.Strategy>, index: nat)

  /**
   * One executed turn: the plan it ran, that plan's strategies and index when the turn began, the
   * run's state before and after the strategy ran, and how the turn ended.
   */
  datatype Turn = Turn(plan: P.Plan, strategies: seq<P.Strategy>, index: nat, before: RunState, after: RunState, end: TurnEnd)

  /** The exception a turn ended with, if any. */
  function RaisedOf(e: TurnEnd): Option<string> {
    if e.Raised? then Some(e.message) else None
  }

  /**
   * A turn follows from its attempt: the stop test let it through, running its strategy from the
   * state before gives the state after and the exception it ended with, and it met the goal exactly
   * when it ended without an exception with the goal achieved.
   */
  ghost predicate Follows(t: Turn, a: Attempt, lim: Limits) {
    && t.index < |t.strategies|
    && !StopsAt(t.before, lim, a.now)
    && StrategyEffect(t.strategies[t.index].name, t.before, lim, a) == (t.after, RaisedOf(t.end))
    && (t.end == GoalMet ==> t.after.valid >= lim.target)
    && (t.end == Completed ==> t.after.valid < lim.target)
    && (t.end.Raised? ==> Decides(t.end.action, t.end.decision, t.strategies, t.index))
  }

  /** The strategies of the plan recovery builds on action `a`: the replan for "blocked", or the fallback. */
  function Rebuilt(a: R.Action, strategies: seq<P.Strategy>, index: nat): seq<P.Strategy> {
    var remaining := if index <= |strategies| then strategies[index..] else [];
    if a == R.ReplanBlocked then P.ReplannedStrategies(strategies, remaining, "blocked")
    else P.FallbackStrategies(strategies)
  }

  /**
   * The decision recovery returns for action `a` on a plan with `strategies` at `index`: an abort
   * for a stop, a retry after a wait, after a skip a retry exactly when a strategy is left, a retry
   * after moving to the next strategy, a new plan for a replan (retried exactly when it has
   * strategies) and for a fallback (an abort when the plan had no strategies at all).
   */
  predicate Decides(a: R.Action, d: R.Decision, strategies: seq<P.Strategy>, index: nat) {
    match a
    case Stop(reason) => d == R.Abort(reason)
    case Wait(seconds, rotate) => d == R.RetryAfter(seconds, rotate)
    case SkipStrategy => d == R.Decision(index + 1 < |strategies|, None, 0.0, false, true, None)
    case NextStrategy => d == R.Decision(true, None, 0.0, false, true, None)
    case ReplanBlocked =>
      d.newPlan.Some? && d == R.Decision(Rebuilt(a, strategies, index) != [], d.newPlan, 0.0, false, true, None)
    case Fallback =>
      if strategies == [] then d == R.Abort(R.AllStrategiesExhausted)
      else d.newPlan.Some? && d == R.Decision(true, d.newPlan, 0.0, false, true, None)
  }

  /**
   * Where `_handle_failure` leaves the cursor `c`: on the decision's new plan, at its start, exactly
   * when the decision retries with one; otherwise on the same plan, one strategy further after a
   * skip or a move to the next strategy (whether or not the decision retries), in place otherwise.
   */
  function AfterFailure(c: Cursor, a: R.Action, d: R.Decision): Cursor {
    if d.shouldRetry && d.newPlan.Some? then Cursor(d.newPlan.value, Rebuilt(a, c.strategies, c.index), 0)
    else c.(index := if a == R.SkipStrategy || a == R.NextStrategy then c.index + 1 else c.index)
  }

  /**
   * Where turn `t` leaves the cursor: past the strategy after a completion, in place after meeting
   * the goal, and where recovery's decision puts it after an exception.
   */
  function Resumed(t: Turn): Cursor {
    match t.end
    case Completed => Cursor(t.plan, t.strategies, t.index + 1)
    case GoalMet => Cursor(t.plan, t.strategies, t.index)
    case Raised(_, a, d) => AfterFailure(Cursor(t.plan, t.strategies, t.index), a, d)
  }

  /**
   * What `analyze_and_decide` reports for action `a` on the plan at cursor `c` — the plan's
   * strategies and index afterwards, and the strategies and index of the new plan, if any — is
   * the decision `Decides` describes, and the cursor `_handle_failure` then keeps is `AfterFailure`.
   */
  lemma FailureResolved(a: R.Action, d: R.Decision, c: Cursor, remaining: seq<P.Strategy>,
                        strategies1: seq<P.Strategy>, index1: nat, fresh1: seq<P.Strategy>, index0: nat)
    requires remaining == (if c.index <= |c.strategies| then c.strategies[c.index..] else [])
    requires strategies1 == c.strategies
    requires index1 == (if a == R.SkipStrategy || a == R.NextStrategy then c.index + 1 else c.index)
    requires a.Stop? ==> d == R.Abort(a.reason)
    requires a.Wait? ==> d == R.RetryAfter(a.seconds, a.rotate)
    requires a == R.SkipStrategy ==> d == R.Decision(index1 < |strategies1|, None, 0.0, false, true, None)
    requires a == R.NextStrategy ==> d == R.Decision(true, None, 0.0, false, true, None)
    requires a == R.ReplanBlocked ==>
      && d.newPlan.Some? && index0 == 0 && fresh1 == P.ReplannedStrategies(c.strategies, remaining, "blocked")
      && d == R.Decision(index0 < |fresh1|, d.newPlan, 0.0, false, true, None)
    requires a == R.Fallback ==>
      if c.strategies == [] then d == R.Abort(R.AllStrategiesExhausted)
      else && d.newPlan.Some? && index0 == 0 && fresh1 == P.FallbackStrategies(c.strategies)
           && d == R.Decision(true, d.newPlan, 0.0, false, true, None)
    ensures Decides(a, d, c.strategies, c.index)
    ensures d.shouldRetry && d.newPlan.Some? ==> AfterFailure(c, a, d) == Cursor(d.newPlan.value, fresh1, index0)
    ensures !(d.shouldRetry && d.newPlan.Some?) ==> AfterFailure(c, a, d) == c.(strategies := strategies1, index := index1)
  {
  }

  /**
   * `t` may come right after `p` in the main loop: `p` did not meet the goal, and `t` starts from the
   * state `p` left and runs the plan and index `p` left the cursor at.
   */
  ghost predicate Linked(p: Turn, t: Turn) {
    && p.end != GoalMet
    && t.before == p.after
    && Cursor(t.plan, t.strategies, t.index) == Resumed(p)
  }

  /**
   * The turns of the main loop, one per attempt consumed, follow the plans in order: each follows
   * from its attempt and each is linked to the one before it.
   */
  ghost predicate Chained(turns: seq<Turn>, attempts: seq<Attempt>, lim: Limits) {
    && |turns| <= |attempts|
    && (forall k :: 0 <= k < |turns| ==> Follows(turns[k], attempts[k], lim))
    && (forall i, j :: 0 <= i < j < |turns| && j == i + 1 ==> Linked(turns[i], turns[j]))
  }

  /** The state a chain of turns leaves, starting from `s`. */
  function After(s: RunState, turns: seq<Turn>): RunState {
    if turns == [] then s else turns[|turns| - 1].after
  }

  /** The exception a turn ended with is the one its attempt yields for the strategy the turn ran. */
  ghost predicate RaisedBy(t: Turn, a: Attempt)
    requires t.end.Raised? && t.index < |t.strategies|
  {
    || (t.strategies[t.index].name == P.SitemapCrawl && a.sitemap == FetchRaised(t.end.message))
    || (t.strategies[t.index].name == P.AutoDiscovery && a.auto.raised == Some(t.end.message))
  }

  /** A turn that raised raised what its attempt's sitemap fetch or auto-discovery crawl raised. */
  lemma FollowsRaisedBy(t: Turn, a: Attempt, lim: Limits)
    requires Follows(t, a, lim) && t.end.Raised?
    ensures RaisedBy(t, a)
  {
    EffectRaises(t.strategies[t.index].name, t.before, lim, a);
  }

  /** A chain grows by a turn that follows from the next attempt and is linked to the chain's last turn. */
  lemma ChainedAppend(turns: seq<Turn>, attempts: seq<Attempt>, lim: Limits, t: Turn)
    requires Chained(turns, attempts, lim) && |turns| < |attempts|
    requires Follows(t, attempts[|turns|], lim)
    requires |turns| > 0 ==> Linked(turns[|turns| - 1], t)
    ensures Chained(turns + [t], attempts, lim)
  {
    var u := turns + [t];
    forall k | 0 <= k < |u|
      ensures Follows(u[k], attempts[k], lim)
    {
      if k < |turns| {
        assert u[k] == turns[k];
      }
    }
    forall i, j | 0 <= i < j < |u| && j == i + 1
      ensures Linked(u[i], u[j])
    {
      assert u[i] == turns[i];
      if j < |turns| {
        assert u[j] == turns[j];
      }
    }
  }

  /** Every turn of a chain follows from its own attempt and is linked to the turn before it. */
  lemma ChainedAt(turns: seq<Turn>, attempts: seq<Attempt>, lim: Limits, k: nat)
    requires Chained(turns, attempts, lim) && k < |turns|
    ensures k < |attempts| && Follows(turns[k], attempts[k], lim)
    ensures k > 0 ==> Linked(turns[k - 1], turns[k])
  {
  }

  /**
   * The turn after one that raised runs what recovery decided: the new plan from its first strategy
   * (the replan for "blocked" or the fallback) exactly when the decision retries with a new plan;
   * otherwise the same plan, one strategy further after a skip or a move to the next strategy, even
   * when the decision does not retry, and the same strategy again after any other action.
   */
  lemma ResumedAfterFailure(turns: seq<Turn>, attempts: seq<Attempt>, lim: Limits, k: nat)
    requires Chained(turns, attempts, lim) && k + 1 < |turns| && turns[k].end.Raised?
    ensures var p, a, d := turns[k], turns[k].end.action, turns[k].end.decision;
      if d.shouldRetry && d.newPlan.Some? then
        && (a == R.ReplanBlocked || a == R.Fallback)
        && turns[k + 1].plan == d.newPlan.value && turns[k + 1].index == 0
        && turns[k + 1].strategies == Rebuilt(a, p.strategies, p.index)
      else
        && turns[k + 1].plan == p.plan && turns[k + 1].strategies == p.strategies
        && turns[k + 1].index == if a == R.SkipStrategy || a == R.NextStrategy then p.index + 1 else p.index
  {
  }

  /**
   * Along a chain of turns the valid count, the requests and the attempts never fall below where the
   * first turn started.
   */
  lemma {:induction false} ChainedGrows(turns: seq<Turn>, attempts: seq<Attempt>, lim: Limits, k: nat)
    requires Chained(turns, attempts, lim) && k < |turns|
    ensures turns[0].before.valid <= turns[k].after.valid
    ensures turns[0].before.requests <= turns[k].after.requests
    ensures turns[0].before.attempts <= turns[k].after.attempts
    decreases k
  {
    ChainedAt(turns, attempts, lim, k);
    EffectCounts(turns[k].strategies[turns[k].index].name, turns[k].before, lim, attempts[k]);
    if k > 0 {
      ChainedGrows(turns, attempts, lim, k - 1);
    }
  }

  // ---------------------------------------------------------------------------------------------
  // The progress a run accumulates, as a value

  /** The goal counters and records, the world model's two seen sets, and the links new in this run. */
  datatype RunState = RunState(
    valid: nat,
    attempts: nat,
    errors: nat,
    duplicates: nat,
    requests: nat,
    jobs: seq<Goal.JobRecord>,
    failed: seq<string>,
    seenLinks: set<string>,
    visited: set<string>,
    newLinks: seq<string>)

  /** The goal's target and limits, and its start time: what the stop test reads besides the counters. */
  datatype Limits = Limits(target: int, maxSeconds: int, maxRequests: int, start: Option<real>)

  /** `_should_stop` on a state: the goal achieved, out of time, or out of requests. */
  predicate StopsAt(s: RunState, lim: Limits, now: real): (r: bool)
    ensures s.valid >= lim.target || s.requests >= lim.maxRequests ==> r
    ensures lim.start.None? ==> (r <==> s.valid >= lim.target || s.requests >= lim.maxRequests)
    ensures r && s.valid < lim.target && s.requests < lim.maxRequests ==>
      lim.start.Some? && now - lim.start.value > lim.maxSeconds as real
  {
    s.valid >= lim.target
    || (lim.start.Some? && now - lim.start.value > lim.maxSeconds as real)
    || s.requests >= lim.maxRequests
  }

  function JobOf(item: SitemapItem, link: string, status: string): Goal.JobRecord
    requires item.outcome.Extracted?
  {
    Goal.JobRecord(item.date, item.outcome.title, link, item.outcome.text, item.outcome.context, item.url, status, false)
  }

  /**
   * One processed sitemap item: one request, the post marked visited, then exactly one record —
   * a skip (no data), a failure (extraction raised), a duplicate (the stripped link was seen
   * before) or a success (a new link, which becomes seen and is kept for the ledger).
   */
  function ItemStep(s: RunState, item: SitemapItem): RunState {
    OutcomeStep(s.(requests := s.requests + 1, visited := s.visited + {item.url}), item)
  }

  /** What the item's extraction outcome adds once its request is counted and its URL marked visited. */
  function OutcomeStep(s: RunState, item: SitemapItem): RunState {
    match item.outcome
    case NoData => s.(attempts := s.attempts + 1)
    case ExtractError(_) => s.(attempts := s.attempts + 1, errors := s.errors + 1, failed := s.failed + [item.url])
    case Extracted(link, _, _, _) =>
      var l := Strip(link);
      if WM.LinkSeen(s.seenLinks, l) then
        s.(duplicates := s.duplicates + 1, valid := s.valid + 1, attempts := s.attempts + 1,
           jobs := s.jobs + [JobOf(item, l, "Duplicate").(isDuplicate := true)])
      else
        s.(valid := s.valid + 1, attempts := s.attempts + 1, jobs := s.jobs + [JobOf(item, l, "New")],
           seenLinks := s.seenLinks + {Strip(l)}, newLinks := s.newLinks + [l])
  }

  /** The item loop of `_execute_sitemap`: items in order, stopping before the first one met with the goal achieved or out of resources. */
  function SitemapSpec(s: RunState, lim: Limits, items: seq<SitemapItem>): RunState
    decreases |items|
  {
    if items == [] || StopsAt(s, lim, items[0].now) then s
    else SitemapSpec(ItemStep(s, items[0]), lim, items[1..])
  }

  /** How many items the loop processes. */
  function ProcessedCount(s: RunState, lim: Limits, items: seq<SitemapItem>): (n: nat)
    ensures n <= |items|
    decreases |items|
  {
    if items == [] || StopsAt(s, lim, items[0].now) then 0
    else 1 + ProcessedCount(ItemStep(s, items[0]), lim, items[1..])
  }

  /** Every item costs one request and one attempt and marks its URL visited, whatever its outcome. */
  lemma ItemStepCounts(s: RunState, item: SitemapItem)
    ensures var t := ItemStep(s, item);
      t.requests == s.requests + 1 && t.attempts == s.attempts + 1 && t.visited == s.visited + {item.url}
  {
  }

  /**
   * The loop processes a prefix of the items, one request and one record each; when it stops early,
   * the goal is achieved or out of resources at the first item left.
   */
  lemma {:induction false} SitemapProcessesPrefix(s: RunState, lim: Limits, items: seq<SitemapItem>)
    ensures var n := ProcessedCount(s, lim, items);
      var r := SitemapSpec(s, lim, items);
      && r.requests == s.requests + n && r.attempts == s.attempts + n
      && (n < |items| ==> StopsAt(r, lim, items[n].now))
      && r.visited == s.visited + set it | it in items[..n] :: it.url
    decreases |items|
  {
    var n := ProcessedCount(s, lim, items);
    if items != [] && !StopsAt(s, lim, items[0].now) {
      var t := ItemStep(s, items[0]);
      ItemStepCounts(s, items[0]);
      SitemapProcessesPrefix(t, lim, items[1..]);
      assert items[..n] == [items[0]] + items[1..][..n - 1];
      assert (set it | it in items[..n] :: it.url) == {items[0].url} + set it | it in items[1..][..n - 1] :: it.url;
    } else {
      assert items[..n] == [];
    }
  }

  /** The links kept for the ledger never repeat, and each of them is a seen link. */
  predicate LinksKept(s: RunState) {
    && (forall i, j :: 0 <= i < j < |s.newLinks| ==> s.newLinks[i] != s.newLinks[j])
    && (forall l :: l in s.newLinks ==> l in s.seenLinks)
  }

  /**
   * Since the moment the seen set was `base` and `from` links were kept: the seen set has grown by
   * exactly the links kept since, and none of those was seen then.
   */
  predicate KeptSince(base: set<string>, from: nat, s: RunState) {
    && from <= |s.newLinks|
    && s.seenLinks == base + (set l | l in s.newLinks[from..])
    && (forall i :: from <= i < |s.newLinks| ==> s.newLinks[i] !in base)
  }

  lemma ItemStepKeepsLinks(base: set<string>, from: nat, s: RunState, item: SitemapItem)
    requires LinksKept(s) && KeptSince(base, from, s)
    ensures var t := ItemStep(s, item);
      LinksKept(t) && KeptSince(base, from, t) && t.newLinks[..|s.newLinks|] == s.newLinks
  {
    var t := ItemStep(s, item);
    if item.outcome.Extracted? {
      var l := Strip(item.outcome.link);
      StripIdempotent(item.outcome.link);
      if !WM.LinkSeen(s.seenLinks, l) {
        assert l !in s.seenLinks;
        KeepFreshLink(base, from, s, t, l);
      }
    }
  }

  /** Keeping a link not seen yet marks it seen and keeps both link invariants. */
  lemma KeepFreshLink(base: set<string>, from: nat, s: RunState, t: RunState, l: string)
    requires LinksKept(s) && KeptSince(base, from, s) && l !in s.seenLinks
    requires t.seenLinks == s.seenLinks + {l} && t.newLinks == s.newLinks + [l]
    ensures LinksKept(t) && KeptSince(base, from, t) && t.newLinks[..|s.newLinks|] == s.newLinks
  {
    assert t.newLinks[from..] == s.newLinks[from..] + [l];
    assert (set x | x in t.newLinks[from..]) == (set x | x in s.newLinks[from..]) + {l};
  }

  /**
   * A link already seen — loaded from the ledger or found earlier — is a duplicate, so the links a
   * sitemap crawl keeps never repeat, never repeat a seen link, and are exactly what the seen set gains.
   */
  lemma {:induction false} SitemapKeepsLinks(base: set<string>, from: nat, s: RunState, lim: Limits, items: seq<SitemapItem>)
    requires LinksKept(s) && KeptSince(base, from, s)
    ensures var r := SitemapSpec(s, lim, items);
      LinksKept(r) && KeptSince(base, from, r) && |r.newLinks| >= |s.newLinks| && r.newLinks[..|s.newLinks|] == s.newLinks
    decreases |items|
  {
    if items != [] && !StopsAt(s, lim, items[0].now) {
      var t := ItemStep(s, items[0]);
      ItemStepKeepsLinks(base, from, s, items[0]);
      SitemapKeepsLinks(base, from, t, lim, items[1..]);
      var r := SitemapSpec(s, lim, items);
      assert r.newLinks[..|s.newLinks|] == r.newLinks[..|t.newLinks|][..|s.newLinks|];
    }
  }

  /** Every valid job a sitemap crawl adds is either a duplicate or a new link. */
  lemma {:induction false} SitemapValidJobs(s: RunState, lim: Limits, items: seq<SitemapItem>)
    ensures var r := SitemapSpec(s, lim, items);
      r.valid - s.valid == (r.duplicates - s.duplicates) + (|r.newLinks| - |s.newLinks|)
      && r.valid >= s.valid && r.duplicates >= s.duplicates && |r.newLinks| >= |s.newLinks|
    decreases |items|
  {
    if items != [] && !StopsAt(s, lim, items[0].now) {
      SitemapValidJobs(ItemStep(s, items[0]), lim, items[1..]);
    }
  }

  /** Links kept since a later moment extend the links kept since an earlier one. */
  lemma KeptSinceTrans(base: set<string>, from: nat, s: RunState, t: RunState)
    requires KeptSince(base, from, s)
    requires KeptSince(s.seenLinks, |s.newLinks|, t) && t.newLinks[..|s.newLinks|] == s.newLinks
    ensures KeptSince(base, from, t) && t.newLinks[..from] == s.newLinks[..from]
  {
    assert t.newLinks[from..] == s.newLinks[from..] + t.newLinks[|s.newLinks|..];
    assert (set l | l in t.newLinks[from..]) == (set l | l in s.newLinks[from..]) + (set l | l in t.newLinks[|s.newLinks|..]);
    forall i | from <= i < |t.newLinks|
      ensures t.newLinks[i] !in base
    {
      if i < |s.newLinks| {
        assert t.newLinks[i] == s.newLinks[i];
      }
    }
  }

  // ---------------------------------------------------------------------------------------------
  // Auto-discovery counting

  predicate IsFound(line: string) {
    Contains(line, "[FOUND]")
  }

  function FoundCount(lines: seq<string>): (n: nat)
    ensures n <= |lines|
  {
    if lines == [] then 0 else (if IsFound(lines[0]) then 1 else 0) + FoundCount(lines[1..])
  }

  /**
   * The counter after relaying the crawl's lines, and whether the crawl's exception reaches the
   * loop. A "[FOUND]" line adds one job once it has been relayed; the loop checks the goal after
   * relaying each line, before that line is counted, and stops listening once it is achieved, in
   * which case an exception the crawl would raise later never happens.
   */
  function AutoSpec(valid: nat, target: int, lines: seq<string>, raises: bool): (nat, bool)
    decreases |lines|
  {
    if lines == [] then (valid, raises)
    else if valid >= target then (valid, false)
    else AutoSpec(valid + (if IsFound(lines[0]) then 1 else 0), target, lines[1..], raises)
  }

  /**
   * From below the target, the counter grows by the number of "[FOUND]" lines but stops exactly at
   * the target: the result is the smaller of the two.
   */
  lemma {:induction false} AutoCount(valid: nat, target: int, lines: seq<string>, raises: bool)
    requires valid < target
    ensures var r := AutoSpec(valid, target, lines, raises).0;
      valid <= r <= valid + FoundCount(lines)
      && (valid + FoundCount(lines) <= target ==> r == valid + FoundCount(lines))
      && (valid + FoundCount(lines) > target ==> r == target)
    decreases |lines|
  {
    if lines != [] {
      var v := valid + (if IsFound(lines[0]) then 1 else 0);
      if v < target {
        AutoCount(v, target, lines[1..], raises);
      } else {
        AutoStaysPut(v, target, lines[1..], raises);
      }
    }
  }

  lemma {:induction false} AutoStaysPut(valid: nat, target: int, lines: seq<string>, raises: bool)
    requires valid >= target
    ensures AutoSpec(valid, target, lines, raises).0 == valid
  {
  }

  /** The crawl's exception reaches the loop only if the goal was never achieved while its lines were relayed. */
  lemma {:induction false} AutoRaisesOnlyWhileShort(valid: nat, target: int, lines: seq<string>, raises: bool)
    requires AutoSpec(valid, target, lines, raises).1
    ensures raises && (lines == [] || valid < target)
    ensures lines != [] ==> AutoSpec(valid, target, lines, raises).0 <= valid + FoundCount(lines) && valid + FoundCount(lines[..|lines| - 1]) < target
    decreases |lines|
  {
    if lines != [] {
      var v := valid + (if IsFound(lines[0]) then 1 else 0);
      AutoRaisesOnlyWhileShort(v, target, lines[1..], raises);
      if |lines| > 1 {
        assert lines[..|lines| - 1] == [lines[0]] + lines[1..][..|lines[1..]| - 1];
        assert lines[..|lines| - 1][1..] == lines[1..][..|lines[1..]| - 1];
      } else {
        assert lines[..|lines| - 1] == [];
      }
      AutoUpperBound(v, target, lines[1..], raises);
    }
  }

  lemma {:induction false} AutoUpperBound(valid: nat, target: int, lines: seq<string>, raises: bool)
    ensures AutoSpec(valid, target, lines, raises).0 <= valid + FoundCount(lines)
    decreases |lines|
  {
    if lines != [] && valid < target {
      AutoUpperBound(valid + (if IsFound(lines[0]) then 1 else 0), target, lines[1..], raises);
    }
  }

  // ---------------------------------------------------------------------------------------------
  // One strategy execution

  /**
   * What executing a strategy of kind `name` does to the run from state `s`: a sitemap crawl runs
   * the item loop over the fetched items, or raises the fetch's exception; an auto-discovery crawl
   * relays the crawl's lines unless the goal is already achieved, and its exception reaches the loop
   * as `AutoSpec` says; the loop executes no other kind, so those change nothing.
   */
  function StrategyEffect(name: P.StrategyType, s: RunState, lim: Limits, a: Attempt): (RunState, Option<string>)
  {
    if name == P.SitemapCrawl then
      match a.sitemap
      case FetchRaised(m) => (s, Some(m))
      case Items(items) => (SitemapSpec(s, lim, items), None)
    else if name == P.AutoDiscovery then
      if s.valid >= lim.target then (s, None)
      else
        var r := AutoSpec(s.valid, lim.target, a.auto.lines, a.auto.raised.Some?);
        (s.(valid := r.0), if r.1 then a.auto.raised else None)
    else (s, None)
  }

  /**
   * An exception reaches the loop only from a sitemap fetch that raised, which changes nothing, or
   * from an auto-discovery crawl that raised it while the goal was short.
   */
  lemma EffectRaises(name: P.StrategyType, s: RunState, lim: Limits, a: Attempt)
    ensures var e := StrategyEffect(name, s, lim, a);
      e.1.Some? ==>
        || (name == P.SitemapCrawl && a.sitemap == FetchRaised(e.1.value) && e.0 == s)
        || (name == P.AutoDiscovery && a.auto.raised == e.1 && s.valid < lim.target)
  {
  }

  /**
   * Only a sitemap crawl over fetched items makes requests and records attempts, one of each per
   * item it processes; only an auto-discovery crawl changes nothing but the valid count, which grows
   * by at most its "[FOUND]" lines; no strategy lowers the valid count.
   */
  lemma EffectCounts(name: P.StrategyType, s: RunState, lim: Limits, a: Attempt)
    ensures var t := StrategyEffect(name, s, lim, a).0;
      && t.valid >= s.valid
      && (name == P.SitemapCrawl && a.sitemap.Items? ==>
            var n := ProcessedCount(s, lim, a.sitemap.items);
            t.requests == s.requests + n && t.attempts == s.attempts + n)
      && (name == P.AutoDiscovery ==> t == s.(valid := t.valid) && t.valid <= s.valid + FoundCount(a.auto.lines))
      && (!(name == P.SitemapCrawl && a.sitemap.Items?) && name != P.AutoDiscovery ==> t == s)
  {
    if name == P.SitemapCrawl && a.sitemap.Items? {
      SitemapProcessesPrefix(s, lim, a.sitemap.items);
      SitemapValidJobs(s, lim, a.sitemap.items);
    } else if name == P.AutoDiscovery && s.valid < lim.target {
      AutoCount(s.valid, lim.target, a.auto.lines, a.auto.raised.Some?);
    }
  }

  /**
   * Whatever strategy runs, the links kept stay distinct seen links, none of them lost, and the seen
   * set grows by exactly the links kept, none of which was seen before.
   */
  lemma EffectKeepsLinks(base: set<string>, from: nat, name: P.StrategyType, s: RunState, lim: Limits, a: Attempt)
    requires LinksKept(s) && KeptSince(base, from, s)
    ensures var t := StrategyEffect(name, s, lim, a).0;
      LinksKept(t) && KeptSince(base, from, t) && s.newLinks <= t.newLinks
  {
    if name == P.SitemapCrawl && a.sitemap.Items? {
      SitemapKeepsLinks(base, from, s, lim, a.sitemap.items);
    }
  }

  // ---------------------------------------------------------------------------------------------
  // The date range

  /** `n` calendar days back, or `None` when that would fall before 0001-01-01. */
  function DaysBack(d: Dates.Date, n: nat): (r: Option<Dates.Date>)
    requires Dates.ValidDate(d)
    ensures r.Some? ==> Dates.ValidDate(r.value)
    ensures r.Some? && n > 0 ==> Dates.DateLt(r.value, d)
    decreases n
  {
    if n == 0 then Some(d)
    else if d == Dates.Date(1, 1, 1) then None
    else DaysBack(Dates.PrevDay(d), n - 1)
  }

  /**
   * The goal's date range: the two dates given when both are non-empty, otherwise the week ending
   * today; `None` for the overflow error a week before 0001-01-07 raises.
   */
  function DateRange(startDate: Option<string>, endDate: Option<string>, today: Dates.Date): (r: Option<(string, string)>)
    requires Dates.ValidDate(today)
    ensures startDate.Some? && startDate.value != "" && endDate.Some? && endDate.value != "" ==>
      r == Some((startDate.value, endDate.value))
    ensures r.Some? && !(startDate.Some? && startDate.value != "" && endDate.Some? && endDate.value != "") ==>
      r.value.1 == Dates.FormatIso(today)
      && exists d :: Dates.ValidDate(d) && Dates.DateLt(d, today) && r.value.0 == Dates.FormatIso(d)
  {
    if startDate.Some? && startDate.value != "" && endDate.Some? && endDate.value != "" then
      Some((startDate.value, endDate.value))
    else
      match DaysBack(today, 7)
      case None => None
      case Some(w) => Some((Dates.FormatIso(w), Dates.FormatIso(today)))
  }

  // ---------------------------------------------------------------------------------------------
  // The agent

  class CareerBoardAgent {
    const goal: Goal.ScrapingGoal
    const worldModel: WM.WorldModel
    const planner: P.StrategyPlanner
    const recovery: R.RecoveryEngine
    var currentPlan: P.Plan?
    var newApplyLinks: seq<string>

    /** The components share one goal and one world model, and the kept links are distinct seen links. */
    predicate Valid()
      reads this, goal, worldModel, worldModel.sites.Values
    {
      && planner.goal == goal && planner.worldModel == worldModel
      && recovery.goal == goal && recovery.planner == planner
      && worldModel.Valid()
      && LinksKept(State())
    }

    /** The agent around the given goal, or around a default goal of 50 jobs when none is given. */
    constructor (g: Goal.ScrapingGoal?)
      ensures g != null ==> goal == g
      ensures g == null ==> fresh(goal) && goal.targetValidJobs == Goal.DefaultTargetValidJobs
      ensures fresh(worldModel) && fresh(planner) && fresh(recovery)
      ensures currentPlan == null && newApplyLinks == []
      ensures Valid()
    {
      var theGoal: Goal.ScrapingGoal;
      if g == null {
        theGoal := new Goal.ScrapingGoal(Goal.DefaultTargetValidJobs, Goal.DefaultMaxErrorRate, Goal.DefaultMaxExecutionTimeSeconds);
      } else {
        theGoal := g;
      }
      var w := new WM.WorldModel();
      var p := new P.StrategyPlanner(theGoal, w);
      var r := new R.RecoveryEngine(theGoal, p);
      goal := theGoal;
      worldModel := w;
      planner := p;
      recovery := r;
      currentPlan := null;
      newApplyLinks := [];
    }

    function State(): RunState
      reads this, goal, worldModel
    {
      RunState(goal.validJobsFound, goal.totalAttempts, goal.errorsEncountered, goal.duplicatesFound,
               goal.requestsMade, goal.extractedJobs, goal.failedUrls, worldModel.seenApplyLinks,
               worldModel.seenUrls, newApplyLinks)
    }

    /** The cursor of the current plan. */
    function Here(): Cursor
      requires currentPlan != null
      reads this, currentPlan
    {
      Cursor(currentPlan, currentPlan.strategies, currentPlan.currentIndex)
    }

    function LimitsOf(): Limits
      reads goal
    {
      Limits(goal.targetValidJobs, goal.maxExecutionTimeSeconds, goal.maxRequestsPerSession, goal.startTime)
    }

    /** `_should_stop`: the goal achieved or out of resources; an error rate over the limit is not a reason. */
    predicate ShouldStop(now: real)
      reads this, goal, worldModel
      ensures ShouldStop(now) <==> StopsAt(State(), LimitsOf(), now)
    {
      goal.IsAchieved() || goal.IsResourceExhausted(now)
    }

    /** The body of `_execute_sitemap`'s item loop for one post. */
    method ProcessItem(item: SitemapItem)
      requires Valid()
      modifies this, goal, worldModel
      ensures Valid()
      ensures State() == ItemStep(old(State()), item)
      ensures LimitsOf() == old(LimitsOf()) && goal.endTime == old(goal.endTime) && goal.dateRange == old(goal.dateRange)
      ensures worldModel.sites == old(worldModel.sites) && currentPlan == old(currentPlan)
    {
      ghost var before := State();
      goal.RecordRequest();
      worldModel.MarkUrlVisited(item.url);
      assert State() == before.(requests := before.requests + 1, visited := before.visited + {item.url});
      RecordOutcome(item);
      ItemStepKeepsLinks(before.seenLinks, |before.newLinks|, before, item);
    }

    /** The extraction outcome of one post: a skip, a failure, a duplicate, or a new job whose link is kept. */
    method RecordOutcome(item: SitemapItem)
      modifies this, goal, worldModel
      ensures State() == OutcomeStep(old(State()), item)
      ensures LimitsOf() == old(LimitsOf()) && goal.endTime == old(goal.endTime) && goal.dateRange == old(goal.dateRange)
      ensures worldModel.sites == old(worldModel.sites) && currentPlan == old(currentPlan)
      ensures worldModel.Valid() == old(worldModel.Valid())
    {
      match item.outcome
      case NoData =>
        goal.RecordSkip();
      case ExtractError(_) =>
        goal.RecordFailure(item.url);
      case Extracted(link, _, _, _) =>
        var l := Strip(link);
        if worldModel.IsApplyLinkSeen(l) {
          goal.RecordDuplicate(JobOf(item, l, "Duplicate"));
        } else {
          goal.RecordSuccess(JobOf(item, l, "New"));
          worldModel.AddApplyLink(l);
          newApplyLinks := newApplyLinks + [l];
        }
    }

    /** `_execute_sitemap` once the parser has returned its items. */
    method ExecuteSitemap(items: seq<SitemapItem>)
      requires Valid()
      modifies this, goal, worldModel
      ensures Valid()
      ensures State() == SitemapSpec(old(State()), old(LimitsOf()), items)
      ensures LimitsOf() == old(LimitsOf()) && goal.endTime == old(goal.endTime) && goal.dateRange == old(goal.dateRange)
      ensures worldModel.sites == old(worldModel.sites) && currentPlan == old(currentPlan)
    {
      var i := 0;
      while i < |items|
        invariant 0 <= i <= |items|
        invariant Valid()
        invariant SitemapSpec(State(), LimitsOf(), items[i..]) == SitemapSpec(old(State()), old(LimitsOf()), items)
        invariant LimitsOf() == old(LimitsOf()) && goal.endTime == old(goal.endTime) && goal.dateRange == old(goal.dateRange)
        invariant worldModel.sites == old(worldModel.sites) && currentPlan == old(currentPlan)
      {
        if ShouldStop(items[i].now) {
          break;
        }
        assert items[i..][1..] == items[i + 1..];
        ProcessItem(items[i]);
        i := i + 1;
      }
    }

    /**
     * `_execute_auto_discovery` together with the loop's check after every relayed line: each
     * "[FOUND]" line adds one valid job, the crawl is abandoned once the goal is achieved, and the
     * crawl's exception is returned when it reaches the loop.
     */
    method ExecuteAutoDiscovery(crawl: AutoCrawl) returns (raised: Option<string>)
      modifies goal
      ensures old(goal.IsAchieved()) ==> goal.validJobsFound == old(goal.validJobsFound) && raised == None
      ensures !old(goal.IsAchieved()) ==>
        var r := AutoSpec(old(goal.validJobsFound), goal.targetValidJobs, crawl.lines, crawl.raised.Some?);
        goal.validJobsFound == r.0 && (raised.Some? <==> r.1) && (raised.Some? ==> raised == crawl.raised)
      ensures goal.totalAttempts == old(goal.totalAttempts) && goal.errorsEncountered == old(goal.errorsEncountered)
      ensures goal.duplicatesFound == old(goal.duplicatesFound) && goal.requestsMade == old(goal.requestsMade)
      ensures goal.extractedJobs == old(goal.extractedJobs) && goal.failedUrls == old(goal.failedUrls)
      ensures goal.startTime == old(goal.startTime) && goal.endTime == old(goal.endTime) && goal.dateRange == old(goal.dateRange)
    {
      // The "[AUTO] Starting" line is relayed and checked first.
      if goal.IsAchieved() {
        return None;
      }
      var lines := crawl.lines;
      var i := 0;
      while i < |lines|
        invariant 0 <= i <= |lines|
        invariant AutoSpec(goal.validJobsFound, goal.targetValidJobs, lines[i..], crawl.raised.Some?)
               == AutoSpec(old(goal.validJobsFound), goal.targetValidJobs, lines, crawl.raised.Some?)
        invariant goal.totalAttempts == old(goal.totalAttempts) && goal.errorsEncountered == old(goal.errorsEncountered)
        invariant goal.duplicatesFound == old(goal.duplicatesFound) && goal.requestsMade == old(goal.requestsMade)
        invariant goal.extractedJobs == old(goal.extractedJobs) && goal.failedUrls == old(goal.failedUrls)
        invariant goal.startTime == old(goal.startTime) && goal.endTime == old(goal.endTime) && goal.dateRange == old(goal.dateRange)
      {
        assert lines[i..][1..] == lines[i + 1..];
        if goal.IsAchieved() {
          return None;
        }
        if IsFound(lines[i]) {
          goal.validJobsFound := goal.validJobsFound + 1;
        }
        i := i + 1;
      }
      raised := crawl.raised;
    }

    /**
     * `_handle_failure`: classify the message (no status code is passed), let recovery decide on
     * the current plan, and adopt the new plan only when the decision retries with one.
     */
    method HandleFailure(message: string, now: real, jitter: real, stamp: string) returns (d: R.Decision)
      requires Valid() && currentPlan != null && 0.0 <= jitter <= 1.0
      modifies this, recovery, currentPlan, worldModel
      ensures Valid() && currentPlan != null
      ensures recovery.failureHistory == old(recovery.failureHistory) +
        [R.FailureRecord(R.ClassifyError(message, None), R.StrategyName(old(currentPlan.CurrentStrategy())), now)]
      ensures recovery.strategyRetryCounts == R.Counted(old(recovery.strategyRetryCounts), R.StrategyName(old(currentPlan.CurrentStrategy())))
      ensures var a := old(recovery.NextAction(R.ClassifyError(message, None), currentPlan, now, jitter));
        && Decides(a, d, old(currentPlan.strategies), old(currentPlan.currentIndex))
        && Here() == AfterFailure(old(Here()), a, d)
        && recovery.consecutiveFailures == (if a == R.NextStrategy then 0 else old(recovery.consecutiveFailures) + 1)
      ensures d.shouldRetry && d.newPlan.Some? ==> fresh(currentPlan)
      ensures State() == old(State()) && newApplyLinks == old(newApplyLinks)
      ensures forall k :: k in old(worldModel.sites) ==> k in worldModel.sites && worldModel.sites[k] == old(worldModel.sites[k])
    {
      var ft := R.ClassifyError(message, None);
      var plan := currentPlan;
      ghost var action, c := recovery.NextAction(ft, plan, now, jitter), Here();
      ghost var remaining := plan.GetRemaining();
      d := recovery.AnalyzeAndDecide(ft, plan, now, jitter, stamp);
      ghost var strategies1, index1 := plan.strategies, plan.currentIndex;
      ghost var fresh1, index0 := if d.newPlan.Some? then d.newPlan.value.strategies else [],
                                  if d.newPlan.Some? then d.newPlan.value.currentIndex else 0;
      FailureResolved(action, d, c, remaining, strategies1, index1, fresh1, index0);
      // Without a retry `_handle_failure` returns at once; the wait and the identity rotation change nothing here.
      if d.shouldRetry && d.newPlan.Some? {
        currentPlan := d.newPlan.value;
      }
      assert Here() == AfterFailure(c, action, d);
    }

    /**
     * One turn of the main loop up to the strategy's end: a sitemap crawl over the fetched items (or the
     * fetch's exception), an auto-discovery crawl, or nothing for the kinds the agent does not run.
     */
    method ExecuteStrategy(a: Attempt) returns (raised: Option<string>)
      requires Valid() && currentPlan != null && currentPlan.HasMore()
      modifies this, goal, worldModel
      ensures Valid() && currentPlan == old(currentPlan)
      ensures (State(), raised) == StrategyEffect(currentPlan.strategies[currentPlan.currentIndex].name, old(State()), old(LimitsOf()), a)
      ensures KeptSince(old(worldModel.seenApplyLinks), |old(newApplyLinks)|, State())
      ensures old(newApplyLinks) <= newApplyLinks
      ensures LimitsOf() == old(LimitsOf()) && goal.endTime == old(goal.endTime) && goal.dateRange == old(goal.dateRange)
      ensures worldModel.sites == old(worldModel.sites)
    {
      var before := State();
      assert KeptSince(before.seenLinks, |before.newLinks|, before);
      var name := currentPlan.strategies[currentPlan.currentIndex].name;
      raised := None;
      if name == P.SitemapCrawl {
        match a.sitemap
        case FetchRaised(m) =>
          raised := Some(m);
        case Items(items) =>
          ExecuteSitemap(items);
      } else if name == P.AutoDiscovery {
        raised := ExecuteAutoDiscovery(a.auto);
        assert State() == before.(valid := goal.validJobsFound);
      }
      EffectKeepsLinks(before.seenLinks, |before.newLinks|, name, before, old(LimitsOf()), a);
    }

    /**
     * Where turn `t` leaves the agent: the current plan, its strategies and its index are where the
     * turn leaves the cursor; after a completion the failure streak is reset, and after reaching the
     * goal the goal is achieved.
     */
    predicate LeftBy(t: Turn)
      reads this, currentPlan, recovery, goal
    {
      && currentPlan != null && Here() == Resumed(t)
      && (t.end == Completed ==> recovery.consecutiveFailures == 0)
      && (t.end == GoalMet ==> goal.IsAchieved())
    }

    /**
     * One turn of the main loop once the stop test has let it through: execute the current strategy;
     * when it ends without an exception, stop on an achieved goal, or else advance the plan and reset
     * the failure counter; when it raises, hand the exception to `HandleFailure`.
     */
    method TakeTurn(a: Attempt) returns (ghost t: Turn)
      requires Valid() && currentPlan != null && currentPlan.HasMore() && !ShouldStop(a.now)
      modifies this, goal, worldModel, recovery, currentPlan
      ensures Valid() && currentPlan != null
      ensures currentPlan == old(currentPlan) || fresh(currentPlan)
      ensures t.plan == old(currentPlan) && t.strategies == old(currentPlan.strategies) && t.index == old(currentPlan.currentIndex)
      ensures t.before == old(State()) && t.after == State()
      ensures Follows(t, a, LimitsOf()) && LeftBy(t)
      ensures t.end.Raised? ==>
        && t.end.action == R.Decide(R.ClassifyError(t.end.message, None), old(recovery.consecutiveFailures) + 1,
             R.RetryCount(old(recovery.strategyRetryCounts), R.StrategyName(old(currentPlan.CurrentStrategy()))) + 1,
             goal.GetStatus(a.now), goal.IsResourceExhausted(a.now), goal.validJobsFound, old(currentPlan.HasMore()), a.jitter)
        && recovery.consecutiveFailures == (if t.end.action == R.NextStrategy then 0 else old(recovery.consecutiveFailures) + 1)
        && recovery.strategyRetryCounts == R.Counted(old(recovery.strategyRetryCounts), R.StrategyName(old(currentPlan.CurrentStrategy())))
        && recovery.failureHistory == old(recovery.failureHistory) +
             [R.FailureRecord(R.ClassifyError(t.end.message, None), R.StrategyName(old(currentPlan.CurrentStrategy())), a.now)]
        && (t.end.decision.shouldRetry && t.end.decision.newPlan.Some? ==> fresh(currentPlan))
      ensures KeptSince(old(worldModel.seenApplyLinks), |old(newApplyLinks)|, State())
      ensures old(newApplyLinks) <= newApplyLinks
      ensures LimitsOf() == old(LimitsOf()) && goal.endTime == old(goal.endTime) && goal.dateRange == old(goal.dateRange)
    {
      var before := State();
      var raised := ExecuteStrategy(a);
      t := Turn(currentPlan, currentPlan.strategies, currentPlan.currentIndex, before, State(), Completed);
      if raised.Some? {
        ghost var action := recovery.NextAction(R.ClassifyError(raised.value, None), currentPlan, a.now, a.jitter);
        var d := HandleFailure(raised.value, a.now, a.jitter, a.stamp);
        t := t.(end := Raised(raised.value, action, d));
      } else if goal.IsAchieved() {
        t := t.(end := GoalMet);
      } else {
        currentPlan.Advance();
        recovery.ResetOnSuccess();
      }
    }

    /**
     * The main loop of `run`: while the plan has strategies left and the goal neither is achieved nor
     * out of resources, execute the current strategy. A strategy that ends without an exception is
     * advanced past and the failure counter reset, unless the goal was achieved, which ends the loop;
     * an exception goes to `HandleFailure` and the loop goes on. Each turn consumes one attempt;
     * `used` is how many were consumed, and `turns` records, turn by turn, the strategy that ran, the
     * run's state before and after it, and how it ended: the first runs the entry plan at its index
     * from the entry state, each follows from its attempt, each starts where the previous one ended
     * and runs the plan and index it left (the same plan's next strategy after a completion, the
     * cursor recovery's decision leaves after an exception), only the last turn can meet the goal,
     * and the run ends in the state the last turn left.
     */
    method ExecutePlan(attempts: seq<Attempt>) returns (used: nat, ghost turns: seq<Turn>)
      requires Valid() && currentPlan != null
      modifies this, goal, worldModel, recovery, currentPlan
      ensures Valid() && currentPlan != null
      ensures |turns| == used && Chained(turns, attempts, LimitsOf())
      ensures |turns| > 0 ==>
        && turns[0].plan == old(currentPlan) && turns[0].strategies == old(currentPlan.strategies)
        && turns[0].index == old(currentPlan.currentIndex) && turns[0].before == old(State())
      ensures |turns| == 0 ==> State() == old(State())
      ensures |turns| > 0 ==> State() == turns[|turns| - 1].after
      ensures |turns| == 0 ==> currentPlan == old(currentPlan)
      ensures |turns| > 0 ==> LeftBy(turns[|turns| - 1])
      ensures used < |attempts| ==> !currentPlan.HasMore() || ShouldStop(attempts[used].now)
      ensures KeptSince(old(worldModel.seenApplyLinks), |old(newApplyLinks)|, State())
      ensures old(newApplyLinks) <= newApplyLinks
      ensures LimitsOf() == old(LimitsOf()) && goal.endTime == old(goal.endTime) && goal.dateRange == old(goal.dateRange)
    {
      ghost var base := worldModel.seenApplyLinks;
      ghost var start := newApplyLinks;
      used, turns := 0, [];
      while used < |attempts| && currentPlan.HasMore() && !ShouldStop(attempts[used].now)
        invariant |turns| == used && Chained(turns, attempts, LimitsOf())
        invariant Valid() && currentPlan != null
        invariant currentPlan == old(currentPlan) || fresh(currentPlan)
        invariant |turns| > 0 ==>
          && turns[0].plan == old(currentPlan) && turns[0].strategies == old(currentPlan.strategies)
          && turns[0].index == old(currentPlan.currentIndex) && turns[0].before == old(State())
        invariant |turns| == 0 ==> State() == old(State())
        invariant |turns| > 0 ==> State() == turns[|turns| - 1].after
        invariant |turns| == 0 ==>
          currentPlan == old(currentPlan) && currentPlan.strategies == old(currentPlan.strategies)
          && currentPlan.currentIndex == old(currentPlan.currentIndex)
        invariant |turns| > 0 ==> LeftBy(turns[|turns| - 1])
        invariant KeptSince(base, |start|, State())
        invariant start <= newApplyLinks
        invariant LimitsOf() == old(LimitsOf()) && goal.endTime == old(goal.endTime) && goal.dateRange == old(goal.dateRange)
        decreases |attempts| - used
      {
        // A turn that met the goal makes the stop test fire, which is the loop's `break`.
        ghost var t := TakeTurn(attempts[used]);
        used := used + 1;
        ghost var mid := t.before;
        KeptSinceTrans(base, |start|, mid, State());
        ChainedAppend(turns, attempts, LimitsOf(), t);
        turns := turns + [t];
      }
    }

    /**
     * The opening of `run`: start the goal's clock and the session, set the goal's date range (a
     * default range that overflows raises, which ends the run) and load the ledger when there is one.
     */
    method BeginRun(startDate: Option<string>, endDate: Option<string>, today: Dates.Date,
                    startClock: real, ledger: Option<string>) returns (crashed: bool)
      requires Valid() && Dates.ValidDate(today)
      modifies goal, worldModel
      ensures Valid()
      ensures goal.startTime == Some(startClock) && goal.endTime == old(goal.endTime)
      ensures LimitsOf() == old(LimitsOf()).(start := Some(startClock))
      ensures crashed <==> DateRange(startDate, endDate, today).None?
      ensures !crashed ==> goal.dateRange == DateRange(startDate, endDate, today)
      ensures worldModel.seenApplyLinks ==
        old(worldModel.seenApplyLinks) + (if !crashed && ledger.Some? then WM.LedgerLinks(WM.FileLines(ledger.value)) else {})
      ensures State() == old(State()).(seenLinks := worldModel.seenApplyLinks)
      ensures worldModel.sites == old(worldModel.sites)
    {
      goal.Start(startClock);
      worldModel.StartSession(startClock);
      var range := DateRange(startDate, endDate, today);
      if range.None? {
        return true;
      }
      goal.dateRange := range;
      if ledger.Some? {
        var _ := worldModel.LoadSharedHistory(ledger.value);
      }
      return false;
    }

    /**
     * `generate_plan` for `targetUrl`, adopted as the current plan: the strategies planned for `view`,
     * the view of `site`, the site filed for the domain of `targetUrl`. A site already filed is the
     * one planning read, with the view it had on entry; otherwise planning filed a new one.
     */
    method AdoptPlan(targetUrl: string, now: real, stamp: string) returns (ghost view: P.SiteView, ghost site: WM.TargetSiteModel)
      requires Valid()
      modifies this, worldModel, worldModel.sites.Values
      ensures Valid() && currentPlan != null && fresh(currentPlan) && currentPlan.currentIndex == 0
      ensures currentPlan.strategies == P.PlannedStrategies(targetUrl, view)
      ensures view == P.ViewOf(site, worldModel.ExtractDomain(targetUrl))
      ensures P.FiledAs(old(worldModel.sites), worldModel.sites, WM.NormalizeDomain(worldModel.ExtractDomain(targetUrl)), site)
      ensures var key := WM.NormalizeDomain(worldModel.ExtractDomain(targetUrl));
        && (key in old(worldModel.sites) ==> site == old(worldModel.sites[key]) && view == old(P.ViewOf(site, worldModel.ExtractDomain(targetUrl))))
        && (key !in old(worldModel.sites) ==> fresh(site))
      ensures State() == old(State()) && LimitsOf() == old(LimitsOf()) && worldModel.Rest() == old(worldModel.Rest())
    {
      ghost var before := State();
      var plan;
      plan, view, site := planner.GeneratePlan(targetUrl, now, stamp);
      assert State() == before;
      currentPlan := plan;
    }

    /**
     * The middle of `run`: adopt the plan for `targetUrl`, execute it, and complete the goal at
     * `endClock`. The first turn, if any, runs the first of the strategies planned for `view`, the
     * view of `site` (see `AdoptPlan`).
     */
    method PlanAndExecute(targetUrl: string, now: real, endClock: real, stamp: string, attempts: seq<Attempt>)
      returns (ghost view: P.SiteView, ghost site: WM.TargetSiteModel, ghost turns: seq<Turn>)
      requires Valid()
      modifies this, goal, worldModel, worldModel.sites.Values, recovery
      ensures Valid() && currentPlan != null
      ensures Chained(turns, attempts, LimitsOf())
      ensures |turns| > 0 ==>
        turns[0].strategies == P.PlannedStrategies(targetUrl, view) && turns[0].index == 0 && turns[0].before == old(State())
      ensures State() == After(old(State()), turns)
      ensures view == P.ViewOf(site, worldModel.ExtractDomain(targetUrl))
      ensures var key := WM.NormalizeDomain(worldModel.ExtractDomain(targetUrl));
        && (key in old(worldModel.sites) ==> site == old(worldModel.sites[key]) && view == old(P.ViewOf(site, worldModel.ExtractDomain(targetUrl))))
        && (key !in old(worldModel.sites) ==> fresh(site))
      ensures KeptSince(old(worldModel.seenApplyLinks), |old(newApplyLinks)|, State())
      ensures old(newApplyLinks) <= newApplyLinks
      ensures LimitsOf() == old(LimitsOf()) && goal.dateRange == old(goal.dateRange)
      ensures goal.startTime == old(goal.startTime) && goal.endTime == Some(endClock)
    {
      ghost var before, limits := State(), LimitsOf();
      view, site := AdoptPlan(targetUrl, now, stamp);
      assert State() == before && LimitsOf() == limits;
      label adopted:
      var _, t := ExecutePlan(attempts);
      turns := t;
      ghost var executed, kept := State(), LimitsOf();
      goal.Complete(endClock);
      assert State() == executed && LimitsOf() == kept;
      assert unchanged@adopted(site);
    }

    /**
     * The rest of `run` once it has begun: plan, execute and complete the goal at `endClock`
     * (`PlanAndExecute`), then append the links new in this run to the ledger when there are any.
     */
    method FinishRun(targetUrl: string, ledger: Option<string>, attempts: seq<Attempt>, now: real, endClock: real, stamp: string)
      returns (savedLedger: Option<string>, ghost view: P.SiteView, ghost site: WM.TargetSiteModel, ghost turns: seq<Turn>)
      requires Valid()
      modifies this, goal, worldModel, worldModel.sites.Values, recovery
      ensures Valid() && currentPlan != null
      ensures goal.startTime == old(goal.startTime) && goal.dateRange == old(goal.dateRange) && goal.endTime == Some(endClock)
      ensures LimitsOf() == old(LimitsOf()) && Chained(turns, attempts, LimitsOf())
      ensures |turns| > 0 ==>
        turns[0].strategies == P.PlannedStrategies(targetUrl, view) && turns[0].index == 0 && turns[0].before == old(State())
      ensures State() == After(old(State()), turns)
      ensures view == P.ViewOf(site, worldModel.ExtractDomain(targetUrl))
      ensures var key := WM.NormalizeDomain(worldModel.ExtractDomain(targetUrl));
        && (key in old(worldModel.sites) ==> site == old(worldModel.sites[key]) && view == old(P.ViewOf(site, worldModel.ExtractDomain(targetUrl))))
        && (key !in old(worldModel.sites) ==> fresh(site))
      ensures savedLedger == (if ledger.Some? && newApplyLinks != [] then Some(WM.SaveToSharedHistory(ledger.value, newApplyLinks)) else ledger)
      ensures KeptSince(old(worldModel.seenApplyLinks), |old(newApplyLinks)|, State())
      ensures old(newApplyLinks) <= newApplyLinks
    {
      view, site, turns := PlanAndExecute(targetUrl, now, endClock, stamp, attempts);
      savedLedger := if newApplyLinks != [] && ledger.Some? then Some(WM.SaveToSharedHistory(ledger.value, newApplyLinks)) else ledger;
    }


    /**
     * `run`: begin the run, plan for `targetUrl`, execute the plan, complete the goal at `endClock`,
     * and return the ledger with this agent's new links appended (the ledger unchanged when there
     * are none, `None` when there is no ledger). `crashed` is the overflow of the default date range.
     * The links kept by this run are distinct and were neither seen before it nor in the ledger.
     */
    method Run(targetUrl: string, startDate: Option<string>, endDate: Option<string>, today: Dates.Date,
               startClock: real, ledger: Option<string>, attempts: seq<Attempt>, endClock: real, stamp: string)
      returns (savedLedger: Option<string>, crashed: bool, ghost view: P.SiteView, ghost site: WM.TargetSiteModel?, ghost turns: seq<Turn>)
      requires Valid() && Dates.ValidDate(today)
      modifies this, goal, worldModel, worldModel.sites.Values, recovery
      ensures Valid()
      ensures goal.startTime == Some(startClock)
      ensures crashed <==> DateRange(startDate, endDate, today).None?
      ensures crashed ==> savedLedger == ledger && newApplyLinks == old(newApplyLinks)
      ensures !crashed ==> goal.dateRange == DateRange(startDate, endDate, today) && goal.endTime == Some(endClock)
      ensures !crashed ==> currentPlan != null && site != null && view == P.ViewOf(site, worldModel.ExtractDomain(targetUrl))
      ensures !crashed ==> var key := WM.NormalizeDomain(worldModel.ExtractDomain(targetUrl));
        && (key in old(worldModel.sites) ==> site == old(worldModel.sites[key]) && view == old(P.ViewOf(site, worldModel.ExtractDomain(targetUrl))))
        && (key !in old(worldModel.sites) ==> fresh(site))
      ensures LimitsOf() == old(LimitsOf()).(start := Some(startClock))
      ensures !crashed ==> Chained(turns, attempts, LimitsOf())
      ensures !crashed ==> var loaded := old(State()).(seenLinks := old(worldModel.seenApplyLinks) +
          (if ledger.Some? then WM.LedgerLinks(WM.FileLines(ledger.value)) else {}));
        && (|turns| > 0 ==> turns[0].strategies == P.PlannedStrategies(targetUrl, view) && turns[0].index == 0 && turns[0].before == loaded)
        && State() == After(loaded, turns)
      ensures !crashed ==>
        savedLedger == (if ledger.Some? && newApplyLinks != [] then Some(WM.SaveToSharedHistory(ledger.value, newApplyLinks)) else ledger)
      ensures !crashed ==> KeptSince(
        old(worldModel.seenApplyLinks) + (if ledger.Some? then WM.LedgerLinks(WM.FileLines(ledger.value)) else {}),
        |old(newApplyLinks)|, State())
      ensures old(newApplyLinks) <= newApplyLinks
    {
      crashed := BeginRun(startDate, endDate, today, startClock, ledger);
      if crashed {
        savedLedger := ledger;
        view :| true;
        site, turns := null, [];
        return;
      }
      // Beginning the run touches neither the sites nor any site's record.
      ghost var domain := worldModel.ExtractDomain(targetUrl);
      ghost var key := WM.NormalizeDomain(domain);
      assert key in worldModel.sites ==>
        P.ViewOf(worldModel.sites[key], domain) == old(P.ViewOf(worldModel.sites[key], domain));
      savedLedger, view, site, turns := FinishRun(targetUrl, ledger, attempts, startClock, endClock, stamp);
    }
  }
}
