# CareerBoard crawl agent — a verified model

This project models the core of *scaper*, a goal-directed crawler that collects job postings. It
reads a job board's sitemap or listing pages, follows each post, and extracts the official "apply"
link. The model covers:

- **Goal**: the run's target and counters, and its status.
- **World model**: what the agent believes about each site, namely
  - a threat state machine driven by HTTP 429 (section 4 of RFC 6585), 403 (section 15.5.4 of
    RFC 9110) and 2xx (section 15.3 of RFC 9110),
  - per-strategy statistics,
  - the seen sets and the shared ledger of apply links.
- **Planner**: the scored and stably sorted strategy plan, replanning and the fallback plan.
- **Recovery engine**: the failure classifier and its ordered decision table.
- **Orchestrator**: the control loop and its per-item accounting.
- **Auto-discovery link scorer**, **sitemap parser**, **pagination heuristics** and
  **date-bounded crawl loop**.
- **Legacy scraper**: its date filter, its first-match extractor and its file slug.

The model is written in Dafny and takes the source's own form:

- The source mutates `ScrapingGoal`, `SubGoal`, `SelectorMemory`, `TargetSiteModel`, `WorldModel`,
  `Plan`, `StrategyPlanner`, `RecoveryEngine` and `CareerBoardAgent` in place, so each is a class.
  Its methods carry `modifies` clauses and state the whole new state.
- Strategies, statistics, candidates and entries are values, so each is a datatype.
- Each loop of the source is a method with its loop invariants, proved against a specification
  function. The lemmas state the source's promises about that function.

Everything the program receives from outside is an input of the model:

- the clock;
- the random jitter, scaled to [0, 1];
- each HTTP response, as a status, a body and a final URL;
- the parsed form of each page, as rows, labels and anchors in document order;
- what each strategy execution meets, such as sitemap items with their extraction outcome, or
  auto-discovery log lines followed by an exception, if any;
- the contents of the ledger file, as text, which is split into lines as Python's text mode reads
  them;
- URL joining, and the date parsing of `dateutil`, as given functions.

| Dafny file | models |
|---|---|
| text.dfy | string helpers (`strip`, `lower`, `split`, `in`) and `urlsplit`'s netloc |
| dates.dfy | calendar dates, `strptime("%Y-%m-%d")`, `strftime`, one-day steps |
| stable_sort.dfy | Python's stable `sort(key=..., reverse=True)` |
| goal.dfy | services/agent/goal.py |
| world_model.dfy | services/agent/world_model.py |
| planner.dfy | services/agent/planner.py |
| recovery.dfy | services/agent/recovery.py |
| orchestrator.dfy | services/agent/orchestrator.py |
| link_scorer.dfy | services/auto_discovery/extractor.py |
| sitemap_parser.dfy | services/sitemap_parser.py |
| pagination.dfy | services/auto_discovery/pagination.py |
| discovery_runner.dfy | services/auto_discovery/runner.py |
| legacy_scraper.dfy | scraper.py |

## Behaviour worth knowing

Some behaviour of the code is easy to misread. The model does the same in each case:

- `start()` and `complete()` overwrite their timestamps on every call; they are not idempotent
  (services/agent/goal.py:273-279).
- The site table and the post-domain filters remove every "www." in a host, not only a leading
  one (services/agent/world_model.py:413, services/auto_discovery/extractor.py:12).
- The blacklist also drops any host that merely contains a token (services/auto_discovery/extractor.py:50).
  So `dropbox.com` is dropped because it contains "x.com" (`LinkScorer.DropboxIsBlacklisted`).
- The failure counter is incremented before any wait is computed (services/agent/recovery.py:94).
  The first rate-limit wait is therefore 60 seconds, not 30.
- Auto-discovery raises `valid_jobs_found` without raising `total_attempts`
  (services/agent/orchestrator.py:305-306), so "valid ≤ attempts" does not hold across a run.
  The goal class keeps that invariant only for its own `record_*` operations.
- `_should_stop` does not treat an error rate above the limit as a reason to stop
  (services/agent/orchestrator.py:187-193).
- An abort decision does not end the main loop (services/agent/orchestrator.py:208-209).
  The loop runs the same strategy again, or the next one after a skip on a captcha or a login
  wall, because recovery has already advanced the plan (services/agent/recovery.py:195-215).
  The same holds for a replan for "blocked" that comes back empty: the old plan is kept at the
  same strategy (`Orchestrator.ResumedAfterFailure`).
- The API strategy needs both the capability flag and a known endpoint
  (services/agent/planner.py:130, 218).
- A malformed date raises instead of ending as a terminal status:
  - the sitemap cutoff and end dates raise (services/sitemap_parser.py:10, 15);
  - the default seven-day window raises when it would fall before year 1
    (services/agent/orchestrator.py:111).

## Model

| member | source | states |
|---|---|---|
| Goal.ScrapingGoal.constructor | services/agent/goal.py:100-122 | a new goal holds the given target, error-rate limit and time limit, the default request and consecutive-failure limits, zero counters, no start or end time, no date range and no results, and its counters are consistent |
| Goal.ScrapingGoal.IsAchieved | services/agent/goal.py:128-135 | the goal is reached exactly when the valid jobs found reach the target, and from the start when the target is zero or less |
| Goal.ScrapingGoal.IsFailed | services/agent/goal.py:137-151 | the goal has failed exactly when some attempt was made and the errors exceed the error-rate limit times the attempts; with a non-negative limit that needs an error |
| Goal.ScrapingGoal.IsResourceExhausted | services/agent/goal.py:153-170 | out of requests always exhausts; before `start()` only the request limit counts; otherwise exhaustion below the request limit means the time limit has passed |
| Goal.ScrapingGoal.GetStatus | services/agent/goal.py:172-194 | the status is ACHIEVED exactly when the target is reached; otherwise FAILED when the error rate is over the limit or resources ran out with no valid job; PARTIALLY_ACHIEVED when resources ran out after some valid job; IN_PROGRESS with some valid job; PENDING with none (each case stated as an if-and-only-if) |
| Goal.ScrapingGoal.ProgressPercentage | services/agent/goal.py:200-209 | with a positive target the percentage lies in [0, 100], is 100 exactly when the goal is achieved, and is otherwise found/target times 100 |
| Goal.ScrapingGoal.CurrentErrorRate | services/agent/goal.py:211-220 | the rate is errors per attempt (0 before any attempt), never negative, at most 1 for consistent counters, and it exceeds the limit exactly when the goal has failed |
| Goal.ScrapingGoal.CurrentSuccessRate | services/agent/goal.py:222-231 | the rate is valid jobs per attempt (0 before any attempt), and success rate plus error rate never exceeds 1 for consistent counters |
| Goal.ScrapingGoal.ElapsedTimeSeconds | services/agent/goal.py:233-243 | 0 before the start; end minus start once a non-zero end time is set; otherwise the time since the start |
| Goal.ScrapingGoal.RemainingTimeSeconds | services/agent/goal.py:245-255 | none before the start; otherwise never negative, the time limit minus the elapsed time while positive, and 0 exactly when the limit has been reached |
| Goal.ScrapingGoal.JobsPerHour | services/agent/goal.py:257-267 | 0 when no time has elapsed, otherwise valid jobs scaled to one hour of elapsed time |
| Goal.ScrapingGoal.Start | services/agent/goal.py:273-275 | records the start time and changes nothing else |
| Goal.ScrapingGoal.Complete | services/agent/goal.py:277-279 | records the end time and changes nothing else; afterwards the elapsed time no longer depends on the clock |
| Goal.ScrapingGoal.RecordSuccess | services/agent/goal.py:281-290 | one more valid job and attempt, the job appended to the results, everything else unchanged, consistency kept |
| Goal.ScrapingGoal.RecordFailure | services/agent/goal.py:292-302 | one more error and attempt, the URL appended to the failed URLs, everything else unchanged, consistency kept |
| Goal.ScrapingGoal.RecordSkip | services/agent/goal.py:304-306 | one more attempt and nothing else, consistency kept |
| Goal.ScrapingGoal.RecordDuplicate | services/agent/goal.py:308-319 | a duplicate counts as a valid job and an attempt, and the job is stored marked as a duplicate; everything else unchanged, consistency kept |
| Goal.ScrapingGoal.RecordRequest | services/agent/goal.py:321-323 | one more request and nothing else |
| Goal.ExhaustionPersists | services/agent/goal.py:153-170 | once the goal is out of resources it stays so at every later time |
| Goal.AchievedOverridesFailure | services/agent/goal.py:172-194 | an achieved goal reports ACHIEVED even when it has also failed and run out of resources |
| Goal.FailedMeansErrors | services/agent/goal.py:137-151 | with consistent counters and a non-negative limit, a failed goal has at least one error |
| Goal.SubGoal.constructor | services/agent/goal.py:362-373 | a new sub-goal holds its description, parent and target, with count 0 and status PENDING |
| Goal.SubGoal.Increment | services/agent/goal.py:378-383 | the count goes up by one, and the status is ACHIEVED exactly when the target is reached and IN_PROGRESS otherwise |
| WorldModel.CapabilityValueRoundTrip | services/agent/world_model.py:29-49 | decoding a capability's string value gives the capability back |
| WorldModel.CapabilityFromValue | services/agent/world_model.py:29-49 | a string decodes to the capability whose value it is, and fails exactly when no capability carries it |
| WorldModel.CapabilityValueInjective | services/agent/world_model.py:29-49 | no two capabilities share a string value |
| WorldModel.DecodeCapabilities | services/agent/world_model.py:351-362 | the decoded set exists exactly when every string names a capability, and then holds exactly the capabilities whose values were given |
| WorldModel.CapabilitiesRoundTrip | services/agent/world_model.py:336-362 | decoding the encoded capability set gives the same set back |
| WorldModel.ThreatLevel.Value | services/agent/world_model.py:52-67 | a threat level's value lies in 0..4 |
| WorldModel.ThreatFromValue | services/agent/world_model.py:351-362 | an integer names a threat level exactly when it lies in 0..4, and the level found has that value |
| WorldModel.ThreatValueRoundTrip | services/agent/world_model.py:52-67 | converting a level to its value and back gives the same level |
| WorldModel.ThreatDelayMonotone | services/agent/world_model.py:69-78 | a higher threat level never has a shorter recommended delay |
| WorldModel.ThreatStep | services/agent/world_model.py:240-281 | after a response the site is BLOCKED exactly when the status is 403 or it was already blocked and the status is not 429; the block count grows by one exactly on a 403; a status that is none of 429, 403 or 2xx changes nothing |
| WorldModel.Repeat | services/agent/world_model.py:240-281 | n copies of one status, as a sequence of responses |
| WorldModel.RateLimitStep | services/agent/world_model.py:251-260 | a 429 lengthens the 429 streak by one and clears the 403 streak; below three in a row the site is MEDIUM with a 15-second delay, from three on HIGH with 30 seconds, whatever its level was; the block count is untouched |
| WorldModel.ForbiddenStep | services/agent/world_model.py:262-266 | a 403 makes the site BLOCKED with a 60-second delay, lengthens the 403 streak by one and counts one more block |
| WorldModel.SuccessStepsDown | services/agent/world_model.py:268-281 | a 2xx response resets both streaks; a blocked site stays blocked with its delay; any other site goes down one level, never below NONE, with the delay 10 s from HIGH, 5 s from MEDIUM and 3 s from LOW or NONE |
| WorldModel.ThirdRateLimitIsHigh | services/agent/world_model.py:251-260 | from a clean streak two 429s leave the site MEDIUM and the third makes it HIGH |
| WorldModel.ForbiddenBlocksUntilRateLimited | services/agent/world_model.py:251-281 | after a 403 the site stays BLOCKED with the 60-second delay through any run of responses without a 429 |
| WorldModel.RateLimitsEscalate | services/agent/world_model.py:246-256 | three or more 429s in a row leave the site at HIGH with a 30-second delay and the 429 streak grown by that many |
| WorldModel.SuccessesCalmDown | services/agent/world_model.py:262-281 | from any level below BLOCKED, three or more 2xx responses bring the site back to NONE with the 3-second delay |
| WorldModel.CalmStaysCalm | services/agent/world_model.py:262-281 | a site at NONE stays at NONE with the 3-second delay through any run of 2xx responses |
| WorldModel.BlockedUntilRateLimited | services/agent/world_model.py:240-281 | a blocked site with the 60-second delay stays blocked with that delay until it sees a 429 |
| WorldModel.StrategyPerformance.SuccessRate | services/agent/world_model.py:150-154 | successes per attempt, 0.5 for an untried strategy, within [0, 1] when the counts agree |
| WorldModel.StrategyPerformance.AverageYield | services/agent/world_model.py:156-160 | jobs per attempt, 0 for an untried strategy |
| WorldModel.StrategyPerformance.Efficiency | services/agent/world_model.py:162-166 | jobs per minute of recorded time, 0 when no time is recorded |
| WorldModel.FreshPerformance | services/agent/world_model.py:122-135 | a new record for a strategy has no attempts and no jobs, and its counts agree |
| WorldModel.RecordAttempt | services/agent/world_model.py:137-148 | one more attempt, jobs added only on success, the attempt time recorded, and attempts stay the sum of successes and failures |
| WorldModel.RecordAttemptMovesRate | services/agent/world_model.py:137-154 | a success never lowers the success rate and a failure never raises it |
| WorldModel.SelectorMemory.constructor | services/agent/world_model.py:82-102 | an empty selector memory, with no repeated alternatives |
| WorldModel.SelectorMemory.GetAlternatives | services/agent/world_model.py:116-118 | the alternatives recorded for a selector type, none for an unknown type |
| WorldModel.SelectorMemory.RecordSuccess | services/agent/world_model.py:104-114 | the selector becomes the primary one for its type, its success count grows by one and its time is recorded; it is appended to the type's alternatives unless already there, so they never repeat; other types' alternatives are unchanged |
| WorldModel.TargetSiteModel.constructor | services/agent/world_model.py:170-214 | a new site has no capabilities, no threat, empty streaks, the 3-second delay, no statistics, no sitemap and no API endpoints |
| WorldModel.TargetSiteModel.AddCapability | services/agent/world_model.py:216-218 | adds one capability and changes nothing else |
| WorldModel.TargetSiteModel.DetectSitemap | services/agent/world_model.py:224-234 | records the sitemap URL, type and check time, and adds SITEMAP_AVAILABLE plus SITEMAP_XML for type "xml" or SITEMAP_HTML for any other type |
| WorldModel.TargetSiteModel.IsSafeToRequest | services/agent/world_model.py:283-285 | requests are safe exactly when the site is not blocked, and an unsafe site asks for at least 60 seconds between requests |
| WorldModel.TargetSiteModel.UpdateThreatLevel | services/agent/world_model.py:240-281 | the threat state becomes the one `ThreatStep` gives for the status, the access time is updated, and nothing else changes |
| WorldModel.TargetSiteModel.GetRecommendedDelay | services/agent/world_model.py:287-289 | the larger of the stored delay and the current level's delay |
| WorldModel.TargetSiteModel.PerformanceOf | services/agent/world_model.py:295-299 | the stored record for a strategy, or a fresh one when none is stored |
| WorldModel.TargetSiteModel.GetStrategyPerformance | services/agent/world_model.py:295-299 | returns the stored record or files and returns a fresh one; nothing else changes |
| WorldModel.TargetSiteModel.RecordStrategyAttempt | services/agent/world_model.py:301-306 | the strategy's record becomes `RecordAttempt` of its previous (or fresh) record; nothing else changes |
| WorldModel.TargetSiteModel.GetStrategySuccessRate | services/agent/world_model.py:326-330 | 0.5 for a strategy with no record, otherwise a rate within [0, 1] |
| WorldModel.TargetSiteModel.GetBestStrategy | services/agent/world_model.py:312-324 | none exactly when no strategy has a record; otherwise a recorded strategy that no other outranks by success rate, then efficiency |
| WorldModel.TargetSiteModel.ToDict | services/agent/world_model.py:336-348 | the record holds the domain, the threat level's value, the block count, the encoded capabilities, the delay and the sitemap fields |
| WorldModel.FromDict | services/agent/world_model.py:351-362 | a site is rebuilt exactly when every capability and the threat value are known; it takes the record's domain, times, capabilities, level, block count (a negative one included), delay and sitemap, and starts with empty streaks and statistics |
| WorldModel.RoundTripSite | services/agent/world_model.py:336-362 | rebuilding a site from its record keeps domain, capabilities, threat level, block count, delay and sitemap, and resets the streaks and statistics |
| WorldModel.NormalizeNotIdempotent | services/agent/world_model.py:402-423 | removing "www." can expose a new "www.", so normalising a key twice can change it |
| WorldModel.LedgerLinks | services/agent/world_model.py:502-523 | the links loaded from a ledger never include the empty string |
| WorldModel.NonBlankCount | services/agent/world_model.py:502-523 | the count of loaded lines never exceeds the number of lines |
| WorldModel.NonBlankCountAppend | services/agent/world_model.py:502-539 | the lines of two ledger parts count separately |
| WorldModel.LedgerLinksAppend | services/agent/world_model.py:502-539 | the links of a ledger are the links of its parts |
| WorldModel.LedgerHasLine | services/agent/world_model.py:502-523 | every non-blank line, stripped, is a loaded link |
| WorldModel.LedgerOfOneLine | services/agent/world_model.py:502-523 | one line gives its stripped text when it is not blank, and nothing otherwise |
| WorldModel.SaveToSharedHistory | services/agent/world_model.py:525-539 | saving keeps the file's text and appends after it; the file changes exactly when there are new links, and then ends with "\n" |
| WorldModel.SavedLinksSeenAfterReload | services/agent/world_model.py:448-539 | after saving to a file that is empty or ends with "\n", every saved link that is not blank and, stripped, holds no line break is seen once the file is loaded again |
| WorldModel.SaveThenCount | services/agent/world_model.py:502-539 | after saving to a file that is empty or ends with "\n", and when no stripped link holds a line break, loading counts the file's old non-blank lines plus the non-blank new links |
| WorldModel.LinesFromAppend | services/agent/world_model.py:516 | text that ends with "\n" closes its last line, so the lines of what follows it start afresh |
| WorldModel.FileLinesAppend | services/agent/world_model.py:516 | the lines of a file that is empty or ends with "\n", followed by more text, are its own lines followed by the lines of that text |
| WorldModel.OneLine | services/agent/world_model.py:516 | text without a line break, closed by "\n", is read as one line |
| WorldModel.OneLineFile | services/agent/world_model.py:516 | a file holding one line closed by "\n" reads as exactly that line |
| WorldModel.SavedText | services/agent/world_model.py:536-537 | what one save writes is empty or ends with "\n" |
| WorldModel.SavedTextAppend | services/agent/world_model.py:536-537 | saving two lists of links writes the text of each, in order |
| WorldModel.SavedTextAround | services/agent/world_model.py:536-537 | the saved text splits around any one link into the text before it, its stripped line, and the text after it |
| WorldModel.SaveAround | services/agent/world_model.py:535-537 | a save appends, after the old text, the links before a given one, its stripped line, and the links after it |
| WorldModel.SavedTextReadBack | services/agent/world_model.py:516-537 | when no stripped link holds a line break, reading saved text back gives one line per link, the stripped link closed by "\n", in order |
| WorldModel.ReadBackCount | services/agent/world_model.py:516-519 | the stripped lines read back count as many non-blank entries as the links saved |
| WorldModel.LinesAround | services/agent/world_model.py:516 | a line closed by "\n" after text that is empty or ends with "\n" is read whole, between the lines before and after it |
| WorldModel.LineOfSavedLink | services/agent/world_model.py:516-537 | after saving to a file that is empty or ends with "\n", a saved link whose stripped form holds no line break is one of the lines read back, stripped and closed by "\n" |
| WorldModel.UnterminatedLineSwallowsLink | services/agent/world_model.py:516-537 | saving "b" to the file "a" (no final newline) reads back as the one line "ab": neither "a" nor "b" is seen |
| WorldModel.InnerBreakLines | services/agent/world_model.py:516-537 | a saved link "a\nb" reads back as the two lines "a" and "b" |
| WorldModel.InnerBreakSplitsLink | services/agent/world_model.py:516-537 | a saved link holding a line break reads back as two links, each seen, and the link itself is not seen |
| WorldModel.TwoLineLedger | services/agent/world_model.py:516-537 | a ledger of the lines "a" and "b" holds both links and not the link joining them with a line break |
| WorldModel.Unpadded | services/agent/world_model.py:517 | a string that neither starts nor ends with white space strips to itself |
| WorldModel.WorldModel.constructor | services/agent/world_model.py:366-400 | an empty world model: no sites, nothing seen, no requests, no session |
| WorldModel.WorldModel.GetOrCreateSite | services/agent/world_model.py:402-418 | the normalised domain then has a site; a known site is returned unchanged; an unknown one is a fresh default site filed under that key; every site stays filed under its own domain |
| WorldModel.WorldModel.GetSite | services/agent/world_model.py:420-423 | the site filed under the normalised domain, if any |
| WorldModel.WorldModel.MarkUrlVisited | services/agent/world_model.py:435-437 | adds the URL to the seen URLs and changes nothing else |
| WorldModel.WorldModel.MarkUrlFailed | services/agent/world_model.py:439-442 | adds the URL to both the failed and the seen URLs and changes nothing else |
| WorldModel.WorldModel.IsUrlSeen | services/agent/world_model.py:444-446 | a URL is seen exactly when it is in the seen set, which visiting or failing it adds it to |
| WorldModel.WorldModel.IsApplyLinkSeen | services/agent/world_model.py:448-450 | a link is a duplicate exactly when its stripped form was added, so white space around it does not matter |
| WorldModel.WorldModel.AddApplyLink | services/agent/world_model.py:448-454 | the stripped link is recorded, so the link is seen afterwards even with white space around it; nothing else changes |
| WorldModel.WorldModel.AddExtractedJob | services/agent/world_model.py:460-468 | appends the job and records its "link" field, or else its "Apply_Link" field, as seen |
| WorldModel.WorldModel.StartSession | services/agent/world_model.py:478-481 | sets the session start and resets the request count |
| WorldModel.WorldModel.RecordRequest | services/agent/world_model.py:483-488 | counts one request and applies `ThreatStep` to the domain's site (created if new), recording the request time; the site keeps its profile (a new one has a fresh one); every other site is the same object, unchanged, and the seen sets stay |
| WorldModel.WorldModel.GetTotalThreatLevel | services/agent/world_model.py:490-496 | NONE with no sites; otherwise the level of some site, and no site's level has a higher value |
| WorldModel.WorldModel.LoadSharedHistory | services/agent/world_model.py:502-523 | the seen apply links gain exactly the stripped non-blank lines of the file as text mode splits it, and the count returned is the number of those lines |
| WorldModel.ReadLedger | services/agent/world_model.py:508-521 | the loop over the ledger's lines collects exactly `LedgerLinks` and counts exactly the non-blank lines |
| WorldModel.ApplyLinkSeenIgnoresPadding | services/agent/world_model.py:448-450 | whether a link is seen does not depend on white space around it |
| WorldModel.TotalThreatAsWritten | services/agent/world_model.py:490-496 | as written, NONE with no sites and the one site's level with one site, which is the intended maximum in both cases; the comparison of plain enum members fails as soon as two sites exist |
| WorldModel.TotalThreatAsWrittenFails | services/agent/world_model.py:490-496 | two sites at LOW and HIGH make the code as written fail, where the evidently intended answer is HIGH |
| WorldModel.MaxByValue | services/agent/world_model.py:490-496 | NONE for no levels; otherwise one of the levels, and no level has a higher value |
| Planner.IncrementAttempt | services/agent/planner.py:57-58 | the attempt count grows by one and nothing else changes |
| Planner.RecordResult | services/agent/planner.py:60-62 | the success flag is recorded and the jobs are added; nothing else changes |
| Planner.RecordResultTwice | services/agent/planner.py:60-62 | recording two results keeps the later flag and the sum of the jobs |
| Planner.NormalizePriority | services/agent/planner.py:51-55 | a zero priority is read as 1, any other priority is kept, and only the priority may change |
| Planner.EffectivenessOfNormalized | services/agent/planner.py:51-55 | rewriting a zero priority to 1 does not change the score, and doing it twice is the same as once |
| Planner.EffectivenessBounds | services/agent/planner.py:51-55 | with priority at least 1, a non-negative yield and a risk in [0, 1], the score lies between 0 and the yield |
| Planner.EffectivenessMonotone | services/agent/planner.py:51-55 | at equal priority, a higher yield and a lower risk never score lower |
| Planner.NormalizeAll | services/agent/planner.py:51-141 | scoring a list rewrites each zero priority to 1, element by element |
| Planner.SortByEffectiveness | services/agent/planner.py:141-170 | the sorted list is a permutation of the scored list, in non-increasing order of score, and stable: strategies with equal scores keep their order |
| Planner.SumYieldsAppend | services/agent/planner.py:93-94 | the expected yield of a joined list is the sum of its parts' yields |
| Planner.Plan.constructor | services/agent/planner.py:66-71 | a plan holds its strategies, stamp and goal target, with the cursor at 0 |
| Planner.Plan.HasMore | services/agent/planner.py:81-82 | the plan has more exactly when it has a current strategy, and exactly when its remaining count is positive |
| Planner.Plan.CurrentStrategy | services/agent/planner.py:73-76 | the strategy under the cursor, and none exactly when the cursor is past the end |
| Planner.Plan.Advance | services/agent/planner.py:78-79 | the cursor moves one step and the strategies are unchanged; with strategies left, the remainder loses its first element |
| Planner.Plan.RemainingCount | services/agent/planner.py:84-85 | the number of strategies after the cursor, 0 once the cursor is past the end |
| Planner.Plan.GetRemaining | services/agent/planner.py:87-88 | the strategies from the cursor on, in order |
| Planner.Plan.InsertPriorityStrategy | services/agent/planner.py:90-91 | the strategy is inserted at the cursor (clamped to the end); the cursor stays, the new strategy is current, the remainder gains it in front and the expected yield grows by its yield |
| Planner.PlanCursorAgrees | services/agent/planner.py:73-94 | `has_more`, a positive remaining count and a current strategy mean the same thing; the current strategy heads the remainder; an exhausted plan has nothing remaining and no expected yield |
| Planner.DefaultScore | services/agent/planner.py:99-107 | every default score has a positive yield and a risk strictly between 0 and 1 |
| Planner.Min | services/agent/planner.py:161-184 | the smaller of two reals |
| Planner.Trunc | services/agent/planner.py:179-199 | `int()` truncates toward zero: within one unit below a non-negative value and one unit above a negative one |
| Planner.YieldAndRisk | services/agent/planner.py:176-202 | the default score for an untried strategy; otherwise risk is one minus the success rate and the yield is the truncated average yield, never 0 (0 is replaced by the default); the risk lies in [0, 1] for a consistent record |
| Planner.SitemapStrategy | services/agent/planner.py:173-193 | a sitemap crawl at priority 1 on the known sitemap URL or `https://<domain>/sitemap.xml`, with the computed yield and the site's delay; its risk is the base risk plus a tenth of the threat value when that sum is at most 1, and exactly 1 otherwise |
| Planner.AutoDiscoveryStrategy | services/agent/planner.py:195-215 | auto-discovery at priority 2 on the target URL, with the computed yield, 30 pages and the site's delay; its risk is the base risk plus 0.3 behind Cloudflare plus 0.15 per threat step when that sum is at most 1, and exactly 1 otherwise |
| Planner.StrategyRiskMonotone | services/agent/planner.py:184-208 | the sitemap and auto-discovery risks never fall as the threat level rises, and auto-discovery's never falls when Cloudflare protection is detected |
| Planner.ApiStrategy | services/agent/planner.py:217-229 | an API strategy exists exactly when an endpoint is known, and targets the first endpoint at priority 1 with the default score and a 1-second delay |
| Planner.GoogleCacheStrategy | services/agent/planner.py:231-241 | a Google-cache strategy on the cache URL of the target at priority 10 with the default score and at most 10 URLs |
| Planner.WaybackStrategy | services/agent/planner.py:243-261 | a Wayback strategy on the archive URL of the target at priority 11 with yield 3 and risk 0.3 |
| Planner.RenumberPriorities | services/agent/planner.py:142-143 | the loop gives the i-th strategy priority i + 1 and changes nothing else |
| Planner.CandidatesShape | services/agent/planner.py:118-138 | the candidates are sitemap and auto-discovery, plus the API strategy exactly when the site has the capability and an endpoint, plus the Google cache exactly when the site is blocked; no kind repeats |
| Planner.KindsOfPermutation | services/agent/planner.py:141 | reordering a list keeps its kinds |
| Planner.PlanKinds | services/agent/planner.py:114-149 | the plan always holds a sitemap crawl and auto-discovery, the API strategy exactly when the site advertises an API and knows an endpoint, the Google cache exactly when the site is blocked, and each kind once |
| Planner.SameNames | services/agent/planner.py:142-143 | lists that agree kind by kind have the same kinds |
| Planner.OrderedKinds | services/agent/planner.py:140-143 | sorting and renumbering candidates of distinct kinds keeps every kind exactly once |
| Planner.DistinctKinds | services/agent/planner.py:118-138 | a list whose kinds never repeat has as many kinds as elements |
| Planner.PlanOrder | services/agent/planner.py:140-143 | the plan carries priorities 1..N in order, and its strategies are in non-increasing order of the score they had under their builders' priorities |
| Planner.FallbackTarget | services/agent/planner.py:243-249 | the fallback looks up a site exactly when the failed plan has strategies |
| Planner.ReplanTarget | services/agent/planner.py:151-167 | with nothing remaining, the fallback's lookup; otherwise a site is looked up exactly after a block that is not also a rate limit, and it is the site of the first remaining strategy's target |
| Planner.FiledKeeps | services/agent/world_model.py:402-418 | filing a site under a key keeps every site already filed, and a known key keeps its site |
| Planner.UntriedCandidates | services/agent/planner.py:99-215 | for a site with no history, no threat, no Cloudflare and no usable API the candidates are the sitemap crawl (score 27) and auto-discovery (score 7) |
| Planner.UntriedSitePlan | services/agent/planner.py:114-149 | such a site gets the sitemap crawl first and auto-discovery second, renumbered 1 and 2 |
| Planner.SortTwoStrategies | services/agent/planner.py:141 | two strategies already in strictly descending score stay in order |
| Planner.FreshViewUntried | services/agent/world_model.py:170-214 | a site met for the first time has no history, no threat, no Cloudflare and no API |
| Planner.PenalisedAll | services/agent/planner.py:159-162 | the rate-limit adjustment is applied to every remaining strategy, element by element |
| Planner.PenaliseRemaining | services/agent/planner.py:159-162 | the loop raises each remaining strategy's risk by 0.2 capped at 1, doubles its delay and changes nothing else |
| Planner.FallbackStrategies | services/agent/planner.py:243-261 | no fallback for an empty plan; otherwise the Google cache then the Wayback Machine on the first strategy's target |
| Planner.ReplanWhenNothingRemains | services/agent/planner.py:153-155 | with nothing left the new plan is the fallback pair, empty exactly when the old plan had no strategies |
| Planner.ReplanContents | services/agent/planner.py:151-171 | with strategies left, the new plan is sorted by score and is a permutation of: the penalised remainder after a rate limit; the remainder plus one Google-cache strategy after a block; the remainder otherwise |
| Planner.PenalisedRiskBounded | services/agent/planner.py:159-162 | the penalty never lowers a risk nor lifts it past 1, and never raises a strategy's score |
| Planner.ScoreMonotone | services/agent/planner.py:51-55 | scaling by a non-negative yield over the priority keeps the order of the risk factors |
| Planner.OrderCandidates | services/agent/planner.py:140-143 | the sort and renumbering loop produce exactly the planned strategies |
| Planner.FileStatistics | services/agent/world_model.py:295-299 | after both statistics records are fetched (and filed if new) the site holds both; the records it already held are kept; its other fields and its view are unchanged |
| Planner.StrategyPlanner.constructor | services/agent/planner.py:110-112 | the planner is bound to the goal and the world model |
| Planner.StrategyPlanner.ReadSite | services/agent/planner.py:116-138 | the target's site is then filed; the view is the view of that site, equal to what a known site held before the call or the fresh view of a new site; both statistics records are filed; no other site changes |
| Planner.StrategyPlanner.KeptSites | services/agent/world_model.py:402-418 | a lookup that keeps a known key's site, or adds a new site under a new key and nothing else, files that site under the key |
| Planner.StrategyPlanner.FiledForKeeps | services/agent/world_model.py:402-418 | a replan's or fallback's lookup keeps every site already filed |
| Planner.StrategyPlanner.GeneratePlan | services/agent/planner.py:114-149 | a fresh plan at cursor 0 with the goal's target, holding exactly the planned strategies for the view of the site filed under the target's key (the site as it was when known, a fresh site with the fresh view otherwise); no other site and no seen set changes |
| Planner.StrategyPlanner.ReplanAfterFailure | services/agent/planner.py:151-171 | a fresh plan at cursor 0 holding exactly the replanned strategies for the old plan's remainder and the reason (the fallback plan when nothing remained), stamped with the current time unless the old plan was empty; a site is filed only for the target the replan looks up (the first remaining target after a block, the first strategy's target for the fallback), and nothing else in the world model changes |
| Planner.StrategyPlanner.GenerateFallbackPlan | services/agent/planner.py:243-261 | a fresh plan holding exactly the fallback strategies, with no stamp for an empty plan and the current time otherwise; the site of the first strategy's target is filed (nothing for an empty plan), and nothing else in the world model changes |
| Recovery.Pow2 | services/agent/recovery.py:277-283 | a power of two is at least 1, and at least 2 for a positive exponent |
| Recovery.RateLimitWait | services/agent/recovery.py:167-174 | the rate-limit wait never exceeds 300 seconds, is at least 60 once the run counter is positive (it is incremented first) and is 300 from the fourth failure on |
| Recovery.BlockedWait | services/agent/recovery.py:176-184 | the early-block wait lies between 120 and 150 seconds |
| Recovery.BackoffDelay | services/agent/recovery.py:277-281 | the backoff base lies between 5 and 60 seconds, is at least 10 once a failure is counted and is 60 from the fourth on |
| Recovery.Pow2Monotone | services/agent/recovery.py:277-283 | a larger exponent never gives a smaller power of two |
| Recovery.Backoff | services/agent/recovery.py:277-283 | the backoff with jitter lies between the base and 1.3 times the base, so between 5 and 78 seconds |
| Recovery.ServerErrorWait | services/agent/recovery.py:217-223 | the server-error wait is 30 seconds per counted failure, capped at 120 |
| Recovery.AbortCheck | services/agent/recovery.py:126-157 | no abort exactly when the run counter is below 10, the goal has not failed and resources remain; the consecutive-failure abort comes first, then the failed goal, then exhaustion with or without jobs |
| Recovery.SpecificAction | services/agent/recovery.py:159-239 | a targeted action exists exactly for the kinds other than NO_CONTENT_FOUND and UNKNOWN: a rotating 60-300 s wait on a rate limit; a rotating 120-150 s wait on an early block, a replan after that; a skip on a captcha or a login wall; a 5 s wait on a layout change; a capped wait on a server error; a wait then an abort on timeouts |
| Recovery.LaterAction | services/agent/recovery.py:119-283 | after three tries of a strategy, the next strategy when the plan has more and the fallback otherwise; before that a 5-78 s backoff that rotates identity from the second failure on |
| Recovery.Decide | services/agent/recovery.py:109-265 | the decision table in order: a tripped abort gate stops with its reason whatever the failure; otherwise CAPTCHA and authentication skip the strategy, a third block replans, and only no-content or unknown failures past the retry limit move to the next strategy (when there is one) or the fallback |
| Recovery.AbortGateFirst | services/agent/recovery.py:109-112 | when the abort gate trips, the decision is that abort, whatever the failure kind |
| Recovery.OnlyUnclassifiedReachLaterSteps | services/agent/recovery.py:114-121 | only NO_CONTENT_FOUND and UNKNOWN failures ever reach the strategy switch |
| Recovery.StopReasons | services/agent/recovery.py:109-237 | every abort is either the persistent-timeout abort or the gate's reason |
| Recovery.ExhaustedWithNoResultsNeedsAchievedGoal | services/agent/recovery.py:136-155 | the "exhausted with no results" abort is reached only by a goal with no valid job and a target of at most 0, since any other exhausted goal with no job already reports FAILED |
| Recovery.ClassifyText | services/agent/recovery.py:315-331 | the kind found is the first in the check order with a marker in the text, and UNKNOWN exactly when no kind's marker occurs |
| Recovery.MarkerAt | services/agent/recovery.py:315-331 | each substring test of the source finds a marker of its kind |
| Recovery.NoMarker | services/agent/recovery.py:315-331 | when a kind's substring tests all fail, none of its markers occurs |
| Recovery.ClassifyError | services/agent/recovery.py:304-331 | a 429 code gives RATE_LIMITED, 403 BLOCKED, 500 and above SERVER_ERROR; any other code, or none, falls back to classifying the lower-cased message |
| Recovery.MessagesNeverGiveServerError | services/agent/recovery.py:304-331 | the message alone never gives SERVER_ERROR |
| Recovery.CountOf | services/agent/recovery.py:289-301 | a kind's count never exceeds the history's length |
| Recovery.CountOfAppend | services/agent/recovery.py:289-294 | filing a failure raises its own kind's count by one and no other |
| Recovery.CountsAddUp | services/agent/recovery.py:289-301 | the per-kind counts of the summary add up to the total number of failures |
| Recovery.SumCountsSplit | services/agent/recovery.py:289-294 | one more entry adds one to the sum of counts for each time its kind is listed |
| Recovery.OneKindCounts | services/agent/recovery.py:20-30 | each failure kind is listed exactly once among all kinds |
| Recovery.KindIndex | services/agent/recovery.py:20-30 | every failure kind has a position in the list of all kinds |
| Recovery.RecoveryEngine.constructor | services/agent/recovery.py:71-77 | a new engine is bound to the goal and planner, with no failures, no retry counts and no history |
| Recovery.RecoveryEngine.AnalyzeAndDecide | services/agent/recovery.py:79-124 | the failure is counted against the current strategy (or "unknown") and filed in the history; the run counter rises by one, or resets to 0 when switching to the next strategy; the decision is the one the gate, the targeted action or the later action picks, with the plan advanced only on a skip or a switch and a fresh plan, stamped with the current time when non-empty, on a replan or fallback; only a replan or fallback files a site, and only the one it looks up; the seen sets, jobs, flags and request count are unchanged |
| Recovery.RecoveryEngine.ReplanForBlock | services/agent/recovery.py:185-192 | the planner's replan of the remainder for "blocked", stamped with the current time unless the plan was empty, retried exactly when it has strategies; only the site of the replan's lookup may be filed, and nothing else in the world model changes |
| Recovery.RecoveryEngine.SwitchStrategyDecision | services/agent/recovery.py:241-265 | with strategies left: advance the plan, reset the run counter and retry, leaving the sites alone; otherwise the fallback plan stamped with the current time and a retry, or an abort when the old plan was empty, filing only the fallback's site; nothing else in the world model changes |
| Recovery.RecoveryEngine.ResetOnSuccess | services/agent/recovery.py:285-287 | the run counter returns to 0 and the history is kept |
| Recovery.RecoveryEngine.GetFailureSummary | services/agent/recovery.py:289-301 | the total, the run counter and the per-strategy counts, and a per-kind count for exactly the kinds that occurred, equal to how often each occurred |
| Orchestrator.ProcessedCount | services/agent/orchestrator.py:239-241 | the sitemap loop never processes more items than the parser returned |
| Orchestrator.ItemStepCounts | services/agent/orchestrator.py:246-290 | every processed post costs exactly one request and one attempt and is marked visited, whatever its extraction gave |
| Orchestrator.SitemapProcessesPrefix | services/agent/orchestrator.py:239-247 | the sitemap loop processes a prefix of the items: requests and attempts grow by its length, the visited set by exactly its URLs, and when it stops early the goal is achieved or out of resources at the first unprocessed item |
| Orchestrator.ItemStepKeepsLinks | services/agent/orchestrator.py:255-284 | one post keeps the run's new links distinct and all seen, adds to the seen set only the link it keeps, and keeps only a link not seen before |
| Orchestrator.KeepFreshLink | services/agent/orchestrator.py:269-284 | appending an unseen stripped link to the new links and the seen set keeps both invariants and leaves the earlier new links in place |
| Orchestrator.SitemapKeepsLinks | services/agent/orchestrator.py:239-290 | over the whole sitemap loop the new links stay distinct, are exactly what the seen set gained, none was seen before, and the earlier ones are a prefix |
| Orchestrator.SitemapValidJobs | services/agent/orchestrator.py:257-284 | the valid-job counter grows by exactly the duplicates plus the new links, and none of the three decreases |
| Orchestrator.KeptSinceTrans | services/agent/orchestrator.py:136-167 | links kept in two consecutive strategy executions compose: the seen set grows by exactly the links kept since the run began |
| Orchestrator.FoundCount | services/agent/orchestrator.py:305-306 | the number of "[FOUND]" lines is at most the number of lines |
| Orchestrator.AutoCount | services/agent/orchestrator.py:149-153 | relaying the auto-discovery lines from below the target adds the "[FOUND]" lines until the target is reached: the counter ends at the smaller of its start plus the "[FOUND]" lines and the target |
| Orchestrator.AutoStaysPut | services/agent/orchestrator.py:149-153 | once the goal is achieved the relay loop stops and the counter does not move |
| Orchestrator.AutoRaisesOnlyWhileShort | services/agent/orchestrator.py:149-153 | the crawl's exception reaches the main loop only when the crawl raises and the goal was not achieved before its last line was counted |
| Orchestrator.AutoUpperBound | services/agent/orchestrator.py:301-306 | the counter never grows by more than the number of "[FOUND]" lines |
| Orchestrator.DaysBack | services/agent/orchestrator.py:110-111 | going back a positive number of days gives a valid, strictly earlier date, or nothing before year 1 |
| Orchestrator.DateRange | services/agent/orchestrator.py:105-115 | both non-empty dates are used as given; otherwise the range ends today and starts on an earlier valid date (the seven-day window), or fails when that would fall before year 1 |
| Orchestrator.StopsAt | services/agent/orchestrator.py:187-193 | the loop stops when the target is reached or the requests run out; before the clock starts only those count; otherwise a stop below both means the time limit has passed |
| Orchestrator.ChainedAppend | services/agent/orchestrator.py:136-167 | a turn that follows from the next attempt, starts from the state the last turn left, and runs the plan and index the last turn left the cursor at keeps the record of turns a chain |
| Orchestrator.ChainedAt | services/agent/orchestrator.py:136-167 | in a chain, each turn follows from its own attempt and, after the first, starts from the state the previous turn left and runs the plan and index that turn left the cursor at |
| Orchestrator.FollowsRaisedBy | services/agent/orchestrator.py:141-165 | a turn that ended with an exception raised what its attempt's sitemap fetch or auto-discovery crawl raised for the strategy it ran |
| Orchestrator.ChainedGrows | services/agent/orchestrator.py:136-165 | along the turns of the main loop the valid count, the requests and the attempts never fall below where the first turn started |
| Orchestrator.ResumedAfterFailure | services/agent/orchestrator.py:195-221 | the turn after an exception runs the decision's new plan from its first strategy exactly when the decision retries with one (which only a replan or a fallback gives); otherwise it runs the same plan, one strategy further after a skip or a move to the next strategy even without a retry, and the same strategy again after a wait, a stop or a plan that is not retried |
| Orchestrator.FailureResolved | services/agent/recovery.py:79-124 | what `analyze_and_decide` reports for each action (the plan's cursor afterwards and the strategies of any new plan) is the decision `Decides` describes, and `_handle_failure` then leaves the cursor where `AfterFailure` puts it |
| Orchestrator.EffectRaises | services/agent/orchestrator.py:141-165 | an exception reaches the loop only from a sitemap fetch that raised, which changes nothing, or from an auto-discovery crawl that raised while the goal was short |
| Orchestrator.EffectCounts | services/agent/orchestrator.py:141-306 | no strategy lowers the valid count; a sitemap crawl over fetched items adds one request and one attempt per processed item; auto-discovery changes only the valid count, by at most its "[FOUND]" lines; any other strategy changes nothing |
| Orchestrator.EffectKeepsLinks | services/agent/orchestrator.py:141-284 | whatever strategy runs, the kept links stay distinct and seen, none is lost, and the seen set grows by exactly the links kept, none of which was seen before |
| Orchestrator.CareerBoardAgent.constructor | services/agent/orchestrator.py:43-66 | the agent uses the given goal or a fresh 50-job goal, fresh world model, planner and recovery engine sharing it, no plan and no new links |
| Orchestrator.CareerBoardAgent.ShouldStop | services/agent/orchestrator.py:187-193 | the agent stops exactly when the goal is achieved, out of time or out of requests |
| Orchestrator.CareerBoardAgent.ProcessItem | services/agent/orchestrator.py:243-290 | one post's processing changes the goal counters, records, seen sets and new links exactly as the item step says, and keeps the agent's invariant |
| Orchestrator.CareerBoardAgent.RecordOutcome | services/agent/orchestrator.py:251-290 | the extraction outcome is recorded as a skip, a failure, a duplicate, or a new job whose stripped link becomes seen and kept |
| Orchestrator.CareerBoardAgent.ExecuteSitemap | services/agent/orchestrator.py:239-290 | the sitemap loop leaves the run state the item-by-item specification gives, stopping at the first item met with the goal achieved or out of resources |
| Orchestrator.CareerBoardAgent.ExecuteAutoDiscovery | services/agent/orchestrator.py:292-309 | relaying auto-discovery counts each "[FOUND]" line until the goal is achieved, changes no other counter, and passes the crawl's exception on only as the relay specification says |
| Orchestrator.CareerBoardAgent.HandleFailure | services/agent/orchestrator.py:195-221 | the failure is classified from its message with no status code, counted against the current strategy and filed in the history; the decision is the one recovery's table gives for that failure in the state on entry (abort, wait, skip, next strategy, replan or fallback); the failure streak rises by one or, on a move to the next strategy, resets; the current plan becomes the decision's new plan, at its first strategy, exactly when the decision retries with one, and otherwise stays, advanced by one after a skip or a move to the next strategy even when the decision does not retry; the run's counters, seen sets and links stay |
| Orchestrator.CareerBoardAgent.TakeTurn | services/agent/orchestrator.py:137-165 | one pass of the loop runs the current strategy from the state before to the state after exactly as its kind's effect gives, ending with the exception that effect raises; a completion without the goal advances the cursor and resets the failure streak; reaching the goal leaves the plan in place; an exception is handed to recovery, whose action is the table's pick for the failure streak and retry count before the turn and the goal after the strategy, and the turn leaves the counters, the history and the cursor as `HandleFailure` states |
| Orchestrator.CareerBoardAgent.ExecuteStrategy | services/agent/orchestrator.py:137-153 | the new run state and the exception are exactly those of the strategy's kind: the sitemap specification over the fetched items (or no change when the fetch raised), the auto-discovery relay from below the target, and no change for any other kind; only fresh links are kept and the site table stays |
| Orchestrator.CareerBoardAgent.ExecutePlan | services/agent/orchestrator.py:136-167 | the turns taken form a chain from the state before the loop, and the run state is the one the last turn left: each turn runs its strategy as its kind's effect gives; the first runs the adopted plan at its cursor; each later turn runs the plan and index the previous turn left (the same plan's next strategy after a completion, and after an exception the plan and index recovery's decision leaves); only the last turn can meet the goal; the loop ends only when the plan is exhausted or the agent should stop; every link kept was unseen and is added to the seen set once |
| Orchestrator.CareerBoardAgent.BeginRun | services/agent/orchestrator.py:101-128 | the run starts the goal's clock and changes no other limit, settles the date range (or fails on its overflow), adds the ledger's links to the seen set and changes nothing else in the run state |
| Orchestrator.CareerBoardAgent.AdoptPlan | services/agent/orchestrator.py:130-133 | the adopted plan is fresh at its first strategy and holds exactly the strategies planned for the view of the site filed under the target's key (a known site as it was, or a fresh one added under that key and no other); the run's counters, seen sets, jobs and limits stay |
| Orchestrator.CareerBoardAgent.PlanAndExecute | services/agent/orchestrator.py:130-170 | the first turn runs the strategies planned for the filed site's view from the first one and starts from the state before; the turns form a chain, each later turn running the plan and index the previous one left, also after an exception; the run state is the one the last turn left; the goal is then completed at the end clock; the limits and the date range stay, and every link kept was unseen |
| Orchestrator.CareerBoardAgent.FinishRun | services/agent/orchestrator.py:130-180 | after planning, the main loop and completing the goal at the end clock, with turns that form a chain from the state before (each later turn running the plan and index the previous one left, also after an exception) and leave the final run state, the ledger gains this run's new links when there are any and is unchanged otherwise |
| Orchestrator.CareerBoardAgent.Run | services/agent/orchestrator.py:84-185 | a run fails only on a date-range overflow; otherwise the plan executed is the one planned for the view of the site filed under the target's key, the turns form a chain from the state with the ledger loaded (each later turn running the plan and index the previous one left, also after an exception), the final run state is the one the last turn left, the goal is completed, and the ledger comes back with exactly this run's new links appended, each distinct and unseen before the run or in the ledger |
| LinkScorer.CleanTitle | services/auto_discovery/extractor.py:23 | cleaning never lengthens the title and leaves only ASCII letters, digits and white space |
| LinkScorer.CleanLowerHasNoCapital | services/auto_discovery/extractor.py:23 | cleaning a lower-cased title introduces no capital letter |
| LinkScorer.KeepKeywordsMembers | services/auto_discovery/extractor.py:24 | a word is kept exactly when it is one of the title words, longer than 3 and not an ignored word |
| LinkScorer.KeywordsAreTitleWords | services/auto_discovery/extractor.py:22-24 | the company keywords are exactly the words of the lower-cased, cleaned title longer than 3 characters and not in the ignore list |
| LinkScorer.KeywordCharacters | services/auto_discovery/extractor.py:23-24 | every company keyword is made of lower-case ASCII letters and digits only |
| LinkScorer.CleanLowerSuffix | services/auto_discovery/extractor.py:23 | a suffix of a cleaned, lower-cased title is still cleaned and lower-cased |
| LinkScorer.WordsCharacters | services/auto_discovery/extractor.py:23 | every word split from a cleaned, lower-cased title holds only lower-case letters and digits |
| LinkScorer.BlacklistIsSubstring | services/auto_discovery/extractor.py:35-51 | the exact-host and sub-domain blacklist tests drop nothing the substring test keeps, so a host is dropped exactly when a blacklist entry occurs in it |
| LinkScorer.DropboxIsBlacklisted | services/auto_discovery/extractor.py:35-51 | links to dropbox.com are dropped, because the entry "x.com" occurs inside that host |
| LinkScorer.AddCandidate | services/auto_discovery/extractor.py:29-74 | an anchor is dropped exactly when its href is empty, does not start with "http", contains the post's domain or has a blacklisted host; otherwise it keeps its href and text and scores its base plus 50 exactly when its lower-cased href contains a company keyword and plus 20 exactly when it contains a career term |
| LinkScorer.AddAll | services/auto_discovery/extractor.py:81-82 | adding anchors in order yields at most one candidate per anchor, each what add_candidate makes of one of them, and every anchor add_candidate accepts yields its candidate |
| LinkScorer.AddAllAppend | services/auto_discovery/extractor.py:81-82 | adding the anchors of two runs one after the other gives the first run's candidates followed by the second's |
| LinkScorer.AddAllKeepsOrder | services/auto_discovery/extractor.py:81-82 | of two accepted anchors, the earlier one's candidate comes before the later one's |
| LinkScorer.TableScan | services/auto_discovery/extractor.py:76-82 | a candidate comes from the table scan exactly when some row whose lower-cased text mentions "apply", "link" or "click here" yields it from its anchors at base 90 |
| LinkScorer.LabelScan | services/auto_discovery/extractor.py:86-99 | a candidate comes from the label scan for a keyword exactly when some label of at most 100 characters naming the keyword yields it from its enclosing or its next anchor at base 90 |
| LinkScorer.KeywordScan | services/auto_discovery/extractor.py:84-99 | a candidate comes from the keyword scan exactly when the label scan for one of the keywords yields it |
| LinkScorer.GlobalScan | services/auto_discovery/extractor.py:101-105 | without company keywords nothing; otherwise every candidate is an accepted anchor's at base 10 or more, and every accepted anchor yields one |
| LinkScorer.Decide | services/auto_discovery/extractor.py:107-124 | no answer exactly when every candidate scores below 30; an answer carries the title and a candidate that scores at least 30 and no less than any other |
| LinkScorer.ExtractOfficialLink | services/auto_discovery/extractor.py:5-124 | a failed fetch gives nothing; otherwise there is an answer exactly when some candidate of the page scores 30 or more, and it carries the page title and such a candidate's link |
| LinkScorer.DecideIsFirstMax | services/auto_discovery/extractor.py:107-124 | an answer comes exactly when the highest-scoring candidate reaches 30; it is the first candidate with the highest score, since the sort is stable |
| LinkScorer.AnyClearingCandidateAnswers | services/auto_discovery/extractor.py:107-124 | when any candidate scores 30 or more, the post gets an answer |
| LinkScorer.AddAllScores | services/auto_discovery/extractor.py:29-74 | every candidate scores at least its base score |
| LinkScorer.TableScanScores | services/auto_discovery/extractor.py:76-82 | every table-scan candidate scores at least 90 |
| LinkScorer.LabelScanScores | services/auto_discovery/extractor.py:86-99 | every candidate found next to or around a label scores at least 90 |
| LinkScorer.KeywordScanScores | services/auto_discovery/extractor.py:84-99 | every keyword-scan candidate scores at least 90 |
| LinkScorer.ContextCandidateAlwaysAnswers | services/auto_discovery/extractor.py:76-124 | a post with any table or keyword candidate always gets an answer |
| LinkScorer.GlobalCandidateNeedsBoost | services/auto_discovery/extractor.py:101-105 | a global-scan candidate clears the threshold exactly when its href contains a company keyword or a career term |
| LinkScorer.NoKeywordsNoGlobalScan | services/auto_discovery/extractor.py:103 | without company keywords the global scan adds nothing |
| LinkScorer.TakeWordOfSpaceFree | services/auto_discovery/extractor.py:23 | the first word of a text is the leading run without white space |
| LinkScorer.WordsOfTwo | services/auto_discovery/extractor.py:23 | two non-empty space-free words joined by a space split back into those two words |
| LinkScorer.CleanKeepsLettersAndSpaces | services/auto_discovery/extractor.py:23 | cleaning leaves a title made only of letters, digits and white space unchanged |
| LinkScorer.UnknownTitleParts | services/auto_discovery/extractor.py:15 | the default title lower-cases to "unknown title", whose characters all survive cleaning |
| LinkScorer.TwoWordKeywords | services/auto_discovery/extractor.py:22-24 | a title made of two kept words gives exactly those two words as keywords |
| LinkScorer.UntitledPageKeywords | services/auto_discovery/extractor.py:15-24 | a page without an h1 gives the keywords "unknown" and "title", so its global scan runs |
| LinkScorer.NoAnswerWithoutCandidates | services/auto_discovery/extractor.py:5-8 | a failed fetch or a page with no candidates gives no answer |
| SitemapParser.Cutoff | services/sitemap_parser.py:6-10 | a given cutoff is that date at midnight, or an error when it does not parse; without one the cutoff is exactly one day before now, same time of day |
| SitemapParser.End | services/sitemap_parser.py:13-16 | a given end date is that date at 23:59:59, or an error when it does not parse; without one the end is now |
| SitemapParser.DatePart | services/sitemap_parser.py:32 | the date part is a prefix of the text holding neither a "T" nor a space |
| SitemapParser.ParseDate | services/sitemap_parser.py:29-38 | a date text is accepted exactly when it is present, non-empty, its date part parses and that day's midnight lies in the window, and the answer is the date part |
| SitemapParser.AcceptedDateInWindow | services/sitemap_parser.py:29-38 | an accepted date parses to a valid day whose midnight lies between the cutoff and the end inclusive |
| SitemapParser.TimestampDatePart | services/sitemap_parser.py:32-33 | a full ISO timestamp gives back its date part, which parses to the same day |
| SitemapParser.BeforeFirstAt | services/sitemap_parser.py:32 | the part before the first occurrence of a character is the prefix up to that position |
| SitemapParser.EndDayIncluded | services/sitemap_parser.py:14-16 | with an explicit end date, a post dated on the end day itself is inside the window |
| SitemapParser.DefaultCutoffRejectsYesterday | services/sitemap_parser.py:6-8 | with the default cutoff a post dated yesterday is outside the window whenever now is past midnight, because dates compare at midnight |
| SitemapParser.CollectAppend | services/sitemap_parser.py:49-54 | collecting entries over two consecutive parts gives the two parts' entries one after the other |
| SitemapParser.CollectStep | services/sitemap_parser.py:49-54 | one more element adds its entry, if any, at the end |
| SitemapParser.CollectMembers | services/sitemap_parser.py:49-54 | an entry is collected exactly when some element gives it |
| SitemapParser.XmlEntries | services/sitemap_parser.py:49-55 | an XML entry comes exactly from a url element with both children whose lastmod is accepted, with its loc and date, in document order |
| SitemapParser.HtmlEntries | services/sitemap_parser.py:64-72 | an HTML entry comes exactly from a row with cells whose first cell has a link with an href and whose last cell's text is accepted, in document order |
| SitemapParser.HtmlEntryIs | services/sitemap_parser.py:65-72 | one row gives an entry exactly when it has cells, a non-empty href in its first cell and an accepted date in its last |
| SitemapParser.EntriesInWindow | services/sitemap_parser.py:29-72 | every entry either branch returns carries a parseable date inside the window |
| SitemapParser.ReadXml | services/sitemap_parser.py:49-55 | the XML loop returns exactly the XML entry list |
| SitemapParser.ReadHtml | services/sitemap_parser.py:64-72 | the HTML loop returns exactly the HTML entry list |
| SitemapParser.GetNewJobUrls | services/sitemap_parser.py:5-74 | the parser raises exactly when a given date does not parse, returns nothing for a failed fetch, and otherwise returns the XML entries when the content looks like XML and has url elements, the HTML entries otherwise |
| Pagination.GetPageContent | services/auto_discovery/pagination.py:8-12 | a page's text and final URL come back exactly when the fetch answered with status 200 |
| Pagination.WithHref | services/auto_discovery/pagination.py:28 | the anchors kept are exactly those carrying an href |
| Pagination.ContainerAnchors | services/auto_discovery/pagination.py:23-28 | the candidates are exactly the anchors with an href inside containers whose class mentions post, entry, blog or job |
| Pagination.LinksOfMembers | services/auto_discovery/pagination.py:33-54 | a URL is collected exactly when some candidate anchor passes the filters and resolves to it |
| Pagination.ArticleLinksFiltered | services/auto_discovery/pagination.py:33-54 | every article link is on the listing's host, holds no navigation marker, is not the listing itself and comes from an anchor whose text has at least 10 characters |
| Pagination.ContainersTakePrecedence | services/auto_discovery/pagination.py:26-28 | when the page has article containers, an anchor outside all of them is never a candidate |
| Pagination.FallbackToAllAnchors | services/auto_discovery/pagination.py:29-31 | without article containers, every anchor with an href is a candidate |
| Pagination.FindArticleLinks | services/auto_discovery/pagination.py:14-56 | the loop returns exactly the set of filtered, resolved candidate links |
| Pagination.FirstPager | services/auto_discovery/pagination.py:73-79 | no pager is found exactly when no anchor reads like a next page with a pagination-looking href; otherwise it is the first such anchor, resolved |
| Pagination.FindNextPage | services/auto_discovery/pagination.py:58-81 | a usable link rel=next wins, then a usable anchor rel=next, then the first pager anchor; there is no next page exactly when all three are missing |
| Pagination.NextPostIsNotPager | services/auto_discovery/pagination.py:71-75 | an anchor reading "Next Post" is never taken for the next page |
| DiscoveryRunner.FirstDatePattern | services/auto_discovery/runner.py:22 | the search finds the leftmost position where "/dddd/dd/dd/" occurs, and nothing exactly when it occurs nowhere |
| DiscoveryRunner.UrlDate | services/auto_discovery/runner.py:21-24 | a date is read from the URL only when it holds the "/dddd/dd/dd/" pattern, and it is always a valid calendar date |
| DiscoveryRunner.FirstMeta | services/auto_discovery/runner.py:29-31 | the `or` chain picks the `published_time` meta when it exists, and finds none exactly when none of the three exists |
| DiscoveryRunner.ExtractDateAsWritten | services/auto_discovery/runner.py:16-45 | as written: a URL date wins; without one, a page that has neither the `published_time` nor the `datePublished` meta gets no date, because the `pubdate` lookup raises and the error is swallowed |
| DiscoveryRunner.ExtractDate | services/auto_discovery/runner.py:16-45 | as intended: a URL date wins and is a valid calendar date; without a page and a URL date there is no date |
| DiscoveryRunner.AsWrittenAgreesWithStandardMeta | services/auto_discovery/runner.py:16-45 | the written and the intended reading agree whenever the URL is dated, no page is given, or one of the first two metas exists |
| DiscoveryRunner.AsWrittenIgnoresTimeTag | services/auto_discovery/runner.py:29-45 | a page with no publication meta and `<time datetime="2020-01-01">` is undated as written but dated by the time tag as intended |
| DiscoveryRunner.MetaThenTimeTag | services/auto_discovery/runner.py:29-41 | without a URL date, the first meta found decides when its content is non-empty; otherwise, and always when no meta exists, the time tag decides |
| DiscoveryRunner.UrlDateTakesPrecedence | services/auto_discovery/runner.py:21-24 | when the URL holds a date pattern the page is not consulted |
| DiscoveryRunner.ImpossibleUrlDateGivesNone | services/auto_discovery/runner.py:22-45 | an impossible date in the URL gives no date at all, since the constructor's error is swallowed |
| DiscoveryRunner.MonthThirteenGivesNone | services/auto_discovery/runner.py:22-45 | a URL dated in month 13 gives no date, whatever the page says |
| DiscoveryRunner.DateSegment | services/auto_discovery/runner.py:22 | the URL segment of a date is 12 characters long |
| DiscoveryRunner.DatedUrlRoundTrip | services/auto_discovery/runner.py:22-24 | a URL starting with the segment of a valid date gives back exactly that date |
| DiscoveryRunner.DigitsOfFormat | services/auto_discovery/runner.py:24 | the ISO form of a valid date spells its year, month and day in decimal digits |
| DiscoveryRunner.FetchPage | services/auto_discovery/runner.py:65-101 | a page counts as fetched exactly when the fetch answered 200 with a non-empty body |
| DiscoveryRunner.CheckedArticlesInWindow | services/auto_discovery/runner.py:90-127 | an article checked for a job link is undated or dated between the start and end dates inclusive, and a URL-dated one keeps its URL date |
| DiscoveryRunner.DateLtTotal | services/auto_discovery/runner.py:114-123 | dates are totally ordered: not before means on or after |
| DiscoveryRunner.OldUrlStopsWithoutFetch | services/auto_discovery/runner.py:90-96 | an article whose URL date is before the start stops the crawl whatever the network would answer |
| DiscoveryRunner.Decide | services/auto_discovery/runner.py:90-125 | an article stops the crawl exactly when its URL date or its publication date is before the start; it is skipped exactly when it is not old by URL and either cannot be fetched or is dated after the end; otherwise it is checked with its publication date |
| DiscoveryRunner.ScanArticles | services/auto_discovery/runner.py:82-140 | scanning a page's article links visits only new links; it stops exactly when one of the new links decides Stop, and then that link is the only visited one that does; otherwise it visits all of them; it returns exactly the extracted jobs of the checked articles, one per source |
| DiscoveryRunner.ScanPage | services/auto_discovery/runner.py:63-154 | one listing page fails exactly when it cannot be fetched, and then visits nothing; it visits only the page's article links, and all of them unless it stops; it stops only at the one visited link that decides Stop, and without a stop no visited link decides Stop; it goes on only to a next page that was not visited as an article |
| DiscoveryRunner.Run | services/auto_discovery/runner.py:47-154 | invalid dates end the run at once; otherwise the listing pages form a next-page chain from the homepage and the results are exactly the jobs of the checked articles, one per visited link; the visited links are exactly the article links of the pages scanned (those of all but the last page after a failed fetch), and after old content they hold every earlier page's links and only links of the pages scanned; the run ends on old content exactly at the one visited link that decides Stop, and for any other reason no visited link decides Stop |
| DiscoveryRunner.Crawl | services/auto_discovery/runner.py:55-154 | the loop ends only when the last page gave no next page to go to or the page budget is spent; the pages form a next-page chain from the homepage; the results are exactly the jobs of the checked visited articles, one per source; after a stop the visited links hold every earlier page's article links, only links of the pages scanned, and the one link that decides Stop; otherwise they are exactly the pages' article links, and none decides Stop |
| DiscoveryRunner.ChainExtend | services/auto_discovery/runner.py:147-151 | a page the last listing page links to extends the chain |
| DiscoveryRunner.LinksOfPagesAppend | services/auto_discovery/runner.py:63-154 | one more listing page adds exactly its own article links to those of the pages before it |
| DiscoveryRunner.AppendResults | services/auto_discovery/runner.py:133-140 | appending one page's results keeps all results sound, one per source and complete |
| LegacyScraper.ParseDate | scraper.py:40-53 | a date text is accepted exactly when it is present, non-empty, its date part parses and that day's midnight is not before the cutoff, and the answer is the date part |
| LegacyScraper.ParseDateIsUnboundedWindow | scraper.py:40-53 | the legacy date test is the newer parser's window test with no upper end |
| LegacyScraper.FutureDatesAccepted | scraper.py:49-50 | any parseable date on or after the cutoff is accepted, however far in the future |
| LegacyScraper.LegacyXmlEntries | scraper.py:63-75 | an XML entry comes exactly from a url element whose loc has non-empty text and whose lastmod is accepted, with that loc and date |
| LegacyScraper.LegacyEntriesAfterCutoff | scraper.py:55-100 | every entry either branch returns has a non-empty URL and a parseable date on or after the cutoff |
| LegacyScraper.XmlEntriesAfterCutoff | scraper.py:63-75 | every XML entry has a non-empty URL and a date on or after the cutoff |
| LegacyScraper.HtmlEntriesAfterCutoff | scraper.py:84-98 | every HTML entry has a non-empty URL and a date on or after the cutoff |
| LegacyScraper.AcceptedAfterCutoff | scraper.py:40-53 | an accepted date parses to a day whose midnight is on or after the cutoff |
| LegacyScraper.Gather | scraper.py:66-73 | the entry loop returns exactly the collected entries, in order |
| LegacyScraper.GetNewJobUrls | scraper.py:14-100 | a malformed cutoff raises; a request that fails or answers an error status gives nothing; otherwise the XML entries when the content parses with url elements, the HTML rows otherwise |
| LegacyScraper.Try | scraper.py:146-165 | a link is accepted exactly when the anchor exists with a non-empty href starting with "http" that does not contain the post's domain, and the answer carries the title, the href, the anchor's text and the stripped label |
| LegacyScraper.FirstValid | scraper.py:138-180 | there is no answer exactly when every attempt fails, and otherwise the answer is the first attempt that succeeds |
| LegacyScraper.FirstValidAppend | scraper.py:138-180 | searching two attempt lists one after the other answers from the first list when it can, from the second otherwise |
| LegacyScraper.AnswerIsValidated | scraper.py:138-178 | an answer is an absolute link off the post's domain, with the page title, found at a short label that mentions one of the keywords |
| LegacyScraper.AttemptOrigin | scraper.py:138-143 | every attempt comes from a label of at most 100 characters that mentions one of the keywords |
| LegacyScraper.KeywordOrigin | scraper.py:139-143 | every attempt for one keyword comes from a short label that mentions it |
| LegacyScraper.FirstKeywordWins | scraper.py:138-141 | when the first keyword's labels give an answer, the later keywords are never consulted |
| LegacyScraper.ParentBeforeNext | scraper.py:167-178 | for the first label of the first keyword, a valid enclosing anchor wins over the next anchor |
| LegacyScraper.ExtractOfficialLink | scraper.py:102-184 | a failed request or a status other than 200 gives nothing; otherwise the answer is the first valid attempt over the keywords in order, with the h1 text or "Unknown Title" as title |
| LegacyScraper.Search | scraper.py:138-180 | the keyword loop returns exactly the first valid attempt of the whole search order |
| LegacyScraper.SearchKeyword | scraper.py:139-178 | the label loop for one keyword returns exactly the first valid attempt for that keyword |
| LegacyScraper.RowsAreAnswers | scraper.py:203-226 | there is a result row exactly for each entry whose extraction answers, carrying that entry's date and URL, and never more rows than entries |
| LegacyScraper.Harvest | scraper.py:203-228 | the driver loop returns exactly one row per answered entry, in entry order |
| LegacyScraper.HostAt | scraper.py:247-249 | a host captured after "http://" or "https://" is non-empty and holds no "/" |
| LegacyScraper.UpToSlash | scraper.py:247 | the capture is the longest prefix without "/" |
| LegacyScraper.FirstHost | scraper.py:247-249 | the search finds the host of the leftmost match, and nothing exactly when no position matches |
| LegacyScraper.DomainSlug | scraper.py:246-255 | the slug is "site" without a match, and otherwise a single label holding neither "." nor "/" |
| LegacyScraper.SplitOnPieces | scraper.py:250 | splitting on "." leaves no piece holding a character the host does not hold |
| LegacyScraper.SplitOnFree | scraper.py:250 | a host without dots splits into itself |
| LegacyScraper.SplitOnFirst | scraper.py:250 | splitting at the first dot gives the part before it followed by the split of the rest |
| LegacyScraper.SlugOfSiteUrl | scraper.py:245-253 | the sitemap URL https://name.tld/... gives the slug name |
| LegacyScraper.SlugOfHost | scraper.py:250-253 | a two-label host name.tld gives the slug name |
| LegacyScraper.HostOfSecureUrl | scraper.py:247-249 | the host of https://host/path is captured as host |
| LegacyScraper.UpToSlashOf | scraper.py:247 | the capture stops exactly at the path's first "/" |
| StableSort.SortDesc | services/agent/planner.py:141 | sorting by a key in reverse keeps every element exactly once, orders the keys from highest to lowest and keeps the original order among equal keys, as Python's stable sort does |
| StableSort.FirstMax | services/auto_discovery/extractor.py:111-114 | the first position holding the highest key: no key is higher and every earlier key is lower |
| StableSort.SortDescHead | services/auto_discovery/extractor.py:111-114 | the head of the reverse-sorted list is the first element with the highest key |
| Dates.DaysInMonth | services/sitemap_parser.py:10 | every month has 28 to 31 days, and February has 29 exactly in a leap year |
| Dates.PrevDay | services/agent/orchestrator.py:111 | the previous day is a valid date, earlier than the given one, with no valid date between them |
| Dates.DayBefore | services/sitemap_parser.py:7 | the moment one day before now is valid, keeps the time of day and is strictly earlier |
| Dates.ParseIsoDate | services/sitemap_parser.py:10 | a date that parses is a valid calendar date written in 8 to 10 characters |
| Dates.FormatIso | services/agent/orchestrator.py:112-115 | the formatted date is 10 characters with dashes at positions 4 and 7 |
| Dates.ParseFormatRoundTrip | services/agent/orchestrator.py:112-115 | parsing a formatted valid date gives back that date |
| Dates.ParseIsCanonical | services/sitemap_parser.py:33 | formatting a parsed date and parsing it again gives the same date |
| Dates.ParseAcceptsShortForms | services/sitemap_parser.py:33 | the parser accepts one-digit and space-padded months and days, and rejects February 30, month 13 and a three-digit day |
| Text.Strip | services/agent/world_model.py:450 | a stripped link neither starts nor ends with white space |
| Text.StripIdempotent | services/agent/world_model.py:450-454 | stripping an already stripped link changes nothing, so the seen-link test and the insertion agree |
| Text.StripPadding | services/agent/world_model.py:517 | white space around a ledger line is removed and nothing else |
| Url.Netloc | services/auto_discovery/extractor.py:11-12 | the host part of a URL holds none of the delimiters that end it |

## Left out

- I/O, the network and sleeping are outside the model. That covers the HTTP session, User-Agent
  rotation, `time.sleep`, the Flask application and the streamed log lines. Each response is an
  input, and a wait is a number in the decision.
- Persistence is outside the model: the world model's JSON `save`/`load`, the Excel files, and the
  probing of the shared-drive paths. The ledger file is modelled as its text. It is read line by
  line as Python's text mode reads it: a line ends at "\n", "\r" or "\r\n". Finding no ledger
  path is modelled as having no ledger (`None`). A failed write, which the source only logs, is
  not modelled.
- Log, summary and `__str__` formatting are outside the model. The exception is the "[FOUND]"
  marker that auto-discovery's counting reads.
- `get_unique_job_count` is the length of `extractedJobs` and is read directly.
- HTML, XML and date-string grammars are not modelled. A page is given already parsed into the rows,
  labels, anchors, meta tags and `<url>` elements the code inspects. `dateutil.parser.parse` and
  `urljoin` are given functions.
- `urlsplit` is modelled only as far as the netloc. The `ValueError` it can raise on a malformed
  host is not modelled. In `add_candidate` that exception would skip the blacklist test.
- Floating point is not modelled: rates, risks, effectiveness and delays are exact reals. The
  `int()` truncation of yields is written out.
- Text handling is ASCII only:
  - lower-casing is ASCII only;
  - `\d` is ASCII digits only;
  - white space is the set of characters Python's `str.isspace` accepts.
  So a non-ASCII title can lower-case differently from Python's.
- Dates are limited to years 1 to 9999. `strftime` is modelled with four-digit years only, so
  years before 1000 are not formatted as Python would.
- `services/extractor.py` is not part of this model. `_execute_sitemap` imports its
  `extract_official_link`, so the outcome of extracting each sitemap post is an input.
- The error text handed to the recovery engine as context, and the exception objects themselves,
  are not kept. Recovery reads only the classification.
- Orchestrator.CareerBoardAgent.ExecutePlan: the main loop runs over a finite sequence of
  attempts, one per turn, so a run that would loop forever in the source ends when the attempts
  run out.
- SavedLinksSeenAfterReload: holds only for a ledger that is empty or ends with "\n" (every file
  this code writes does), and only for a link whose stripped form holds no line break. The other
  cases behave differently in the source, and the model reproduces them:
  `WorldModel.UnterminatedLineSwallowsLink` shows a saved link merging into an unterminated last
  line, and `WorldModel.InnerBreakSplitsLink` shows a link being split in two.
- SaveThenCount: holds under the same two conditions. Outside them the count differs, as the same
  two lemmas show.
- DiscoveryRunner.Run: the crawl loop (`DiscoveryRunner.Crawl`) is bounded by `maxPages`. The source's loop has no bound and
  can cycle between two listing pages that name each other as next page, because it compares the
  next page only with the visited article links.
- DiscoveryRunner.Decide: the crawl reads article dates with the intended `ExtractDate`, so on a
  page without the `published_time` and `datePublished` metas it uses the `<time>` element where
  the written code gets no date (see "## Findings"); `ExtractDateAsWritten` keeps the written reading.
- DiscoveryRunner.ScanArticles: the article links are a Python set, whose iteration order is not
  specified. The scan takes them in an arbitrary order chosen by the model.
- DiscoveryRunner.ScanArticles: the `valid_articles_on_page` counter is not modelled, because
  nothing reads it.
- WorldModel.TargetSiteModel.GetBestStrategy: on a tie the source returns the first strategy in
  the dictionary's insertion order. The model promises only some strategy that no other outranks.
- Planner.StrategyPlanner.ReplanAfterFailure: in the source, the rate-limit branch mutates the
  `Strategy` objects it shares with the old plan. The model builds new strategy values, so the old
  plan's copies keep their risk and delay. No caller in the core reaches that branch: recovery
  replans only with "blocked" or an exhausted plan.
- Planner.StrategyPlanner.GeneratePlan: the plan it returns is stated through the site's view
  (`ViewOf`), and through `FreshView` for a site seen for the first time. The properties of the
  untried view are proved separately (`Planner.FreshViewUntried`, `Planner.UntriedSitePlan`).
- LegacyScraper.ExtractOfficialLink: `BeautifulSoup(None)` and other parser exceptions are
  covered only as "no answer". A request that raises is modelled as a missing response.
- The legacy `main` reads `config.DAYS_BACK` and `config.SITEMAP_URL`. Both are parameters of the
  modelled parts (`LegacyScraper.GetNewJobUrls`, `LegacyScraper.DomainSlug`).
- `app.py` calls the legacy `get_new_job_urls` with three arguments, but it takes two. That
  caller is not part of this model.

## Findings

| source | as written | input that shows it | evidently intended | confidence | as-written member | corrected member |
|---|---|---|---|---|---|---|
| services/auto_discovery/runner.py:29-31 | the third meta lookup, `soup.find('meta', name='pubdate')`, passes `name` twice to bs4's `find`, which raises `TypeError`; the bare `except` returns `None`, so the `<time>` step is skipped on every page without one of the first two metas | an article URL without a dated segment whose page has no publication meta and holds `<time datetime="2020-01-01">` | the `name="pubdate"` meta looked up by attribute, and the `<time>` element read when no meta gives a date, dating the article 2020-01-01 | not executed | DiscoveryRunner.AsWrittenIgnoresTimeTag | DiscoveryRunner.ExtractDate |
| services/agent/world_model.py:490-496 | `get_total_threat_level` takes `max` over `ThreatLevel` members, a plain `Enum` without an ordering, so comparing two of them raises `TypeError` | two sites in the table, one at LOW and one at HIGH | the highest level by its `.value`, HIGH here | not executed | WorldModel.TotalThreatAsWrittenFails | WorldModel.WorldModel.GetTotalThreatLevel |
