/**
 * The agent's explicit goal: how many valid jobs to find, the quality and resource limits that
 * bound the search, and the progress counters every processed URL moves. The status is a function
 * of the counters and the clock, evaluated in a fixed order.
 */
module Goal {
  import opened Wrappers

  datatype GoalStatus = Pending | InProgress | Achieved | Failed | PartiallyAchieved

  /** One extracted job, as the orchestrator records it; `isDuplicate` is the flag `record_duplicate` adds. */
  datatype JobRecord = JobRecord(
    datePosted: string,
    title: string,
    applyLink: string,
    linkText: string,
    context: string,
    sourcePost: string,
    status: string,
    isDuplicate: bool)

  const DefaultTargetValidJobs := 50
  const DefaultMaxErrorRate := 0.15
  const DefaultMaxExecutionTimeSeconds := 3600
  const DefaultMaxRequestsPerSession := 500
  const DefaultMaxConsecutiveFailures := 10

  class ScrapingGoal {
    const targetValidJobs: int
    const maxErrorRate: real
    const maxExecutionTimeSeconds: int
    const maxRequestsPerSession: int
    const maxConsecutiveFailures: int

    /** The (start, end) date strings the strategies filter by, once the agent has set them. */
    var dateRange: Option<(string, string)>

    var validJobsFound: nat
    var totalAttempts: nat
    var errorsEncountered: nat
    var duplicatesFound: nat
    var requestsMade: nat

    var startTime: Option<real>
    var endTime: Option<real>

    var extractedJobs: seq<JobRecord>
    var failedUrls: seq<string>

    /** The counters agree with each other and with the stored records. */
    predicate Consistent()
      reads this
    {
      && validJobsFound + errorsEncountered <= totalAttempts
      && duplicatesFound <= validJobsFound
      && |extractedJobs| == validJobsFound
      && |failedUrls| == errorsEncountered
    }

    /** A goal with the given target, error-rate and time limits, the default request and failure limits, and zero progress. */
    constructor (target: int, errorRate: real, timeLimitSeconds: int)
      ensures targetValidJobs == target && maxErrorRate == errorRate
      ensures maxExecutionTimeSeconds == timeLimitSeconds
      ensures maxRequestsPerSession == DefaultMaxRequestsPerSession
      ensures maxConsecutiveFailures == DefaultMaxConsecutiveFailures
      ensures validJobsFound == 0 && totalAttempts == 0 && errorsEncountered == 0
      ensures duplicatesFound == 0 && requestsMade == 0
      ensures startTime == None && endTime == None && dateRange == None
      ensures extractedJobs == [] && failedUrls == []
      ensures Consistent()
    {
      targetValidJobs := target;
      maxErrorRate := errorRate;
      maxExecutionTimeSeconds := timeLimitSeconds;
      maxRequestsPerSession := DefaultMaxRequestsPerSession;
      maxConsecutiveFailures := DefaultMaxConsecutiveFailures;
      dateRange := None;
      validJobsFound, totalAttempts, errorsEncountered, duplicatesFound, requestsMade := 0, 0, 0, 0, 0;
      startTime, endTime := None, None;
      extractedJobs, failedUrls := [], [];
    }

    /** The target number of valid jobs is reached; a target of zero or less is reached from the start. */
    function IsAchieved(): (r: bool)
      reads this
      ensures targetValidJobs <= 0 ==> r
      ensures r <==> validJobsFound >= targetValidJobs
    {
      validJobsFound >= targetValidJobs
    }

    /** The error rate is above the quality limit; never before the first attempt. */
    function IsFailed(): (r: bool)
      reads this
      ensures r <==> totalAttempts > 0 && (errorsEncountered as real) > maxErrorRate * (totalAttempts as real)
      ensures r && maxErrorRate >= 0.0 ==> errorsEncountered > 0
    {
      totalAttempts > 0 && (errorsEncountered as real) / (totalAttempts as real) > maxErrorRate
    }

    /** Out of time (measured from `start()`) or out of requests. */
    function IsResourceExhausted(now: real): (r: bool)
      reads this
      ensures requestsMade >= maxRequestsPerSession ==> r
      ensures startTime.None? ==> (r <==> requestsMade >= maxRequestsPerSession)
      ensures r && requestsMade < maxRequestsPerSession ==>
        startTime.Some? && now - startTime.value > maxExecutionTimeSeconds as real
    {
      (startTime.Some? && now - startTime.value > maxExecutionTimeSeconds as real)
      || requestsMade >= maxRequestsPerSession
    }

    /** The status, decided by the first test that holds: achieved, failed, exhausted, some progress, none. */
    function GetStatus(now: real): (s: GoalStatus)
      reads this
      ensures s == Achieved <==> IsAchieved()
      ensures s == Failed <==> !IsAchieved() && (IsFailed() || (IsResourceExhausted(now) && validJobsFound == 0))
      ensures s == PartiallyAchieved <==> !IsAchieved() && !IsFailed() && IsResourceExhausted(now) && validJobsFound > 0
      ensures s == InProgress <==> !IsAchieved() && !IsFailed() && !IsResourceExhausted(now) && validJobsFound > 0
      ensures s == Pending <==> !IsAchieved() && !IsFailed() && !IsResourceExhausted(now) && validJobsFound == 0
    {
      if IsAchieved() then Achieved
      else if IsFailed() then Failed
      else if IsResourceExhausted(now) then (if validJobsFound > 0 then PartiallyAchieved else Failed)
      else if validJobsFound > 0 then InProgress
      else Pending
    }

    /** Percentage of the target reached, capped at 100; a zero target counts as complete. */
    function ProgressPercentage(): (p: real)
      reads this
      ensures targetValidJobs > 0 ==> 0.0 <= p <= 100.0
      ensures targetValidJobs >= 0 ==> (p == 100.0 <==> IsAchieved())
      ensures targetValidJobs > 0 && !IsAchieved() ==> p * (targetValidJobs as real) == 100.0 * (validJobsFound as real)
    {
      if targetValidJobs == 0 then 100.0
      else
        var q := (validJobsFound as real) / (targetValidJobs as real) * 100.0;
        if q < 100.0 then q else 100.0
    }

    /** Errors per attempt; 0 before the first attempt. */
    function CurrentErrorRate(): (r: real)
      reads this
      ensures r >= 0.0
      ensures totalAttempts == 0 ==> r == 0.0
      ensures totalAttempts > 0 ==> r * (totalAttempts as real) == errorsEncountered as real
      ensures IsFailed() <==> totalAttempts > 0 && r > maxErrorRate
      ensures Consistent() ==> r <= 1.0
    {
      if totalAttempts == 0 then 0.0 else (errorsEncountered as real) / (totalAttempts as real)
    }

    /** Valid jobs per attempt; 0 before the first attempt. */
    function CurrentSuccessRate(): (r: real)
      reads this
      ensures r >= 0.0
      ensures totalAttempts == 0 ==> r == 0.0
      ensures totalAttempts > 0 ==> r * (totalAttempts as real) == validJobsFound as real
      ensures Consistent() ==> r + CurrentErrorRate() <= 1.0
    {
      if totalAttempts == 0 then 0.0 else (validJobsFound as real) / (totalAttempts as real)
    }

    /** Seconds since `start()`, up to `complete()` when that has recorded a (truthy, non-zero) time, else up to `now`. */
    function ElapsedTimeSeconds(now: real): (e: real)
      reads this
      ensures startTime.None? ==> e == 0.0
      ensures startTime.Some? && endTime.Some? && endTime.value != 0.0 ==> e == endTime.value - startTime.value
      ensures startTime.Some? && (endTime.None? || endTime.value == 0.0) ==> e + startTime.value == now
    {
      if startTime.None? then 0.0
      else
        var end := if endTime.Some? && endTime.value != 0.0 then endTime.value else now;
        end - startTime.value
    }

    /** Seconds left before the time limit, never negative; `None` is Python's infinity before `start()`. */
    function RemainingTimeSeconds(now: real): (r: Option<real>)
      reads this
      ensures r.None? <==> startTime.None?
      ensures r.Some? ==> r.value >= 0.0
      ensures r.Some? && r.value > 0.0 ==> r.value + (now - startTime.value) == maxExecutionTimeSeconds as real
      ensures r.Some? && r.value == 0.0 <==> startTime.Some? && now - startTime.value >= maxExecutionTimeSeconds as real
    {
      if startTime.None? then None
      else
        var left := (maxExecutionTimeSeconds as real) - (now - startTime.value);
        Some(if left > 0.0 then left else 0.0)
    }

    /** Valid jobs per hour of elapsed time; 0 when no time has elapsed. */
    function JobsPerHour(now: real): (r: real)
      reads this
      ensures ElapsedTimeSeconds(now) == 0.0 ==> r == 0.0
      ensures ElapsedTimeSeconds(now) != 0.0 ==> r * ElapsedTimeSeconds(now) == 3600.0 * validJobsFound as real
    {
      var hours := ElapsedTimeSeconds(now) / 3600.0;
      if hours == 0.0 then 0.0 else (validJobsFound as real) / hours
    }

    /** Records the start time; a later call overwrites it. */
    method Start(now: real)
      modifies this
      ensures startTime == Some(now)
      ensures endTime == old(endTime) && validJobsFound == old(validJobsFound) && totalAttempts == old(totalAttempts)
      ensures errorsEncountered == old(errorsEncountered) && duplicatesFound == old(duplicatesFound)
      ensures requestsMade == old(requestsMade) && extractedJobs == old(extractedJobs) && failedUrls == old(failedUrls)
      ensures dateRange == old(dateRange)
    {
      startTime := Some(now);
    }

    /** Records the end time; a later call overwrites it. */
    method Complete(now: real)
      modifies this
      ensures endTime == Some(now)
      ensures startTime == old(startTime) && validJobsFound == old(validJobsFound) && totalAttempts == old(totalAttempts)
      ensures errorsEncountered == old(errorsEncountered) && duplicatesFound == old(duplicatesFound)
      ensures requestsMade == old(requestsMade) && extractedJobs == old(extractedJobs) && failedUrls == old(failedUrls)
      ensures dateRange == old(dateRange)
      ensures now != 0.0 ==> forall t :: ElapsedTimeSeconds(t) == ElapsedTimeSeconds(now)
    {
      endTime := Some(now);
    }

    method RecordSuccess(job: JobRecord)
      modifies this
      ensures validJobsFound == old(validJobsFound) + 1 && totalAttempts == old(totalAttempts) + 1
      ensures extractedJobs == old(extractedJobs) + [job]
      ensures errorsEncountered == old(errorsEncountered) && duplicatesFound == old(duplicatesFound)
      ensures requestsMade == old(requestsMade) && failedUrls == old(failedUrls)
      ensures startTime == old(startTime) && endTime == old(endTime) && dateRange == old(dateRange)
      ensures old(Consistent()) ==> Consistent()
    {
      validJobsFound := validJobsFound + 1;
      totalAttempts := totalAttempts + 1;
      extractedJobs := extractedJobs + [job];
    }

    method RecordFailure(url: string)
      modifies this
      ensures errorsEncountered == old(errorsEncountered) + 1 && totalAttempts == old(totalAttempts) + 1
      ensures failedUrls == old(failedUrls) + [url]
      ensures validJobsFound == old(validJobsFound) && duplicatesFound == old(duplicatesFound)
      ensures requestsMade == old(requestsMade) && extractedJobs == old(extractedJobs)
      ensures startTime == old(startTime) && endTime == old(endTime) && dateRange == old(dateRange)
      ensures old(Consistent()) ==> Consistent()
    {
      errorsEncountered := errorsEncountered + 1;
      totalAttempts := totalAttempts + 1;
      failedUrls := failedUrls + [url];
    }

    method RecordSkip()
      modifies this
      ensures totalAttempts == old(totalAttempts) + 1
      ensures validJobsFound == old(validJobsFound) && errorsEncountered == old(errorsEncountered)
      ensures duplicatesFound == old(duplicatesFound) && requestsMade == old(requestsMade)
      ensures extractedJobs == old(extractedJobs) && failedUrls == old(failedUrls)
      ensures startTime == old(startTime) && endTime == old(endTime) && dateRange == old(dateRange)
      ensures old(Consistent()) ==> Consistent()
    {
      totalAttempts := totalAttempts + 1;
    }

    /** A duplicate still counts towards the goal; the stored record carries the duplicate flag. */
    method RecordDuplicate(job: JobRecord)
      modifies this
      ensures duplicatesFound == old(duplicatesFound) + 1 && validJobsFound == old(validJobsFound) + 1
      ensures totalAttempts == old(totalAttempts) + 1
      ensures extractedJobs == old(extractedJobs) + [job.(isDuplicate := true)]
      ensures errorsEncountered == old(errorsEncountered) && requestsMade == old(requestsMade)
      ensures failedUrls == old(failedUrls)
      ensures startTime == old(startTime) && endTime == old(endTime) && dateRange == old(dateRange)
      ensures old(Consistent()) ==> Consistent()
    {
      duplicatesFound := duplicatesFound + 1;
      validJobsFound := validJobsFound + 1;
      totalAttempts := totalAttempts + 1;
      extractedJobs := extractedJobs + [job.(isDuplicate := true)];
    }

    method RecordRequest()
      modifies this
      ensures requestsMade == old(requestsMade) + 1
      ensures validJobsFound == old(validJobsFound) && totalAttempts == old(totalAttempts)
      ensures errorsEncountered == old(errorsEncountered) && duplicatesFound == old(duplicatesFound)
      ensures extractedJobs == old(extractedJobs) && failedUrls == old(failedUrls)
      ensures startTime == old(startTime) && endTime == old(endTime) && dateRange == old(dateRange)
      ensures Consistent() == old(Consistent())
    {
      requestsMade := requestsMade + 1;
    }
  }

  /** Once exhausted, a goal stays exhausted as the clock moves on. */
  lemma ExhaustionPersists(g: ScrapingGoal, now: real, later: real)
    requires now <= later && g.IsResourceExhausted(now)
    ensures g.IsResourceExhausted(later)
  {
  }

  /** An achieved goal reports ACHIEVED whatever the error rate or the clock. */
  lemma AchievedOverridesFailure(g: ScrapingGoal, now: real)
    requires g.IsAchieved() && g.IsFailed() && g.IsResourceExhausted(now)
    ensures g.GetStatus(now) == Achieved
  {
  }

  /** With consistent counters, a goal whose error rate exceeds the limit has at least one error. */
  lemma FailedMeansErrors(g: ScrapingGoal)
    requires g.Consistent() && g.IsFailed() && g.maxErrorRate >= 0.0
    ensures g.errorsEncountered > 0
  {
    var r := g.CurrentErrorRate();
    assert r * (g.totalAttempts as real) == g.errorsEncountered as real;
  }

  /** A sub-goal of the main goal, achieved once its count reaches its target. */
  class SubGoal {
    const description: string
    const parentGoal: ScrapingGoal?
    const targetCount: int
    var currentCount: int
    var status: GoalStatus

    constructor (desc: string, parent: ScrapingGoal?, target: int)
      ensures description == desc && parentGoal == parent && targetCount == target
      ensures currentCount == 0 && status == Pending
    {
      description := desc;
      parentGoal := parent;
      targetCount := target;
      currentCount := 0;
      status := Pending;
    }

    predicate IsAchieved()
      reads this
    {
      currentCount >= targetCount
    }

    /** Counts one more unit of progress; the status is ACHIEVED exactly when the target is reached. */
    method Increment()
      modifies this
      ensures currentCount == old(currentCount) + 1
      ensures status == Achieved <==> IsAchieved()
      ensures status == InProgress <==> !IsAchieved()
    {
      currentCount := currentCount + 1;
      if IsAchieved() {
        status := Achieved;
      } else {
        status := InProgress;
      }
    }
  }
}
