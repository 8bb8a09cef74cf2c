/**
  The scheduler (services/cronService.js): a single-flight guard around the scheduled sync,
  a manual trigger, an hourly retry sweep over failed jobs, the next-run computation and the
  job statistics. The sync function itself is abstract: the service only knows whether one
  is set, and each call's outcome is a parameter. The node-cron task handles are present,
  stopped or absent.
 */
module Cron {
  import opened Wrappers
  import opened SyncJobs

  datatype TaskHandle = NoTask | Scheduled | Stopped

  /** What the sync function returns: `{success, message, error}`. */
  datatype SyncReply = SyncReply(success: bool, message: string, error: Option<string>)

  const AlreadyRunning := "Sync job is already running. Please wait for it to complete."
  const NoSyncFunction := "No sync function provided"
  const ManualTriggerFailed := "Failed to trigger manual sync"

  const MillisPerMinute: int := 60000
  const MillisPerHour: int := 3600000
  /** The two-minute grid the next-run computation rounds to. */
  const MillisPerTwoMinutes: int := 120000

  /**
    `getNextSyncTime()` with a task set: the next even minute of the hour after the current
    minute, or the start of the next hour when that would be minute 60. `now` is in
    milliseconds; local time is UTC.
   */
  function NextSyncTime(now: int): int
  {
    var currentMinute := (now / MillisPerMinute) % 60;
    var nextMinute := ((currentMinute + 1 + 1) / 2) * 2;
    var hourStart := (now / MillisPerHour) * MillisPerHour;
    if nextMinute >= 60 then hourStart + MillisPerHour else hourStart + nextMinute * MillisPerMinute
  }

  /**
    The next sync time is the first instant strictly after `now` on the two-minute grid:
    a multiple of two minutes, later than `now` and at most two minutes away.
   */
  lemma NextSyncTimeIsNextEvenMinute(now: int)
    ensures NextSyncTime(now) % MillisPerTwoMinutes == 0
    ensures now < NextSyncTime(now) <= now + MillisPerTwoMinutes
    ensures NextSyncTime(now) == (now / MillisPerTwoMinutes + 1) * MillisPerTwoMinutes
  {
    var minutes, inMinute := now / 60000, now % 60000;
    var h, m := minutes / 60, minutes % 60;
    var k, odd := m / 2, m % 2;
    var t := h * 30 + k;
    assert now == h * 3600000 + (m * 60000 + inMinute);
    QuotientOfHour(now, h, m * 60000 + inMinute);
    assert now == t * 120000 + (odd * 60000 + inMinute);
    QuotientOfTwoMinutes(now, t, odd * 60000 + inMinute);
    assert (m + 1 + 1) / 2 * 2 == (k + 1) * 2;
    assert NextSyncTime(now) == (t + 1) * 120000;
  }

  lemma QuotientOfHour(now: int, h: int, rest: int)
    requires now == h * 3600000 + rest && 0 <= rest < 3600000
    ensures now / MillisPerHour == h
  {
  }

  lemma QuotientOfTwoMinutes(now: int, t: int, rest: int)
    requires now == t * 120000 + rest && 0 <= rest < 120000
    ensures now / MillisPerTwoMinutes == t
  {
  }

  /** The integer counts of `getJobStats()`. */
  datatype JobStats = JobStats(totalJobs: nat, completedJobs: nat, failedJobs: nat, runningJobs: nat)

  /** No job is both failed and running. */
  lemma FailedAndRunningDisjoint(js: seq<SyncJob>)
    ensures |WithStatus(js, Failed)| + |WithStatus(js, Running)| <= |js|
  {
    FailedAndRunningDisjointFrom(js, 0);
  }

  lemma {:induction false} FailedAndRunningDisjointFrom(js: seq<SyncJob>, i: nat)
    requires i <= |js|
    ensures |WithStatusFrom(js, Failed, i)| + |WithStatusFrom(js, Running, i)| <= |js| - i
    decreases |js| - i
  {
    if i < |js| {
      FailedAndRunningDisjointFrom(js, i + 1);
    }
  }

  /** The number of jobs in `js` a retry sweep would re-run the sync for. */
  function RetriedFullSyncs(js: seq<SyncJob>): nat
    reads js
  {
    if js == [] then 0
    else (if js[0].CanRetry() && js[0].jobType == FullSync then 1 else 0) + RetriedFullSyncs(js[1..])
  }

  class CronService {
    var isRunning: bool
    var hasSyncFunction: bool
    var syncTask: TaskHandle
    var retryTask: TaskHandle

    constructor ()
      ensures !isRunning && !hasSyncFunction && syncTask == NoTask && retryTask == NoTask
    {
      isRunning := false;
      hasSyncFunction := false;
      syncTask := NoTask;
      retryTask := NoTask;
    }

    /** `setSyncFunction(fn)` */
    method SetSyncFunction()
      modifies this
      ensures hasSyncFunction && isRunning == old(isRunning)
      ensures syncTask == old(syncTask) && retryTask == old(retryTask)
    {
      hasSyncFunction := true;
    }

    /** `start()`: both tasks are scheduled. */
    method Start()
      modifies this
      ensures syncTask == Scheduled && retryTask == Scheduled
      ensures isRunning == old(isRunning) && hasSyncFunction == old(hasSyncFunction)
    {
      syncTask := Scheduled;
      retryTask := Scheduled;
    }

    /** `stop()`: the handles are stopped but kept, so a next sync time is still reported. */
    method Stop()
      modifies this
      ensures syncTask == (if old(syncTask) == NoTask then NoTask else Stopped)
      ensures retryTask == (if old(retryTask) == NoTask then NoTask else Stopped)
      ensures isRunning == old(isRunning) && hasSyncFunction == old(hasSyncFunction)
    {
      if syncTask != NoTask {
        syncTask := Stopped;
      }
      if retryTask != NoTask {
        retryTask := Stopped;
      }
    }

    /** The guard at the head of `executeSyncJob()`: proceed only when no scheduled run is in flight. */
    method BeginScheduledRun() returns (proceed: bool)
      modifies this
      ensures proceed <==> !old(isRunning)
      ensures isRunning
      ensures hasSyncFunction == old(hasSyncFunction) && syncTask == old(syncTask) && retryTask == old(retryTask)
    {
      if isRunning {
        return false;
      }
      isRunning := true;
      proceed := true;
    }

    /** The `finally` of `executeSyncJob()`. */
    method EndScheduledRun()
      modifies this
      ensures !isRunning
      ensures hasSyncFunction == old(hasSyncFunction) && syncTask == old(syncTask) && retryTask == old(retryTask)
    {
      isRunning := false;
    }

    /**
      `executeSyncJob()`: skipped without any change while a scheduled run is in flight;
      otherwise the sync function is called when set, and the guard is released whatever the
      outcome (a reply of either kind, or an exception).
     */
    method ExecuteSyncJob() returns (called: bool)
      modifies this
      ensures old(isRunning) ==> !called && isRunning
      ensures !old(isRunning) ==> called == hasSyncFunction && !isRunning
      ensures hasSyncFunction == old(hasSyncFunction) && syncTask == old(syncTask) && retryTask == old(retryTask)
    {
      var proceed := BeginScheduledRun();
      if !proceed {
        return false;
      }
      called := hasSyncFunction;
      EndScheduledRun();
    }

    /**
      `triggerManualSync()`: refused while a scheduled run is in flight, refused without a sync
      function, and otherwise the sync function's reply (an exception becomes a failed reply).
      It never sets the guard itself.
     */
    method TriggerManualSync(outcome: Completion<SyncReply>) returns (r: SyncReply, called: bool)
      ensures isRunning ==> !called && r == SyncReply(false, AlreadyRunning, None)
      ensures !isRunning && !hasSyncFunction ==> !called && r == SyncReply(false, NoSyncFunction, None)
      ensures !isRunning && hasSyncFunction ==>
                called &&
                r == (match outcome
                      case Normal(reply) => reply
                      case Abrupt(m) => SyncReply(false, ManualTriggerFailed, Some(m)))
    {
      if isRunning {
        return SyncReply(false, AlreadyRunning, None), false;
      }
      if hasSyncFunction {
        called := true;
        match outcome
        case Normal(reply) => r := reply;
        case Abrupt(m) => r := SyncReply(false, ManualTriggerFailed, Some(m));
      } else {
        r := SyncReply(false, NoSyncFunction, None);
        called := false;
      }
    }

    /** `getNextSyncTime()`: `null` without a sync task handle. */
    function GetNextSyncTime(now: int): (r: Option<int>)
      reads this
      ensures r.None? <==> syncTask == NoTask
      ensures r.Some? ==> now < r.value <= now + MillisPerTwoMinutes && r.value % MillisPerTwoMinutes == 0
    {
      if syncTask == NoTask then None
      else
        NextSyncTimeIsNextEvenMinute(now);
        Some(NextSyncTime(now))
    }

    /**
      `retryFailedJobs()`: the failed jobs, newest first, that can be retried each get exactly
      one `incrementRetry()`, and a full-sync job re-runs the sync function when one is set.
      Every other job is untouched; the guard is neither consulted nor changed.
     */
    method RetryFailedJobs(log: JobLog, now: int) returns (syncCalls: nat)
      requires log.Distinct()
      modifies log.jobs
      ensures forall j :: j in log.jobs && old(j.CanRetry()) ==> j.State() == Retried(old(j.State()), now)
      ensures forall j :: j in log.jobs && !old(j.CanRetry()) ==> j.State() == old(j.State())
      ensures syncCalls == (if hasSyncFunction then old(RetriedFullSyncs(log.jobs)) else 0)
    {
      var jobs := log.jobs;
      syncCalls := 0;
      var i := |jobs|;
      while i > 0
        invariant 0 <= i <= |jobs|
        invariant forall k :: 0 <= k < i ==> jobs[k].State() == old(jobs[k].State())
        invariant forall k :: i <= k < |jobs| && old(jobs[k].CanRetry()) ==>
                    jobs[k].State() == Retried(old(jobs[k].State()), now)
        invariant forall k :: i <= k < |jobs| && !old(jobs[k].CanRetry()) ==> jobs[k].State() == old(jobs[k].State())
        invariant syncCalls == (if hasSyncFunction then old(RetriedFullSyncs(jobs[i..])) else 0)
      {
        i := i - 1;
        var job := jobs[i];
        assert old(RetriedFullSyncs(jobs[i..])) ==
               (if old(job.CanRetry()) && job.jobType == FullSync then 1 else 0) + old(RetriedFullSyncs(jobs[i + 1..])) by {
          assert jobs[i..][1..] == jobs[i + 1..];
        }
        if job.CanRetry() {
          job.IncrementRetry(now);
          if job.jobType == FullSync && hasSyncFunction {
            syncCalls := syncCalls + 1;
          }
        }
      }
      assert jobs[0..] == jobs;
    }

    /**
      `getJobStats()`: the counts over the 50 most recent jobs, and the failed and running
      counts over all jobs.
     */
    function GetJobStats(log: JobLog): (s: JobStats)
      reads log, log.jobs
      ensures s.completedJobs <= s.totalJobs <= 50
      ensures s.totalJobs == (if |log.jobs| < 50 then |log.jobs| else 50)
      ensures s.failedJobs + s.runningJobs <= |log.jobs|
    {
      var recentJobs := log.RecentJobs(50);
      FailedAndRunningDisjoint(log.jobs);
      JobStats(|recentJobs|, |WithStatus(recentJobs, Completed)|, |log.FailedJobs()|, |log.RunningJobs()|)
    }
  }

  /**
    While a scheduled run is in flight, a manual trigger is refused without calling the sync
    function.
   */
  method ManualTriggerDuringScheduledRun(service: CronService, outcome: Completion<SyncReply>)
    returns (r: SyncReply, called: bool)
    requires !service.isRunning
    modifies service
    ensures !called && r == SyncReply(false, AlreadyRunning, None)
  {
    var proceed := service.BeginScheduledRun();
    r, called := service.TriggerManualSync(outcome);
    service.EndScheduledRun();
  }

  /**
    A manual sync leaves the guard open: a scheduled run that starts right after (or, in the
    running system, during) it proceeds.
   */
  method ScheduledRunAfterManualTrigger(service: CronService, outcome: Completion<SyncReply>)
    returns (r: SyncReply, proceed: bool)
    requires !service.isRunning && service.hasSyncFunction
    modifies service
    ensures proceed
  {
    var called;
    r, called := service.TriggerManualSync(outcome);
    proceed := service.BeginScheduledRun();
    service.EndScheduledRun();
  }
}
