/**
  The sync-job record (models/SyncJob.js): a small state machine over its status with a
  retry counter and an append-only error log, and the collection of jobs with its three
  queries. Every `new Date()` / `Date.now` is the `now` parameter; "newest first" is reverse
  creation order.
 */
module SyncJobs {
  import opened Wrappers
  import opened Http

  datatype Status = Pending | Running | Completed | Failed | Cancelled
  datatype JobType = ShopifyToDb | DbToAirtable | FullSync
  datatype Trigger = Manual | Cron | Webhook

  /** One entry of `errors`: `{stage, message, stack, timestamp}`. */
  datatype JobError = JobError(stage: string, message: string, stack: Option<string>, timestamp: int)

  /** The `error` object handed to `markAsFailed` / `addError`: `{stage, message, stack}`. */
  datatype ErrorArg = ErrorArg(stage: Option<string>, message: Option<string>, stack: Option<string>)

  /** The `summary` stored by `markAsCompleted`; `Empty` is its default `{}`. */
  datatype JobSummary =
    | Empty
    | Totals(shopifyOrdersFetched: int, shopifyOrdersUpserted: int,
             airtableRecordsCreated: int, airtableRecordsUpdated: int, totalDuration: int)

  /** The mutable fields of a job, for stating what a method leaves alone. */
  datatype JobState = JobState(
    status: Status, startedAt: int, completedAt: Option<int>, duration: Option<int>,
    shopifyOrdersFetched: int, shopifyOrdersUpserted: int,
    airtableRecordsCreated: int, airtableRecordsUpdated: int,
    errors: seq<JobError>, summary: Option<JobSummary>,
    retryCount: int, maxRetries: int, lastRetryAt: Option<int>)

  /** The state after `incrementRetry()`: one more retry, back to pending. */
  function Retried(st: JobState, now: int): (r: JobState)
    ensures r.retryCount == st.retryCount + 1 && r.status == Pending && r.lastRetryAt == Some(now)
    ensures r.errors == st.errors && r.maxRetries == st.maxRetries && r.startedAt == st.startedAt
  {
    st.(retryCount := st.retryCount + 1, lastRetryAt := Some(now), status := Pending)
  }

  /** The entry `addError(stage, error)` appends: the message defaults to 'Unknown error'. */
  function AddedEntry(stage: string, e: ErrorArg, now: int): (r: JobError)
    ensures r.stage == stage && r.timestamp == now && r.stack == e.stack
    ensures r.message != "" && (e.message.Some? && e.message.value != "" ==> r.message == e.message.value)
  {
    JobError(stage, OrElse(e.message, "Unknown error"), e.stack, now)
  }

  /** The entry `markAsFailed(error)` appends: stage defaults to 'unknown', message to 'Unknown error'. */
  function FailedEntry(e: ErrorArg, now: int): (r: JobError)
    ensures r.stage != "" && r.message != "" && r.timestamp == now
    ensures r == AddedEntry(OrElse(e.stage, "unknown"), e, now)
  {
    JobError(OrElse(e.stage, "unknown"), OrElse(e.message, "Unknown error"), e.stack, now)
  }

  class SyncJob {
    const jobType: JobType
    const triggeredBy: Trigger
    /** The `createdAt` timestamp the schema's `timestamps` option adds. */
    const createdAt: int
    var status: Status
    var startedAt: int
    var completedAt: Option<int>
    /** `completedAt - startedAt`, in milliseconds. */
    var duration: Option<int>
    var shopifyOrdersFetched: int
    var shopifyOrdersUpserted: int
    var airtableRecordsCreated: int
    var airtableRecordsUpdated: int
    var errors: seq<JobError>
    var summary: Option<JobSummary>
    var retryCount: int
    var maxRetries: int
    var lastRetryAt: Option<int>

    /**
      `SyncJobModel.createJob(jobType, triggeredBy)`: the schema defaults, with `triggeredBy`
      defaulting to manual.
     */
    constructor (jobType: JobType, triggeredBy: Option<Trigger>, now: int)
      ensures this.jobType == jobType && this.triggeredBy == triggeredBy.GetOr(Manual)
      ensures createdAt == now && status == Pending && startedAt == now
      ensures completedAt.None? && duration.None? && summary.None? && lastRetryAt.None?
      ensures shopifyOrdersFetched == 0 && shopifyOrdersUpserted == 0
      ensures airtableRecordsCreated == 0 && airtableRecordsUpdated == 0
      ensures errors == [] && retryCount == 0 && maxRetries == 3
    {
      this.jobType := jobType;
      this.triggeredBy := triggeredBy.GetOr(Manual);
      createdAt := now;
      status := Pending;
      startedAt := now;
      completedAt := None;
      duration := None;
      shopifyOrdersFetched := 0;
      shopifyOrdersUpserted := 0;
      airtableRecordsCreated := 0;
      airtableRecordsUpdated := 0;
      errors := [];
      summary := None;
      retryCount := 0;
      maxRetries := 3;
      lastRetryAt := None;
    }

    function State(): JobState
      reads this
    {
      JobState(status, startedAt, completedAt, duration, shopifyOrdersFetched, shopifyOrdersUpserted,
               airtableRecordsCreated, airtableRecordsUpdated, errors, summary, retryCount, maxRetries,
               lastRetryAt)
    }

    /** `canRetry()` */
    predicate CanRetry()
      reads this
    {
      retryCount < maxRetries && status == Failed
    }

    /** Retries never went past the budget. */
    predicate WithinRetryBudget()
      reads this
    {
      0 <= retryCount <= maxRetries
    }

    /** `markAsRunning()`: from any status; restarts the clock. */
    method MarkAsRunning(now: int)
      modifies this
      ensures State() == old(State()).(status := Running, startedAt := now)
    {
      status := Running;
      startedAt := now;
    }

    /** `markAsCompleted(summary)`: from any status. */
    method MarkAsCompleted(summary: JobSummary, now: int)
      modifies this
      ensures State() == old(State()).(status := Completed, completedAt := Some(now),
                                        duration := Some(now - old(startedAt)), summary := Some(summary))
    {
      status := Completed;
      completedAt := Some(now);
      duration := Some(now - startedAt);
      this.summary := Some(summary);
    }

    /** `markAsFailed(error)`: from any status; one log entry exactly when an error is given. */
    method MarkAsFailed(error: Option<ErrorArg>, now: int)
      modifies this
      ensures State() == old(State()).(status := Failed, completedAt := Some(now),
                                        duration := Some(now - old(startedAt)),
                                        errors := old(errors) + (if error.Some? then [FailedEntry(error.value, now)] else []))
    {
      status := Failed;
      completedAt := Some(now);
      duration := Some(now - startedAt);
      if error.Some? {
        errors := errors + [FailedEntry(error.value, now)];
      }
    }

    /** `addError(stage, error)`: always one entry; nothing else changes. */
    method AddError(stage: string, error: ErrorArg, now: int)
      modifies this
      ensures State() == old(State()).(errors := old(errors) + [AddedEntry(stage, error, now)])
    {
      errors := errors + [AddedEntry(stage, error, now)];
    }

    /**
      `incrementRetry()`: no guard of its own. Behind a `canRetry()` check, as every caller
      has it, the retry budget is kept.
     */
    method IncrementRetry(now: int)
      modifies this
      ensures State() == Retried(old(State()), now)
      ensures old(CanRetry()) && old(WithinRetryBudget()) ==> WithinRetryBudget() && !CanRetry()
    {
      retryCount := retryCount + 1;
      lastRetryAt := Some(now);
      status := Pending;
    }
  }

  /** The positions from `i` on of the jobs with the given status, in increasing order. */
  ghost function PositionsFrom(js: seq<SyncJob>, s: Status, i: nat): seq<nat>
    requires i <= |js|
    reads js
    decreases |js| - i
  {
    if i == |js| then [] else (if js[i].status == s then [i] else []) + PositionsFrom(js, s, i + 1)
  }

  /** `PositionsFrom` lists, in strictly increasing order, exactly the positions from `i` on holding the status. */
  lemma {:induction false} PositionsFromExact(js: seq<SyncJob>, s: Status, i: nat)
    requires i <= |js|
    ensures forall k :: 0 <= k < |PositionsFrom(js, s, i)| ==>
              i <= PositionsFrom(js, s, i)[k] < |js| && js[PositionsFrom(js, s, i)[k]].status == s
    ensures forall k, l :: 0 <= k < l < |PositionsFrom(js, s, i)| ==> PositionsFrom(js, s, i)[k] < PositionsFrom(js, s, i)[l]
    ensures forall j :: i <= j < |js| && js[j].status == s ==> j in PositionsFrom(js, s, i)
    decreases |js| - i
  {
    if i < |js| {
      PositionsFromExact(js, s, i + 1);
    }
  }

  /** The jobs from position `i` on with the given status, in order. */
  function WithStatusFrom(js: seq<SyncJob>, s: Status, i: nat): (r: seq<SyncJob>)
    requires i <= |js|
    reads js
    ensures forall k :: 0 <= k < |r| ==> r[k] in js && r[k].status == s
    ensures forall j :: i <= j < |js| && js[j].status == s ==> js[j] in r
    ensures |r| <= |js| - i
    decreases |js| - i
  {
    if i == |js| then [] else (if js[i].status == s then [js[i]] else []) + WithStatusFrom(js, s, i + 1)
  }

  /** The jobs collected from `i` on are those at `PositionsFrom`, in order. */
  lemma {:induction false} WithStatusFromPositions(js: seq<SyncJob>, s: Status, i: nat)
    requires i <= |js|
    ensures |WithStatusFrom(js, s, i)| == |PositionsFrom(js, s, i)|
    ensures forall k :: 0 <= k < |WithStatusFrom(js, s, i)| ==>
              PositionsFrom(js, s, i)[k] < |js| && WithStatusFrom(js, s, i)[k] == js[PositionsFrom(js, s, i)[k]]
    decreases |js| - i
  {
    if i < |js| {
      WithStatusFromPositions(js, s, i + 1);
    }
  }

  /** `find({status})`: exactly the jobs with the given status. */
  function WithStatus(js: seq<SyncJob>, s: Status): (r: seq<SyncJob>)
    reads js
    ensures forall i :: 0 <= i < |r| ==> r[i] in js && r[i].status == s
    ensures forall i :: 0 <= i < |js| && js[i].status == s ==> js[i] in r
    ensures |r| <= |js|
  {
    WithStatusFrom(js, s, 0)
  }

  /**
    `find({status})` keeps creation order and lists each job once: there are strictly increasing
    positions, exactly those holding the status, and the k-th job found is the one at the k-th.
   */
  lemma WithStatusInOrder(js: seq<SyncJob>, s: Status)
    ensures |WithStatus(js, s)| == |PositionsFrom(js, s, 0)|
    ensures forall k, l :: 0 <= k < l < |PositionsFrom(js, s, 0)| ==> PositionsFrom(js, s, 0)[k] < PositionsFrom(js, s, 0)[l]
    ensures forall j :: 0 <= j < |js| && js[j].status == s ==> j in PositionsFrom(js, s, 0)
    ensures forall k :: 0 <= k < |WithStatus(js, s)| ==>
              PositionsFrom(js, s, 0)[k] < |js| && WithStatus(js, s)[k] == js[PositionsFrom(js, s, 0)[k]]
  {
    PositionsFromExact(js, s, 0);
    WithStatusFromPositions(js, s, 0);
  }


  function Reversed<T>(xs: seq<T>): (r: seq<T>)
    ensures |r| == |xs| && forall i :: 0 <= i < |xs| ==> r[i] == xs[|xs| - 1 - i]
  {
    if xs == [] then [] else [xs[|xs| - 1]] + Reversed(xs[..|xs| - 1])
  }

  /** The collection of jobs, in creation order. */
  class JobLog {
    var jobs: seq<SyncJob>

    constructor ()
      ensures jobs == []
    {
      jobs := [];
    }

    /** Each document appears once in the collection. */
    predicate Distinct()
      reads this
    {
      forall a, b :: 0 <= a < b < |jobs| ==> jobs[a] != jobs[b]
    }

    /** `SyncJobModel.createJob(jobType, triggeredBy)`: a fresh pending job is added. */
    method CreateJob(jobType: JobType, triggeredBy: Option<Trigger>, now: int) returns (job: SyncJob)
      modifies this
      ensures fresh(job) && jobs == old(jobs) + [job]
      ensures old(Distinct()) ==> Distinct()
      ensures job.jobType == jobType && job.triggeredBy == triggeredBy.GetOr(Manual)
      ensures job.status == Pending && job.retryCount == 0 && job.maxRetries == 3 && job.errors == []
      ensures job.startedAt == now && job.createdAt == now && job.completedAt.None?
      ensures job.shopifyOrdersFetched == 0 && job.shopifyOrdersUpserted == 0
      ensures job.airtableRecordsCreated == 0 && job.airtableRecordsUpdated == 0
      ensures job.State() == JobState(Pending, now, None, None, 0, 0, 0, 0, [], None, 0, 3, None)
    {
      job := new SyncJob(jobType, triggeredBy, now);
      jobs := jobs + [job];
    }

    /**
      `getFailedJobs()`: exactly the failed jobs, newest first (creation order reversed).
     */
    function FailedJobs(): (r: seq<SyncJob>)
      reads this, jobs
      ensures forall i :: 0 <= i < |r| ==> r[i] in jobs && r[i].status == Failed
      ensures forall i :: 0 <= i < |jobs| && jobs[i].status == Failed ==> jobs[i] in r
      ensures r == Reversed(WithStatus(jobs, Failed))
    {
      var failed := WithStatus(jobs, Failed);
      var r := Reversed(failed);
      assert forall i :: 0 <= i < |failed| ==> failed[i] == r[|failed| - 1 - i];
      r
    }

    /**
      Newest first: the i-th failed job is the one at the i-th failed position counted from the
      end of the log (the positions of `WithStatusInOrder`).
     */
    lemma FailedJobsNewestFirst()
      ensures |FailedJobs()| == |PositionsFrom(jobs, Failed, 0)|
      ensures forall i :: 0 <= i < |FailedJobs()| ==>
                PositionsFrom(jobs, Failed, 0)[|FailedJobs()| - 1 - i] < |jobs| &&
                FailedJobs()[i] == jobs[PositionsFrom(jobs, Failed, 0)[|FailedJobs()| - 1 - i]]
    {
      WithStatusInOrder(jobs, Failed);
      var failed := WithStatus(jobs, Failed);
      var r := FailedJobs();
      assert forall i :: 0 <= i < |r| ==> r[i] == failed[|failed| - 1 - i];
    }

    /** `getRunningJobs()`: exactly the running jobs. */
    function RunningJobs(): (r: seq<SyncJob>)
      reads this, jobs
      ensures forall i :: 0 <= i < |r| ==> r[i] in jobs && r[i].status == Running
      ensures forall i :: 0 <= i < |jobs| && jobs[i].status == Running ==> jobs[i] in r
    {
      WithStatus(jobs, Running)
    }

    /** `getRecentJobs(limit)`: the `limit` newest jobs, newest first (a limit of 0 is no limit). */
    function RecentJobs(limit: nat): (r: seq<SyncJob>)
      reads this
      ensures |r| == (if limit == 0 || limit > |jobs| then |jobs| else limit)
      ensures forall i :: 0 <= i < |r| ==> r[i] == jobs[|jobs| - 1 - i]
    {
      var newest := Reversed(jobs);
      if limit == 0 || limit > |jobs| then newest else newest[..limit]
    }
  }
}
