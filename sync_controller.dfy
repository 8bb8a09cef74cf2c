/**
  The sync controller's logic (controllers/SyncController.js): `startSyncing`, which is also
  the function the scheduler runs, the guards of the retry and cancel handlers, the status
  mapping of the manual trigger and the job lists of the dashboard. The HTTP plumbing is
  reduced to a status code and a message.
 */
module SyncControl {
  import opened Wrappers
  import opened Http
  import opened OrderModel
  import opened ShopifyClient
  import opened OrderStore
  import opened AirTableSync
  import opened SyncJobs
  import opened Cron

  const PageSize: nat := 150
  const SyncDone := "Sync completed successfully"
  const JobNotFound := "Job not found"
  const CannotRetry := "Job cannot be retried (max retries reached or not failed)"
  const RetryStarted := "Job retry initiated"
  const NotRunning := "Job is not running and cannot be cancelled"
  const Cancelled := "Job cancelled successfully"
  const ManualSyncStarted := "Manual sync triggered successfully"

  /** `startSyncing()`'s reply: `{success, message, error}` and the two stage results. */
  datatype StartReply = StartReply(success: bool, message: string, error: Option<ErrorInfo>,
                                   upsertResult: Option<UpsertSummary>, syncResult: Option<PushResult>)

  /** The store after `startSyncing()`, and its reply. */
  datatype SyncingRun = SyncingRun(records: seq<StoredOrder>, reply: StartReply)

  /**
    `startSyncing()` over the store's records: a failed fetch returns its first error's user
    message and touches nothing; otherwise the orders are upserted, the store is pushed, and
    the reply is a success whatever the upsert and push reported.
   */
  function Syncing(rs: seq<StoredOrder>, now: int, replies: seq<PageReply>, writeErrors: map<nat, string>,
                   create: BatchCall, upsert: BatchCall): (s: SyncingRun)
    requires Ends(replies)
  {
    var f := FetchAll(replies, PageSize);
    if !f.success then SyncingRun(rs, StartReply(false, f.errors[0].userMessage, Some(f.errors[0]), None, None))
    else
      var u := UpsertRun(rs, f.data.value.orders, writeErrors);
      var p := Push(now, u.records, create, upsert);
      SyncingRun(p.records, StartReply(true, SyncDone, None, Some(u.summary), Some(p.result)))
  }

  /**
    The short-circuit: the reply is a success exactly when the fetch succeeded, a failed fetch
    leaves the store as it was and reports the upstream's user message, and a successful fetch
    reports success even when every downstream batch failed.
   */
  lemma SyncingShortCircuits(rs: seq<StoredOrder>, now: int, replies: seq<PageReply>, writeErrors: map<nat, string>,
                             create: BatchCall, upsert: BatchCall)
    requires Ends(replies)
    ensures var s := Syncing(rs, now, replies, writeErrors, create, upsert);
            var f := FetchAll(replies, PageSize);
            && (s.reply.success <==> f.success)
            && (!f.success ==> s.records == rs && s.reply.error == Some(f.errors[0]) &&
                                s.reply.message == f.errors[0].userMessage &&
                                s.reply.upsertResult.None? && s.reply.syncResult.None?)
            && (f.success ==>
                  && s.reply.message == SyncDone
                  && s.reply.upsertResult.Some?
                  && s.reply.upsertResult.value.created + s.reply.upsertResult.value.updated
                     + s.reply.upsertResult.value.errors == |f.data.value.orders|)
  {
  }

  /** `SyncController.startSyncing()` */
  method StartSyncing(store: Store, now: int, replies: seq<PageReply>, writeErrors: map<nat, string>,
                      create: BatchCall, upsert: BatchCall)
    returns (r: StartReply)
    requires Ends(replies)
    modifies store
    ensures SyncingRun(store.records, r) == Syncing(old(store.records), now, replies, writeErrors, create, upsert)
  {
    var fetched, cursors, delays := GetAllOrders(replies, PageSize);
    if !fetched.success || |fetched.errors| > 0 {
      return StartReply(false, fetched.errors[0].userMessage, Some(fetched.errors[0]), None, None);
    }
    var upsertResult := store.UpsertOrder(fetched.data.value.orders, writeErrors);
    var syncResult, pushDelays := SyncAirTableWithDb(store, now, create, upsert);
    r := StartReply(true, SyncDone, None, Some(upsertResult.data), Some(syncResult));
  }

  /** A handler's status code and message. */
  datatype Response = Response(code: int, message: string)

  /**
    `retryJob`: 404 without a job, 400 with the job untouched when it cannot be retried, and
    otherwise one `incrementRetry()` and, for a full-sync job, a run of `startSyncing()`.
   */
  method RetryJob(job: SyncJob?, now: int, store: Store, replies: seq<PageReply>, writeErrors: map<nat, string>,
                  create: BatchCall, upsert: BatchCall)
    returns (r: Response, result: Option<StartReply>)
    requires Ends(replies)
    modifies job, store
    ensures job == null ==> r == Response(404, JobNotFound) && result.None? && store.records == old(store.records)
    ensures job != null && !old(job.CanRetry()) ==>
              r == Response(400, CannotRetry) && result.None? && job.State() == old(job.State()) &&
              store.records == old(store.records)
    ensures job != null && old(job.CanRetry()) ==>
              && r == Response(200, RetryStarted)
              && job.State() == Retried(old(job.State()), now)
              && (job.jobType == FullSync ==>
                    result.Some? && SyncingRun(store.records, result.value) == Syncing(old(store.records), now, replies, writeErrors, create, upsert))
              && (job.jobType != FullSync ==> result.None? && store.records == old(store.records))
  {
    if job == null {
      return Response(404, JobNotFound), None;
    }
    if !job.CanRetry() {
      return Response(400, CannotRetry), None;
    }
    job.IncrementRetry(now);
    result := None;
    if job.jobType == FullSync {
      var started := StartSyncing(store, now, replies, writeErrors, create, upsert);
      result := Some(started);
    }
    r := Response(200, RetryStarted);
  }

  /**
    `cancelJob`: 404 without a job, 400 with the job untouched unless it is running, and
    otherwise cancelled with its completion time and duration.
   */
  method CancelJob(job: SyncJob?, now: int) returns (r: Response)
    modifies job
    ensures job == null ==> r == Response(404, JobNotFound)
    ensures job != null && old(job.status) != Running ==> r == Response(400, NotRunning) && job.State() == old(job.State())
    ensures job != null && old(job.status) == Running ==>
              r == Response(200, Cancelled) &&
              job.State() == old(job.State()).(status := Status.Cancelled, completedAt := Some(now),
                                                duration := Some(now - old(job.startedAt)))
  {
    if job == null {
      return Response(404, JobNotFound);
    }
    if job.status != Running {
      return Response(400, NotRunning);
    }
    job.status := Status.Cancelled;
    job.completedAt := Some(now);
    job.duration := Some(now - job.startedAt);
    r := Response(200, Cancelled);
  }

  /**
    The `triggerManualSync` handler: 200 when the scheduler's reply is a success, and 400
    with the reply's own message otherwise.
   */
  method TriggerManualSync(service: CronService, outcome: Completion<SyncReply>) returns (r: Response, called: bool)
    ensures service.isRunning ==> !called && r == Response(400, AlreadyRunning)
    ensures !service.isRunning && !service.hasSyncFunction ==> !called && r == Response(400, NoSyncFunction)
    ensures !service.isRunning && service.hasSyncFunction && outcome.Abrupt? ==>
              called && r == Response(400, ManualTriggerFailed)
    ensures !service.isRunning && service.hasSyncFunction && outcome.Normal? ==>
              called && r == (if outcome.value.success then Response(200, ManualSyncStarted)
                              else Response(400, outcome.value.message))
  {
    var reply;
    reply, called := service.TriggerManualSync(outcome);
    if reply.success {
      r := Response(200, ManualSyncStarted);
    } else {
      r := Response(400, reply.message);
    }
  }

  /** The dashboard's job lists. */
  datatype Dashboard = Dashboard(recentJobs: seq<SyncJob>, failedJobs: seq<SyncJob>)

  /** `getDashboardData`'s lists: the five newest jobs and the five newest failed jobs. */
  function DashboardJobs(log: JobLog): (d: Dashboard)
    reads log, log.jobs
    ensures |d.recentJobs| <= 5 && |d.failedJobs| <= 5
    ensures d.recentJobs == log.RecentJobs(5)
    ensures d.failedJobs <= log.FailedJobs()
    ensures |d.failedJobs| == (if |log.FailedJobs()| < 5 then |log.FailedJobs()| else 5)
    ensures forall i :: 0 <= i < |d.failedJobs| ==> d.failedJobs[i].status == Status.Failed
  {
    var failed := log.FailedJobs();
    Dashboard(log.RecentJobs(5), if |failed| < 5 then failed else failed[..5])
  }
}
