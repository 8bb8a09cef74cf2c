/**
  The full-sync pipeline (`getAllOrdersAndSyncToAirTable` in services/airTable.js): a job is
  created and marked running, then the stages fetch, upsert and push run strictly in that
  order. A stage failure is logged twice under the stage's tag (once by `addError`, once by
  `markAsFailed`), fails the job and ends the run; otherwise the job completes with its
  totals. `start` is the clock when the job is created and started, `end` the clock for
  everything after.
 */
module FullSync {
  import opened Wrappers
  import opened Http
  import opened OrderModel
  import opened ShopifyClient
  import opened OrderStore
  import opened AirTableSync
  import opened SyncJobs

  const PageSize: nat := 150

  const FetchStage := "shopify_fetch"
  const PushStage := "airtable_sync"
  const FetchFallback := "Failed to fetch orders from Shopify"
  const PushFallback := "Failed to sync with AirTable"
  const FullSyncDone := "Full sync completed successfully"

  /** The reply's `success` and `message`. */
  datatype FullSyncReply = FullSyncReply(success: bool, message: string)

  /** The `{stage, message, stack}` object a failing stage builds; its message falls back to a fixed text. */
  function StageError(stage: string, message: string, fallback: string): (e: ErrorArg)
    requires fallback != ""
    ensures e.stage == Some(stage) && e.message.Some? && e.message.value != ""
    ensures message != "" ==> e.message.value == message
  {
    ErrorArg(Some(stage), Some(OrElse(Some(message), fallback)), None)
  }

  /** The job right after `createJob('full_sync')` and `markAsRunning()`. */
  function Started(start: int): JobState
  {
    JobState(Running, start, None, None, 0, 0, 0, 0, [], None, 0, 3, None)
  }

  /**
    A stage failure: `addError(stage, e)` then `markAsFailed(e)`. The log gains two identical
    entries tagged with the stage, and the job is failed.
   */
  function StageFailed(st: JobState, stage: string, e: ErrorArg, now: int): (r: JobState)
    requires stage != "" && e.stage == Some(stage)
    ensures r.status == Status.Failed && r.completedAt == Some(now) && r.duration == Some(now - st.startedAt)
    ensures |r.errors| == |st.errors| + 2 && r.errors[..|st.errors|] == st.errors
    ensures r.errors[|st.errors|] == r.errors[|st.errors| + 1]
    ensures r.errors[|st.errors|].stage == stage && r.errors[|st.errors|].timestamp == now
    ensures r.retryCount == st.retryCount && r.shopifyOrdersFetched == st.shopifyOrdersFetched
  {
    var logged := st.(errors := st.errors + [AddedEntry(stage, e, now)]);
    logged.(status := Status.Failed, completedAt := Some(now), duration := Some(now - logged.startedAt),
            errors := logged.errors + [FailedEntry(e, now)])
  }

  /** `addError(stage, e)` followed by `markAsFailed(e)`. */
  method FailStage(job: SyncJob, stage: string, e: ErrorArg, now: int)
    requires stage != "" && e.stage == Some(stage)
    modifies job
    ensures job.State() == StageFailed(old(job.State()), stage, e, now)
  {
    job.AddError(stage, e, now);
    job.MarkAsFailed(Some(e), now);
  }

  /** `response?.totalRecords || 0` */
  function TotalOf(report: Option<BatchReport>): nat
  {
    match report
    case Some(b) => b.totalRecords
    case None => 0
  }

  /**
    `getAllOrdersAndSyncToAirTable(triggeredBy)` over the upstream's replies, the per-order
    write failures of the upsert, and the downstream create and upsert calls. Returns the reply
    and the job it logged.
   */
  method GetAllOrdersAndSyncToAirTable(log: JobLog, store: Store, triggeredBy: Option<Trigger>, start: int, end: int,
                                       replies: seq<PageReply>, writeErrors: map<nat, string>,
                                       create: BatchCall, upsert: BatchCall)
    returns (r: FullSyncReply, job: SyncJob)
    requires Ends(replies)
    modifies log, store
    ensures fresh(job) && log.jobs == old(log.jobs) + [job] && (old(log.Distinct()) ==> log.Distinct())
    ensures job.jobType == FullSync && job.triggeredBy == triggeredBy.GetOr(Manual) && job.createdAt == start
    ensures job.shopifyOrdersUpserted == 0
    ensures var f := FetchAll(replies, PageSize);
            !f.success ==>
              var e := StageError(FetchStage, f.errors[0].userMessage, FetchFallback);
              && store.records == old(store.records)
              && job.State() == StageFailed(Started(start), FetchStage, e, end)
              && r == FullSyncReply(false, e.message.value)
    ensures var f := FetchAll(replies, PageSize);
            f.success ==>
              var orders := f.data.value.orders;
              StoreAndPushStages(Started(start).(shopifyOrdersFetched := |orders|), old(store.records), orders,
                                 end, writeErrors, create, upsert, store.records, job.State(), r)
  {
    job := log.CreateJob(FullSync, triggeredBy, start);
    job.MarkAsRunning(start);

    var fetched, cursors, fetchDelays := GetAllOrders(replies, PageSize);
    if !fetched.success {
      var e := StageError(FetchStage, fetched.errors[0].userMessage, FetchFallback);
      FailStage(job, FetchStage, e, end);
      return FullSyncReply(false, e.message.value), job;
    }
    var orders := fetched.data.value.orders;
    job.shopifyOrdersFetched := |orders|;
    r := UpsertAndPush(job, store, orders, end, writeErrors, create, upsert);
  }

  /**
    What the upsert and push stages leave behind, from the job state `st` after the fetch and
    the store `rs`: the store the push produced, and either a job failed at the push stage or a
    completed job whose summary carries the totals.
   */
  predicate StoreAndPushStages(st: JobState, rs: seq<StoredOrder>, orders: seq<UpstreamOrder>, end: int,
                               writeErrors: map<nat, string>, create: BatchCall, upsert: BatchCall,
                               records: seq<StoredOrder>, job: JobState, r: FullSyncReply)
  {
    PushStageDone(st, UpsertRun(rs, orders, writeErrors).records, end, create, upsert, records, job, r)
  }

  /** The upsert stage, then the push stage. */
  method UpsertAndPush(job: SyncJob, store: Store, orders: seq<UpstreamOrder>, end: int,
                       writeErrors: map<nat, string>, create: BatchCall, upsert: BatchCall)
    returns (r: FullSyncReply)
    requires job.shopifyOrdersUpserted == 0
    modifies job, store
    ensures StoreAndPushStages(old(job.State()), old(store.records), orders, end, writeErrors, create, upsert,
                               store.records, job.State(), r)
    ensures job.shopifyOrdersUpserted == 0
  {
    var upsertResult := store.UpsertOrder(orders, writeErrors);
    // `upsertResult.upsertedCount` does not exist, so `|| 0` always applies.
    job.shopifyOrdersUpserted := 0;
    r := PushAndComplete(job, store, end, create, upsert);
  }

  /**
    The push stage over the store as it is, then the job's completion: what the push
    produced, given the state the job and the store were in before it.
   */
  predicate PushStageDone(st: JobState, rs: seq<StoredOrder>, end: int, create: BatchCall, upsert: BatchCall,
                          records: seq<StoredOrder>, job: JobState, r: FullSyncReply)
  {
    var p := Push(end, rs, create, upsert);
    records == p.records && JobClosed(st, p.result, end, job, r)
  }

  /**
    The job after the push reported `pushed`: failed at the push stage, or completed with a
    summary that carries the totals.
   */
  predicate JobClosed(st: JobState, pushed: PushResult, end: int, job: JobState, r: FullSyncReply)
  {
    && (pushed.PushFailed? ==>
          var e := StageError(PushStage, pushed.message, PushFallback);
          && job == StageFailed(st, PushStage, e, end)
          && r == FullSyncReply(false, e.message.value))
    && (pushed.Pushed? ==>
          var created := TotalOf(pushed.createResponse);
          var updated := TotalOf(pushed.upsertResponse);
          && job == st.(status := Completed, completedAt := Some(end), duration := Some(end - st.startedAt),
                        airtableRecordsCreated := created, airtableRecordsUpdated := updated,
                        summary := Some(Totals(st.shopifyOrdersFetched, 0, created, updated, end - st.startedAt)))
          && r == FullSyncReply(true, FullSyncDone))
  }

  method PushAndComplete(job: SyncJob, store: Store, end: int, create: BatchCall, upsert: BatchCall)
    returns (r: FullSyncReply)
    requires job.shopifyOrdersUpserted == 0
    modifies job, store
    ensures PushStageDone(old(job.State()), old(store.records), end, create, upsert, store.records, job.State(), r)
    ensures job.shopifyOrdersUpserted == 0
  {
    var pushed, pushDelays := SyncAirTableWithDb(store, end, create, upsert);
    r := CloseJob(job, pushed, end);
  }

  /** What follows the push: the push stage's failure, or the completion with the totals. */
  method CloseJob(job: SyncJob, pushed: PushResult, end: int) returns (r: FullSyncReply)
    requires job.shopifyOrdersUpserted == 0
    modifies job
    ensures JobClosed(old(job.State()), pushed, end, job.State(), r)
    ensures job.shopifyOrdersUpserted == 0
  {
    if pushed.PushFailed? {
      var e := StageError(PushStage, pushed.message, PushFallback);
      FailStage(job, PushStage, e, end);
      return FullSyncReply(false, e.message.value);
    }
    job.airtableRecordsCreated := TotalOf(pushed.createResponse);
    job.airtableRecordsUpdated := TotalOf(pushed.upsertResponse);

    var summary := Totals(job.shopifyOrdersFetched, job.shopifyOrdersUpserted,
                          job.airtableRecordsCreated, job.airtableRecordsUpdated, end - job.startedAt);
    job.MarkAsCompleted(summary, end);
    r := FullSyncReply(true, FullSyncDone);
  }
}
