# Order sync engine: a Dafny model

This project models the order-sync engine of an Express service. The service copies a
Shopify store's orders into a MongoDB collection and pushes them to an Airtable table. The
model covers the following parts:

- **Field derivation** (`Derive`). Order age in days and the order number `name-legacyResourceId`
  with its split back. The transit and delivered day counts. The order stage. The delivery-failure
  check, which raises because it increments a `const`. The create and update payloads.
- **Store upsert** (`OrderStore`). The per-order upsert loop over the order collection
  (`OrderStore.Store.records`). It keeps aggregate counters and isolates errors per order. A
  re-fetch clears the Airtable back-reference. Also modelled: the single-order upsert, the lookup
  by id, and the newest-first paging with its `hasMore` arithmetic.
- **Push stage** (`AirTableSync`). Stored orders are split by whether they carry a back-reference.
  Each side is cut into batches of at most 10 and pushed batch by batch, with a 200 ms delay
  between batches. Back-references are written only for error-free create batches.
- **Full-sync pipeline** (`FullSync`). A job record is created and run through fetch, upsert and
  push. Each stage failure is logged twice under the stage's tag.
- **Sync-job record** (`SyncJobs`). The status machine, the retry counter with `canRetry`, the
  append-only error log, and the collection's three queries.
- **Scheduler** (`Cron`). The `isRunning` single-flight guard around the scheduled run, the
  manual trigger, the hourly retry sweep, the next-run time and the job counts.
- **Upstream and downstream clients** (`ShopifyClient`, `AirTableClient`). The two error
  classifiers over their constant code tables, the query and request envelopes, the cursor
  pagination loop and the single-order lookup.
- **Controller logic** (`SyncControl`). `startSyncing`, which is also what the scheduler runs. The
  guards of the retry and cancel handlers. The manual trigger's status mapping. The dashboard's
  job lists.

Effects are abstracted as follows:

- Wall-clock time is an integer parameter in milliseconds (`now`, or `start` and `end` for the
  pipeline).
- The pagination loop reads a sequence of `query` envelopes, one per page request. How `query`
  builds an envelope from a response or a failure is modelled separately (`ShopifyClient.Query`).
- Each Airtable batch call is a function from the batch index and the batch to the envelope the
  client's `post` or `patch` returns. How the client builds that envelope is modelled separately
  (`AirTableClient.Request`).
- Per-order database write failures are a map from the order's position to an error message.
- Delays are counted, not waited.

HTTP status meanings follow section 15 of RFC 9110; 429 is from section 4 of RFC 6585.

Several behaviours of the code are reproduced as written:

- `checkIfOrderDeliveryIsFailed` raises "Assignment to constant variable." as soon as one
  fulfillment failed, so it never returns 'Failed' or 'Partially Failed'.
- `shopifyOrdersUpserted` is always 0, because `upsertedCount` is never produced.
- The `database_upsert` failure branch cannot be reached, because `UpsertOrder` returns
  rather than throws.
- The bulk upsert clears `airTableRecordId` on every re-fetched order.
- The manual trigger never sets `isRunning`.
- The sync task is scheduled every 12 hours (`0 */12 * * *`), but `getNextSyncTime` reports the
  next even minute. The model follows `getNextSyncTime` for the reported time.

## Model

| member | source | states |
|---|---|---|
| Http.CeilDiv | common/index.js:18-24 | `Math.ceil(n / d)` for naturals: the least q with q·d ≥ n |
| Http.OrElse | config/airTable.js:82-97 | JavaScript `s \|\| d` on an optional string: the default exactly when the string is absent or empty |
| Derive.DaysBetween | common/index.js:18-24 | the day count is the ceiling of the distance in days: enough days to cover the distance, one fewer would not |
| Derive.OrderAgeZeroIffNow | common/index.js:18-24 | the age is 0 exactly when `now` equals the creation time, and at least 1 otherwise |
| Derive.ExtractNoneIffNoDash | common/index.js:456-464 | `extractNumberAfterDash` is null exactly when the string has no '-' |
| Derive.ExtractBetweenDashes | common/index.js:456-464 | otherwise it is the text between the first and the second '-' (or to the end) |
| Derive.OrderNumberRoundTrip | common/index.js:26-28 | splitting `name-legacyResourceId` gives back `legacyResourceId` when neither part contains '-' |
| Derive.DashInNameBreaksRoundTrip | common/index.js:26-28 | a '-' inside the name makes the split return the name's second piece instead |
| Derive.MaxOf | common/index.js:30-46 | `Math.max(...xs)` on a non-empty list is a member of the list and at least every element |
| Derive.TransitDayCountsMembers | common/index.js:30-46 | the per-fulfillment transit counts are exactly the day counts of the parseable `inTransitAt` stamps |
| Derive.TransitAtInDays | common/index.js:30-46 | null exactly when fulfillments are absent or no `inTransitAt` parses; otherwise at least every count and equal to one of them |
| Derive.MaxDayCount | common/index.js:48-62 | `Math.max` over day counts is NaN exactly when some count is NaN, otherwise the largest count |
| Derive.DeliveredDayCountsMembers | common/index.js:48-62 | only falsy `deliveredAt` values are skipped; an unparseable one yields NaN; the list is empty exactly when every stamp is missing |
| Derive.DeliveredAtInDays | common/index.js:48-62 | null exactly when nothing is delivered; NaN exactly when a present stamp is unparseable; otherwise the maximum day count |
| Derive.LastWithEvents | common/index.js:79-91 | the index of the last fulfillment with a non-empty `events.nodes`, or -1 |
| Derive.GetOrderStage | common/index.js:79-91 | the `forEach` loop returns the status of the last event of that fulfillment, null when there is none or the status is falsy |
| Derive.FirstRaising | common/index.js:64-77 | the index of the first fulfillment at which the loop raises (missing `events.nodes`, or a failure status reaching the `const` increment), or -1 |
| Derive.CheckIfOrderDeliveryIsFailed | common/index.js:64-77 | the loop returns null or raises the TypeError of the first raising fulfillment |
| Derive.DeliveryFailedOnlyNullOrRaises | common/index.js:64-77 | 'Failed' and 'Partially Failed' are never returned; null is returned exactly when every fulfillment has an event list and none ends in FAILED or FAILURE |
| Derive.MessagesOf | common/index.js:93-118 | one rendered message per event, in order |
| Derive.RenderAll | common/index.js:103 | one string per tracking number, in order: the k-th is the k-th number rendered as `join` renders it |
| Derive.UpdateIsCreatePlusId | common/index.js:93-118 | the update payload is the create payload's fields plus `id = airTableRecordId`, and they raise together |
| Derive.CreatePayloadProperties | common/index.js:93-118 | one fulfillment whose last event is FAILED or FAILURE makes the payload raise; a returned payload's "Order Number" splits back to the `legacyResourceId` when neither part holds a '-'; its delivery-failed column is null |
| Derive.RemarksOfOneFulfillment | common/index.js:97 | with one fulfillment, the remarks column is that fulfillment's event messages, each rendered, joined with ", " |
| Derive.RemarksEmptyWithoutEvents | common/index.js:93-118 | "Fulfillment Team Remarks" is "" when no fulfillment has events |
| Text.IndexOf | common/index.js:456-464 | the first position of the character, or -1 exactly when it is absent |
| Text.Split | common/index.js:456-464 | `split` always yields at least one piece |
| Text.JoinSplit | common/index.js:456-464 | joining the pieces of `split(c)` with `c` gives the string back |
| Text.SplitPiecesAvoidSeparator | common/index.js:456-464 | no piece of `split(c)` contains `c` |
| OrderStore.IndexOfId | services/Order.js:18 | `findOne({id})` finds the first record with that id, -1 exactly when none has it |
| OrderStore.ApplyUpsertEffect | services/Order.js:20-61 | one upsert adds a record exactly when the id is new; the record for the id mirrors the upstream order with no back-reference; records with other ids are unchanged |
| OrderStore.UpsertOne | services/Order.js:18-73 | one order's step: a failed write leaves the records, counts one more error and appends `{orderId, orderName, error}` with the order's id, name and message; a successful write applies the upsert to the records and leaves the error count and log alone |
| OrderStore.UpsertEach | services/Order.js:18-61 | the loop body performs that step on the collection and the counters |
| OrderStore.UpsertFrom | services/Order.js:15-63 | the rest of the loop from position i adds exactly the remaining orders to the three counters |
| OrderStore.UpsertFromRun | services/Order.js:15-63 | upserting the first i orders and then the rest is upserting the whole batch |
| OrderStore.UpsertRun | services/Order.js:7-74 | created + updated + errors equals the number of orders; `errorsList` has one entry per error; the store grows by the number created |
| OrderStore.FailedBelowExact | services/Order.js:64-73 | the listed failed positions are strictly increasing, each failed, and every failed position is listed |
| OrderStore.FailedBelowCount | services/Order.js:64-73 | as many positions are listed as there are failed positions |
| OrderStore.UpsertRunErrors | services/Order.js:15-74 | the batch counts one error per failed write, and the i-th `errorsList` entry is the id, name and message of the order at the i-th failed position |
| OrderStore.UpsertRunKeepsIdsUnique | services/Order.js:15-63 | a store with unique ids keeps them unique after the batch, whatever the input repeats |
| OrderStore.ApplyUpsertKeepsIdsUnique | services/Order.js:18-61 | one upsert keeps ids unique |
| OrderStore.UpsertRunMirrorsLastOrder | services/Order.js:20-44 | after a successful write, the order's record carries no back-reference: a re-fetch clears `airTableRecordId` |
| OrderStore.SameIdTwiceCreatesOnce | services/Order.js:15-63 | a new id repeated in the batch is created once and then updated |
| OrderStore.Store.UpsertOrder | services/Order.js:3-92 | the loop leaves the store and counters of the batch run and reports "Upsert completed successfully" |
| OrderStore.SingleUpsertKeepsLink | services/Order.js:95-143 | the single-order update keeps the back-reference and metafields; no created record has a back-reference |
| OrderStore.Store.UpsertSingleOrder | services/Order.js:95-152 | an existing id is amended in place with action 'updated', a new one appended with action 'created', a write failure changes nothing and reports it |
| OrderStore.Store.FindOrderById | services/Order.js:155-179 | success exactly when a record has the id, returning such a record; otherwise 'Order not found' with no data |
| OrderStore.SortNewestFirst | services/Order.js:184-185 | `sort({createdAt: -1})` yields a newest-first permutation |
| OrderStore.Window | services/Order.js:186-187 | skip then limit (0 is no limit): a contiguous slice of the expected length |
| OrderStore.SliceIsSubMultiset | services/Order.js:184-187 | a page holds only stored orders |
| OrderStore.SliceNewestFirst | services/Order.js:184-187 | a page of a newest-first list is newest-first |
| OrderStore.WindowOfSorted | services/Order.js:184-187 | a page of the sorted list is newest-first and holds only stored orders |
| OrderStore.Store.GetAllOrders | services/Order.js:182-200 | total is the store size; `hasMore` exactly when skip + limit < total; the page is the sorted list's slice at skip |
| AirTableSync.LinkedUnlinkedSplit | services/airTable.js:24-30 | every stored order lands in exactly one of the two lists |
| AirTableSync.LinkedUnlinkedSelect | services/airTable.js:24-30 | the upsert list holds exactly the orders with a truthy `airTableRecordId`, the create list the others |
| AirTableSync.PartitionFollowsLinks | services/airTable.js:24-30 | the two payload lists are the update and create payloads of those orders, in store order |
| AirTableSync.PartitionRaisesIffSomeOrderRaises | services/airTable.js:24-30 | the partition raises exactly when building some order's payload raises |
| AirTableSync.PartitionOrders | services/airTable.js:24-30 | the `forEach` loop computes the partition |
| AirTableSync.ChunksShape | services/airTable.js:39-42 | the batches concatenate to the input; there are ceil(n/10); all but the last hold 10; the last holds the remainder |
| AirTableSync.ChunkBatches | services/airTable.js:39-42 | the index loop computes those batches |
| AirTableSync.IndexOfLegacyId | services/airTable.js:51-53 | `findOne({legacyResourceId})` finds the first match, -1 exactly when none matches |
| AirTableSync.LinkAllOnlyLinks | services/airTable.js:49-58 | writing back-references changes nothing but `airTableRecordId` |
| AirTableSync.CreateFromCompletes | services/airTable.js:45-66 | without an exception, every batch's envelope is collected in order and one delay is taken between consecutive batches |
| AirTableSync.CreateFromOnlyLinks | services/airTable.js:45-66 | the create loop only writes back-references, and writes none when every batch failed |
| AirTableSync.LinkOneTarget | services/airTable.js:49-58 | one returned row changes an order's back-reference only to that row's id, when the row's order number ends in the order's `legacyResourceId` and no earlier order has that id |
| AirTableSync.LinkAllSources | services/airTable.js:49-58 | every back-reference a reply changes is the id of one of its rows whose order number names that order |
| AirTableSync.EchoedRowLinksOrder | services/airTable.js:49-58 | a row echoing an order's own "Order Number" (no '-' in either part, unique legacy id) links exactly that order and nothing else |
| AirTableSync.CreateFromLinkSources | services/airTable.js:44-66 | every back-reference the create loop changes comes from a row of an error-free batch reply naming that order; a failed batch writes nothing |
| AirTableSync.ReplyWithoutRecordsRaises | services/airTable.js:47-50 | an error-free reply without `data.records` makes the create loop raise (`for...of` over `undefined`) |
| AirTableSync.PushLinkSources | services/airTable.js:18-66 | a back-reference `pushToAirTable` changes was written by an error-free create-batch reply row naming that order, and none changes when the partition raised |
| AirTableSync.UpsertResults | services/airTable.js:84-94 | one envelope per upsert batch, in order |
| AirTableSync.PushReport | services/airTable.js:18-119 | totals equal the partition sizes whether or not batches succeeded; a response is null exactly when its side is empty; batches are ceil(n/10); delays are batches − 1 per side; only back-references change |
| AirTableSync.SyncAirTableWithDb | services/airTable.js:18-119 | the stage leaves the store, result and delay count of the push specification |
| AirTableSync.PushCreates | services/airTable.js:44-66 | the create loop leaves the store, results and delays of its specification |
| AirTableSync.PushUpserts | services/airTable.js:84-94 | the upsert loop collects one envelope per batch and takes batches − 1 delays |
| AirTableSync.LinkReturned | services/airTable.js:50-58 | the record loop writes the back-references of its specification, or raises where it does |
| FullSync.StageFailed | services/airTable.js:143-144 | a stage failure appends two identical entries tagged with the stage and fails the job |
| FullSync.FailStage | services/airTable.js:143-144 | `addError` then `markAsFailed` produce that state |
| FullSync.GetAllOrdersAndSyncToAirTable | services/airTable.js:121-257 | a fetch failure fails the job under 'shopify_fetch' before any upsert or push; otherwise upsert then push run in order; a push failure fails the job under 'airtable_sync'; otherwise the job completes with the totals; `shopifyOrdersUpserted` stays 0 |
| FullSync.UpsertAndPush | services/airTable.js:160-215 | the upsert stage followed by the push stage |
| FullSync.CloseJob | services/airTable.js:187-243 | after the push, a push failure fails the job under 'airtable_sync' with the push's message; otherwise the job completes with the push totals; `shopifyOrdersUpserted` stays 0 |
| FullSync.PushAndComplete | services/airTable.js:187-243 | the push stage's outcome sets the Airtable totals and completes the job, or fails it |
| SyncJobs.SyncJob.constructor | models/SyncJob.js:5-56 | a new job is pending with retryCount 0, maxRetries 3, all counters 0 and `triggeredBy` defaulting to manual |
| SyncJobs.JobLog.CreateJob | models/SyncJob.js:117-123 | `createJob` appends a fresh job with the schema defaults |
| SyncJobs.SyncJob.MarkAsRunning | models/SyncJob.js:64-68 | from any status: running, with `startedAt` reset, nothing else changed |
| SyncJobs.SyncJob.MarkAsCompleted | models/SyncJob.js:70-76 | from any status: completed, with `completedAt`, duration = completedAt − startedAt, and the summary |
| SyncJobs.SyncJob.MarkAsFailed | models/SyncJob.js:78-93 | from any status: failed, with `completedAt` and duration, plus exactly one log entry when an error is given |
| SyncJobs.FailedEntry | models/SyncJob.js:83-89 | the entry's stage defaults to 'unknown' and its message to 'Unknown error' |
| SyncJobs.SyncJob.AddError | models/SyncJob.js:95-103 | always exactly one entry appended, nothing else changed |
| SyncJobs.AddedEntry | models/SyncJob.js:96-101 | the entry carries the stage and the message, defaulting to 'Unknown error' |
| SyncJobs.SyncJob.IncrementRetry | models/SyncJob.js:109-114 | one more retry, pending, `lastRetryAt` set; behind `canRetry` the budget is kept and the job is no longer retryable |
| SyncJobs.Retried | models/SyncJob.js:109-114 | the retried state adds exactly one to the counter and keeps the log and budget |
| SyncJobs.PositionsFromExact | models/SyncJob.js:131-138 | the positions from `i` on whose job has the status are listed strictly increasing, and all of them |
| SyncJobs.WithStatusFromPositions | models/SyncJob.js:131-138 | the filter from `i` on is the jobs at those positions, in order |
| SyncJobs.WithStatus | models/SyncJob.js:131-138 | the filter holds exactly the jobs with the status |
| SyncJobs.WithStatusInOrder | models/SyncJob.js:131-138 | the filter is an order-preserving subsequence: the k-th job found is the one at the k-th of strictly increasing positions, which are exactly those holding the status |
| SyncJobs.JobLog.FailedJobs | models/SyncJob.js:131-134 | exactly the failed jobs, in reverse creation order |
| SyncJobs.JobLog.FailedJobsNewestFirst | models/SyncJob.js:131-134 | newest first, each once: the i-th failed job is the one at the i-th failed position counted from the end of the log |
| SyncJobs.JobLog.RunningJobs | models/SyncJob.js:136-138 | exactly the running jobs |
| SyncJobs.JobLog.RecentJobs | models/SyncJob.js:125-129 | the `limit` newest jobs, newest first |
| Cron.CronService.ExecuteSyncJob | services/cronService.js:57-85 | while a run is in flight nothing changes and the sync is not called; otherwise it is called when set, and the guard is released whatever the outcome |
| Cron.CronService.TriggerManualSync | services/cronService.js:165-194 | refused while a run is in flight or without a sync function; otherwise the sync function's reply, an exception becoming 'Failed to trigger manual sync' |
| Cron.ManualTriggerDuringScheduledRun | services/cronService.js:57-63 | a scheduled run in flight blocks the manual trigger without a call |
| Cron.ScheduledRunAfterManualTrigger | services/cronService.js:165-178 | a manual sync leaves the guard open, so a scheduled run still proceeds |
| Cron.CronService.RetryFailedJobs | services/cronService.js:88-131 | each retryable job gets exactly one `incrementRetry`, every other job is untouched, and full-sync jobs re-run the sync when one is set; the guard is not consulted |
| Cron.NextSyncTimeIsNextEvenMinute | services/cronService.js:144-162 | the next run is the next even minute after the current one (minute 0 of the next hour after 58 and 59): a multiple of two minutes, later than now and at most two minutes away |
| Cron.CronService.GetNextSyncTime | services/cronService.js:144-162 | null exactly without a sync task; otherwise that next even minute |
| Cron.CronService.GetJobStats | services/cronService.js:197-206 | completed ≤ total ≤ 50, total is min(50, jobs), and failed + running never exceed the number of jobs |
| Cron.FailedAndRunningDisjoint | services/cronService.js:199-206 | no job is counted as both failed and running |
| ShopifyClient.ParseShopifyError | config/shopify.js:152-206 | the classifier is total: messages are never empty, and the status is the response's status or 0 |
| ShopifyClient.ShopifyTableDomain | config/shopify.js:103-149 | the table covers exactly 400, 401, 403, 404, 422, 429, 500, 502, 503, and 429 is RATE_LIMIT_EXCEEDED |
| ShopifyClient.ParseShopifyErrorCases | config/shopify.js:152-176 | a body GraphQL error wins with its code or GRAPHQL_ERROR and keeps the status; otherwise a mapped status gives its table entry (429 gives RATE_LIMIT_EXCEEDED) |
| ShopifyClient.ParseShopifyErrorFallback | config/shopify.js:178-206 | for an unmapped status without a body error: ECONNABORTED → TIMEOUT and ENOTFOUND/ECONNREFUSED → NETWORK_ERROR with status 0; any other code → UNKNOWN_ERROR keeping the status |
| ShopifyClient.Query | config/shopify.js:212-250 | never raises; success exactly when errors are empty; GraphQL errors in a response become one error with status 422 and no data |
| ShopifyClient.TotalIsSumOfPageSizes | config/shopify.js:280-298 | the number of orders fetched is the sum of the page sizes |
| ShopifyClient.StopPage | config/shopify.js:259-298 | the page the loop stops at: every earlier page continues |
| ShopifyClient.FetchFrom | config/shopify.js:259-327 | the rest of the loop fails with its errors (exactly one when every envelope carries at most one, as `query` guarantees) and no data, or succeeds with totalCount = number of orders and enough batches to hold them |
| ShopifyClient.FetchAllCases | config/shopify.js:254-327 | the stop page decides: its error list, PAGINATION_ERROR when it lacks `pageInfo`, or all pages' orders concatenated in order with totalBatches = ceil(total / batchSize) |
| ShopifyClient.SentCursorsAre | config/shopify.js:257-290 | the cursors sent: null with the first request, then each page's `endCursor` in turn |
| ShopifyClient.RequestPage | config/shopify.js:264-298 | one request: the stop page's error or PAGINATION_ERROR; otherwise the page's orders, and either a continuing page with its `endCursor` or the stop page, each agreeing with the rest of the loop |
| ShopifyClient.GetAllOrders | config/shopify.js:254-327 | the loop returns that result; the first request has cursor null and each later one the previous `endCursor`; one 100 ms delay per following page |
| ShopifyClient.GetOrderById | config/shopify.js:331-365 | the query's errors, the order, or ORDER_NOT_FOUND with status 404; success exactly when an order is returned |
| AirTableClient.ParseAirTableError | config/airTable.js:82-140 | the classifier is total: messages are never empty, and the status is the response's status or 0 |
| AirTableClient.AirTableTableDomain | config/airTable.js:8-69 | the table covers exactly 400, 401, 402, 403, 404, 413, 422, 429, 500, 502, 503 |
| AirTableClient.ParseAirTableErrorCases | config/airTable.js:82-109 | a body error wins with its type or UNKNOWN_ERROR and keeps the status; otherwise a mapped status gives its table entry |
| AirTableClient.ParseAirTableErrorFallback | config/airTable.js:111-140 | for an unmapped status without a body error: the transport codes give TIMEOUT or NETWORK_ERROR with status 0; anything else, an unmapped status such as 418 included, is UNKNOWN_ERROR keeping that status |
| AirTableClient.Request | config/airTable.js:143-250 | never raises; success exactly when errors are empty, exactly when the call responded; a failure carries the one parsed error and no data |
| SyncControl.SyncingShortCircuits | controllers/SyncController.js:352-383 | the reply is a success exactly when the fetch succeeded; a failed fetch changes nothing and reports the error's user message; a success reports the upsert counts whatever the push did |
| SyncControl.StartSyncing | controllers/SyncController.js:352-383 | `startSyncing` with page size 150 produces that store and reply |
| SyncControl.RetryJob | controllers/SyncController.js:231-278 | 404 without a job; 400 with the job unchanged unless it can be retried; otherwise one retry and, for full sync, a `startSyncing` run |
| SyncControl.CancelJob | controllers/SyncController.js:281-320 | 404 without a job; 400 with the job unchanged unless it is running; otherwise cancelled with `completedAt` and duration |
| SyncControl.TriggerManualSync | controllers/SyncController.js:73-101 | 200 exactly when the scheduler's reply succeeds, otherwise 400 with the reply's message |
| SyncControl.DashboardJobs | controllers/SyncController.js:323-340 | the five newest jobs, and at most five failed jobs: the newest failed ones |

## Left out

- I/O is not modelled: console logging, Express request and response objects, and the `metadata` argument that is passed along but never read.
- The transport is replaced by inputs. The Axios requests, the GraphQL query texts and the Airtable table name become replies, `query` envelopes and call outcomes.
- MongoDB mechanics are not modelled. `save`, `find` and `countDocuments` are sequence operations. Only per-order write failures in the bulk upsert and the single upsert are inputs; every other database failure is not modelled. So the pipeline's `critical_error` branch, the handlers' 500 replies and the retry sweep's per-job catch are not modelled.
- The order collection is a sequence in insertion order rather than a keyed map. Lookup by id returns the first record with that id. Uniqueness is proved as a preserved invariant rather than assumed.
- `createdAt` ties are not modelled. "Newest first" is reverse insertion order for jobs, and a stable newest-first sort for orders.
- Time zones are not modelled: local time is UTC. Parsing dates is not modelled: a timestamp is missing, unparseable, or a millisecond value.
- Floating-point statistics are not modelled: `successRate` (via `toFixed`) and `averageDuration` of the job stats.
- node-cron scheduling is not modelled. The `schedule`, `stop` and `getStatus` calls on the task handles become present, stopped or absent handles, and `getStatus` is not modelled. The scheduler's runs are not timed: the 12-hour and hourly cron expressions are not interpreted.
- Error details that the code only passes along are not modelled: stack traces, `JSON.stringify` of the error (an entry's `stack` is absent), `originalError`, the `shopifyErrors` and `airtableErrors` arrays (never written), and `updatedAt` timestamps.
- Cron.CronService.ExecuteSyncJob, Cron.CronService.TriggerManualSync and Cron.CronService.RetryFailedJobs: the sync function is not called. Its outcome is a parameter (or, for the scheduled run and the retry sweep, only the fact that it is called), so none of the store or job-log effects of `startSyncing` are carried by the scheduler's methods. `SyncControl` states those effects for `startSyncing` itself.
- The order shapes always carry the fulfillment list and each fulfillment's tracking-number list. Upstream the GraphQL schema always supplies both (`fulfillments` and `trackingInfo`), so the `?.` guards on them in common/index.js:97,103 never fire. The "Tracking Number" column that is `undefined` when an order has no `fulfillments` field is not modelled.
- Cron.CronService.TriggerManualSync: the reply's `data` payload is not modelled. The error of a raised exception is its message only.
- ShopifyClient.GetAllOrders: the replies must end with a page that stops the loop. An upstream
  that always reports a next page makes the loop run forever, and that run is not modelled.
- ShopifyClient.GetOrderById: the `FETCH_ERROR` catch is not modelled, because `query` never raises and nothing after it can.
- SyncControl.RetryJob: the reply's `data` (job id, retry count, result) is reduced to the job's own state and the `startSyncing` result.
- FullSync.GetAllOrdersAndSyncToAirTable: the `database_upsert` branch is not modelled, because `UpsertOrder` never raises. The reply's `data` and `jobId` are reduced to the job returned beside the reply.
- Async interleaving is not modelled. Each operation is one sequential step. Sequencing facts about the guard are stated by client methods that call the scheduler's operations in order.
- The rest of the repository is not part of this model: routes, other controllers, webhook registration, the Airtable SDK helpers and the demo scripts.
