# Sentinel verification

A Dafny model of the parts of Sentinel whose correctness is hardest to see by reading: the batch
protocol, the bounded listings, the indexes that are cut short on purpose, and a few small state
machines and string rules. `dafny verify dfyconfig.toml` checks all of it.

## What is modelled

**The batch protocol** (`Batch*.dfy`). `BatchModel` is a transition system with one Redis command per
step. A batch entry is a lane: the job at its head, the chain in its payload, and the program counter
of the handler that runs it, with the replies that handler still holds. A run is any sequence of
actions: dispatch queueing an entry, a worker picking a job up, one command of one handler, the end of
`process()` (return, release, throw), a cancellation, a manual retry. So every statement about all runs
is about every interleaving of any number of workers. `BatchRuns` holds the guarantees; `BatchLedger`,
`BatchHooks`, `BatchLives` and `BatchFailures` hold the invariants behind them. `BatchService` is the
service and the base processor in imperative form. Its methods are proved against functions on the
store, and `BatchAlone` proves that a handler of the transition system that runs its commands back to
back computes those same functions; `BatchHandled` does the same for a whole handling, from the pick-up of a
job to the link queued behind it. `BatchLaws` says of single jobs when a throw is a failure, in which order a
chain runs and where every job went.

What the runs show:

- `pendingJobs - failedJobs` counts the unsettled jobs exactly as long as no manual retry has taken
  effect. Each retry takes it one too low, and one more for each link of the chain it reopens
  (`Conservation`).
- So a manual retry can make `finally` run early. It can for a batch exactly when two of its entries have
  jobs (`BatchEarlyFinally`), which a caller can tell before dispatch.
- A manual retry can make `then` run early too, with a job that has neither succeeded nor been skipped: for
  a batch exactly when one of its entries is a chain and either failures are allowed or another entry has
  jobs (`BatchEarlyThen`). `BatchWitness` has one run of each kind.
- Both still run at most once, and `finally` exactly once by the time the handlers are done, retries or not.
- The progress percentage reads 100 before the batch is done, exactly when at most one job in two
  hundred is pending, because it is rounded.

Assumptions of the runs: the TTL does not lapse; no worker dies inside a handler; queues of hooks and
chain links are declared; payloads do not use the keys `chain`, `batchId` and `batchCallback`; there is
no timeout, shutdown abort or stall (the `aborted` branch appears in the imperative `Handle` only); no
backoff strategy stops a job early; a handler moves its job only through `release()`; job ids are unique
across a batch.

**Bounded reads** (`BoundedMerge`, `JobsListing`, `Silenced*`). One lemma about
stable merges serves both readers: a page that ends inside what was read is the page of the whole
merge. `SilencedRuns` follows the silenced index over any sequence of its operations, to what is read back and
when. `Tags`, `TagsService`, `Metrics`, `MetricsService` and `RetryAll` cover the capped tag index, the
roll-up under concurrency and the chunked retry loop.

**Small machines and string rules** (`ReleaseBudget`, `PauseMachine`, `WorkerManager`, `HashTags`,
`JobRefs`). `HashTags.RedisTag` is written from "Hash tags" in the Redis Cluster Specification, not from
the code, and the code's prefixes are proved against it.

Longer methods of the source are split into several here; the table says which lines each part covers.

## Where the code and its comments differ

The model follows the code.

- `src/sentinel.options.ts:150-156` says `effectiveTag` is the tag Redis would route by. It is not for
  every key: `EffectiveIsRedis` gives the exact condition. On every prefix the package accepts the two
  agree.
- `src/metrics/metrics.service.ts:58-63` says the number of kept snapshots is clamped to at least one. A
  fraction below one is rounded down to zero, and `LTRIM key 0 -1` then keeps everything
  (`KeepsAtLeastOne`, `QuietAccounts`).
- `src/silenced/silenced.service.ts:80-86` trims entries at the retention floor that
  `page`, `members` and `count` still include when they read in the same millisecond (`TrimAtFloor`). At
  any later read the trim cannot be told (`TrimChangesNoRead`).
- `src/batch/batch.service.ts:321-325` reads `pending - failed <= 0` as "every job has now run once",
  which holds in every run only of batches with jobs in one entry (`FinallyEarlyExactly`).
- `src/batch/batch.service.ts:419-422` reads `pendingJobs` at zero as "every job succeeded". Take a chain of
  two with failures allowed: the first link fails and the second is written off; retried by hand, the first
  succeeds, `pendingJobs` is at zero and `then` runs before the second link is queued
  (`RetryMakesThenEarly`, `ThenEarlyExactly`).
- The total of the completed listing subtracts `count()`, which goes over every index there is. An entry whose
  job is gone, or whose queue is no longer declared, can make it too small once a queue holds more completed
  jobs than the window; below that the clamp to the rows kept sets it right (`FooterIsTheListing`,
  `SmallIsRight`).

## Model

| member | source | states |
|---|---|---|
| BatchRuns.Invariant | src/batch/batch.service.ts:298-449 | every reachable state keeps the ledger, the one-shot guards, the failure list and the lives of the jobs |
| BatchRuns.Conservation | src/batch/batch.service.ts:298-398 | pending minus failed is the number of unsettled jobs, unstarted links included, exactly when no manual retry took effect, and how far off it is otherwise |
| BatchRuns.PendingMeans | src/batch/batch.service.ts:311-397 | what `pendingJobs` and `failedJobs` each count in every run |
| BatchLedger.CommandLedger | src/batch/batch.service.ts:311-395 | each single command moves the two counters by exactly what the lane's debt changes |
| BatchLedger.LedgerStep | src/batch/batch.service.ts:298-398 | every action of every worker keeps the ledger |
| BatchRuns.FinallyExactlyOnce | src/batch/batch.service.ts:439-449 | when a non-empty batch is quiet, `finally` has run exactly once, manual retries or not |
| BatchRuns.FinallyNeverEarly | src/batch/batch.service.ts:321-397 | `finally` runs at most once; how many jobs can be unsettled when it has, which without a manual retry is none |
| BatchEarlyFinally.FinallyEarlyExactly | src/batch/batch.service.ts:321-397 | a batch has a run, retries included, that claims or queues `finally` while a job is unsettled exactly when two of its entries have jobs |
| BatchEarlyFinally.OneEntryNeverEarly | src/batch/batch.service.ts:321-397 | with jobs in one entry only, the step that claims or queues `finally` finds every job and link settled, however often it is retried |
| BatchEarlyFinally.RetriedAfterFinally | src/batch/batch.service.ts:395-397 | with jobs in one entry only, nothing can be retried before `finally` has run |
| BatchEarlyFinally.TwoEntriesEarly | src/batch/batch.service.ts:321-397 | with jobs in two entries, a run with one retry that is early while the shorter one still waits |
| BatchHooks.CommandPromise | src/batch/batch.service.ts:311-397 | the handler whose write settles the batch is bound to try for `finally`, whatever the others do |
| BatchHooks.PromisesStep | src/batch/batch.service.ts:311-397 | every action keeps or redeems the promise that `finally` and `then` will be claimed |
| BatchHooks.HooksSafeStep | src/batch/batch.service.ts:359-449 | stale replies only err on the safe side, and each claimed hook is run by one handler |
| BatchWitness.RetryMakesFinallyEarly | src/batch/batch.service.ts:395-397 | a run in which a manual retry makes `finally` run before another job has started |
| BatchRuns.ThenOnlyWhenDone | src/batch/batch.service.ts:317-319 | `then` at most once in every run and only once pending reached zero; every job has then succeeded or been skipped if no retry reopened a chain, and without a retry nothing failed |
| BatchEarlyThen.ThenEarlyExactly | src/batch/batch.service.ts:317-319 | a batch has a run, retries included, that claims or queues `then` while some job has neither succeeded nor been skipped exactly when one of its entries is a chain and either failures are allowed or another entry has jobs |
| BatchEarlyThen.NeverEarly | src/batch/batch.service.ts:317-319 | in every run of every other batch the step that claims or queues `then` finds every job succeeded or skipped |
| BatchEarlyThen.OneEntryThen | src/batch/batch.service.ts:370-388 | a single chain that does not allow failures is cancelled by its failure, so a retry only skips what is left |
| BatchEarlyThen.RoundsEarly | src/batch/batch.service.ts:387-388 | a chain failed and retried often enough takes pending to zero with a job still owed |
| BatchWitness.RetryMakesThenEarly | src/batch/batch.service.ts:387-388 | a run in which a retried first link succeeds and `then` runs before the second link is queued |
| BatchRuns.ThenExactlyOnce | src/batch/batch.service.ts:423-436 | at the end `then` has run exactly when pending reached zero, without retries exactly when nothing failed |
| BatchRuns.FinishedFlag | src/batch/batch.service.ts:426-430 | the finished field trails its guard only while one handler is about to write it |
| BatchRuns.CatchExactlyOnce | src/batch/batch.service.ts:359-381 | `catch` exactly once if a failure is recorded, and the batch is cancelled before it unless failures are allowed |
| BatchRuns.ChainFreePending | src/batch/batch.service.ts:385-397 | without chains pending is the total less the jobs that succeeded or were skipped, under any retries |
| BatchRuns.ChainFreeDrains | src/batch/batch.service.ts:317-319 | a chain-free batch drains to finished exactly when every job completed |
| BatchRuns.StoreGrows | src/batch/batch.service.ts:311 | pending only falls, failed and skipped only rise, no flag or guard is taken back |
| BatchRuns.ProgressMonotone | src/batch/batch.service.ts:199-223 | progress is monotone in pending, at most 100, and 100 exactly when at most one job in 200 is pending |
| BatchRuns.ProgressIsNearest | src/batch/batch.service.ts:199-223 | progress is the whole percentage nearest to the share of the jobs processed, a half going up |
| BatchRuns.ProgressNeverFalls | src/batch/batch.service.ts:199-223 | progress stays within 0 to 100 and never falls over any run, below-zero counters included |
| BatchRuns.SettledOnce | src/batch/batched.processor.ts:36-101 | each life of a job makes one settling call and is picked up at most attempts plus release cap times |
| BatchLaws.Endings | src/batch/batched.processor.ts:74-100 | in every run, what the end of `process()` does to the lane, outcome by outcome: a throw with attempts left puts the same job back with one attempt more made and touches nothing else |
| BatchLaws.AttemptsSpent | src/batch/batched.processor.ts:74-88 | in every run in which nothing unrecoverable is thrown a job fails only with all of its attempts, at least one, spent |
| BatchLaws.LinksInOrder | src/batch/batched.processor.ts:66-72 | in every run the links a lane is done with and those it has left are its entry, in order |
| BatchLaws.EveryJobAccounted | src/batch/batch.service.ts:311-388 | in every run every job is pending, succeeded, skipped or written off, so what `skippedJobs` counts is fixed by the others |
| BatchLaws.SkippedAtTheEnd | src/batch/batch.service.ts:333-343 | when the handlers are done the jobs skipped are those that neither succeeded, nor failed, nor were written off |
| BatchLaws.CancelStays | src/batch/batch.service.ts:248-286 | from a cancel on the batch stays cancelled and finished, whatever happens |
| BatchLaws.CancelBars | src/batch/batched.processor.ts:44-48 | after a cancel a handler that has yet to read the flag skips its job and the links behind it |
| BatchRuns.RunsToTheEnd | src/batch/batched.processor.ts:36-101 | from every reachable state dispatch and handlers alone reach a quiet state |
| BatchLives.EveryStepDescends | src/batch/batched.processor.ts:44-101 | every handler or dispatch step lowers a well-founded measure |
| BatchLives.SomethingEnabled | src/batch/batched.processor.ts:36-101 | no deadlock: until the batch is quiet some step is possible |
| BatchLives.LivesStep | src/batch/batched.processor.ts:36-101 | every action keeps the bounds on pick-ups and settling calls |
| BatchRuns.FailureListIs | src/batch/batch.service.ts:165-187 | the list has one reference a job, and is the jobs whose last record is a failure, newest first, whenever no record is under way |
| BatchFailures.ListedIsLastFailures | src/batch/batch.service.ts:361-368 | the list read off the history holds a job exactly if its last success or failure is a failure |
| BatchFailures.ListedNewestFirst | src/batch/batch.service.ts:361-368 | that list is in order of failure, the newest first |
| BatchFailures.ListedOnce | src/batch/batch.service.ts:361-368 | that list has each job once |
| BatchFailures.ListInvStep | src/batch/batch.service.ts:165-175 | every action keeps the list equal to what the history says, but for records under way |
| BatchAlone.AloneSuccess | src/batch/batch.service.ts:298-326 | the commands of a success, run back to back, do what the method does |
| BatchAlone.AloneSkipping | src/batch/batch.service.ts:333-343 | the commands of a skip, likewise |
| BatchAlone.AloneFailure | src/batch/batch.service.ts:348-398 | the commands of a failure, likewise, for any earlier references in the list |
| BatchAlone.StepsAlone | src/batch/batch.service.ts:298-398 | from any reachable state one handler stepped alone reaches the store those functions give |
| BatchAlone.FailingCounts | src/batch/batch.service.ts:359-398 | what a failure does to each counter, to the list and to the cancelled flag |
| BatchHandled.HandleIsTheLanes | src/batch/batched.processor.ts:36-101 | from any reachable state a lane picked up with nobody in between takes the store where `Handle` leaves it, its job where the error and the attempts say, and goes on with the link `Handle` queues, the rest of the chain behind it |
| BatchService.BatchService.Dispatch | src/batch/batch.service.ts:50-102 | the store of a new batch and the heads of its entries queued in order, each with the rest of its chain |
| BatchService.BatchService.QueueHeads | src/batch/batch.service.ts:86-97 | the head of every entry that has one, in order, each carrying the rest of its chain |
| BatchService.BatchService.CountJobs | src/batch/batch.service.ts:55-58 | a chain counts as many jobs as it has links |
| BatchService.BatchService.ContinueChain | src/batch/batch.service.ts:107-113 | queues the next link with the links behind it, or nothing |
| BatchService.BatchService.Find | src/batch/batch.service.ts:192-225 | each field of the clamped view, `progress` as the nearest whole percentage |
| BatchService.BatchService.ForgetFailure | src/batch/batch.service.ts:165-175 | every reference of the job is gone and the others keep their order |
| BatchService.BatchService.Cancel | src/batch/batch.service.ts:230-236 | both flags set, nothing else |
| BatchService.BatchService.MarkCancelled | src/batch/batch.service.ts:248-286 | both flags set, nothing else |
| BatchService.BatchService.RecordSuccess | src/batch/batch.service.ts:298-326 | the store after an uninterrupted success and the hooks it queues |
| BatchService.BatchService.RecordSkipped | src/batch/batch.service.ts:333-343 | the store after an uninterrupted skip of a job and the links behind it |
| BatchService.BatchService.RecordFailure | src/batch/batch.service.ts:348-398 | the store after an uninterrupted failure; the first one cancels before it queues `catch` |
| BatchService.BatchService.CountFailure | src/batch/batch.service.ts:359-368 | the failure counted and listed first, the job's old references gone |
| BatchService.BatchService.CatchFailure | src/batch/batch.service.ts:370-381 | the first failure cancels the rest unless failures are allowed, then runs `catch` |
| BatchService.BatchService.SettleFailure | src/batch/batch.service.ts:385-397 | the links of a broken chain written off, or `finally` if the failure settles the batch |
| BatchService.BatchService.MarkFinished | src/batch/batch.service.ts:423-436 | `then` once for the life of the batch |
| BatchService.BatchService.RunFinally | src/batch/batch.service.ts:439-449 | `finally` once for the life of the batch |
| BatchService.BatchService.Run | src/batch/batch.service.ts:451-471 | a declared hook queued with its priority, an undeclared one not at all |
| BatchService.BatchedProcessor.Handle | src/batch/batched.processor.ts:36-102 | which record call is made and what is queued, for every way `process` can end; `failedJobs` rises by one exactly at a last attempt or an unrecoverable error of a job BullMQ did not move itself, and nothing changes at any other throw |
| BatchService.HandledCounts | src/batch/batched.processor.ts:44-101 | when a handling counts a failure, a success or a skip, and when it leaves the batch alone, read off the error, the attempts and the flag |
| BatchService.ForgottenIsWithout | src/batch/batch.service.ts:165-175 | the loop over the list removes every reference of the job even when entries repeat |
| BoundedMerge.SortedIsStable | src/api/jobs.service.ts:235-238 | the sort orders by the key, keeps every row, and keeps equal rows in order |
| BoundedMerge.StableIsUnique | src/api/jobs.service.ts:235-238 | any stable sort gives that same list |
| BoundedMerge.BoundedIsFull | src/api/jobs.service.ts:207-238 | the first rows of a merge of prefixes are those of the full merge |
| BoundedMerge.PageIsFull | src/api/jobs.service.ts:264-265 | a page that ends within what was read is the page of the full merge |
| BoundedMerge.PagesConcatenate | src/api/jobs.service.ts:264-265 | consecutive pages put together are the list, no row skipped or repeated |
| BoundedMerge.FilteredPageIsFull | src/api/jobs.service.ts:240-261 | the same for a page taken after filtering |
| JobsListing.List | src/api/jobs.service.ts:118-272 | for every page and size asked for, the clamped page of the whole listing under the conditions below; exact totals; and when a reachable figure is given |
| JobsListing.ReadOne | src/api/jobs.service.ts:190-199 | the single-queue path pages at its own offset with an exact total |
| JobsListing.CollectRows | src/api/jobs.service.ts:201-230 | the rows collected, the total and whether any queue was read through the window |
| JobsListing.MergeRows | src/api/jobs.service.ts:232-272 | sorting, hiding, searching and slicing, with the total never below the rows shown |
| JobsListing.ReadStates | src/api/jobs.service.ts:227-229 | the range is applied once per state and the states concatenated |
| JobsListing.ReadDepth | src/api/jobs.service.ts:207-230 | each state of a queue is read to the end of the page asked for, or a thousand rows deep where rows may be hidden, searched or out of order, and never deeper |
| JobsListing.WantedIsTheEnd | src/api/jobs.service.ts:224-227 | the last row a page wants is the last row of that page |
| JobsListing.ListingHolds | src/api/jobs.service.ts:183-262 | the whole listing has exactly the jobs of the states it stands for that are not silenced and match the search |
| JobsListing.NewestFirst | src/api/jobs.service.ts:232-238 | the whole listing is in order, by when its jobs finished if they have and by age otherwise |
| JobsListing.ListedIsKnown | src/api/jobs.service.ts:131-265 | a page is that of the whole listing under any one of three conditions a caller can check |
| JobsListing.WindowedIs | src/api/jobs.service.ts:216-225 | a reachable figure is due exactly when some queue is read whole |
| JobsListing.UnfilteredPageIsFull | src/api/jobs.service.ts:190-238 | an unfiltered page that ends within the window is the page of the whole listing, on either path |
| JobsListing.FastPathIsFull | src/api/jobs.service.ts:190-199 | the single-queue path agrees with the merge on every page |
| JobsListing.FilteredPageIsFull | src/api/jobs.service.ts:240-261 | a page of a search or of the completed listing is exact while it ends within the rows kept of the window |
| JobsListing.SmallListingIsFull | src/api/jobs.service.ts:240-261 | with at most a thousand jobs a state, every page of a filtered listing is exact |
| JobsListing.ListingPagesConcatenate | src/api/jobs.service.ts:264-265 | consecutive pages of an unfiltered listing are its beginning, within the window across queues and without end on the single-queue path |
| JobsListing.FilteredPagesConcatenate | src/api/jobs.service.ts:240-265 | so are those of the completed listing and of a search, within the rows kept of the window, and without end while no state outgrows it |
| JobsListing.KeptWithin | src/api/jobs.service.ts:240-253 | a window never keeps more rows than the whole filtered listing has |
| Silenced.ZAddIs | src/silenced/silenced.service.ts:69-77 | recording keeps a queue's index ordered with one entry a job and leaves the others alone |
| Silenced.MergedPageIsFull | src/silenced/silenced.service.ts:126-151 | a page across queues that ends within the window is the page of the whole silenced listing |
| Silenced.MergedPagesConcatenate | src/silenced/silenced.service.ts:126-151 | consecutive pages across queues are the beginning of the silenced listing |
| Silenced.OneQueueAgrees | src/silenced/silenced.service.ts:99-111 | reading one queue at its own offset agrees with the merge |
| Silenced.LiveRefsCounted | src/silenced/silenced.service.ts:114-120 | the count is the number of different jobs the index names |
| Silenced.MembersCounted | src/silenced/silenced.service.ts:156-181 | `count` is the size of `members` |
| Silenced.HiddenIsLive | src/silenced/silenced.service.ts:156-176 | a job is hidden exactly when the silenced listing has it |
| Silenced.ListedNewestFirst | src/silenced/silenced.service.ts:126-146 | the silenced listing is in the order its jobs were recorded, the last first |
| Silenced.OneQueueMembers | src/silenced/silenced.service.ts:156-176 | of one queue `members` hides its live entries up to a thousand and no more |
| Silenced.ShownInExactlyOne | src/api/jobs.service.ts:240-245 | each finished job shows in exactly one of the completed and the silenced listing, both of all jobs and of the rows a request reads |
| Silenced.CompletedTotal | src/api/jobs.service.ts:247-253 | the rows the completed listing keeps are at least the completions less the figure subtracted for the request, and exactly that many if and only if every job counted is still a completed row |
| Silenced.FooterIsTheListing | src/api/jobs.service.ts:247-253 | the clamped total is never more than the rows to page over, and equal to them exactly when the window kept them all or every job counted is still a completed row |
| SilencedService.CompletedPage | src/api/jobs.service.ts:201-271 | a completed page put together from `members`, `count` and `list` at the service's own floor: for every page and size asked for its rows are the clamped page while no queue outgrows the window, and its footer is right as above |
| SilencedService.TotalIsRight | src/api/jobs.service.ts:247-253 | the total `list` reports on one queue or on all is the length of the completed listing under exactly those conditions |
| SilencedService.SmallIsRight | src/api/jobs.service.ts:240-265 | while no queue outgrows the window the footer is the length of the listing, whatever the index says, and the rows are its page |
| Silenced.TrimChangesNoRead | src/silenced/silenced.service.ts:80-86 | no later read can tell that a trim happened |
| Silenced.TrimAtFloor | src/silenced/silenced.service.ts:80-86 | on one queue a read in the same millisecond loses exactly the entries at the floor |
| Silenced.TrimAtFloorExactly | src/silenced/silenced.service.ts:80-86 | of the whole index such a read, and such a count, is unchanged exactly when no entry is scored at the floor |
| SilencedRuns.RecordedIsRead | src/silenced/silenced.service.ts:44-181 | from end to end: whatever was recorded, forgotten, cleared or (in an earlier millisecond) trimmed before, a job is in the listing the pages are cut from, in `members` and in `count` exactly while its last record is at most the retention ago |
| SilencedRuns.HeldWhileRecent | src/silenced/silenced.service.ts:69-86 | in every run an entry is its job's last record, and is there for as long as it would be read |
| SilencedRuns.TrimKeeps | src/silenced/silenced.service.ts:80-86 | a trim leaves exactly what is younger than the retention |
| SilencedRuns.CountIsRecent | src/silenced/silenced.service.ts:114-120 | `count` is the number of jobs recorded within the retention |
| SilencedTies.IndexOrder | src/silenced/silenced.service.ts:69-77 | in every run a queue's index names each job once, the newest first, and of equal scores the member that sorts last |
| SilencedService.SilencedService.constructor | src/silenced/silenced.service.ts:44-47 | an empty index, kept for the minutes asked for and at least one |
| SilencedService.SilencedService.Record | src/silenced/silenced.service.ts:69-77 | one entry for the job, at its new time, in order |
| SilencedService.SilencedService.Forget | src/silenced/silenced.service.ts:184-186 | only that job's entry goes |
| SilencedService.SilencedService.Trim | src/silenced/silenced.service.ts:80-86 | an entry stays exactly if it is younger than the retention |
| SilencedService.SilencedService.PageAt | src/silenced/silenced.service.ts:94-153 | a page read at the service's own floor: the page of the silenced listing, and as its total the jobs recorded within the retention |
| SilencedService.SilencedService.MembersAt | src/silenced/silenced.service.ts:156-176 | the strings of exactly the jobs recorded within the retention, read at the same floor |
| SilencedService.SilencedService.CountAt | src/silenced/silenced.service.ts:179-181 | the number of those jobs, at the same floor |
| SilencedService.Pairs | src/silenced/silenced.service.ts:207-219 | reading a reply two elements at a time gives back the entries it was made of |
| SilencedService.ReadQueues | src/silenced/silenced.service.ts:126-142 | the rows of every queue, each read to the same limit |
| SilencedService.CountLive | src/silenced/silenced.service.ts:116-120 | the sum of the per-queue counts |
| SilencedService.ReadPage | src/silenced/silenced.service.ts:94-153 | rows, total and reachable of a page of one queue or of all |
| SilencedService.ReadOwn | src/silenced/silenced.service.ts:99-111 | one queue is read at its own offset with an exact count |
| SilencedService.Members | src/silenced/silenced.service.ts:156-176 | the strings hidden from the completed listing, that they number the count, and of one queue a thousand at the most |
| SilencedService.Count | src/silenced/silenced.service.ts:179-181 | the total of an empty page, which is the size of `members` |
| JobRefs.ParseUndoesEncode | src/tags/tags.service.ts:284-288 | parsing undoes encoding for every job id exactly when the queue name has no colon |
| JobRefs.EncodeInjective | src/tags/tags.service.ts:284-288 | two jobs on colon-free queues never share a string |
| RetryAll.FailedSet.Retry | src/api/jobs.service.ts:344-370 | a job moves exactly if it is failed and does not refuse |
| RetryAll.RetryQueue | src/api/jobs.service.ts:397-420 | the loop ends, tries each job at most once, leaves exactly what `Left` says and counts what moved |
| RetryAll.RetryRound | src/api/jobs.service.ts:401-419 | a round makes progress, or what is left is final |
| RetryAll.RetryChunk | src/api/jobs.service.ts:409-419 | every untried job of a chunk is tried once |
| RetryAll.RetryNext | src/api/jobs.service.ts:410-418 | one job is tried, and counted if it moved |
| RetryAll.RetryEvery | src/api/jobs.service.ts:390-424 | over all queues the returned count is the number of jobs that moved |
| RetryAll.LeftExactly | src/api/jobs.service.ts:397-420 | a job is left exactly when it refuses or a hundred refusing jobs stand ahead of it |
| RetryAll.FewRefusalsMoveTheRest | src/api/jobs.service.ts:390-424 | with fewer than a hundred refusals every other job moves |
| Tags.CappedIsFirstOfUncapped | src/tags/tags.service.ts:222-228 | the list trimmed at every push is the first thousand of the list never trimmed, with no job twice |
| Tags.UncappedNewestFirst | src/tags/tags.service.ts:225-227 | entries stand in the order of their last push, the newest first |
| Tags.UncappedMembers | src/tags/tags.service.ts:225-227 | the untrimmed list holds exactly what was pushed |
| TagsService.TagsService.Index | src/tags/tags.service.ts:157-171 | the job moves to the front of each watched tag of its own, no other list changes |
| TagsService.TagsService.IndexFailure | src/tags/tags.service.ts:177-184 | the same in the failure index for all of its tags |
| TagsService.TagsService.Push | src/tags/tags.service.ts:209-246 | the pipeline over the tags, a tag named twice changing nothing |
| TagsService.TagsService.StopMonitoring | src/tags/tags.service.ts:117-154 | a copy goes exactly when the dropped tag listed the job and no tag still monitored does; nothing else is touched |
| TagsService.TagsService.CollectHeld | src/tags/tags.service.ts:130-140 | exactly the entries some monitored tag lists |
| TagsService.TagsService.Orphaned | src/tags/tags.service.ts:142-144 | exactly the entries of the dropped tag that nothing else holds |
| TagsService.TagsService.DropCopies | src/tags/tags.service.ts:146-153 | exactly the copies of those entries go |
| TagsService.SnapshotKeysDiffer | src/tags/tags.service.ts:278-282 | copies of different jobs, or of the two indexes, never share a key |
| TagsService.RejoinEntry | src/tags/tags.service.ts:135-139 | an entry parsed and put together again is the same entry exactly when it has a colon |
| TagsService.PushTwice | src/tags/tags.service.ts:225-228 | pushing what already heads the list changes nothing |
| Metrics.ThroughputIsConserved | src/metrics/metrics.service.ts:378-410 | in every run the points pushed, the live counter, what is in flight and what was cleared add up to the completions counted, and the series is the newest kept points |
| Metrics.QuietAccounts | src/metrics/metrics.service.ts:100-122 | with nothing in flight every completion is accounted for; the series is the newest points of the kept number for its kind, or all of them if that is zero |
| Metrics.ClearsOneSeries | src/metrics/metrics.service.ts:323-334 | clearing a series forgets its points and nothing else |
| Metrics.MeasuredAverages | src/metrics/metrics.service.ts:399-402 | a point is the throughput and the whole number nearest to the mean runtime; an idle window has zero |
| Rounding.RoundedIsNearest | src/metrics/metrics.service.ts:401 | rounding a quotient gives the whole number nearest to it, a half going up |
| Metrics.ConservedRead | src/metrics/metrics.service.ts:385-387 | reading and deleting a counter in one transaction loses nothing |
| Metrics.ConservedPush | src/metrics/metrics.service.ts:404-407 | a push moves what a snapshotter holds into the series |
| MetricsService.KeepsAtLeastOne | src/metrics/metrics.service.ts:58-63 | when the number of kept points is at least one |
| MetricsService.MetricsService.constructor | src/metrics/metrics.service.ts:60-68 | the kept points of queues and jobs: the whole part of a positive option, and otherwise the default |
| MetricsService.MetricsService.RecordCompleted | src/metrics/metrics.service.ts:100-122 | counts against its queue and its job name and no other key |
| MetricsService.MetricsService.RollUp | src/metrics/metrics.service.ts:378-410 | the counter is reset, and the rounded mean it held heads the series, cut to the kept number for its kind |
| MetricsService.MetricsService.Snapshot | src/metrics/metrics.service.ts:270-296 | every known key is rolled exactly once, to the rounded mean it held, every other untouched |
| MetricsService.MetricsService.Summary | src/metrics/metrics.service.ts:238-256 | the rounded mean of the live counter, or the newest point that saw work among those read |
| MetricsService.MetricsService.Snapshots | src/metrics/metrics.service.ts:362-376 | the points of a series that are read, oldest first |
| MetricsService.AverageIsBetween | src/metrics/metrics.service.ts:353-402 | after any number of completions that took between two bounds, the point rolled up and the figure reported lie between them |
| MetricsService.CompletedIsFourSends | src/metrics/metrics.service.ts:100-122 | four uninterrupted commands of a completion are one `recordCompleted`, runtimes included |
| MetricsService.TrimmedIsReadable | src/metrics/metrics.service.ts:362-376 | which trimmed series are read whole |
| MetricsService.RollUpIsThreeSteps | src/metrics/metrics.service.ts:378-410 | three uninterrupted steps of a snapshotter are one roll-up |
| ReleaseBudget.LimitInForce | src/worker/worker.manager.ts:38-44 | a payload moves the limit only by a usable number; a bad value leaves the supervisor's, and with neither it is 25 |
| ReleaseBudget.Job.Release | src/worker/job-context.ts:46-71 | what is thrown, by the token and the two counters; the delay asked for if it is a number of zero or more, none otherwise; and when the job returns |
| ReleaseBudget.CountersTellReleases | src/worker/job-context.ts:53-60 | the difference of the two counters is the number of releases in every run |
| ReleaseBudget.BudgetHolds | src/worker/job-context.ts:53-60 | releases never exceed the limit, pick-ups never exceed attempts plus the limit, whatever caps the payload names |
| ReleaseBudget.BudgetIsReached | src/worker/job-context.ts:53-60 | the whole budget can be spent and the next request fails an attempt |
| ReleaseBudget.LanesReleaseAlike | src/worker/job-context.ts:53-70 | lanes of the batch protocol release exactly when `release` would |
| ReleaseBudget.LifeIsLane | src/batch/batched.processor.ts:74-100 | whatever ends a handler moves a job as it moves a lane of the batch protocol |
| PauseMachine.RunAtMostOnce | src/worker/worker.manager.ts:465-470 | in every run `run()` at most once a worker, and no worker paused before it |
| PauseMachine.PollsAreObeyed | src/worker/worker.manager.ts:191-226 | after a poll or boot that reached every worker, each consumes exactly when its supervisor was not in the set read |
| PauseMachine.WholePoll | src/worker/worker.manager.ts:191-226 | a poll not cut short brings every worker to what its set wants, from any reachable state |
| PauseMachine.TickIsOnePoll | src/worker/worker.manager.ts:173-226 | a tick turns every worker once, or none if it is told to terminate or a read fails |
| PauseMachine.PollsStandApart | src/worker/worker.manager.ts:173-189 | a tick during a poll does nothing, and a failure ends the poll |
| PauseMachine.BootOpens | src/worker/worker.manager.ts:138-162 | boot opens every worker that is not paused, and all of them if the flags cannot be read |
| PauseMachine.PollAgain | src/worker/worker.manager.ts:196-226 | polling again with the same flags touches no worker |
| PauseMachine.InvStep | src/worker/worker.manager.ts:151-226 | every reply, tick and failure keeps the invariant |
| WorkerManager.WorkerManager.constructor | src/worker/worker.manager.ts:115-119 | every worker is registered and none started |
| WorkerManager.WorkerManager.Start | src/worker/worker.manager.ts:138-162 | workers whose supervisor is not paused are opened, all of them if the flags cannot be read |
| WorkerManager.WorkerManager.ApplyPauseFlags | src/worker/worker.manager.ts:173-189 | a tick does one poll, or nothing while another is under way, at termination or on a failed read |
| WorkerManager.WorkerManager.ReadPauseFlags | src/worker/worker.manager.ts:191-226 | every worker is turned once |
| WorkerManager.WorkerEntry.Follow | src/worker/worker.manager.ts:198-225 | what one worker does with the flags |
| HashTags.OwnKeysShareOneTag | src/sentinel.options.ts:203-214 | which prefixes are accepted on a cluster, that the last check never fires, and that every own key routes by the intended tag |
| HashTags.QueueKeysShareOneTag | src/sentinel.options.ts:220-239 | the same for the prefix of a queue |
| HashTags.QueuesSpread | src/sentinel.options.ts:216-239 | distinct queues get distinct tags exactly when the author supplied none |
| HashTags.UnclusteredPrefix | src/sentinel.options.ts:203-239 | off a cluster the prefix is left alone |
| HashTags.PrefixRefused | src/sentinel.options.ts:162-182 | exactly when a prefix is refused and for which reason: blank, a glob character, or on a cluster braces that are not one clean tag |
| HashTags.QueueRefused | src/sentinel.options.ts:220-249 | likewise with a queue name, which may be none of blank, braced or globbed |
| HashTags.SpaceIsTrimmed | src/sentinel.options.ts:162-165 | what counts as blank is what ECMAScript trims |
| HashTags.StrayBraceCollapses | src/sentinel.options.ts:174-181 | why a stray closing brace is refused: every queue would share one tag |
| HashTags.EffectiveIsRedis | src/sentinel.options.ts:150-156 | exactly when the code's tag is the one Redis routes by |
| HashTags.EffectiveIsLeftmost | src/sentinel.options.ts:141-156 | the code's tag is the text of the leftmost pair of braces with something brace-free between, and there is one exactly when such a pair exists |
| HashTags.EmptyBracesDiffer | src/sentinel.options.ts:150-156 | keys with empty braces first, on which the two differ |
| HashTags.OpenBracesDiffer | src/sentinel.options.ts:150-156 | keys with an unclosed brace, on which the two differ |

## Left out

- BatchAlone.AloneFailure: speaks of one handler with nobody in between; interleaved handlers are covered by the lemmas about runs.
- BatchService.BatchService.Find: `processed` and `progress` are bounded for totals that pending does not exceed, which every run keeps.
- BatchService.BatchService.Cancel: the error for a batch that is gone is not modelled, since the TTL is taken not to lapse.
- BatchService.BatchService.MarkCancelled: the timestamps, stamped once each, and the event are not modelled; no counter depends on them.
- BatchRuns.SettledOnce: leaves out timeouts and aborts, under which a late handler can record twice.
- BatchRuns.FailureListIs: job ids are taken as unique across the batch, because `forgetFailure` compares ids only; unreadable entries, which `failedJobs` passes over, are not modelled.
- BatchRuns.ProgressMonotone: the quotient is exact; floating-point rounding inside `Math.round` is not modelled.
- JobsListing.List: the silenced listing with its search and healing, non-integer page arguments and the text matching of a search (a search is any predicate) are not modelled.
- SilencedService.ReadPage: what `reachable` means is not said beyond its value, since it depends on the page requested.
- SilencedService.CompletedPage: `members` and `count` read at one instant; the source asks for the time twice.
- SilencedService.SilencedService.Record: the expiry of a whole index is not modelled; an emptied sorted set stays as an empty one, which reads the same.
- Metrics.ThroughputIsConserved: runtime sums, which are floating-point in Redis, are not conserved claims, and the average of a point is claimed only of uninterrupted services (under interleaving a counter may be read between its two commands); a failed transaction or push is not modelled.
- MetricsService.MetricsService.RecordCompleted: the sorted sets of recent and completed jobs, written by the same pipeline, are not modelled.
- MetricsService.MetricsService.RollUp: the branch for a failed transaction and the wait figure of a queue's point are left out.
- MetricsService.MetricsService.Snapshot: the wait figure of a queue's point is left out.
- TagsService.TagsService.StopMonitoring: no pushes come in between its commands.
- RetryAll.FailedSet.Retry: the counters BullMQ resets, the retry log and the metrics are not part of the set; the batch model resets the counters.
- RetryAll.RetryQueue: no failures arrive while it runs; a job that refuses does so every time.
- ReleaseBudget.BudgetHolds: the lives of a job start at zero again with a manual retry.
- WorkerManager.WorkerManager.ApplyPauseFlags: runs without interruption; `PauseMachine` interleaves it.
- HashTags.OwnKeysShareOneTag: the slot is represented by the tag hashed; the hash function is not modelled.
- Names of a batch, its events, and the batch index with its pruning: no bearing on the counters.
- Completion of an empty batch and at-most-once cancellation events: the code does not promise them.
- `BatchService.list`, `TagsService.jobsFor`, `forgetFailures`, `SilencedService.decide`, `MetricsService.trim`, connection parsing: easy members only.
- `MetricsService.clearAll` sweeps keys in unspecified order; here each key is cleared on its own, at any moment.
- The dashboard, the HTTP layer, locks, worker limits, the retry log and failure context.
