# Pushboy notification lifecycle: a verified model

Pushboy accepts push jobs and Live Activity requests over HTTP, fans each one out to
device tokens page by page, sends to a provider, and counts the outcomes. HTTP handlers,
a scheduler, fan-out workers, senders and outcome writers run concurrently. They meet
only in bounded in-memory queues and in conditional row updates.

This project models that protocol in Dafny and proves what it keeps in every
interleaving. Tables are maps, each SQL statement or transaction is one guarded atomic
step, and each worker is a program counter. A state is *reachable* when some sequence of
enabled steps leads to it; the main results are about every reachable state or every
run. The loops and objects of the source are written as methods and classes, and are
proved to be runs of those step machines under every finite schedule of the other
processes and every choice of failing calls, and to be the very run that the schedule
determines: a call that succeeds has its effect, and one that fails its consequences.

## Layout

| file | what it holds |
|---|---|
| `Options.dfy`, `Sequences.dfy`, `Iterations.dfy` | the optional value; facts about sequences and multisets that several modules use; what any number of turns of a loop make of a state |
| `Keyset.dfy` | the page rule of every fan-out: `id > cursor ORDER BY id LIMIT size + 1`, and what a scan keeps while the set changes under it |
| `LATables.dfy`, `LABatching.dfy`, `LAStore.dfy` | Live Activity rows and statements; batching is invisible; the store object whose methods update the rows |
| `LAProtocol.dfy` | the Live Activity step machine |
| `LALocal.dfy`, `LASteps.dfy`, `LAFrame.dfy`, `LAForward.dfy`, `LASafety.dfy` | its invariant: per dispatch, per statement, what a step leaves alone, which way statuses move, and the whole system |
| `LATheorems.dfy`, `LAScans.dfy`, `LAEffects.dfy` | the results: counters and statuses, superseding, jobs; who a fan-out reaches; what each step does to rows, jobs, tokens and links |
| `LAFailedStart.dfy`, `LAFailedSurvivor.dfy` | two reachable runs: a failed start that an update misses, and a superseding update that fails itself |
| `LASchedule.dfy`, `LAUndisturbed.dfy` | what a schedule of the others and of failing calls makes of a fan-out, statement by statement; the fan-out that nobody disturbs |
| `LAFanout.dfy`, `LAHandler.dfy` | `FanoutLATokens`, the request functions and `enqueueImmediateLADispatch` as code |
| `PushTables.dfy`, `PushStore.dfy`, `PushProtocol.dfy`, `PushSafety.dfy`, `PushTheorems.dfy`, `PushSchedule.dfy`, `PushFanout.dfy` | the same for publish jobs and the scheduler |
| `MemoryPipeline.dfy` | the queue: its selects as steps, and as an object |
| `OutcomeWorker.dfy` | the batching event loop |
| `DrainChain.dfy`, `DrainSafety.dfy`, `DrainTheorems.dfy` | the worker chain and its shutdown: the machine, what it keeps, the results and the loop |
| `DrainService.dfy` | the chain with the outcome worker at its end, as one machine |
| `ListPages.dfy` | list endpoints: cursors and walking pages |

`dafny verify dfyconfig.toml` checks everything.

## Assumptions

- A store call that returns an error has left the tables unchanged, except
  `completeEmptyLADispatch`, which is two statements and is modelled as two.
- A `Submit` that returns an error has not enqueued its item. This is proved of
  `MemoryPipeline` and assumed where a queue appears as a step.
- `batchSize >= 1`. `BATCH_SIZE` is not clamped (internal/config/config.go:82) and the
  queries index `batchSize-1`.
- Token ids are non-empty and totally ordered; an id is its rank and 0 the empty string.
- `NOW()` is a clock that does not go back. Tokens, subscriptions and links may change
  arbitrarily between any two steps, except that links are never removed.
- Token rows are not deleted while their outcomes are in flight.
- The worker context is not cancelled where a result says so (`live`, `cancelled`).
- The loops (`FanoutPages`, `FanoutLATokens`, `FanoutPushToken`, `Shutdown.Wait`) end under
  every finite schedule of the other processes, of any length. Tokens inserted above the
  cursor for ever, or submits from outside that never stop, are not covered: the source's
  loops would not end under them either.
- A start row is written only by the request that made its job
  (internal/service/live_activity.go:253-293), so a job has one start at most.
- The clock never shows Go's zero time, which lies before every time a clock gives.

## What the proofs found

- A start dispatch that FAILS breaks the handover. An update reads "start not pending",
  asks for linked tokens only, and misses a token whose start was delivered but not yet
  recorded (`LAFailedStart.FailedStartMisses`). While no start is pending, a usable token is
  fetched if and only if its link was there when the page whose window holds it was read
  (`LAScans.FetchedIfAndOnlyIfLinked`), so one that is never linked is missed under every
  schedule (`LAScans.UnlinkedIsMissed`). Before the update is fanned out it is enough that
  the token is linked or the start DISPATCHED or COMPLETED (`LAScans.HandoverFromHere`), and
  a start that does not fail misses nobody (`LAScans.HandoverIsComplete`).
- A rolled-back start leaves the jobs it displaced closed. With nothing in between it is
  undone exactly when it had displaced none (`LAHandler.RollbackUndoesExactlyWhen`). With
  anything in between, the rollback deletes the job exactly when it is still active and
  without a dispatch (`LAHandler.RollbackDeletesExactlyWhen`); a start of the same type and
  scope closes it first, and the job of the failed request stays
  (`LAHandler.OverlappingStartKeepsJob`).
- A refused task submit ends a push fan-out without a status write: the job is
  never completed or failed (`PushTheorems.RefusedEmitStrands`).
- A publish job whose re-check write fails can stay DISPATCHED with all outcomes in,
  unless a later batch touches it (`PushTheorems.CompletesExactlyWhen`).
- A `Submit` in flight at `Close` can leave its item in the buffer after the last receiver
  saw `ErrClosed`. Closing is safe exactly when no submit is past its first check or there is
  no buffer, for the queue (`MemoryPipeline.CloseIsSafeExactlyWhen`) and for the worker chain
  (`DrainTheorems.CloseIsSafeExactlyWhen`). `Scheduler.Stop` does not wait for its goroutine
  (internal/scheduler/scheduler.go:59-63), so such a submit is possible at shutdown.
  `shutdown.go` says that no worker ever submits into a closed pipeline; that is true of the
  workers (`DrainTheorems.NeverRefused`).
- `WORKER_COUNT` and the like are not clamped either: a pool without workers receives nothing,
  and its stage is drained at once with everything left in it (`DrainTheorems.UnstaffedKeeps`).
- A list page that ends on a row of zero time would hand out no cursor although `has_more` is
  set, and the walk would start over (`ListPages.ResumesExactlyWhen`,
  `ListPages.ZeroTimeRestarts`). The repository itself writes no such row
  (`ListPages.WrittenIsProper`): only rows that something else put into the database do this.
- A superseding update may itself FAIL: a reachable state holds a superseded update whose only
  newer accepted update has failed without fetching a token
  (`LAFailedSurvivor.SurvivorMayFail`). What is promised is one that is queued, in progress,
  dispatched, completed or failed, and not superseded (`LATheorems.SupersedeLeavesSurvivor`).

## Model

| member | source | states |
|---|---|---|
| `Keyset.PageContents` | internal/storage/live_activity_postgres.go:654-702 | a page is exactly the matching ids in the window above the cursor, in order; `next` is its last id and more rows exist above it |
| `Keyset.PagesShrink` | internal/workers/fanout.go:22-59 | the ids above the cursor strictly decrease from page to page, so the loop ends on a fixed set |
| `Keyset.ReadPageOk` | internal/workers/fanout.go:20-59 | however the set changes between pages: no id twice, none from nowhere, none missed that was there at each read |
| `Keyset.FixedSetScan` | internal/storage/postgres.go:231-303 | on a fixed set a finished scan is its sorted list |
| `LAStore.SummarizeLAOutcomes` | internal/storage/live_activity_postgres.go:854-874 | the delta and invalid-token maps count exactly the outcomes of each dispatch, by kind |
| `LAStore.LiveActivityStore.CreateOrGetLAStartJob` | internal/storage/live_activity_postgres.go:266-368 | a known activity changes nothing; otherwise the active jobs of its type and scope close and the new one is inserted, for that activity, type and scope |
| `LAStore.LiveActivityStore.RollbackLAStartJob` | internal/storage/live_activity_postgres.go:491-508 | only an active job without a dispatch is taken back |
| `LAStore.LiveActivityStore.CloseLAJobIfActive` | internal/storage/live_activity_postgres.go:510-534 | closes an open job, reports not found for any other |
| `LAStore.LiveActivityStore.FailLAJobIfActive` | internal/storage/live_activity_postgres.go:536-557 | fails an open job, reports not found for any other |
| `LAStore.LiveActivityStore.CreateLADispatch` | internal/storage/live_activity_postgres.go:559-584 | one new row in ENQUEUE_PENDING with zero counters and the given creation time |
| `LAStore.LiveActivityStore.UpdateLADispatchStatus` | internal/storage/live_activity_postgres.go:586-605 | the unguarded status write, stamping completion for COMPLETED and FAILED |
| `LAStore.LiveActivityStore.MarkLADispatchEnqueued` | internal/storage/live_activity_postgres.go:607-620 | moves only a row still in ENQUEUE_PENDING; no row, no change |
| `LAStore.LiveActivityStore.GetLADispatchFanoutScope` | internal/storage/live_activity_postgres.go:622-652 | reads the job's scope and whether a start of the job is ENQUEUE_PENDING, QUEUED, IN_PROGRESS or DISPATCHED; not found exactly when the dispatch or its job is missing |
| `LAStore.LiveActivityStore.QueryLATokens` | internal/storage/live_activity_postgres.go:654-702 | the page cut from the query that the scope calls for |
| `LAStore.LiveActivityStore.CompleteLADispatchEnqueue` | internal/storage/live_activity_postgres.go:704-740 | a total of zero takes the empty path; otherwise total, DISPATCHED, completion check and job close in one transaction, and nothing for a missing row |
| `LAStore.LiveActivityStore.CompleteEmptyLADispatch` | internal/storage/live_activity_postgres.go:824-852 | COMPLETED with total 0, then the job is failed or closed by a second statement; an error for a missing row, or when that statement fails, and then the first stands |
| `LAStore.LiveActivityStore.FailLADispatchEnqueue` | internal/storage/live_activity_postgres.go:742-758 | fails only a row that is there and has not been completed, superseded or dispatched |
| `LAStore.LiveActivityStore.SupersedeLADispatchIfStale` | internal/storage/live_activity_postgres.go:760-781 | supersedes exactly a QUEUED or IN_PROGRESS update with a newer update of its job that is QUEUED, IN_PROGRESS, DISPATCHED or COMPLETED, recording what was emitted; false for a missing row |
| `LAStore.LiveActivityStore.CompleteLADispatchIfReady` | internal/storage/live_activity_postgres.go:920-962 | completes a DISPATCHED row whose counters reach its total and closes the job of an end |
| `LAStore.LiveActivityStore.ApplyLAOutcomeBatch` | internal/storage/live_activity_postgres.go:783-822 | for every visiting order of the delta map the tables become the batch's specification |
| `LAStore.LiveActivityStore.ApplyLAOutcomeDeltas` | internal/storage/live_activity_postgres.go:898-918 | counters and completions of all touched dispatches, whatever the order |
| `LAStore.LiveActivityStore.AssociateTokens` | internal/storage/live_activity_postgres.go:196-218 | exactly the delivered FCM starts become links |
| `LABatching.BatchSplits` | internal/storage/live_activity_postgres.go:783-822 | two transactions do what one does: counters, statuses, job closures, invalidations and links |
| `LABatching.BatchingIsInvisible` | internal/storage/live_activity_postgres.go:854-962 | any cut of an outcome stream into transactions gives the same tables |
| `LABatching.CutsAgree` | internal/workers/outcome.go:94-111 | two cuts of the same stream agree |
| `LABatching.OrderIsInvisible` | internal/storage/live_activity_postgres.go:898-918 | so do two orders of the same outcomes |
| `LASafety.ReachableInv` | internal/workers/fanout_la.go:14-148 | the invariant of the whole machine holds in every reachable state |
| `LASafety.StartJobOk` | internal/storage/live_activity_postgres.go:266-368 | a start keeps jobs unique, changes nothing for a known activity, and otherwise closes exactly the active jobs of its type and scope |
| `LATheorems.StatusForward` | internal/storage/live_activity_postgres.go:586-620 | one step makes only the moves of the life cycle, DISPATCHED to COMPLETED among them, and the three terminal statuses absorb, wherever the handler's write lands |
| `LAForward.LeadsIsClosure` | internal/storage/live_activity_postgres.go:586-781 | what a run can make of a status is exactly what the single moves add up to |
| `LATheorems.RunForward` | internal/storage/live_activity_postgres.go:709-781 | over whole runs DISPATCHED leads to COMPLETED only and a terminal status to nothing else, and completion is stamped exactly in the terminal statuses |
| `LATheorems.Conservation` | internal/workers/fanout_la.go:14-148 | success and failure count the recorded outcomes token by token, and with what is queued, sending, batched, held or dropped they make up the tokens fetched |
| `LATheorems.CompletionIsExact` | internal/storage/live_activity_postgres.go:920-945 | DISPATCHED means outcomes missing, COMPLETED means the counters equal the total, exactly when every fetched token has its outcome recorded |
| `LATheorems.CompletedIsFinal` | internal/storage/live_activity_postgres.go:920-945 | the move to COMPLETED happens once and nothing changes the row afterwards |
| `LATheorems.QuietIsExact` | internal/workers/fanout_la.go:14-118 | at quiescence success + failure = total on every exit path exactly when no outcome was dropped |
| `LATheorems.RejectedNeverSupersedes` | internal/server/live_activity.go:43-71 | a dispatch the pipeline refused never supersedes another |
| `LATheorems.SupersedeLeavesSurvivor` | internal/storage/live_activity_postgres.go:760-781 | every superseded update has a strictly newer one that was accepted, is past ENQUEUE_PENDING and is not superseded |
| `LAFailedSurvivor.SurvivorMayFail` | internal/storage/live_activity_postgres.go:742-781 | a reachable state in which the only such update has FAILED |
| `LATheorems.NewestIsNeverSuperseded` | internal/storage/live_activity_postgres.go:760-781 | the newest accepted update is never superseded |
| `LATheorems.TerminalDispatchSettlesJob` | internal/storage/live_activity_postgres.go:824-962 | a completed end, a failed start and an empty start leave the job not ACTIVE, given the job write succeeds |
| `LATheorems.JobNeverReopens` | internal/storage/live_activity_postgres.go:491-557 | for every job, ACTIVE holds exactly while `closed_at` is null and never returns; only its own rollback removes a job |
| `LATheorems.JobsAreUnique` | db/migrations/postgres/000009_add_live_activity_tables.up.sql:36-61 | one job per activity id, one active job per type and scope, over every run |
| `LAEffects.CheckIsExact` | internal/workers/fanout_la.go:14-57 | at its next check a run with a newer update that is QUEUED, IN_PROGRESS, DISPATCHED or COMPLETED is superseded with what it has emitted, and any other goes on unchanged |
| `LAEffects.JobChangesExactly` | internal/storage/live_activity_postgres.go:266-557 | exactly which step makes an active job FAILED, which makes it CLOSED, and that all others leave it as it is |
| `LAEffects.EnqueueColumns` | internal/storage/live_activity_postgres.go:709-740 | the columns that enqueue completion writes, and the one job it closes |
| `LAEffects.InvalidatesExactly` | internal/storage/live_activity_postgres.go:108-113 | exactly the tokens rejected with one of four words in the reason become invalid, and nothing else of a token changes |
| `LAEffects.LinksExactly` | internal/storage/live_activity_postgres.go:783-822 | an outcome batch adds exactly the links of delivered FCM starts |
| `LAScans.QueriesBracket` | internal/storage/live_activity_postgres.go:992-1052 | whichever query runs, it selects exactly the tokens that are not invalidated or expired, of the job's user or its topic's subscribers, and of the right kind: for a start APNS start tokens and FCM update tokens, otherwise update tokens, and linked ones only unless a start is pending |
| `LAScans.FetchesOnlyUsable` | internal/storage/live_activity_postgres.go:654-702 | fetched ids strictly increase and each was one the dispatch is for when its page was read |
| `LAScans.LinkedTokenOnce` | internal/storage/live_activity_postgres.go:622-702 | however the start-pending flag flips, a linked usable token is fetched exactly once by a full run |
| `LAScans.StartTokenOnce` | internal/storage/live_activity_postgres.go:654-702 | a token a start is for, usable at every page read, is fetched exactly once by its full run |
| `LAScans.CompletedStartIsLinked` | internal/storage/live_activity_postgres.go:783-822 | when a start is COMPLETED every FCM token it was delivered to is linked to the activity |
| `LAScans.FetchedExactlyWhen` | internal/storage/live_activity_postgres.go:654-702 | in every interleaving a token is fetched if and only if, when the page whose window holds it was read, it was usable and linked or the start had been read as pending |
| `LAScans.HandoverIsComplete` | internal/storage/live_activity_postgres.go:622-652 | a token whose start was delivered is fetched exactly once by a later update or end run, unless the start FAILED |
| `LAScans.FetchedIfAndOnlyIfLinked` | internal/storage/live_activity_postgres.go:992-1052 | with no start pending, a token that stays usable is fetched exactly once if and only if it was linked when its window was read |
| `LAScans.UnlinkedIsMissed` | internal/storage/live_activity_postgres.go:992-1052 | with no start pending, a token not linked by the end of the run is missed under every schedule |
| `LAScans.HandoverFromHere` | internal/storage/live_activity_postgres.go:622-652 | linked, or the start DISPATCHED or COMPLETED, before the run: no schedule makes the run miss the token |
| `LAScans.OnlyLinkedAreFetched` | internal/storage/live_activity_postgres.go:622-702 | with no start under way an update or end run fetches exactly the tokens usable and linked when their window was read |
| `LAScans.StartsAreUnique` | internal/service/live_activity.go:253-293 | a job has at most one start, in every reachable state |
| `LAScans.FetchedAfterStart` | internal/storage/live_activity_postgres.go:622-702 | once the job's start is COMPLETED or FAILED, every later update or end run fetches exactly the tokens usable and linked when their window was read |
| `LAFailedStart.FailedStartMisses` | internal/storage/live_activity_postgres.go:622-652 | a reachable run in which the start FAILED and the update misses such a token |
| `LAFanout.Runtime.Yield` | internal/workers/masters.go:26-48 | other processes move as the schedule says between any two calls, leave the run where it is, and the call is answered as its turn says |
| `LAFanout.Runtime.GetLATokenBatch` | internal/storage/live_activity_postgres.go:654-702 | scope and page are two reads with others in between |
| `LAFanout.Runtime.SupersedeIfStale` | internal/workers/fanout_la.go:41-57 | the stale check records the tokens emitted so far |
| `LAFanout.Runtime.CompleteEnqueue` | internal/storage/live_activity_postgres.go:709-740 | total zero takes the two-statement path |
| `LAFanout.PushLATokensToPipeline` | internal/workers/fanout_la.go:120-148 | every token of the page is emitted or becomes a failed outcome, in order |
| `LAFanout.Runtime.ApplyLAEnqueueFailures` | internal/workers/fanout_la.go:99-107 | the held failures are recorded in one batch, or lost when that write fails |
| `LAFanout.Runtime.FailLAStartAfterDispatchFailure` | internal/workers/fanout_la.go:109-118 | only a start fails its job |
| `LAFanout.FailLADispatchFanout` | internal/workers/fanout_la.go:80-97 | the failing exit takes its three writes in order and always finishes |
| `LAFanout.FanoutPages` | internal/workers/fanout_la.go:37-68 | the page loop ends under every finite schedule |
| `LAFanout.FanoutLATokens` | internal/workers/fanout_la.go:14-78 | for every finite schedule the function returns and was the run the schedule determines; without a failing call it does not abort; enqueued means DISPATCHED or COMPLETED with the tokens fetched as total, stopped means superseded; undisturbed, exactly the tokens it is meant for have been emitted |
| `LAUndisturbed.UndisturbedReachesAll` | internal/workers/fanout_la.go:37-77 | with nobody in between and no failing call, a finished scan fetched exactly the tokens the dispatch was meant for when it began, and all went to the task queue |
| `LAHandler.NamesOne` | internal/storage/live_activity_postgres.go:408-460 | a lookup by activity or by scope has at most one answer |
| `LAHandler.GetLAJob` | internal/service/live_activity.go:156-178 | finds a job the request names, and reports none only if there is none |
| `LAHandler.Server.CreateLAStart` | internal/service/live_activity.go:220-295 | statement by statement what a start request does: a created job is for its activity, type, and user or topic, the row is ENQUEUE_PENDING with the given creation time, a row that fails is followed by the rollback, and without a failing call there is no error |
| `LAHandler.RollbackUndoesExactlyWhen` | internal/service/live_activity.go:282-288 | a start rolled back at once restores the tables exactly when it displaced no active job |
| `LAHandler.RollbackDeletesExactlyWhen` | internal/storage/live_activity_postgres.go:491-508 | after any run in between, the rollback deletes the job exactly when it is still active and has no dispatch, and otherwise changes nothing |
| `LAHandler.OverlappingStartKeepsJob` | internal/storage/live_activity_postgres.go:266-368 | a start of the same type and scope in between closes the job, and the rollback leaves it |
| `LAHandler.Server.CreateLAUpdate` | internal/service/live_activity.go:297-341 | statement by statement: a row is written only for the job the request named when it was looked up, open then and at the payload update; NotFound only when there was none or it was closed meanwhile; an error only for a failing call or a vanished job |
| `LAHandler.Server.CreateLAEnd` | internal/service/live_activity.go:343-383 | statement by statement: a job active when looked up gets an end row, a closed one an answer without a write, a failed or expired one NotFound; an error only for a failing call or a vanished job |
| `LAHandler.Server.CreateLADispatch` | internal/service/live_activity.go:195-218 | exactly which requests are refused, without a change; every other is what the statements of its action make of it, with a row in ENQUEUE_PENDING exactly when the reply names a dispatch |
| `LAHandler.Server.EnqueueImmediateLADispatch` | internal/server/live_activity.go:43-71 | a run of the machine with the worker racing it; the submit alone decides the answer, and mark, refusal and job failure follow as it asks |
| `PushTables.BatchSplits` | internal/storage/postgres.go:845-890 | two push transactions do what one does, receipts included |
| `PushTables.BatchingIsInvisible` | internal/storage/postgres.go:845-890 | any cut of a push outcome stream gives the same tables |
| `PushStore.SummarizePushReceipts` | internal/storage/outcome.go:10-29 | the deltas count each job's receipts by kind and the failures are kept in order |
| `PushTables.FailuresAreKept` | internal/storage/outcome.go:10-29 | the receipts kept are those of the failures, as often as they occur |
| `PushStore.PublishJobStore.UpdateJobStatus` | internal/storage/postgres.go:646-655 | the unguarded status write |
| `PushStore.PublishJobStore.FinalizeJobDispatch` | internal/storage/postgres.go:657-681 | total set; COMPLETED for zero tokens, DISPATCHED otherwise |
| `PushStore.PublishJobStore.CompleteJobIfDone` | internal/storage/postgres.go:927-941 | completes exactly a DISPATCHED job whose counters reach its total |
| `PushStore.PublishJobStore.ApplyPushOutcomeBatch` | internal/storage/postgres.go:845-890 | for every visiting order the tables become the batch's specification |
| `PushStore.PublishJobStore.GetScheduledJobs` | internal/storage/postgres.go:951-972 | claims exactly the SCHEDULED jobs whose time has come by moving them to QUEUED |
| `PushStore.ProcessScheduledJobs` | internal/scheduler/scheduler.go:65-91 | each SCHEDULED job whose time has come is submitted once or refused, a refused one ends FAILED when that write succeeds, and no other row moves |
| `PushSafety.ReachableInv` | internal/workers/fanout.go:18-71 | the invariant of the publish-job machine holds in every reachable state |
| `PushTheorems.CompletedIsExact` | internal/storage/postgres.go:845-890 | COMPLETED means success + failure = total = tasks emitted, with one receipt per failure |
| `PushTheorems.WindowIsNarrow` | internal/workers/fanout.go:60-69 | DISPATCHED with all outcomes in occurs only between finalise and re-check or when the re-check failed |
| `PushTheorems.CompletesExactlyWhen` | internal/workers/fanout.go:60-71 | exactly when a quiet job is COMPLETED |
| `PushTheorems.StatusForward` | internal/storage/postgres.go:646-681 | one step makes only the moves of the life cycle, DISPATCHED to COMPLETED only, and COMPLETED and FAILED are final |
| `PushTheorems.RefusedEmitStrands` | internal/workers/fanout.go:49-51 | after a refused task submit no later step of any process ends the job |
| `PushTheorems.EntersOnce` | internal/scheduler/scheduler.go:65-91 | with any number of ticks at once and the handler besides, a job enters the queue at most once, never before its time, and a refused one ends FAILED when that write succeeds |
| `PushTheorems.ClaimedIsNotDue` | internal/storage/postgres.go:951-972 | a job of which a copy has been made is not due: the claim's status move keeps later ticks away |
| `PushTheorems.EligibleTokenOnce` | internal/storage/postgres.go:231-303 | a token eligible at every page read is fetched exactly once |
| `PushTheorems.FixedTokensSorted` | internal/workers/fanout.go:20-59 | a fixed token set gives exactly its sorted list |
| `PushTheorems.EmittedIsPrefix` | internal/workers/fanout.go:40-52 | the emitted tokens are a prefix of those fetched, a proper one after a refusal |
| `PushFanout.EmitPage` | internal/workers/fanout.go:40-52 | emits until the first refusal |
| `PushFanout.FanoutPushToken` | internal/workers/fanout.go:18-71 | under every finite schedule the function returns and was the run the schedule determines; without a failing call it gets to its re-check, and then the job is DISPATCHED or COMPLETED with the tokens fetched as total; undisturbed, exactly the eligible tokens have been emitted, in order |
| `PushSchedule.UndisturbedReachesAll` | internal/workers/fanout.go:18-71 | a finished fan-out that nobody disturbs emitted exactly the eligible tokens, in order |
| `MemoryPipeline.FirstInFirstOut` | internal/pipeline/memory.go:25-62 | accepted items are the delivered ones followed by the buffer, never over capacity |
| `MemoryPipeline.OneEntryPerCall` | internal/pipeline/memory.go:25-62 | nil means enqueued once, an error means not at all, a receive gets at most one item |
| `MemoryPipeline.ClosedRefuses` | internal/pipeline/memory.go:27-31 | a submit that starts after `Close` is refused in every continuation |
| `MemoryPipeline.Sealed` | internal/pipeline/memory.go:64-70 | closed with no submit past its first check, the pipeline takes nothing more |
| `MemoryPipeline.ErrClosedMeansDrained` | internal/pipeline/memory.go:43-62 | with a live context and no submit past its check at `Close`, the first ErrClosed means every item ever accepted has been delivered |
| `MemoryPipeline.UnbufferedNeverStrands` | internal/pipeline/memory.go:15-23 | at capacity 0 nothing can be stranded |
| `MemoryPipeline.RacingSubmitStrands` | internal/pipeline/memory.go:33-40 | from every closed live state with a waiting submit and a buffer, some run leaves an item behind |
| `MemoryPipeline.CloseIsSafeExactlyWhen` | internal/pipeline/memory.go:64-70 | closing loses nothing in any continuation if and only if no submit is past its first check or there is no buffer |
| `MemoryPipeline.Queue.constructor` | internal/pipeline/memory.go:15-23 | a negative size becomes 0 |
| `MemoryPipeline.Queue.Submit` | internal/pipeline/memory.go:25-41 | the two selects, with any others in between, are the run that the turns determine, and it ends as reported |
| `MemoryPipeline.Queue.TrySubmit` | internal/pipeline/memory.go:33-40 | room and the channel case accept the item, a closed pipeline and the done case refuse it, a case that is not ready leaves the submit waiting |
| `MemoryPipeline.Queue.Receive` | internal/pipeline/memory.go:43-62 | the nested selects are the run that the turns determine, and it ends as reported |
| `MemoryPipeline.Queue.TryReceive` | internal/pipeline/memory.go:43-62 | a buffered item and the channel case deliver the first of the buffer; after `done` the answer is an item or ErrClosed |
| `MemoryPipeline.Queue.Drain` | internal/pipeline/memory.go:47-55 | after `done` a buffered item is delivered before ErrClosed |
| `MemoryPipeline.Queue.Close` | internal/pipeline/memory.go:64-70 | closing keeps the buffer and closing again changes nothing |
| `OutcomeWorker.Conserved` | internal/workers/outcome.go:68-131 | applied outcomes, batch, the one in hand and the queue always make up the accepted outcomes in order |
| `OutcomeWorker.BatchIsShort` | internal/workers/outcome.go:113-123 | the batch is shorter than the limit unless the last write failed |
| `OutcomeWorker.WritesOnlyAdd` | internal/workers/outcome.go:94-111 | applied calls stay applied and a failed write keeps the batch |
| `OutcomeWorker.WritesExactlyWhen` | internal/workers/outcome.go:94-130 | exactly when the store is called and with which outcomes: a full batch, or any batch on a tick and on the way out |
| `OutcomeWorker.EveryTurnCounts` | internal/workers/outcome.go:113-130 | a delivery is taken, a tick flushes, and the end of the deliveries or of the context makes the loop return with a last flush |
| `OutcomeWorker.GracefulExit` | internal/workers/outcome.go:113-119 | everything accepted was offered to the store and applied exactly when the last write did not fail |
| `OutcomeWorker.LATablesAfterExit` | internal/workers/outcome.go:46-56 | the worker's calls change the Live Activity tables as one transaction over the accepted outcomes would |
| `OutcomeWorker.PushTablesAfterExit` | internal/workers/outcome.go:30-44 | the same for push outcomes |
| `OutcomeWorker.NormalizeOutcomeSettings` | internal/workers/outcome.go:58-66 | settings below 1 become 1, others stay |
| `OutcomeWorker.EventLoop.ProcessOutcome` | internal/workers/outcome.go:133-139 | the outcomes in delivery order |
| `OutcomeWorker.EventLoop.FlushBatch` | internal/workers/outcome.go:94-111 | an empty batch makes no call, a failed call keeps it |
| `OutcomeWorker.EventLoop.Start` | internal/workers/outcome.go:113-130 | the event loop is the run that its turns determine, and a graceful return has offered every accepted outcome |
| `DrainTheorems.NeverRefused` | cmd/pushboy/shutdown.go:27-37 | a worker that is still running finds the next pipeline open |
| `DrainTheorems.UpstreamFirst` | cmd/pushboy/shutdown.go:27-37 | a pipeline is closed only after every worker feeding it has exited |
| `DrainTheorems.NothingLost` | internal/workers/masters.go:26-48 | what a stage received is what the next accepted plus what its workers still hold |
| `DrainTheorems.DrainLosesNothing` | cmd/pushboy/shutdown.go:30-37 | after the drain, a stage with workers, and with no submit in flight at the first close or no buffer, received all it accepted and handed all of it on |
| `DrainTheorems.CloseIsSafeExactlyWhen` | cmd/pushboy/shutdown.go:30-37 | the first close leads to a drain that empties every stage in every continuation if and only if no submit is in flight or the first pipeline has no buffer |
| `DrainTheorems.RacingSubmitStrands` | internal/scheduler/scheduler.go:59-63 | with a buffer and a submit in flight at the first close, some run of the drain leaves an item behind |
| `DrainTheorems.UnstaffedKeeps` | cmd/pushboy/main.go:226-242 | a pool without workers never receives anything |
| `DrainService.ReachableInv` | cmd/pushboy/main.go:226-242 | pools and outcome worker in one machine refine the chain, and both invariants hold in every reachable state |
| `DrainService.EndToEnd` | cmd/pushboy/main.go:226-242 | after the drain every job is fanned out and every task sent, the event loop has returned, and every outcome was offered to the store and applied exactly when the last write did not fail |
| `DrainService.NeverStuck` | internal/workers/outcome.go:113-130 | the outcome worker does not block the drain: until it is over something other than a tick can happen |
| `DrainService.ActShrinks` | internal/workers/outcome.go:68-131 | every act but a tick or an outside submit brings the end nearer |
| `DrainTheorems.StepShrinks` | internal/workers/senders.go:25-46 | every step but a new submit brings the end of the drain nearer |
| `DrainTheorems.NeverStuck` | cmd/pushboy/shutdown.go:30-37 | until the drain is over some step is enabled: full buffers do not deadlock it |
| `DrainTheorems.Shutdown.Wait` | cmd/pushboy/shutdown.go:35 | the wait ends whichever worker runs next, with submits from outside arriving meanwhile, and was what those choices determine |
| `DrainTheorems.Shutdown.DrainChain` | cmd/pushboy/shutdown.go:30-37 | it returns, with outside submits arriving meanwhile, and was what the choices determine; every stage is closed and left by its workers, and empty and handed on unless a submit raced the first close |
| `ListPages.ParseLimit` | internal/server/pagination.go:35-49 | a missing limit yields the default, 1 to 200 yields itself, anything else is refused |
| `ListPages.CursorRoundTrip` | internal/server/pagination.go:58-103 | exactly when a cursor survives encoding and parsing |
| `ListPages.CursorIsBound` | internal/server/pagination.go:73-75 | a cursor is refused on any other route or status |
| `ListPages.OneListPerCursor` | internal/server/pagination.go:58-85 | whatever a client sends is good for one list at most |
| `ListPages.MakeMappedListResponse` | internal/server/pagination.go:152-177 | the visible rows mapped in order, cut at the limit, with the key of the last one as cursor |
| `ListPages.PageContents` | internal/storage/postgres.go:146-175 | a page is exactly the matching rows down to its last one, the newest first |
| `ListPages.WrittenIsProper` | internal/storage/time.go:8-13 | no sequence of the repository's own writes stores a row of zero time or without an id |
| `ListPages.WalkListsOnce` | internal/storage/postgres.go:713-843 | over tables the repository wrote, a walk lists each row whose key and filter result stay fixed exactly once, the newest first, whatever else changes |
| `ListPages.FixedTableWalk` | internal/storage/postgres.go:528-563 | on a fixed table the walk ends within one request more than there are rows and lists exactly its rows, the newest first |
| `ListPages.ResumesExactlyWhen` | internal/server/pagination.go:87-103 | exactly when a page's cursor resumes below its last row, and what happens otherwise |
| `ListPages.ZeroTimeRestarts` | internal/storage/time.go:23-28 | two foreign rows of zero time are walked for ever |

## Left out

- Queues in `LAProtocol` and `PushProtocol` are bags and a submit may be refused at any time; every run of the bounded FIFO queue is among those runs. The queue itself is in `MemoryPipeline`.
- Timestamps are modelled by whether they are set, except `created_at` of a dispatch, `scheduled_at`, token expiry and the sort keys of lists.
- Payloads, options and the latest payload of a job: opaque. `UpdateLAJobPayloadIfActive` is a call that may fail.
- `PushProtocol` follows one publish job: jobs share no row and a batch acts on each row by that row's own receipts.
- The branch of `FanoutPushToken` for a job with neither topic nor user: a check constraint rules such rows out (db/migrations/postgres/000002_add_user_id_to_publish_jobs.up.sql:8-12).
- `DispatchPushTask`, `DispatchLATask` and `pushToDLQ` are the two steps of one send: a verdict, and whether its outcome reached the queue. Provider clients, retries, JWT and HTTP are an arbitrary verdict.
- `InvalidateExpiredLAUpdateTokens` and all token, user, topic and subscription writes: one step that changes tokens and subscriptions arbitrarily.
- The SQL of the list queries beyond their filter, key order and limit; the `UNION ALL` of user notifications cannot return a row twice because a job has a topic or a user, not both.
- JSON and base64 of cursors: a raw cursor is known by what it decodes to. Times are ranks, so formatting and parsing a time is exact.
- Cancellation after the shutdown timeout and crashes. In `OutcomeWorker` a cancelled worker is modelled and what it drops is named; in the other theorems the worker context stays live.
- `Delivery.Retry`, cascading deletes, routing, response codes, configuration parsing.
- HandoverIsComplete: its condition is the status of the start at the end of the run; FetchedExactlyWhen is the exact statement for every run, and HandoverFromHere has a condition on the state before it.
- FanoutPages: ends for finitely many turns of the others, of any number; endless insertions above the cursor keep the source's loop going too.
- FanoutLATokens: the same, as it calls that loop.
- FanoutPushToken: the same for the push loop.
- Shutdown.Wait: the same for submits from outside.
- UndisturbedReachesAll: says whom an undisturbed run reaches; `LAScans.FetchedExactlyWhen` says it for every interleaving.
- TerminalDispatchSettlesJob: requires that the job write that follows did not fail, as the source does not retry it.
- QuietIsExact: requires that the write of the final status was not lost.
