# RRQ job queue: a verified model

RRQ keeps all of its state in Redis. Producers enqueue jobs with atomic scripts; workers claim
them, run them on runner processes over a framed socket protocol, and report; an orphan recovery
takes over from workers that died. This project models the parts of that system in which the
order of steps decides, and proves what they promise.

| file | models |
|---|---|
| `JobRecord.dfy` | the part of Redis that concerns one job, one function per script or command |
| `Lifecycle.dfy` | the lifecycle protocol: any number of workers, one command at a time, crashes between any two |
| `LockTiming.dfy`, `NoLostJob.dfy`, `LifecycleTheorems.dfy` | mutual exclusion and no lost job, over all runs |
| `ConcreteRuns.dfy` | how steps on one job make up a run, and what one whole execution comes to |
| `StaleList.dfy` | when recovery may take a job over without risk, exactly, and a run in which it may not |
| `WrongSuspicion.dfy` | two runs that show why recovery must suspect only dead workers |
| `RequeueGap.dfy` | the gap between the queueing and the status reset of a dead letter requeue |
| `RetryBudget.dfy`, `PromptRuns.dfy`, `OverBudget.dfy` | the retry budget over all runs, and a run that shows why its sharper form needs prompt workers |
| `FinishedJobs.dfy`, `DrainRuns.dfy`, `StaleDefinition.dfy` | finished jobs in prompt runs, and two runs in which a completed one is offered again: after a drain, and after a recovery that reads before it locks |
| `JobStore.dfy`, `Backlogs.dfy` | the claim script and what it makes of a queue |
| `FairShares.dfy`, `Rotation.dfy`, `Polling.dfy` | the poll loop: how it divides its room among the queues, in which order, and what becomes of every claimed job, with failing commands and interference |
| `ReleaseProtocol.dfy`, `ShutdownDrain.dfy`, `OrphanRecovery.dfy` | release helpers, shutdown drain and recovery pass, each proved to follow the protocol |
| `DeadLetters.dfy` | requeueing from the dead letter list |
| `ProducerScripts.dfy`, `ProducerRuns.dfy`, `DebounceRuns.dfy`, `KeyLifetimes.dfy` | idempotent, rate-limited and debounced enqueues |
| `Connection.dfy` | the request demultiplexer of a runner connection |
| `Framing.dfy` | the wire format and the incremental parser |
| `RequestIndex.dfy`, `RunnerRuntime.dfy`, `InflightTracker.dfy` | the registries of the TypeScript and Python runners |
| `PoolSockets.dfy` | port allocation of runner pools |
| `UniqueLock.dfy` | the lock behind a unique key |
| `Wrappers.dfy`, `Collections.dfy`, `Integers.dfy` | shared definitions |

## What the properties say that is not obvious

- **No job is lost if recovery suspects dead workers alone and takes a job over only while Redis has it
  secured**: in a queue, or on the list of a worker that will not just drop it. Neither condition can be
  left out, and the code enforces neither.
  - A worker that stalls past its health lifetime and then gives its claim back drops its tracking when it
    sees the recovery's lock; if the rescuer dies at that moment, nothing knows the job
    (`WrongSuspicionLosesJob`).
  - No rescuer has to die: recovery removes the job from the suspect's active set once more after
    `requeue_job.lua` has released the lock, and if the suspect has claimed the job anew by then, it holds it
    untracked (`TrailingRemovalLosesJob`).
  - No live worker has to be suspected: a pass works through a dead worker's list as it was when read. A job
    on it may have been rescued by another pass and claimed by a worker that now stalls past its lock; that
    worker drops it when the stale pass locks it, and the rescuer dies (`StaleListLosesJob`). Taking a job
    over is safe if and only if it is secured (`TakeIsSafeExactly`), which a recovery can make sure of by
    looking, as it locks the job, for a queue entry or the job on the list it works through
    (`ReadableIsSecured`).
- **A dead letter requeue can lose the job with no crash and no suspicion at all.** It queues the job
  before it resets the status; a worker that finishes the job in between leaves it PENDING for ever
  (`RequeueLosesJob`). The reset strands the job exactly when somebody finished or forgot it since it
  was queued and it is listed nowhere any more (`ResetStrandsExactly`).
- **A requeued job inherits the lifetime of its failure.** Nothing removes the expiry that the dead
  letter script sets, so a live, queued job can run out (`RequeuedJobMayExpire`). A job that has not
  ended before cannot (`LiveUntilItsEnd`).
- **Work conservation fails behind a locked head, and exactly there.** A claim scans four times its
  limit. It takes as many jobs as are ready, up to its limit, if and only if at most three quarters of
  what it scanned is stuck or it scanned all that is ready (`ClaimTakesBacklog`); it comes back empty if
  and only if four times the limit of stuck entries precede the first ready job
  (`ClaimIsEmptyBehindStuckHead`).
- **A slow worker can give a job an attempt it does not have**: a claim released long after its lock has
  gone marks a job PENDING that another worker has failed for good (`LateReleaseOverspends`).
- **A shutdown drain can requeue a job that another worker is running, and have a completed job executed
  again**: the table of running jobs outlives the release of the lock, and the drain does not read the
  lock's owner as the other release helpers do (`DrainRevivesCompletedJob`). It leaves such a job alone
  exactly when the job is finished, or queued and not ACTIVE (`ForeignJobIsLeftExactly`).
- **A recovery can requeue a finished job**: it reads the definition, then locks. A job that another recovery
  requeued and a worker completed in between is queued once more (`StaleReadRevivesCompletedJob`). The finished
  job is left alone exactly when the definition read was finished too, or is queued and was not ACTIVE
  (`FinishedJobIsLeftExactly`).
- **One unparseable definition in a dead worker's active set ends every recovery pass** before the
  orphans scanned after it; likewise one among the running jobs ends a shutdown drain.
- **The idempotency key can expire up to a millisecond before the scheduled time**: the deferral is cut
  to whole milliseconds before it is rounded up to seconds. The unique lock has the same gap. Both
  conditions are given exactly.
- **A debounced job can carry a trace context older than its parameters**, since a call without one
  leaves the old one in place while it removes the correlation context.
- **The check that an outcome carries the right request id can never fail**, since outcomes are looked
  up by that id.
- **A window's fraction of a second can be lost in its 64-bit float**, in windows beyond 2^24 seconds, half a
  year; the key then goes before the window ends (`LongWindowMayFallShort`).

## Assumptions

- Each Redis command or script is one atomic step; processes stop by crashing. In `Lifecycle.dfy`
  commands do not fail; in `Polling.dfy`, `OrphanRecovery.dfy`, `ShutdownDrain.dfy`, `DeadLetters.dfy`
  and `UniqueLock.dfy` they may, and others may act between any two, except where a contract says
  `calm`, `reliable`, `alone` or `undisputed`; a calm store sees no shutdown request.
- Timing (`MayAdvance`): a claimed job is dispatched within `dispatchBudget` of its lock refresh, its
  execution ends at its timeout, its outcome is handled within `handlingBudget`, the two budgets
  together are below the lock extension, and a recovery finishes before its lock expires.
- Job ids and request ids are fresh. A hash that has a lifetime runs out only while no worker and no
  recovery is at work on the job.
- A live job is `Secured` while it is in a queue, or on the list of a worker that has no task on it, or has
  one that will queue it or leave it listed, and no recovery is about to take it off. A crash is `Harmless`
  when what the worker carries or recovers is secured without it. A
  `TimelyReset` is a status reset of a dead letter requeue that comes before anybody has finished or
  forgotten the job, or finds it live or queued.

## Model

| member | source | states |
|---|---|---|
| `LockTiming.StepKeepsTiming` | rrq-rs/orchestrator/src/worker.rs:439-464 | every step of the protocol keeps, for each spawned task, the worker's own unexpired lock with enough of it left for the rest of the task, and for each recovery its own lock |
| `LifecycleTheorems.MutualExclusion` | rrq-rs/orchestrator/src/worker.rs:1315-1322 | in every run, crashes and wrong suspicions included, two workers with a spawned task on one job are the same worker, and that worker holds the unexpired job lock |
| `NoLostJob.StepKeepsAnchor` | rrq-rs/orchestrator/src/worker.rs:711-763 | every step, each of the three commands of a dead letter requeue included, hands on the place that answers for a live job: a queue, a worker about to requeue or run it, or a recovery under its lock; a job about to be reset stays findable until somebody ends or forgets it |
| `LifecycleTheorems.NoJobIsLost` | rrq-rs/orchestrator/src/worker.rs:978-1070 | in every run whose crashes are harmless and whose dead letter requeues reset the status in time, each PENDING, ACTIVE or RETRYING job is held; once nobody acts on it, it is in a queue or listed in some worker's active set |
| `LifecycleTheorems.RightRunIsHarmless` | rrq-rs/orchestrator/src/worker.rs:1823-1830 | under these three conditions every crash is harmless: whatever the worker carries is still on its list, and whatever it recovers is still secured |
| `LifecycleTheorems.NoJobIsLostUnderRightSuspicion` | rrq-rs/orchestrator/src/worker.rs:1810-1982 | no run loses a job in which recovery acts only on lists of crashed workers, takes a live job over only while it is secured, and dead letter requeues reset the status in time, whoever crashes between any two commands |
| `StaleList.TakeIsSafeExactly` | rrq-rs/orchestrator/src/worker.rs:1835-1870 | after any such run, taking a live job over from a crashed worker's list can lead to no loss, in any such continuation, if and only if the job is secured |
| `StaleList.ReadableIsSecured` | rrq-rs/orchestrator/src/worker.rs:1835-1875 | after any such run, with no recovery under way, a job that is in a queue or still named by the crashed worker's list is secured |
| `StaleList.UnsecuredJobCanBeLost` | rrq-rs/orchestrator/src/worker.rs:717-763 | otherwise, whether the suspect is dead or alive, the workers that list the job may all drop it, seeing the recovery's lock, and the rescuer may crash |
| `StaleList.StaleListLosesJob` | rrq-rs/orchestrator/src/worker.rs:1835-1872 | for every new job there is a run from the start, in which only a crashed worker is suspected and no operator acts, that ends with the job live and unheld |
| `NoLostJob.LiveOnlyEnds` | rrq-rs/orchestrator/src/worker.rs:1591-1750 | a live job stops being live only by a report of its end or, when its hash has a lifetime, by running out; and only a report of its end gives it one |
| `LifecycleTheorems.LiveUntilItsEnd` | rrq-rs/orchestrator/src/lua/move_to_dlq.lua:41-45 | in every run, a live job whose end has never been reported stays live, whatever crashes, recoveries and drains do |
| `RequeueGap.ResetStrandsExactly` | rrq-rs/orchestrator/src/commands/dlq.rs:312-324 | in a run that has lost no job so far, a status reset leaves the job live and unheld if and only if it was overtaken since the queueing and the job is in no queue, active set, worker's or recovery's hands |
| `RequeueGap.RunInTheGap` | rrq-rs/orchestrator/src/commands/dlq.rs:312-324 | from a failed job at rest, a whole execution between the queueing and the reset can take place and leaves the job live and unheld if and only if its outcome was final |
| `RequeueGap.RequeueLosesJob` | rrq-rs/orchestrator/src/commands/dlq.rs:312-324 | for every new job with one attempt there is a run from the start of workers' and operators' steps alone, with no crash, suspicion, drain or passing of time, whose last event is the status reset and which ends with the job live and unheld |
| `RequeueGap.RequeuedJobMayExpire` | rrq-rs/orchestrator/src/store.rs:505-521 | for every new job with one attempt there is such an undisturbed run after which the job is live and queued and its hash can run out |
| `WrongSuspicion.WrongSuspicionLosesJob` | rrq-rs/orchestrator/src/worker.rs:748-762 | for every new job and two workers there is a run in which nobody has crashed when the slow one is suspected, nobody else is, and its rescuer's crash, the last event, leaves a live job that nothing in Redis and nobody alive has |
| `WrongSuspicion.TrailingRemovalLosesJob` | rrq-rs/orchestrator/src/worker.rs:1937-1944 | there is one too whose last three events are the suspect's new claim of the requeued job, the rescuer's removal of it from the suspect's list, and the suspect's crash, the only one |
| `RetryBudget.OnlyFailuresSpend` | rrq-rs/orchestrator/src/worker.rs:1591-1750 | a step changes the retry count only when it reports a failure, and then by one; max_retries never changes |
| `RetryBudget.RetriesStayInBudget` | rrq-rs/orchestrator/src/worker.rs:1636-1720 | in every run the count is never negative and stays within max(1, max_retries) plus the times the job left FAILED, and a RETRYING job has a retry left |
| `RetryBudget.ReportWrites` | rrq-rs/orchestrator/src/worker.rs:1447-1704 | outcome by outcome, whatever the record: success completes the job and sets or clears its lifetime, a fatal error or a timeout dead-letters it, and a failure or a handler's wish to retry puts it back into its queue at the given score, RETRYING with one more retry, if and only if a retry is left, and dead-letters it otherwise; nothing else of the job changes |
| `RetryBudget.FailureIsRetriedExactly` | rrq-rs/orchestrator/src/worker.rs:1636-1704 | in every run, by the counts its hash has when the failure is reported, the job is retried if and only if retries + 1 is below max_retries; when it is dead-lettered instead it has reached max(1, max_retries) |
| `RetryBudget.RejectionIsFatal` | rrq-rs/orchestrator/src/worker.rs:1196-1263 | a job that cannot be started is dead-lettered, whatever retries it has left |
| `PromptRuns.OnlyRequeuesExtendTheBudget` | rrq-rs/orchestrator/src/commands/dlq.rs:308-327 | in runs in which nobody acts on a job past its lock and requeues are left alone, the count stays within max(1, max_retries) plus the dead letter requeues, and the job is in one place at a time |
| `FinishedJobs.FinishedJobIsLeftAlone` | rrq-rs/orchestrator/src/worker.rs:1591-1750 | in such runs a finished job that no operator requeues is in no queue, and no worker has anything left to do with it |
| `FinishedJobs.CompletedForEver` | rrq-rs/orchestrator/src/store.rs:893-930 | in such runs a completed job stays completed for as long as its hash does |
| `StaleDefinition.FreshReadTakes` | rrq-rs/orchestrator/src/worker.rs:1843-1872 | locking with the definition that the hash still has is the protocol's step |
| `StaleDefinition.FinishedJobIsRequeued` | rrq-rs/orchestrator/src/worker.rs:1866-1949 | locking a finished job with a live definition opens the rest of the recovery, which queues it and changes nothing else but the lost worker's list |
| `StaleDefinition.StaleReadRevivesCompletedJob` | rrq-rs/orchestrator/src/worker.rs:1843-1949 | for every new job there is a prompt run from the start, suspecting one crashed worker only, in which a recovery reads the job and locks it when another worker has completed it; it ends completed, queued and open to a claim |
| `OverBudget.LateReleaseOverspends` | rrq-rs/orchestrator/src/worker.rs:935-961 | for every new job with one attempt there is a run without a dead letter requeue, crash, shutdown or drain in which a late release makes the count exceed max(1, max_retries) |
| `JobStore.JobStore.ClaimReady` | rrq-rs/orchestrator/src/lua/claim_ready.lua:1-48 | the claimed jobs are the first claimable ones of the due window of four times the limit, each is locked, activated, tracked and unqueued, and otherwise only dangling queue entries go |
| `JobStore.JobStore.AtomicRequeue` | rrq-rs/orchestrator/src/lua/requeue_job.lua:19-90 | the script, write by write, does what its one-step form does, and a failure leaves one of the states between two writes |
| `JobStore.ChosenIsClaimable` | rrq-rs/orchestrator/src/lua/claim_ready.lua:18-47 | a claim takes distinct claimable members of the window and, when it stays under its limit, all of them |
| `JobStore.ClaimedJobIs` | rrq-rs/orchestrator/src/lua/claim_ready.lua:22-47 | a claimed job was due, unlocked and defined; it ends ACTIVE under the worker's lock and on its list, off this queue only, with its definition, retries and dead letter entries as they were |
| `JobStore.EarliestAreClaimed` | rrq-rs/orchestrator/src/lua/claim_ready.lua:17-47 | every claimed job was due no later than any job of the queue that could have been claimed instead, in the window or beyond it; of two due at once the one with the smaller id goes first |
| `JobStore.ClaimLockLasts` | rrq-rs/orchestrator/src/lua/claim_ready.lua:22-36 | the claim's lock lasts as long as the one the worker refreshes it with, for every definition it would dispatch; without a positive timeout, or with one out of range, as long as a default job's |
| `Backlogs.MissedOnlyBehindStuckHead` | rrq-rs/orchestrator/src/lua/claim_ready.lua:16-21 | a claim leaves room and misses a ready job if and only if more than three quarters of its window was stuck and a ready job lies outside it; the window is full then |
| `Backlogs.ClaimTakesBacklog` | rrq-rs/orchestrator/src/lua/claim_ready.lua:16-47 | a claim takes as many jobs as are ready, up to its limit, if and only if at most three quarters of its window was stuck or the window holds all that is ready |
| `Backlogs.ClaimIsEmptyBehindStuckHead` | rrq-rs/orchestrator/src/lua/claim_ready.lua:16-47 | with a job ready, a claim takes nothing if and only if four times its limit of stuck entries precede the first ready job |
| `Backlogs.HiddenBehindStuckHead` | rrq-rs/orchestrator/src/lua/claim_ready.lua:16-21 | behind four times the limit of stuck entries nothing ready is ever claimed |
| `Backlogs.LockedHeadHidesReadyJob` | rrq-rs/orchestrator/src/lua/claim_ready.lua:16-21 | such a queue exists: four locked jobs hide a ready one from a claim of one |
| `Rotation.EveryPlaceHasItsTurn` | rrq-rs/orchestrator/src/worker.rs:273-277 | any n consecutive leads of a rotation over n places include every place; `EveryQueueIsServed` applies it to the polls |
| `FairShares.FairShareIsFair` | rrq-rs/orchestrator/src/worker.rs:278 | the fair share is the least number, one at least, of which one for each queue makes up the count |
| `FairShares.EveryQueueGetsItsShare` | rrq-rs/orchestrator/src/worker.rs:287-300 | whatever the queues before it hold, the queue at offset k gives its fair share, or what the count still has when all before it have given theirs, or all it has |
| `FairShares.LeftoversGoInOrder` | rrq-rs/orchestrator/src/worker.rs:287-300 | a queue that is not emptied leaves nothing to those behind it beyond their fair shares |
| `FairShares.PolledTakesAll` | rrq-rs/orchestrator/src/worker.rs:287-300 | the two passes together take min(count, all there is) |
| `Polling.RRQWorker.RequeueIfNeeded` | rrq-rs/orchestrator/src/worker.rs:587-638 | a live definition is marked PENDING if ACTIVE and queued unless it is queued already; a finished one is left alone |
| `Polling.RRQWorker.Cleanup` | rrq-rs/orchestrator/src/worker.rs:684-709 | the job leaves the active set and its lock is released if it is the worker's; status and queues are untouched |
| `Polling.ReleasedJobIs` | rrq-rs/orchestrator/src/worker.rs:711-763 | a released job is off the worker's list and not locked by it; if another holds its lock, or its definition is not a live one of the worker's, that is all; otherwise it keeps its queue entry or gets one due now, and is PENDING without a worker if it was ACTIVE |
| `Polling.UnreadJobIs` | rrq-rs/orchestrator/src/worker.rs:935-961 | a claim that could not be read ends PENDING without a worker, queued once, untracked and unlocked by it, unless another worker holds it |
| `Polling.QuarantinedJobIs` | rrq-rs/orchestrator/src/worker.rs:827-933 | a malformed job leaves the queue, is FAILED and enters the dead letter list once, without counting a retry; locked by another worker it is only untracked |
| `Polling.RRQWorker.ReleaseClaimedJob` | rrq-rs/orchestrator/src/worker.rs:711-763 | a release leaves exactly the released record; whatever command fails, a live job of the worker ends queued or still in its active set |
| `Polling.RRQWorker.Quarantine` | rrq-rs/orchestrator/src/worker.rs:827-933 | an unparseable job ends in the dead letter list, unqueued; whatever fails, it is finished, queued or still tracked |
| `Polling.RRQWorker.ReleaseUnread` | rrq-rs/orchestrator/src/worker.rs:935-961 | a claim whose definitions could not be read ends PENDING and queued, or still tracked when a command fails |
| `Polling.RRQWorker.ReleaseFrom` | rrq-rs/orchestrator/src/worker.rs:765-825 | the rest of a batch, from the given job on, is released or quarantined, each job once, none dispatched; undisturbed, each becomes its given-back record and nothing else changes |
| `Polling.RRQWorker.ReleaseAllUnread` | rrq-rs/orchestrator/src/worker.rs:963-976 | every job of an unread batch is released once; undisturbed, each becomes the record of an unread claim and nothing else changes |
| `Polling.RRQWorker.Dispatch` | rrq-rs/orchestrator/src/worker.rs:398-549 | a claimed job is dispatched under a refreshed lock with a permit taken, or handed back, alone or with the rest of the batch, by the error found; undisturbed, it is dispatched if and only if its lock is the worker's, its lock then lasts for its own timeout, and the poll fails if and only if that is out of range |
| `Polling.RRQWorker.HandleBatch` | rrq-rs/orchestrator/src/worker.rs:361-550 | every job of a claimed batch is handled once on every exit, and dispatches are counted and bounded by the permits; undisturbed, the jobs up to the one that ends the batch become their handled records, it and the rest their given-back ones, and nothing else changes |
| `Polling.RRQWorker.PollForJobs` | rrq-rs/orchestrator/src/worker.rs:273-554 | on every exit each claimed id has been dispatched, released or quarantined exactly once, dispatches stay within the permits, and permits and running tasks add up to the concurrency; in a steady store without more than three stuck entries before a ready job, one poll fetches min(count, all that is ready), and the backlogs of the queues, in the order of the visit, end as the division into fair shares and leftovers leaves them |
| `Polling.RRQWorker.Run` | rrq-rs/orchestrator/src/worker.rs:233-261 | the polls of a run start with the queues in strict rotation and ask for as many jobs as permits are free, which is between one and `concurrency`; in a steady store every round polls unless no permit is free, and each poll divides its room among the backlogs as it should |
| `Polling.EveryQueueIsServed` | rrq-rs/orchestrator/src/worker.rs:273-277 | of any n consecutive polls of such a run over n queues, one takes a job from the given queue if a job is ready there then |
| `ReleaseProtocol.ReleaseFollowsProtocol` | rrq-rs/orchestrator/src/worker.rs:711-763 | undisturbed, each release helper does to the record what the protocol's steps do, and those steps are open to the worker |
| `ReleaseProtocol.HandlingFollowsProtocol` | rrq-rs/orchestrator/src/worker.rs:398-549 | undisturbed, the handling of one loaded job by the poll loop does what the protocol's steps do: the refresh that dispatches it under its owner's lock, or the steps that give it back |
| `ShutdownDrain.InterruptedJobIsHandedBack` | rrq-rs/orchestrator/src/worker.rs:1016-1052 | a drained live job is queued where it came from, off the active set, no longer locked by the worker, PENDING without a worker if it was ACTIVE, and otherwise unchanged, its retries included; another worker's lock stays |
| `ShutdownDrain.FinishedJobIsLeft` | rrq-rs/orchestrator/src/worker.rs:1054-1066 | a finished job only loses the worker's tracking and lock |
| `ShutdownDrain.FailedRequeueMayLoseJob` | rrq-rs/orchestrator/src/worker.rs:1043-1067 | after a failed requeue the drain's clean-up leaves the job in no queue exactly when it was in none and the script stopped before queueing it |
| `ShutdownDrain.DrainFollowsProtocol` | rrq-rs/orchestrator/src/worker.rs:1014-1067 | the drain of one job takes exactly the protocol's steps |
| `ShutdownDrain.DrainMayRequeueAnothersJob` | rrq-rs/orchestrator/src/worker.rs:1418-1431 | the drain of a task that has released its lock but not left the table can be taken while another worker runs the job; it queues and demotes the job under that worker's lock, to be claimed by anyone once that lock is gone |
| `ShutdownDrain.ForeignJobIsLeftExactly` | rrq-rs/orchestrator/src/worker.rs:1014-1067 | drained while another worker holds its lock, a job keeps its status and queues if and only if it is finished, or queued there already and not ACTIVE |
| `DrainRuns.DrainRevivesCompletedJob` | rrq-rs/orchestrator/src/worker.rs:1014-1067 | for every new job with a retry to spare there is a run from the start, with no crash, suspicion or operator and in no time, in which a drain leaves the job another worker executes PENDING and queued, and a continuation in which it is COMPLETED and can be claimed again |
| `ShutdownDrain.DrainJob` | rrq-rs/orchestrator/src/worker.rs:1014-1067 | one running job becomes its drained record, unless its definition does not parse; with failing commands it ends where the requeue stopped, with its tracking and lock gone or not |
| `ShutdownDrain.DrainTasks` | rrq-rs/orchestrator/src/worker.rs:1013-1070 | the running jobs are drained up to the first whose definition does not parse; that one and the rest stay as they are |
| `OrphanRecovery.OrphanIsHandedOver` | rrq-rs/orchestrator/src/worker.rs:1866-1949 | a recovered live orphan is queued once, off the lost worker's set, unlocked, and PENDING if it was ACTIVE |
| `OrphanRecovery.RecoveredIsSafe` | rrq-rs/orchestrator/src/worker.rs:1837-1970 | recovery leaves locked jobs, jobs of healthy workers and finished jobs' status and queues alone |
| `OrphanRecovery.FinishedJobIsLeftExactly` | rrq-rs/orchestrator/src/worker.rs:1873-1949 | a recovery that goes by a definition read before leaves a finished job's status and queues alone if and only if the definition was finished too, or is queued and was not ACTIVE |
| `OrphanRecovery.Recoverer.RecoverJob` | rrq-rs/orchestrator/src/worker.rs:1837-1865 | one job of a lost worker becomes its recovered record; a definition that does not parse or overflows ends the pass |
| `OrphanRecovery.Recoverer.RecoverLockable` | rrq-rs/orchestrator/src/worker.rs:1866-1970 | from the recovery lock on, failing commands included, a live orphan stays tracked or is queued; undisturbed, a record that is not locked becomes what the definition read before, stale or not, makes of it |
| `OrphanRecovery.Recoverer.RecoverOrphans` | rrq-rs/orchestrator/src/worker.rs:1815-1982 | a pass keeps the safety relation between the records before and after, counts exactly the jobs it queued, 100 at most, stops early only for that, an error or a shutdown, and fails exactly on an unparseable unlocked orphan; when it finishes, every live, lockable and unlocked orphan of a scanned lost worker is in its queue, off the worker's list, unlocked and not ACTIVE, and no orphan is left |
| `OrphanRecovery.PassFollowsProtocol` | rrq-rs/orchestrator/src/worker.rs:1837-1970 | from any protocol state with no lock and no recovery under way, the recovery steps can be taken and do what the pass does |
| `DeadLetters.DeadLetterList.Move` | rrq-rs/orchestrator/src/commands/dlq.rs:308-327 | one job leaves the list, enters the queue and becomes PENDING, or the failure between leaves it half way |
| `DeadLetters.DeadLetterList.Requeue` | rrq-rs/orchestrator/src/commands/dlq.rs:270-330 | without a filter and without being told to take all it does nothing; entries taken off the list are jobs put in the queue, but for the one at a failing command; undisturbed, exactly the selected entries move and all else is unchanged |
| `DeadLetters.SelectedIsExact` | rrq-rs/orchestrator/src/commands/dlq.rs:272-293 | an entry is selected if and only if its job exists and passes the filters, as often as it stands in the list |
| `DeadLetters.SelectedInOrder` | rrq-rs/orchestrator/src/commands/dlq.rs:270-293 | the selection keeps the order of the list |
| `DeadLetters.LimitedIsExact` | rrq-rs/orchestrator/src/commands/dlq.rs:295-297 | a limit keeps the first entries, as many as it allows |
| `DeadLetters.RunInTheGapLosesTheJob` | rrq-rs/orchestrator/src/commands/dlq.rs:312-324 | a worker that runs the job between the queueing and the status write, with any outcome, leaves it PENDING, unlocked and in no queue it was not in before if and only if the outcome was final or its own queue listed it already; without one it waits in the target queue |
| `ProducerScripts.Redis.EnqueueScript` | rrq-rs/producer/src/lib.rs:789-851 | the idempotent enqueue, command by command, equals its one-step form; the branch for a lost NX is never reached |
| `ProducerScripts.Redis.RateLimitScript` | rrq-rs/producer/src/lib.rs:853-903 | the rate-limited enqueue, command by command, equals its one-step form |
| `ProducerScripts.Redis.DebounceScript` | rrq-rs/producer/src/lib.rs:905-985 | the debounced enqueue, command by command, equals its one-step form; the branches for another winner and for status 2 are never reached |
| `ProducerRuns.EnqueueWrites` | rrq-rs/producer/src/lib.rs:799-851 | in every state: with a live key of a known job the call answers that job and changes nothing; with a taken id it frees the key; otherwise it writes a PENDING job with the call's function, parameters, times, limits, queue and contexts and no retry, lists it in the call's queue at the call's score, gives the key to it for the call's lifetime, and leaves every other job, entry and key as it was |
| `ProducerRuns.RateLimitWrites` | rrq-rs/producer/src/lib.rs:862-903 | the same for the rate-limited call, which is rejected without a lifetime and refused while the key lives |
| `ProducerRuns.DebounceWrites` | rrq-rs/producer/src/lib.rs:914-985 | the same for the debounced call, which moves the key's job to the call's queue and score and renews the key while that job is PENDING |
| `ProducerRuns.AcceptedCallsAreApart` | rrq-rs/producer/src/lib.rs:866-876 | whatever happens between them, two accepted calls with one rate key are at least the first one's lifetime apart |
| `ProducerRuns.RefusalsChangeNothing` | rrq-rs/producer/src/lib.rs:866-882 | a refused call changes no job and no queue, a rejected one nothing at all, and a duplicate id leaves the key free |
| `ProducerRuns.SameKeySameJob` | rrq-rs/producer/src/lib.rs:799-809 | until the key expires or the job's hash goes, every later call with the key answers the same id and changes nothing |
| `ProducerRuns.AnswersAccountForJobs` | rrq-rs/producer/src/lib.rs:789-985 | producers alone create exactly the jobs their answers say, once each, lose none, and leave each in the queue its hash names |
| `DebounceRuns.FoldMeaning` | rrq-rs/producer/src/lib.rs:918-938 | the folded job has the first call's identity, the last call's parameters and correlation, and the trace context of the last call that carried one |
| `DebounceRuns.CallsFoldIntoOneJob` | rrq-rs/producer/src/lib.rs:914-985 | calls on one key and queue, among anything else that leaves the job alone, all answer the first id and leave one job holding their fold and one new queue entry with the last score |
| `DebounceRuns.AnotherQueueLeavesTheOldEntry` | rrq-rs/producer/src/lib.rs:921-939 | a debounced call that names another queue leaves the job listed in both |
| `KeyLifetimes.IdempotencyKeyCoversDeferral` | rrq-rs/producer/src/lib.rs:253-269 | the idempotency key lives until the scheduled millisecond, whenever the script runs, if and only if the deferral lost no fraction of a millisecond on a whole second |
| `KeyLifetimes.IdempotencyKeyNearlyCovers` | rrq-rs/producer/src/lib.rs:253-269 | it never falls short by more than a millisecond |
| `KeyLifetimes.TtlIsConfiguredOrDeferral` | rrq-rs/producer/src/lib.rs:253-269 | a call is refused if and only if the configured lifetime is not positive; the key's lifetime is the configured one unless the deferral is longer, and then the deferral rounded up to a second |
| `KeyLifetimes.WindowIsCovered` | rrq-rs/producer/src/lib.rs:356-359 | the lifetime, computed as the source does from a 64-bit float of the seconds, is within a second of the window, and covers it if and only if the float has not lost the window's fraction of a second |
| `KeyLifetimes.EverydayWindowIsCovered` | rrq-rs/producer/src/lib.rs:356-359 | the float loses no fraction in windows below 2^23 - 1 seconds, and of these only the empty one is refused |
| `KeyLifetimes.LongWindowMayFallShort` | rrq-rs/producer/src/lib.rs:453-456 | a float of 2^24 seconds and a nanosecond, rounded within the bound, gives a key that goes before its window |
| `KeyLifetimes.DebounceKeyCovers` | rrq-rs/producer/src/lib.rs:431-456 | unless the float has lost a fraction, a debounce key lives until its job's scheduled millisecond |
| `Connection.StepKeepsSound` | rrq-rs/orchestrator/src/runner.rs:444-660 | every step of callers, reader and writer keeps each waiter's sender in exactly one place and the flag set before a drain |
| `Connection.NoStrandedWaiter` | rrq-rs/orchestrator/src/runner.rs:578-594 | after a drain no call past its second look at the flag is pending, and once deliveries are done each waiting one has its message |
| `Connection.AtMostOneMessage` | rrq-rs/orchestrator/src/runner.rs:644-660 | no waiter is ever sent two messages |
| `Connection.DrainedCallsGetOneError` | rrq-rs/orchestrator/src/runner.rs:649-660 | whatever follows a drain, each drained call has exactly one error when the closer has ended |
| `Connection.OnlyItsOwnOutcome` | rrq-rs/orchestrator/src/runner.rs:625-640 | a call returns Ok only with its own request id and job id, with that very outcome in its inbox; a mismatch only when the outcome it got names another job, a runner failure only when it was sent one; and the check of the request id never fails |
| `Connection.OutcomeReachesItsCall` | rrq-rs/orchestrator/src/runner.rs:519-523 | from every run in which the call is pending and the reader serves, the outcome with its request id is in its inbox as soon as the reader has handed it on, whatever the others do; the call returns what that outcome is due, Ok for its own job id and a mismatch for another, unless it gave up before; and if it waits, taking the message returns that |
| `Connection.OutcomeTouchesNobodyElse` | rrq-rs/orchestrator/src/runner.rs:519-530 | handing an outcome to its call changes nothing for any other call |
| `Connection.TakenMessageDecides` | rrq-rs/orchestrator/src/runner.rs:607-643 | what a call returns is decided by the message it takes: Ok for an outcome with its job id, a mismatch for another, the failure it was sent, or a closed connection |
| `Connection.UnnamedOutcomeIsAFailure` | rrq-rs/orchestrator/src/runner.rs:479-518 | an outcome without a request id gives the only pending call a failure, makes the reader close the connection when there are several, and is dropped when there is none |
| `Connection.OpenCallWaits` | rrq-rs/orchestrator/src/runner.rs:573-607 | on an open connection a call can go through to waiting, listed under its request id |
| `Connection.ClosedCallIsRefused` | rrq-rs/orchestrator/src/runner.rs:578-595 | a call that sees the closed flag at either look fails and leaves nothing pending |
| `Connection.UnansweredCallGivesUp` | rrq-rs/orchestrator/src/runner.rs:596-618 | a call that cannot be sent, or waits too long, fails and leaves nothing pending |
| `Connection.UnnamedOutcomeHelpsNobody` | rrq-rs/orchestrator/src/runner.rs:479-518 | in every run, none of the calls that are pending when an outcome without a request id comes, one or many, is ever sent an outcome or returns Ok |
| `Framing.FrameRoundTrip` | rrq-rs/protocol/src/lib.rs:216-236 | encoding and decoding a frame are inverse in both directions |
| `Framing.FrameIsLengthAndPayload` | rrq-rs/protocol/src/lib.rs:216-236 | a frame is the payload behind its length in four bytes, the most significant first, and every such sequence of bytes is a frame |
| `Framing.FrameAtFront` | rrq-ts/src/runner_runtime.ts:442-462 | the parser reads every frame that the encoder writes with a payload of 1 byte to 16 MiB, whatever follows it, and refuses an empty and a larger one, each by its own error |
| `Framing.FrameParser.Push` | rrq-ts/src/runner_runtime.ts:442-462 | a push leaves the unparsed rest in the buffer and returns the parsed messages, or the error, which loses them |
| `Framing.FrameParser.Feed` | rrq-ts/src/runner_runtime.ts:198-206 | a stream of chunks is parsed to its end or dies at the first chunk that brings a malformed frame into view, keeping what came before that chunk |
| `Framing.ParseContinues` | rrq-ts/src/runner_runtime.ts:442-462 | parsing may stop at any byte and go on when more come |
| `Framing.GoodStreamArrives` | rrq-ts/src/runner_runtime.ts:439-478 | however frames of 1 byte to 16 MiB are cut into chunks, exactly their messages arrive and the buffer ends empty |
| `Framing.BadFrameCutsTheStream` | rrq-ts/src/runner_runtime.ts:446-460 | behind a malformed frame the stream dies and what was delivered is a prefix of the messages in front of it |
| `RequestIndex.AddedIsInverse` | rrq-ts/src/runner_runtime.ts:233-235 | adding a request keeps the index the exact inverse if and only if the id was not in flight under another job |
| `RequestIndex.RemovedIsInverse` | rrq-ts/src/runner_runtime.ts:373-383 | removing a request keeps the index exact, empty sets included |
| `RequestIndex.LookupIsScan` | rrq-py/rrq/runner_runtime.py:121-124 | a lookup in an exact index finds what a scan of the table finds |
| `InflightTracker.Tracker.CancelOne` | rrq-py/rrq/runner_runtime.py:132-142 | one request is cancelled if it is in flight and leaves both tables |
| `InflightTracker.Tracker.Handle` | rrq-py/rrq/runner_runtime.py:111-130 | each event does what it does to the table without an index |
| `InflightTracker.Tracker.Run` | rrq-py/rrq/runner_runtime.py:108-130 | for any events with fresh starts the tracker refines the one that scans, cancels no task twice, and a Stop empties both tables |
| `InflightTracker.CancelledExactly` | rrq-py/rrq/runner_runtime.py:108-142 | for any events with fresh starts, a started task is cancelled if and only if the first event behind its start that names its request, its job or everything is not the request's own end, and is in flight if and only if there is none |
| `RunnerRuntime.Registry.HandleRequest` | rrq-ts/src/runner_runtime.ts:208-236 | a request is taken only in the right version and below 64 in flight on its connection |
| `RunnerRuntime.Registry.HandleSettled` | rrq-ts/src/runner_runtime.ts:238-256 | the end of an execution is answered only if the request is in flight and unanswered |
| `RunnerRuntime.Registry.HandleCancel` | rrq-ts/src/runner_runtime.ts:343-371 | a cancel completes every target in flight and answers those that were not completed |
| `RunnerRuntime.Registry.HandleCleanUp` | rrq-ts/src/runner_runtime.ts:373-383 | a clean-up removes the request, or nothing when its connection has closed before |
| `RunnerRuntime.Registry.HandleClose` | rrq-ts/src/runner_runtime.ts:270-280 | a closing connection removes all that is in flight on it |
| `RunnerRuntime.ConsistentMeans` | rrq-ts/src/runner_runtime.ts:207-280 | the index is what a scan finds, each active set is the connection's requests, at most 64, and every accepted request is unanswered in flight, answered once, or gone with its connection |
| `RunnerRuntime.Registry.Run` | rrq-ts/src/runner_runtime.ts:198-280 | every order of requests, completions, cancels, clean-ups and closes keeps the registry consistent |
| `PoolSockets.PortsAreFresh` | rrq-rs/orchestrator/src/runner.rs:763-771 | a handed-out port is in range and new if and only if the 32-bit sum has not wrapped around |
| `PoolSockets.SocketRunnerPool.New` | rrq-rs/orchestrator/src/runner.rs:666-725 | a pool that opens, managed or external, has all its processes on distinct ports from the base up, and a cursor that has not passed the last port; an external one in range always opens, on consecutive ports |
| `PoolSockets.SocketRunnerPool.SpawnProcess` | rrq-rs/orchestrator/src/runner.rs:775-905 | a spawn ends within its attempts, on the port it was to reuse or on a newly handed-out one; it gives up on a taken port or a failed connection only when the attempts are used up, and each attempt on a new port uses exactly one |
| `PoolSockets.SocketRunnerPool.EnsureStarted` | rrq-rs/orchestrator/src/runner.rs:727-761 | a start leaves all processes up or, when managed, none; an external one succeeds exactly when the ports reach |
| `PoolSockets.SocketRunnerPool.Respawn` | rrq-rs/orchestrator/src/runner.rs:1074-1097 | a respawn reuses the port, takes a new one, or leaves the process down on its old port; the other processes keep theirs, and all stay distinct |
| `PoolSockets.SocketRunnerPool.Close` | rrq-rs/orchestrator/src/runner.rs:1177-1184 | a closed pool keeps its cursor, so a restart uses new ports |
| `UniqueLock.LockCoversJob` | rrq-rs/orchestrator/src/client.rs:80-121 | the lock outlives timeout and extension, and is live at the scheduled millisecond if and only if that is not the millisecond it ends in |
| `UniqueLock.LockIsNoLonger` | rrq-rs/orchestrator/src/client.rs:80-121 | nor is it longer than the configured lifetime, the timeout with its extension, or the deferral to the second requires |
| `UniqueLock.TtlFloorIsChecked` | rrq-rs/orchestrator/src/client.rs:80-98 | an enqueue is refused exactly for a timeout that is not positive, or when the lifetime leaves 64 bits or is not positive |
| `UniqueLock.TtlReadIsClose` | rrq-rs/orchestrator/src/store.rs:972-976 | the lifetime a blocked caller reads is right to half a second |
| `UniqueLock.RRQClient.Contend` | rrq-rs/orchestrator/src/client.rs:123-144 | a blocked caller's job waits for the lifetime it read last: it reads before it tries to take the lock, and again when it is refused; a free lock is taken with its whole lifetime |
| `UniqueLock.RRQClient.Enqueue` | rrq-rs/orchestrator/src/client.rs:76-200 | an enqueue is scheduled exactly as asked, or at the end of the lifetime that was read in the course of the call if that is later; without a key nothing is read or taken; a free lock is taken with its whole lifetime; a taken id is refused and any other created; a failed one leaves the locks as they were |

## Left out

- LifecycleTheorems.MutualExclusion: speaks of executions as the orchestrator sees them; a runner's handler may go on after the timeout that ended its execution.
- LifecycleTheorems.NoJobIsLost: the owner read, the definition read and the lock of a recovery are one step, and two recoveries of one job do not overlap.
- LifecycleTheorems.NoJobIsLostUnderRightSuspicion: takes it as given that only crashed workers are suspected, that live jobs are taken over only while secured, and that dead letter requeues reset the status in time; the source enforces none of them, and without any one a job can be lost (`WrongSuspicionLosesJob`, `StaleListLosesJob`, `RequeueLosesJob`).
- StaleList.TakeIsSafeExactly: exact for lists of crashed workers; that an unsecured job may be lost holds for live ones too (`UnsecuredJobCanBeLost`), but when a takeover from a live worker's list is safe is not characterised, only that it can fail (`TrailingRemovalLosesJob`).
- LifecycleTheorems.LiveUntilItsEnd: a job that has failed and been requeued is not covered, since it keeps its lifetime (`RequeuedJobMayExpire`); and a hash running out in the middle of its handling is not modelled.
- NoLostJob.StepKeepsAnchor: the claim of several jobs by one script call is taken job by job, by a worker with no task on the job; so a worker does not claim a job again while its finished task lingers in its own table.
- RetryBudget.RetriesStayInBudget: counts how often the job left FAILED; that only dead letter requeues do so holds in prompt runs (`OnlyRequeuesExtendTheBudget`) and fails without (`LateReleaseOverspends`).
- PromptRuns.OnlyRequeuesExtendTheBudget: holds for runs in which nobody acts on a job past its lock, no drain aborts a task that has released it, and nobody else acts on the job during a dead letter requeue; and a recovery reads and locks in one step, without which it fails (`StaleReadRevivesCompletedJob`).
- FinishedJobs.FinishedJobIsLeftAlone: a recovery reads the definition and locks in one step; in the source these are two commands, and a finished job can be queued by a recovery that read it live (`StaleReadRevivesCompletedJob`, exactly when: `FinishedJobIsLeftExactly`).
- FinishedJobs.CompletedForEver: as for `FinishedJobIsLeftAlone`.
- OrphanRecovery.Recoverer.RecoverOrphans: the order of the SCAN and of the active sets is arbitrary, and workers do not become healthy or lost during the pass.
- Polling.RRQWorker.PollForJobs: its fetch count and fairness are claimed for a store that is calm, reliable and has at most three stuck entries before any ready job, the bound for requests of one; its accounting is claimed for every store.
- Polling.RRQWorker.Run: burst mode, which ends the loop at the first empty poll of an idle worker, and the pauses between polls.
- Polling.RRQWorker.ServeQueue: a claim whose answer is lost has claimed nothing in the model; in the source such jobs stay active and locked until recovery finds them.
- DeadLetters.DeadLetterList.Requeue: a job is known by its list entry; the source goes by the id its hash carries and reads the hashes one by one.
- ProducerScripts.Redis.EnqueueScript: Redis refuses lifetimes that overflow its clock; the model has unbounded time.
- KeyLifetimes.WindowIsCovered: the float operations are known by their rounding bounds, for windows of fewer than 2^53 seconds; which of the allowed floats the hardware gives is not modelled.
- Connection.NoStrandedWaiter: says nothing about how soon a delivery happens, nor about a full channel to the writer.
- PoolSockets.PortsAreFresh: 32-bit sums wrap around, as in a release build; a debug build panics instead.
- UniqueLock.RRQClient.Enqueue: a deferral beyond the calendar's range panics in the source; and since the lock is deleted without a look at its owner, no global uniqueness is claimed.
- RunnerRuntime.Registry.HandleRequest: answers to refused requests and to unexpected messages touch no table and are not recorded.
- Result and dead letter lifetimes of hashes, event streams, start and completion times, error texts and next_scheduled_run_time.
- Retry delay and its jitter: the score of a retry is arbitrary.
- Unique locks within the lifecycle, which frees them without an owner check, and the forced release of a lock of the wrong type outside the poll loop's clean-up.
- Liveness of process acquisition: a permit notifies before it is released.
- Process spawning, log capture, connect retries, TLS, Redis clusters, JSON and timestamp syntax, telemetry, configuration, command-line display and cron parsing.
