/**
 The job lifecycle protocol: any number of workers acting on one Redis, one
 Redis command or script at a time, with crashes between any two of them.

 All commands of the protocol name one job id, so the state is a product: each
 job has a `View` (its part of Redis, plus what each worker is about to do with
 it), and only the clock, the crashed workers and the draining workers are
 shared.
 */
module Lifecycle {
  import opened Wrappers
  import opened JobRecord

  type JobId = nat

  datatype Outcome = Success | AskRetry | Failure | Fatal | TimedOut

  /** Why a claimed job is being released. */
  datatype Cause =
    | Known(job: Job)     // its definition was loaded
    | Malformed           // its definition did not parse: quarantine
    | Unread              // the definitions could not be loaded

  /** What a worker is about to do with the job. */
  datatype Phase =
    // the poll loop, between the claim and the dispatch
    | Claimed(queue: QueueName)
    | Loaded(queue: QueueName, found: Option<Job>)
    | Releasing(queue: QueueName, cause: Cause)
    | Marking(queue: QueueName)
    | Checking(queue: QueueName)
    | Adding(queue: QueueName)
    | Purging(queue: QueueName)
    | Inspecting
    | Condemning
    | Dropping
    | Unlocking
    // the spawned task
    | Dispatched(queue: QueueName, job: Job, since: int)
    | Executing(queue: QueueName, job: Job, since: int, started: int)
    | Reporting(queue: QueueName, job: Job, outcome: Outcome, deadline: int)
    | Tidying(queue: QueueName, deadline: int)
    | Freeing(queue: QueueName, deadline: int)
    // the lock is released, the entry in the worker's own table is still there
    | Lingering(queue: QueueName)
    // the shutdown drain; `owes` says that the aborted task had not handed the job over
    | DrainReading(queue: QueueName, owes: bool)
    | DrainRequeueing(queue: QueueName, owes: bool)

  datatype Stage = Holding(job: Job) | Demoting | Restoring(job: Job) | Detaching | Unlatching | Trailing | Finishing

  /** Worker `rescuer` recovers the job from the active set of worker `lost`. */
  datatype Rescue = Rescue(rescuer: WorkerId, lost: WorkerId, stage: Stage)

  type OperatorId = nat

  /** An operator requeues the job from the dead letter list: it has taken it off
      the list, or has also put it in the queue and still has to reset its status.
      `overtaken` says that since then the job was finished, or forgotten. */
  datatype Requeueing = Lifted(target: QueueName) | Resetting(target: QueueName, overtaken: bool)

  /** `revivals` counts how often the job left the FAILED state. */
  datatype View = View(
    rec: Record,
    tasks: map<WorkerId, Phase>,
    rescue: Option<Rescue>,
    operators: map<OperatorId, Requeueing>,
    revivals: nat)

  const FRESH := View(UNTOUCHED, map[], None, map[], 0)

  datatype PollOp = Claim(queue: QueueName) | Sweep(queue: QueueName)

  datatype BatchOp =
    | Load | FailLoad | Refresh | GiveBack
    | ReadOwner | MarkPending | CheckQueued | AddToQueue(score: int)
    | Purge | Inspect | Condemn
    | RemoveActive | Unlock

  datatype TaskOp = Start | Reject | Finish(outcome: Outcome) | Report(score: int, ttl: int) | Tidy | Free | Leave

  datatype DrainOp = Abort | ReadStatus | Requeue(score: int)

  datatype SuspectOp = Take(lost: WorkerId) | Forget(lost: WorkerId)

  datatype RescueOp = Check | Demote | Restore(score: int) | Detach | Unlatch | Trail | Done

  datatype ClientOp =
    | Enqueue(job: Job, queue: QueueName, score: int)
    | Lift(operator: OperatorId, target: QueueName)
    | Put(operator: OperatorId, score: int)
    | Reset(operator: OperatorId)
    | GiveUp(operator: OperatorId)
    | Expire

  datatype Step =
    | Poll(worker: WorkerId, pollOp: PollOp)
    | Batch(worker: WorkerId, batchOp: BatchOp)
    | Task(worker: WorkerId, taskOp: TaskOp)
    | Drain(worker: WorkerId, drainOp: DrainOp)
    | Suspect(rescuer: WorkerId, suspectOp: SuspectOp)
    | Recover(rescuer: WorkerId, rescueOp: RescueOp)
    | Client(clientOp: ClientOp)

  // ---------- the poll loop and its release helpers

  predicate PollEnabled(now: int, v: View, w: WorkerId, op: PollOp) {
    match op
    case Claim(q) => w !in v.tasks && Claimable(v.rec, q, now)
    case Sweep(q) => q in v.rec.queued && v.rec.hash.None?
  }

  function PollApply(cfg: Settings, now: int, v: View, w: WorkerId, op: PollOp): View
    requires PollEnabled(now, v, w, op)
  {
    match op
    case Claim(q) => v.(rec := JobRecord.Claim(v.rec, q, w, cfg, now), tasks := v.tasks[w := Claimed(q)])
    case Sweep(q) => v.(rec := RemoveFromQueue(v.rec, q))
  }

  predicate BatchEnabled(cfg: Settings, v: View, w: WorkerId, op: BatchOp) {
    && w in v.tasks
    && match op
      case Load => v.tasks[w].Claimed? && v.rec.hash.Some?
      case FailLoad => v.tasks[w].Claimed?
      case Refresh => v.tasks[w].Loaded? && v.tasks[w].found.Some? && 0 < LockTtl(v.tasks[w].found.value, cfg)
      case GiveBack => v.tasks[w].Loaded?
      case ReadOwner => v.tasks[w].Releasing?
      case MarkPending => v.tasks[w].Marking?
      case CheckQueued => v.tasks[w].Checking?
      case AddToQueue(_) => v.tasks[w].Adding?
      case Purge => v.tasks[w].Purging?
      case Inspect => v.tasks[w].Inspecting?
      case Condemn => v.tasks[w].Condemning?
      case RemoveActive => v.tasks[w].Dropping?
      case Unlock => v.tasks[w].Unlocking?
  }

  /** Where `release_claimed_job` and its siblings go once the owner is read. */
  function AfterOwnerRead(cause: Cause, queue: QueueName, w: WorkerId, foreign: bool): Phase {
    if foreign then Dropping
    else match cause
      case Known(job) =>
        if job.worker != Some(w) || !LiveStatus(job.status) then Dropping
        else if job.status == Active then Marking(queue)
        else Checking(queue)
      case Malformed => Purging(queue)
      case Unread => Marking(queue)
  }

  function BatchApply(cfg: Settings, now: int, v: View, w: WorkerId, op: BatchOp): View
    requires BatchEnabled(cfg, v, w, op)
  {
    match op
    case Load =>
      var job := v.rec.hash.value;
      v.(tasks := v.tasks[w := Loaded(v.tasks[w].queue, if job.wellFormed then Some(job) else None)])
    case FailLoad => v.(tasks := v.tasks[w := Releasing(v.tasks[w].queue, Unread)])
    case Refresh =>
      var Loaded(q, Some(job)) := v.tasks[w];
      if LockedBy(v.rec, Worker(w), now) then
        v.(rec := JobRecord.Refresh(v.rec, Worker(w), now, LockTtl(job, cfg)),
           tasks := v.tasks[w := Dispatched(q, job, now)])
      else
        v.(tasks := v.tasks[w := Releasing(q, Known(job))])
    case GiveBack =>
      var Loaded(q, found) := v.tasks[w];
      v.(tasks := v.tasks[w := Releasing(q, match found case Some(job) => Known(job) case None => Malformed)])
    case ReadOwner =>
      var Releasing(q, cause) := v.tasks[w];
      v.(tasks := v.tasks[w := AfterOwnerRead(cause, q, w, LockedByOther(v.rec, Worker(w), now))])
    case MarkPending =>
      v.(rec := JobRecord.MarkPending(v.rec), tasks := v.tasks[w := Checking(v.tasks[w].queue)])
    case CheckQueued =>
      var q := v.tasks[w].queue;
      v.(tasks := v.tasks[w := if q in v.rec.queued then Dropping else Adding(q)])
    case AddToQueue(score) =>
      v.(rec := JobRecord.AddToQueue(v.rec, v.tasks[w].queue, score), tasks := v.tasks[w := Dropping])
    case Purge =>
      v.(rec := RemoveFromQueue(v.rec, v.tasks[w].queue), tasks := v.tasks[w := Inspecting])
    case Inspect => v.(tasks := v.tasks[w := if v.rec.hash.Some? then Condemning else Dropping])
    case Condemn => v.(rec := JobRecord.Condemn(v.rec), tasks := v.tasks[w := Dropping])
    case RemoveActive => v.(rec := JobRecord.RemoveActive(v.rec, w), tasks := v.tasks[w := Unlocking])
    case Unlock => v.(rec := ReleaseIfOwner(v.rec, Worker(w), now), tasks := v.tasks - {w})
  }

  /** The operations that write nothing to Redis. */
  predicate OnlyLooks(op: BatchOp) {
    op.Load? || op.FailLoad? || op.GiveBack? || op.ReadOwner? || op.CheckQueued? || op.Inspect?
  }

  /** The operations that touch the worker's lock or its active set. */
  predicate Tracks(op: BatchOp) {
    op.Refresh? || op.RemoveActive? || op.Unlock?
  }

  // ---------- execute_job

  predicate TaskEnabled(now: int, v: View, w: WorkerId, op: TaskOp) {
    && w in v.tasks
    && match op
       case Start => v.tasks[w].Dispatched?
       case Reject => v.tasks[w].Dispatched?
       case Finish(_) => v.tasks[w].Executing?
       case Report(_, _) => v.tasks[w].Reporting?
       case Tidy => v.tasks[w].Tidying?
       case Free => v.tasks[w].Freeing?
       case Leave => v.tasks[w].Lingering?
  }

  /** The write `handle_execution_outcome` makes.  The budget is decided on the
      definition the worker loaded, not on the hash. */
  function Reported(r: Record, job: Job, outcome: Outcome, score: int, ttl: int): Record {
    if outcome.Success? then SaveResult(r, ttl)
    else if IsFinal(job, outcome) then MoveToDlq(r)
    else Retry(r, job.queue, score)
  }

  /** The outcome leaves the job with nothing more to run. */
  predicate IsFinal(job: Job, outcome: Outcome) {
    outcome.Success? || outcome.Fatal? || outcome.TimedOut? || job.retries + 1 >= job.maxRetries
  }

  function TaskApply(cfg: Settings, now: int, v: View, w: WorkerId, op: TaskOp): View
    requires TaskEnabled(now, v, w, op)
  {
    match op
    case Start =>
      var Dispatched(q, job, since) := v.tasks[w];
      v.(tasks := v.tasks[w := Executing(q, job, since, now)])
    case Reject =>
      var Dispatched(q, job, _) := v.tasks[w];
      v.(tasks := v.tasks[w := Reporting(q, job, Fatal, now + cfg.handlingBudget)])
    case Finish(outcome) =>
      var Executing(q, job, _, _) := v.tasks[w];
      v.(tasks := v.tasks[w := Reporting(q, job, outcome, now + cfg.handlingBudget)])
    case Report(score, ttl) =>
      var Reporting(q, job, outcome, deadline) := v.tasks[w];
      v.(rec := Reported(v.rec, job, outcome, score, ttl), tasks := v.tasks[w := Tidying(q, deadline)])
    case Tidy =>
      var Tidying(q, deadline) := v.tasks[w];
      v.(rec := JobRecord.RemoveActive(v.rec, w), tasks := v.tasks[w := Freeing(q, deadline)])
    case Free =>
      v.(rec := ReleaseIfOwner(v.rec, Worker(w), now), tasks := v.tasks[w := Lingering(v.tasks[w].queue)])
    case Leave => v.(tasks := v.tasks - {w})
  }

  // ---------- drain_tasks

  predicate Spawned(phase: Phase) {
    phase.Dispatched? || phase.Executing? || phase.Reporting? || phase.Tidying? || phase.Freeing?
  }

  predicate DrainEnabled(v: View, w: WorkerId, op: DrainOp) {
    && w in v.tasks
    && match op
       case Abort => Spawned(v.tasks[w]) || v.tasks[w].Lingering?
       case ReadStatus => v.tasks[w].DrainReading?
       case Requeue(_) => v.tasks[w].DrainRequeueing?
  }

  function DrainApply(now: int, v: View, w: WorkerId, op: DrainOp): View
    requires DrainEnabled(v, w, op)
  {
    match op
    case Abort =>
      var handedOver := v.tasks[w].Tidying? || v.tasks[w].Freeing? || v.tasks[w].Lingering?;
      v.(tasks := v.tasks[w := DrainReading(v.tasks[w].queue, !handedOver)])
    case ReadStatus =>
      var DrainReading(q, owes) := v.tasks[w];
      v.(tasks := v.tasks[w := if Live(v.rec) then DrainRequeueing(q, owes) else Dropping])
    case Requeue(score) =>
      v.(rec := JobRecord.Requeue(v.rec, v.tasks[w].queue, score, Worker(w), w, now),
         tasks := v.tasks[w := Dropping])
  }

  // ---------- recover_orphaned_jobs

  /** The owner read, the definition read and the lock are one step here, and two
      recoveries of one job do not overlap.  A definition that does not parse
      ends the recovery pass before it takes the lock. */
  predicate SuspectEnabled(cfg: Settings, now: int, v: View, op: SuspectOp) {
    match op
    case Take(_) =>
      && v.rescue.None? && v.rec.hash.Some? && v.rec.hash.value.wellFormed
      && !Locked(v.rec, now) && 0 < LockTtl(v.rec.hash.value, cfg)
    case Forget(_) => v.rescue.None? && v.rec.hash.None?
  }

  function SuspectApply(cfg: Settings, now: int, v: View, rescuer: WorkerId, op: SuspectOp): View
    requires SuspectEnabled(cfg, now, v, op)
  {
    match op
    case Take(lost) =>
      var job := v.rec.hash.value;
      // For a finished job the queue check that follows changes nothing.
      var stage := if LiveStatus(job.status) then Holding(job) else Detaching;
      v.(rec := TryLock(v.rec, Recovery(lost), now, LockTtl(job, cfg)),
         rescue := Some(Rescue(rescuer, lost, stage)))
    case Forget(lost) => v.(rec := JobRecord.RemoveActive(v.rec, lost))
  }

  predicate RescueEnabled(v: View, rescuer: WorkerId, op: RescueOp) {
    && v.rescue.Some? && v.rescue.value.rescuer == rescuer
    && var stage := v.rescue.value.stage;
       match op
         case Check => stage.Holding?
         case Demote => stage.Demoting?
         case Restore(_) => stage.Restoring?
         case Detach => stage.Detaching?
         case Unlatch => stage.Unlatching?
         case Trail => stage.Trailing?
         case Done => stage.Finishing?
  }

  function RescueApply(now: int, v: View, rescuer: WorkerId, op: RescueOp): View
    requires RescueEnabled(v, rescuer, op)
  {
    var Rescue(_, lost, stage) := v.rescue.value;
    match op
    case Check =>
      var next :=
        if stage.job.queue !in v.rec.queued then Restoring(stage.job)
        else if stage.job.status == Active then Demoting
        else Detaching;
      v.(rescue := Some(Rescue(rescuer, lost, next)))
    case Demote => v.(rec := JobRecord.MarkPending(v.rec), rescue := Some(Rescue(rescuer, lost, Detaching)))
    case Restore(score) =>
      v.(rec := JobRecord.Requeue(v.rec, stage.job.queue, score, Recovery(lost), lost, now),
         rescue := Some(Rescue(rescuer, lost, Trailing)))
    case Detach => v.(rec := JobRecord.RemoveActive(v.rec, lost), rescue := Some(Rescue(rescuer, lost, Unlatching)))
    case Unlatch => v.(rec := ReleaseIfOwner(v.rec, Recovery(lost), now), rescue := None)
    case Trail => v.(rec := JobRecord.RemoveActive(v.rec, lost), rescue := Some(Rescue(rescuer, lost, Finishing)))
    case Done => v.(rec := ReleaseIfOwner(v.rec, Recovery(lost), now), rescue := None)
  }

  // ---------- producers, operators and key expiry

  predicate PositiveTimeout(job: Job) {
    job.timeoutSeconds.Some? ==> 0 < job.timeoutSeconds.value
  }

  /** Job ids are not reused, and no hash runs out while a worker or a recovery is at
      work on the job. */
  predicate ClientEnabled(v: View, op: ClientOp) {
    match op
    case Enqueue(job, queue, _) =>
      v == FRESH && job.status == Pending && job.retries == 0 && job.queue == queue && PositiveTimeout(job)
    case Lift(o, _) => o !in v.operators && 0 < v.rec.dlq
    case Put(o, _) => o in v.operators && v.operators[o].Lifted?
    case Reset(o) => o in v.operators && v.operators[o].Resetting?
    case GiveUp(o) => o in v.operators
    case Expire => v.rec.hash.Some? && v.rec.mortal && v.tasks == map[] && v.rescue.None?
  }

  function ClientApply(v: View, op: ClientOp): View
    requires ClientEnabled(v, op)
  {
    match op
    case Enqueue(job, queue, score) => v.(rec := JobRecord.Enqueue(v.rec, job, queue, score))
    case Lift(o, target) => v.(rec := LiftFromDlq(v.rec), operators := v.operators[o := Lifted(target)])
    case Put(o, score) =>
      var target := v.operators[o].target;
      v.(rec := JobRecord.AddToQueue(v.rec, target, score), operators := v.operators[o := Resetting(target, false)])
    case Reset(o) => v.(rec := ResetStatus(v.rec, v.operators[o].target), operators := v.operators - {o})
    case GiveUp(o) => v.(operators := v.operators - {o})
    case Expire => v.(rec := v.rec.(hash := None, mortal := false))
  }

  // ---------- one step on one job

  predicate Enabled(cfg: Settings, now: int, v: View, step: Step) {
    match step
    case Poll(w, op) => PollEnabled(now, v, w, op)
    case Batch(w, op) => BatchEnabled(cfg, v, w, op)
    case Task(w, op) => TaskEnabled(now, v, w, op)
    case Drain(w, op) => DrainEnabled(v, w, op)
    case Suspect(_, op) => SuspectEnabled(cfg, now, v, op)
    case Recover(rescuer, op) => RescueEnabled(v, rescuer, op)
    case Client(op) => ClientEnabled(v, op)
  }

  predicate HasFailed(r: Record) {
    r.hash.Some? && r.hash.value.status == Failed
  }

  predicate Revives(before: Record, after: Record) {
    HasFailed(before) && after.hash.Some? && !HasFailed(after)
  }

  /** The step reports that there is nothing more to run of the job. */
  predicate Ends(v: View, step: Step) {
    || (step.Batch? && step.batchOp.Condemn?)
    || (step.Task? && step.taskOp.Report? && step.worker in v.tasks && v.tasks[step.worker].Reporting? &&
        IsFinal(v.tasks[step.worker].job, v.tasks[step.worker].outcome))
  }

  /** The job is finished, or its hash or its dangling queue entry goes. */
  predicate Overtakes(v: View, step: Step) {
    || Ends(v, step)
    || (step.Poll? && step.pollOp.Sweep?)
    || (step.Client? && step.clientOp.Expire?)
  }

  function Overtaken(operators: map<OperatorId, Requeueing>): map<OperatorId, Requeueing> {
    map o | o in operators :: if operators[o].Resetting? then operators[o].(overtaken := true) else operators[o]
  }

  /** The step without what is remembered of it: revivals and overtaken operators. */
  function Uncounted(cfg: Settings, now: int, v: View, step: Step): View
    requires Enabled(cfg, now, v, step)
  {
    match step
    case Poll(w, op) => PollApply(cfg, now, v, w, op)
    case Batch(w, op) => BatchApply(cfg, now, v, w, op)
    case Task(w, op) => TaskApply(cfg, now, v, w, op)
    case Drain(w, op) => DrainApply(now, v, w, op)
    case Suspect(rescuer, op) => SuspectApply(cfg, now, v, rescuer, op)
    case Recover(rescuer, op) => RescueApply(now, v, rescuer, op)
    case Client(op) => ClientApply(v, op)
  }

  function Apply(cfg: Settings, now: int, v: View, step: Step): View
    requires Enabled(cfg, now, v, step)
  {
    var next := Uncounted(cfg, now, v, step);
    next.(revivals := v.revivals + (if Revives(v.rec, next.rec) then 1 else 0),
          operators := if Overtakes(v, step) then Overtaken(next.operators) else next.operators)
  }

  // ---------- several steps on one job, with nothing in between

  predicate CanTake(cfg: Settings, now: int, v: View, steps: seq<Step>)
    decreases |steps|
  {
    steps == [] || (Enabled(cfg, now, v, steps[0]) && CanTake(cfg, now, Apply(cfg, now, v, steps[0]), steps[1..]))
  }

  function AfterSteps(cfg: Settings, now: int, v: View, steps: seq<Step>): View
    requires CanTake(cfg, now, v, steps)
    decreases |steps|
  {
    if steps == [] then v else AfterSteps(cfg, now, Apply(cfg, now, v, steps[0]), steps[1..])
  }

  lemma TakeOne(cfg: Settings, now: int, v: View, step: Step, rest: seq<Step>)
    requires Enabled(cfg, now, v, step) && CanTake(cfg, now, Apply(cfg, now, v, step), rest)
    ensures CanTake(cfg, now, v, [step] + rest)
    ensures AfterSteps(cfg, now, v, [step] + rest) == AfterSteps(cfg, now, Apply(cfg, now, v, step), rest)
  {}

  predicate Moves(cfg: Settings, now: int, v: View, step: Step, next: View) {
    Enabled(cfg, now, v, step) && Apply(cfg, now, v, step) == next
  }

  lemma BatchMoves(cfg: Settings, now: int, v: View, w: WorkerId, op: BatchOp, next: View)
    requires BatchEnabled(cfg, v, w, op) && BatchApply(cfg, now, v, w, op) == next
    requires !Revives(v.rec, next.rec) && !op.Condemn?
    ensures Moves(cfg, now, v, Batch(w, op), next)
  {}

  lemma TaskMoves(cfg: Settings, now: int, v: View, w: WorkerId, op: TaskOp, next: View)
    requires TaskEnabled(now, v, w, op) && !op.Report? && TaskApply(cfg, now, v, w, op) == next
    ensures Moves(cfg, now, v, Task(w, op), next)
  {}

  lemma ClaimMoves(cfg: Settings, now: int, v: View, w: WorkerId, queue: QueueName, next: View)
    requires PollEnabled(now, v, w, Claim(queue))
    requires PollApply(cfg, now, v, w, Claim(queue)).(revivals := v.revivals + if HasFailed(v.rec) then 1 else 0) ==
             next
    ensures Moves(cfg, now, v, Poll(w, Claim(queue)), next)
  {}

  lemma SuspectMoves(cfg: Settings, now: int, v: View, rescuer: WorkerId, op: SuspectOp, next: View)
    requires SuspectEnabled(cfg, now, v, op) && SuspectApply(cfg, now, v, rescuer, op) == next
    requires !Revives(v.rec, next.rec)
    ensures Moves(cfg, now, v, Suspect(rescuer, op), next)
  {}

  lemma RecoverMoves(cfg: Settings, now: int, v: View, rescuer: WorkerId, op: RescueOp, next: View)
    requires RescueEnabled(v, rescuer, op) && RescueApply(now, v, rescuer, op) == next
    requires !Revives(v.rec, next.rec)
    ensures Moves(cfg, now, v, Recover(rescuer, op), next)
  {}

  /** Every step leads from one of the views to the next. */
  predicate IsPath(cfg: Settings, now: int, views: seq<View>, steps: seq<Step>) {
    |views| == |steps| + 1 && forall i :: 0 <= i < |steps| ==> Moves(cfg, now, views[i], steps[i], views[i + 1])
  }

  lemma {:induction false} PathIsTaken(cfg: Settings, now: int, views: seq<View>, steps: seq<Step>)
    requires IsPath(cfg, now, views, steps)
    ensures CanTake(cfg, now, views[0], steps) && AfterSteps(cfg, now, views[0], steps) == views[|steps|]
    decreases |steps|
  {
    if steps != [] {
      assert Moves(cfg, now, views[0], steps[0], views[1]);
      PathIsTaken(cfg, now, views[1..], steps[1..]);
    }
  }

  // ---------- the whole system

  datatype System = System(now: int, dead: set<WorkerId>, draining: set<WorkerId>, jobs: map<JobId, View>)

  datatype Event =
    | OnJob(job: JobId, step: Step)
    | Tick(to: int)
    | Crash(worker: WorkerId)
    | Shutdown(worker: WorkerId)

  function Of(s: System, j: JobId): View {
    if j in s.jobs then s.jobs[j] else FRESH
  }

  predicate ActorAllowed(s: System, step: Step) {
    match step
    case Poll(w, _) => w !in s.dead && w !in s.draining
    case Batch(w, _) => w !in s.dead
    case Task(w, _) => w !in s.dead
    case Drain(w, _) => w !in s.dead && w in s.draining
    case Suspect(rescuer, _) => rescuer !in s.dead
    case Recover(rescuer, _) => rescuer !in s.dead
    case Client(_) => true
  }

  /** The stages that run under the recovery lock. */
  predicate Latched(stage: Stage) {
    stage.Holding? || stage.Demoting? || stage.Restoring? || stage.Detaching? || stage.Unlatching?
  }

  /** The timing assumption: dispatch, execution and outcome handling each keep
      to their budget, and a recovery finishes before its lock runs out. */
  predicate MayAdvance(cfg: Settings, v: View, to: int) {
    && (forall w :: w in v.tasks ==>
          match v.tasks[w]
          case Dispatched(_, _, since) => to <= since + cfg.dispatchBudget
          case Executing(_, job, _, started) => to <= started + TimeoutMs(job, cfg)
          case Reporting(_, _, _, deadline) => to <= deadline
          case Tidying(_, deadline) => to <= deadline
          case Freeing(_, deadline) => to <= deadline
          case _ => true)
    && (v.rescue.Some? && Latched(v.rescue.value.stage) ==> Locked(v.rec, to))
  }

  /** What a crash of `w` takes away: its own plans, nothing of Redis. */
  function Bereave(v: View, w: WorkerId): View {
    v.(tasks := v.tasks - {w}, rescue := if v.rescue.Some? && v.rescue.value.rescuer == w then None else v.rescue)
  }

  predicate EventEnabled(cfg: Settings, s: System, e: Event) {
    match e
    case OnJob(j, step) => ActorAllowed(s, step) && Enabled(cfg, s.now, Of(s, j), step)
    case Tick(to) => s.now <= to && forall j :: j in s.jobs ==> MayAdvance(cfg, s.jobs[j], to)
    case Crash(_) => true
    case Shutdown(_) => true
  }

  function Happen(cfg: Settings, s: System, e: Event): System
    requires EventEnabled(cfg, s, e)
  {
    match e
    case OnJob(j, step) => s.(jobs := s.jobs[j := Apply(cfg, s.now, Of(s, j), step)])
    case Tick(to) => s.(now := to)
    case Crash(w) => s.(dead := s.dead + {w}, jobs := map j | j in s.jobs :: Bereave(s.jobs[j], w))
    case Shutdown(w) => s.(draining := s.draining + {w})
  }

  const START := System(0, {}, {}, map[])

  /** Every event of the run was possible when it happened. */
  predicate IsRun(cfg: Settings, s: System, run: seq<Event>)
    decreases |run|
  {
    run == [] || (EventEnabled(cfg, s, run[0]) && IsRun(cfg, Happen(cfg, s, run[0]), run[1..]))
  }

  function After(cfg: Settings, s: System, run: seq<Event>): System
    requires IsRun(cfg, s, run)
    decreases |run|
  {
    if run == [] then s else After(cfg, Happen(cfg, s, run[0]), run[1..])
  }
}
