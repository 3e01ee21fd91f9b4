/**
 Runs in which no worker sits on a job past its lock.  In them a job is in one
 place at a time, and only an operator brings a FAILED job back.
 */
module PromptRuns {
  import opened JobRecord
  import opened Lifecycle
  import opened LockTiming
  import opened LifecycleTheorems
  import opened RetryBudget

  /** The phases in which the worker still acts on the job's status or queue. */
  predicate ActsOn(phase: Phase) {
    Tracked(phase) || phase.DrainReading? || phase.DrainRequeueing?
  }

  /** Nobody acts on a job past its lock, a drain does not abort a task that has
      released its lock, and a requeue from the dead letter list finds nobody at work
      on the job and is left alone until it is done. */
  predicate PromptEvent(s: System, e: Event) {
    match e
    case Tick(to) =>
      forall j, w :: j in s.jobs && w in s.jobs[j].tasks && ActsOn(s.jobs[j].tasks[w]) ==> Locked(s.jobs[j].rec, to)
    case OnJob(j, step) => PromptStep(Of(s, j), step)
    case _ => true
  }

  predicate PromptStep(v: View, step: Step) {
    && (step.Drain? && step.drainOp.Abort? && step.worker in v.tasks ==> Spawned(v.tasks[step.worker]))
    && (step.Client? && step.clientOp.Lift? ==> v.tasks == map[] && v.rescue.None?)
    && (v.operators != map[] ==> step.Client? && (step.clientOp.Put? || step.clientOp.Reset?))
  }

  predicate PromptRun(cfg: Settings, s: System, run: seq<Event>)
    requires IsRun(cfg, s, run)
    decreases |run|
  {
    run == [] || (PromptEvent(s, run[0]) && PromptRun(cfg, Happen(cfg, s, run[0]), run[1..]))
  }

  predicate SameQueue(queue: QueueName, phase: Phase) {
    match phase
    case Claimed(q) => q == queue
    case Loaded(q, found) => q == queue && (found.Some? ==> found.value.queue == queue)
    case Releasing(q, _) => q == queue
    case Marking(q) => q == queue
    case Checking(q) => q == queue
    case Adding(q) => q == queue
    case Dispatched(q, job, _) => q == queue == job.queue
    case Executing(q, job, _, _) => q == queue == job.queue
    case Reporting(q, job, _, _) => q == queue == job.queue
    case Tidying(q, _) => q == queue
    case Freeing(q, _) => q == queue
    case Lingering(_) => true
    case DrainReading(q, _) => q == queue
    case DrainRequeueing(q, _) => q == queue
    case _ => true
  }

  predicate Placed(now: int, r: Record, w: WorkerId, phase: Phase) {
    && r.hash.Some? && SameQueue(r.hash.value.queue, phase)
    && (ActsOn(phase) ==> LockedBy(r, Worker(w), now))
    && (Tracked(phase) ==> r.queued == map[])
    && (Tracked(phase) || phase.DrainRequeueing? ==> Live(r))
  }

  /** The job is in one place: queued in its own queue, or in the hands of the
      worker that holds its lock, or finished and in no queue; or an operator is
      requeuing it, or its hash has run out and left a queue entry behind. */
  predicate InOnePlace(now: int, v: View) {
    && (forall w :: w in v.tasks ==> Placed(now, v.rec, w, v.tasks[w]))
    && |v.rec.queued| <= 1
    && (v.rec.queued != map[] && v.rec.hash.Some? && v.operators == map[] ==>
          Live(v.rec) && v.rec.hash.value.queue in v.rec.queued)
    && (0 < v.rec.dlq ==> v.rec.queued == map[] && (v.rec.hash.Some? ==> HasFailed(v.rec)))
    && (v.rec.hash.None? ==> v.tasks == map[] && v.rescue.None?)
    && v.rec.dlq <= 1
    && (v.rescue.Some? && (v.rescue.value.stage.Holding? || v.rescue.value.stage.Restoring?) ==>
          v.rec.hash.Some? && v.rescue.value.stage.job.queue == v.rec.hash.value.queue)
    && Requeued(v)
  }

  /** One operator at most is between its commands, and nobody else is at work then. */
  predicate Requeued(v: View) {
    v.operators != map[] ==>
      && |v.operators| == 1 && v.tasks == map[] && v.rescue.None? && v.rec.dlq == 0
      && (v.rec.hash.Some? ==> HasFailed(v.rec))
      && forall o :: o in v.operators ==>
           match v.operators[o]
           case Lifted(_) => v.rec.queued == map[]
           case Resetting(target, _) => target in v.rec.queued
  }

  predicate SystemInOnePlace(s: System) {
    forall j :: j in s.jobs ==> InOnePlace(s.now, s.jobs[j])
  }

  lemma OnlyEntry(queued: map<QueueName, int>, q: QueueName)
    requires |queued| <= 1 && q in queued
    ensures queued - {q} == map[] && forall p :: p in queued ==> p == q
  {
    var others := queued.Keys - {q};
    assert |others| == 0;
    assert (queued - {q}).Keys == others;
  }

  lemma PollStaysPlaced(cfg: Settings, now: int, v: View, w: WorkerId, op: PollOp)
    requires cfg.Valid() && WellTimed(cfg, now, v) && PollEnabled(now, v, w, op) && InOnePlace(now, v)
    requires PromptStep(v, Poll(w, op))
    ensures InOnePlace(now, PollApply(cfg, now, v, w, op)) && !Revives(v.rec, PollApply(cfg, now, v, w, op).rec)
  {
    OnlyEntry(v.rec.queued, op.queue);
  }

  lemma LookStaysPlaced(cfg: Settings, now: int, v: View, w: WorkerId, op: BatchOp)
    requires cfg.Valid() && WellTimed(cfg, now, v) && BatchEnabled(cfg, v, w, op) && InOnePlace(now, v)
    requires PromptStep(v, Batch(w, op))
    requires OnlyLooks(op)
    ensures InOnePlace(now, BatchApply(cfg, now, v, w, op)) && !Revives(v.rec, BatchApply(cfg, now, v, w, op).rec)
  {}

  lemma TrackingStaysPlaced(cfg: Settings, now: int, v: View, w: WorkerId, op: BatchOp)
    requires cfg.Valid() && WellTimed(cfg, now, v) && BatchEnabled(cfg, v, w, op) && InOnePlace(now, v)
    requires PromptStep(v, Batch(w, op))
    requires Tracks(op)
    ensures InOnePlace(now, BatchApply(cfg, now, v, w, op)) && !Revives(v.rec, BatchApply(cfg, now, v, w, op).rec)
  {
    var v' := BatchApply(cfg, now, v, w, op);
    assert Placed(now, v.rec, w, v.tasks[w]);
    forall x | x in v'.tasks ensures Placed(now, v'.rec, x, v'.tasks[x]) {
      assert x in v.tasks && Placed(now, v.rec, x, v.tasks[x]);
    }
  }

  lemma WriteStaysPlaced(cfg: Settings, now: int, v: View, w: WorkerId, op: BatchOp)
    requires cfg.Valid() && WellTimed(cfg, now, v) && BatchEnabled(cfg, v, w, op) && InOnePlace(now, v)
    requires PromptStep(v, Batch(w, op))
    requires !OnlyLooks(op) && !Tracks(op)
    ensures InOnePlace(now, BatchApply(cfg, now, v, w, op)) && !Revives(v.rec, BatchApply(cfg, now, v, w, op).rec)
  {
    var v' := BatchApply(cfg, now, v, w, op);
    assert Placed(now, v.rec, w, v.tasks[w]);
    forall x | x in v'.tasks ensures Placed(now, v'.rec, x, v'.tasks[x]) {
      assert x in v.tasks && Placed(now, v.rec, x, v.tasks[x]);
    }
  }

  lemma BatchStaysPlaced(cfg: Settings, now: int, v: View, w: WorkerId, op: BatchOp)
    requires cfg.Valid() && WellTimed(cfg, now, v) && BatchEnabled(cfg, v, w, op) && InOnePlace(now, v)
    requires PromptStep(v, Batch(w, op))
    ensures InOnePlace(now, BatchApply(cfg, now, v, w, op)) && !Revives(v.rec, BatchApply(cfg, now, v, w, op).rec)
  {
    if OnlyLooks(op) { LookStaysPlaced(cfg, now, v, w, op); }
    else if Tracks(op) { TrackingStaysPlaced(cfg, now, v, w, op); }
    else { WriteStaysPlaced(cfg, now, v, w, op); }
  }

  lemma RunningStaysPlaced(cfg: Settings, now: int, v: View, w: WorkerId, op: TaskOp)
    requires cfg.Valid() && WellTimed(cfg, now, v) && TaskEnabled(now, v, w, op) && InOnePlace(now, v)
    requires PromptStep(v, Task(w, op))
    requires op.Start? || op.Reject? || op.Finish?
    ensures InOnePlace(now, TaskApply(cfg, now, v, w, op)) && !Revives(v.rec, TaskApply(cfg, now, v, w, op).rec)
  {}

  lemma ReportingStaysPlaced(cfg: Settings, now: int, v: View, w: WorkerId, op: TaskOp)
    requires cfg.Valid() && WellTimed(cfg, now, v) && TaskEnabled(now, v, w, op) && InOnePlace(now, v)
    requires PromptStep(v, Task(w, op))
    requires op.Report?
    ensures InOnePlace(now, TaskApply(cfg, now, v, w, op)) && !Revives(v.rec, TaskApply(cfg, now, v, w, op).rec)
  {
    var v' := TaskApply(cfg, now, v, w, op);
    assert Placed(now, v.rec, w, v.tasks[w]);
    forall x | x in v'.tasks ensures Placed(now, v'.rec, x, v'.tasks[x]) {
      assert x in v.tasks && Placed(now, v.rec, x, v.tasks[x]);
    }
  }

  lemma TidyingStaysPlaced(cfg: Settings, now: int, v: View, w: WorkerId, op: TaskOp)
    requires cfg.Valid() && WellTimed(cfg, now, v) && TaskEnabled(now, v, w, op) && InOnePlace(now, v)
    requires PromptStep(v, Task(w, op))
    requires op.Tidy? || op.Free? || op.Leave?
    ensures InOnePlace(now, TaskApply(cfg, now, v, w, op)) && !Revives(v.rec, TaskApply(cfg, now, v, w, op).rec)
  {
    var v' := TaskApply(cfg, now, v, w, op);
    assert Placed(now, v.rec, w, v.tasks[w]);
    forall x | x in v'.tasks ensures Placed(now, v'.rec, x, v'.tasks[x]) {
      assert x in v.tasks && Placed(now, v.rec, x, v.tasks[x]);
    }
  }

  lemma TaskStaysPlaced(cfg: Settings, now: int, v: View, w: WorkerId, op: TaskOp)
    requires cfg.Valid() && WellTimed(cfg, now, v) && TaskEnabled(now, v, w, op) && InOnePlace(now, v)
    requires PromptStep(v, Task(w, op))
    ensures InOnePlace(now, TaskApply(cfg, now, v, w, op)) && !Revives(v.rec, TaskApply(cfg, now, v, w, op).rec)
  {
    if op.Start? || op.Reject? || op.Finish? { RunningStaysPlaced(cfg, now, v, w, op); }
    else if op.Report? { ReportingStaysPlaced(cfg, now, v, w, op); }
    else { TidyingStaysPlaced(cfg, now, v, w, op); }
  }

  lemma DrainReadStaysPlaced(cfg: Settings, now: int, v: View, w: WorkerId, op: DrainOp)
    requires cfg.Valid() && WellTimed(cfg, now, v) && DrainEnabled(v, w, op) && InOnePlace(now, v)
    requires PromptStep(v, Drain(w, op))
    requires !op.Requeue?
    ensures InOnePlace(now, DrainApply(now, v, w, op)) && !Revives(v.rec, DrainApply(now, v, w, op).rec)
  {
    var v' := DrainApply(now, v, w, op);
    assert Placed(now, v.rec, w, v.tasks[w]);
    if op.Abort? { SpawnedHoldsLock(cfg, now, v, w); }
    forall x | x in v'.tasks ensures Placed(now, v'.rec, x, v'.tasks[x]) {
      assert x in v.tasks && Placed(now, v.rec, x, v.tasks[x]);
    }
  }

  lemma DrainRequeueStaysPlaced(cfg: Settings, now: int, v: View, w: WorkerId, op: DrainOp)
    requires cfg.Valid() && WellTimed(cfg, now, v) && DrainEnabled(v, w, op) && InOnePlace(now, v)
    requires PromptStep(v, Drain(w, op))
    requires op.Requeue?
    ensures InOnePlace(now, DrainApply(now, v, w, op)) && !Revives(v.rec, DrainApply(now, v, w, op).rec)
  {
    var v' := DrainApply(now, v, w, op);
    assert Placed(now, v.rec, w, v.tasks[w]);
    forall x | x in v'.tasks ensures Placed(now, v'.rec, x, v'.tasks[x]) {
      assert x in v.tasks && Placed(now, v.rec, x, v.tasks[x]);
    }
  }

  lemma DrainStaysPlaced(cfg: Settings, now: int, v: View, w: WorkerId, op: DrainOp)
    requires cfg.Valid() && WellTimed(cfg, now, v) && DrainEnabled(v, w, op) && InOnePlace(now, v)
    requires PromptStep(v, Drain(w, op))
    ensures InOnePlace(now, DrainApply(now, v, w, op)) && !Revives(v.rec, DrainApply(now, v, w, op).rec)
  {
    if op.Requeue? { DrainRequeueStaysPlaced(cfg, now, v, w, op); } else { DrainReadStaysPlaced(cfg, now, v, w, op); }
  }

  lemma SuspectStaysPlaced(cfg: Settings, now: int, v: View, rescuer: WorkerId, op: SuspectOp)
    requires cfg.Valid() && WellTimed(cfg, now, v) && SuspectEnabled(cfg, now, v, op) && InOnePlace(now, v)
    requires PromptStep(v, Suspect(rescuer, op))
    ensures InOnePlace(now, SuspectApply(cfg, now, v, rescuer, op))
    ensures !Revives(v.rec, SuspectApply(cfg, now, v, rescuer, op).rec)
  {}

  lemma RescueStaysPlaced(cfg: Settings, now: int, v: View, rescuer: WorkerId, op: RescueOp)
    requires cfg.Valid() && WellTimed(cfg, now, v) && RescueEnabled(v, rescuer, op) && InOnePlace(now, v)
    requires PromptStep(v, Recover(rescuer, op))
    ensures InOnePlace(now, RescueApply(now, v, rescuer, op)) && !Revives(v.rec, RescueApply(now, v, rescuer, op).rec)
  {}

  function Requeue(e: Event, j: JobId): nat {
    if e.OnJob? && e.job == j && e.step.Client? && e.step.clientOp.Reset? then 1 else 0
  }

  /** How often the run requeues job `j` from the dead letter list. */
  function Requeues(run: seq<Event>, j: JobId): nat {
    if run == [] then 0 else Requeue(run[0], j) + Requeues(run[1..], j)
  }

  lemma ClientStaysPlaced(cfg: Settings, now: int, v: View, op: ClientOp)
    requires cfg.Valid() && WellTimed(cfg, now, v) && ClientEnabled(v, op) && PromptStep(v, Client(op))
    requires InOnePlace(now, v)
    ensures InOnePlace(now, Apply(cfg, now, v, Client(op)))
    ensures Revives(v.rec, Apply(cfg, now, v, Client(op)).rec) ==> op.Reset?
  {
    if op.Put? || op.Reset? { OnlyOperator(v.operators, op.operator); }
  }

  lemma OnlyOperator(operators: map<OperatorId, Requeueing>, o: OperatorId)
    requires |operators| == 1 && o in operators
    ensures operators.Keys == {o} && operators - {o} == map[]
  {
    var others := operators.Keys - {o};
    assert |others| == 0;
    assert (operators - {o}).Keys == others;
  }

  lemma CountingStaysPlaced(cfg: Settings, now: int, v: View, step: Step)
    requires Enabled(cfg, now, v, step) && v.operators == map[] && !step.Client?
    ensures var u, v' := Uncounted(cfg, now, v, step), Apply(cfg, now, v, step);
            v' == u.(revivals := v'.revivals) && (InOnePlace(now, u) ==> InOnePlace(now, v'))
  {
    var u, v' := Uncounted(cfg, now, v, step), Apply(cfg, now, v, step);
    assert u.operators == map[] && Overtaken(u.operators) == map[];
    if InOnePlace(now, u) {
      forall w | w in v'.tasks ensures Placed(now, v'.rec, w, v'.tasks[w]) { assert Placed(now, u.rec, w, u.tasks[w]); }
    }
  }

  lemma StepStaysPlaced(cfg: Settings, s: System, j: JobId, step: Step)
    requires cfg.Valid() && EventEnabled(cfg, s, OnJob(j, step)) && PromptEvent(s, OnJob(j, step))
    requires WellTimed(cfg, s.now, Of(s, j)) && InOnePlace(s.now, Of(s, j))
    ensures InOnePlace(s.now, Apply(cfg, s.now, Of(s, j), step))
    ensures Apply(cfg, s.now, Of(s, j), step).revivals <= Of(s, j).revivals + Requeue(OnJob(j, step), j)
  {
    var v := Of(s, j);
    if !step.Client? { CountingStaysPlaced(cfg, s.now, v, step); }
    match step {
      case Poll(w, op) => PollStaysPlaced(cfg, s.now, v, w, op);
      case Batch(w, op) => BatchStaysPlaced(cfg, s.now, v, w, op);
      case Task(w, op) => TaskStaysPlaced(cfg, s.now, v, w, op);
      case Drain(w, op) => DrainStaysPlaced(cfg, s.now, v, w, op);
      case Suspect(r, op) => SuspectStaysPlaced(cfg, s.now, v, r, op);
      case Recover(r, op) => RescueStaysPlaced(cfg, s.now, v, r, op);
      case Client(op) => ClientStaysPlaced(cfg, s.now, v, op);
    }
  }

  lemma EventStaysPlaced(cfg: Settings, s: System, e: Event, k: JobId)
    requires cfg.Valid() && SystemTimed(cfg, s) && SystemInOnePlace(s)
    requires EventEnabled(cfg, s, e) && PromptEvent(s, e)
    ensures SystemInOnePlace(Happen(cfg, s, e))
    ensures Of(Happen(cfg, s, e), k).revivals <= Of(s, k).revivals + Requeue(e, k)
  {
    var s' := Happen(cfg, s, e);
    if e.OnJob? { StepStaysPlaced(cfg, s, e.job, e.step); }
    forall j | j in s'.jobs ensures InOnePlace(s'.now, s'.jobs[j]) {
      if !(e.OnJob? && e.job == j) { OtherEventStaysPlaced(cfg, s, e, j); }
    }
  }

  lemma OtherEventStaysPlaced(cfg: Settings, s: System, e: Event, j: JobId)
    requires EventEnabled(cfg, s, e) && PromptEvent(s, e) && j in s.jobs && InOnePlace(s.now, s.jobs[j])
    requires !(e.OnJob? && e.job == j)
    ensures InOnePlace(Happen(cfg, s, e).now, Happen(cfg, s, e).jobs[j])
  {
    var s' := Happen(cfg, s, e);
    var v := s'.jobs[j];
    forall w | w in v.tasks ensures Placed(s'.now, v.rec, w, v.tasks[w]) {
      assert Placed(s.now, s.jobs[j].rec, w, s.jobs[j].tasks[w]);
    }
  }

  lemma {:induction false} RunStaysPlaced(cfg: Settings, s: System, run: seq<Event>, j: JobId)
    requires cfg.Valid() && SystemTimed(cfg, s) && SystemInOnePlace(s)
    requires IsRun(cfg, s, run) && PromptRun(cfg, s, run)
    ensures SystemInOnePlace(After(cfg, s, run))
    ensures Of(After(cfg, s, run), j).revivals <= Of(s, j).revivals + Requeues(run, j)
    decreases |run|
  {
    if run != [] {
      EventKeepsTiming(cfg, s, run[0]);
      EventStaysPlaced(cfg, s, run[0], j);
      RunStaysPlaced(cfg, Happen(cfg, s, run[0]), run[1..], j);
    }
  }

  /** In a prompt run a job is never queued while a worker answers for it, never
      queued twice, and its count never exceeds max(1, max_retries) plus the
      number of its requeues from the dead letter list. */
  lemma OnlyRequeuesExtendTheBudget(cfg: Settings, run: seq<Event>, j: JobId)
    requires cfg.Valid() && IsRun(cfg, START, run) && PromptRun(cfg, START, run)
    ensures var s := After(cfg, START, run);
            var v := Of(s, j);
            && |v.rec.queued| <= 1
            && (forall w :: w in v.tasks && Tracked(v.tasks[w]) ==>
                  v.rec.queued == map[] && LockedBy(v.rec, Worker(w), s.now))
            && (v.rec.hash.Some? ==> v.rec.hash.value.retries <= Cap(v.rec.hash.value, Requeues(run, j)))
  {
    RunStaysPlaced(cfg, START, run, j);
    RetriesStayInBudget(cfg, run, j);
    var s := After(cfg, START, run);
    var v := Of(s, j);
    assert forall w :: w in v.tasks ==> Placed(s.now, v.rec, w, v.tasks[w]);
    assert v.rec.queued != map[] ==> |v.rec.queued.Keys| == 1;
    assert |v.rec.queued| == |v.rec.queued.Keys|;
  }
}
