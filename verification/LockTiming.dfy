/**
 Every worker that executes a job, or reports on it, holds the unexpired job lock,
 and every recovery runs under its own lock.
 */
module LockTiming {
  import opened Wrappers
  import opened JobRecord
  import opened Lifecycle

  // ---------- executing workers hold unexpired locks

  /** The lock of `w`, and how much of it is left, in each phase of a spawned task. */
  predicate OnTime(cfg: Settings, now: int, r: Record, w: WorkerId, phase: Phase) {
    match phase
    case Loaded(_, found) => found.Some? ==> PositiveTimeout(found.value)
    case Dispatched(_, job, since) =>
      && PositiveTimeout(job)
      && r.lock == Some(Lock(Worker(w), since + LockTtl(job, cfg)))
      && since <= now <= since + cfg.dispatchBudget
    case Executing(_, job, since, started) =>
      && PositiveTimeout(job)
      && r.lock == Some(Lock(Worker(w), since + LockTtl(job, cfg)))
      && since <= started <= since + cfg.dispatchBudget
      && started <= now <= started + TimeoutMs(job, cfg)
    case Reporting(_, _, _, deadline) => LockedBy(r, Worker(w), deadline) && now <= deadline
    case Tidying(_, deadline) => LockedBy(r, Worker(w), deadline) && now <= deadline
    case Freeing(_, deadline) => LockedBy(r, Worker(w), deadline) && now <= deadline
    case _ => true
  }

  /** A malformed definition stays malformed: quarantine and execution never
      work on the same job. */
  predicate Matches(r: Record, phase: Phase) {
    r.hash.Some? &&
    match phase
    case Loaded(_, found) => found.Some? == r.hash.value.wellFormed
    case Releasing(_, cause) => !cause.Unread? ==> cause.Known? == r.hash.value.wellFormed
    case Purging(_) => !r.hash.value.wellFormed
    case Inspecting => !r.hash.value.wellFormed
    case Condemning => !r.hash.value.wellFormed
    case _ => Spawned(phase) ==> r.hash.value.wellFormed
  }

  predicate WellTimed(cfg: Settings, now: int, v: View) {
    && (forall w :: w in v.tasks ==> OnTime(cfg, now, v.rec, w, v.tasks[w]) && Matches(v.rec, v.tasks[w]))
    && (v.rec.hash.Some? ==> PositiveTimeout(v.rec.hash.value))
    && (v.rescue.Some? ==>
          && v.rec.hash.Some? && v.rec.hash.value.wellFormed
          && var Rescue(_, lost, stage) := v.rescue.value;
             && (Latched(stage) ==> LockedBy(v.rec, Recovery(lost), now))
             && (stage.Holding? || stage.Demoting? || stage.Restoring? ==> Live(v.rec)))
  }

  lemma SpawnedHoldsLock(cfg: Settings, now: int, v: View, w: WorkerId)
    requires cfg.Valid() && WellTimed(cfg, now, v)
    requires w in v.tasks && Spawned(v.tasks[w])
    ensures LockedBy(v.rec, Worker(w), now)
  {}

  lemma PollKeepsTiming(cfg: Settings, now: int, v: View, w: WorkerId, op: PollOp)
    requires cfg.Valid() && WellTimed(cfg, now, v) && PollEnabled(now, v, w, op)
    ensures WellTimed(cfg, now, PollApply(cfg, now, v, w, op))
  {}

  lemma LookKeepsTiming(cfg: Settings, now: int, v: View, w: WorkerId, op: BatchOp)
    requires cfg.Valid() && WellTimed(cfg, now, v) && BatchEnabled(cfg, v, w, op)
    requires OnlyLooks(op)
    ensures WellTimed(cfg, now, BatchApply(cfg, now, v, w, op))
  {
    var v' := BatchApply(cfg, now, v, w, op);
    assert OnTime(cfg, now, v.rec, w, v.tasks[w]) && Matches(v.rec, v.tasks[w]);
    forall x | x in v'.tasks ensures OnTime(cfg, now, v'.rec, x, v'.tasks[x]) && Matches(v'.rec, v'.tasks[x]) {
      assert x in v.tasks && OnTime(cfg, now, v.rec, x, v.tasks[x]) && Matches(v.rec, v.tasks[x]);
    }
  }

  lemma TrackingKeepsTiming(cfg: Settings, now: int, v: View, w: WorkerId, op: BatchOp)
    requires cfg.Valid() && WellTimed(cfg, now, v) && BatchEnabled(cfg, v, w, op)
    requires Tracks(op) && !op.Refresh?
    ensures WellTimed(cfg, now, BatchApply(cfg, now, v, w, op))
  {
    var v' := BatchApply(cfg, now, v, w, op);
    assert OnTime(cfg, now, v.rec, w, v.tasks[w]) && Matches(v.rec, v.tasks[w]);
    forall x | x in v'.tasks ensures OnTime(cfg, now, v'.rec, x, v'.tasks[x]) && Matches(v'.rec, v'.tasks[x]) {
      assert x in v.tasks && OnTime(cfg, now, v.rec, x, v.tasks[x]) && Matches(v.rec, v.tasks[x]);
    }
  }

  lemma RefreshKeepsTiming(cfg: Settings, now: int, v: View, w: WorkerId)
    requires cfg.Valid() && WellTimed(cfg, now, v) && BatchEnabled(cfg, v, w, Lifecycle.Refresh)
    ensures WellTimed(cfg, now, BatchApply(cfg, now, v, w, Lifecycle.Refresh))
  {
    var v' := BatchApply(cfg, now, v, w, Lifecycle.Refresh);
    assert OnTime(cfg, now, v.rec, w, v.tasks[w]) && Matches(v.rec, v.tasks[w]);
    forall x | x in v'.tasks ensures OnTime(cfg, now, v'.rec, x, v'.tasks[x]) && Matches(v'.rec, v'.tasks[x]) {
      assert x in v.tasks && OnTime(cfg, now, v.rec, x, v.tasks[x]) && Matches(v.rec, v.tasks[x]);
    }
  }

  lemma WriteKeepsTiming(cfg: Settings, now: int, v: View, w: WorkerId, op: BatchOp)
    requires cfg.Valid() && WellTimed(cfg, now, v) && BatchEnabled(cfg, v, w, op)
    requires !OnlyLooks(op) && !Tracks(op)
    ensures WellTimed(cfg, now, BatchApply(cfg, now, v, w, op))
  {}

  lemma BatchKeepsTiming(cfg: Settings, now: int, v: View, w: WorkerId, op: BatchOp)
    requires cfg.Valid() && WellTimed(cfg, now, v) && BatchEnabled(cfg, v, w, op)
    ensures WellTimed(cfg, now, BatchApply(cfg, now, v, w, op))
  {
    if OnlyLooks(op) { LookKeepsTiming(cfg, now, v, w, op); }
    else if op.Refresh? { RefreshKeepsTiming(cfg, now, v, w); }
    else if Tracks(op) { TrackingKeepsTiming(cfg, now, v, w, op); }
    else { WriteKeepsTiming(cfg, now, v, w, op); }
  }

  lemma RunningKeepsTiming(cfg: Settings, now: int, v: View, w: WorkerId, op: TaskOp)
    requires cfg.Valid() && WellTimed(cfg, now, v) && TaskEnabled(now, v, w, op)
    requires op.Start? || op.Reject? || op.Finish?
    ensures WellTimed(cfg, now, TaskApply(cfg, now, v, w, op))
  {}

  lemma ReportingKeepsTiming(cfg: Settings, now: int, v: View, w: WorkerId, op: TaskOp)
    requires cfg.Valid() && WellTimed(cfg, now, v) && TaskEnabled(now, v, w, op)
    requires op.Report?
    ensures WellTimed(cfg, now, TaskApply(cfg, now, v, w, op))
  {
    var v' := TaskApply(cfg, now, v, w, op);
    assert OnTime(cfg, now, v.rec, w, v.tasks[w]) && Matches(v.rec, v.tasks[w]);
    forall x | x in v'.tasks ensures OnTime(cfg, now, v'.rec, x, v'.tasks[x]) && Matches(v'.rec, v'.tasks[x]) {
      assert x in v.tasks && OnTime(cfg, now, v.rec, x, v.tasks[x]) && Matches(v.rec, v.tasks[x]);
    }
  }

  lemma CleaningUpKeepsTiming(cfg: Settings, now: int, v: View, w: WorkerId, op: TaskOp)
    requires cfg.Valid() && WellTimed(cfg, now, v) && TaskEnabled(now, v, w, op)
    requires op.Tidy? || op.Free? || op.Leave?
    ensures WellTimed(cfg, now, TaskApply(cfg, now, v, w, op))
  {
    var v' := TaskApply(cfg, now, v, w, op);
    assert OnTime(cfg, now, v.rec, w, v.tasks[w]) && Matches(v.rec, v.tasks[w]);
    forall x | x in v'.tasks ensures OnTime(cfg, now, v'.rec, x, v'.tasks[x]) && Matches(v'.rec, v'.tasks[x]) {
      assert x in v.tasks && OnTime(cfg, now, v.rec, x, v.tasks[x]) && Matches(v.rec, v.tasks[x]);
    }
  }

  lemma TaskKeepsTiming(cfg: Settings, now: int, v: View, w: WorkerId, op: TaskOp)
    requires cfg.Valid() && WellTimed(cfg, now, v) && TaskEnabled(now, v, w, op)
    ensures WellTimed(cfg, now, TaskApply(cfg, now, v, w, op))
  {
    if op.Start? || op.Reject? || op.Finish? { RunningKeepsTiming(cfg, now, v, w, op); }
    else if op.Report? { ReportingKeepsTiming(cfg, now, v, w, op); }
    else { CleaningUpKeepsTiming(cfg, now, v, w, op); }
  }

  lemma DrainKeepsTiming(cfg: Settings, now: int, v: View, w: WorkerId, op: DrainOp)
    requires cfg.Valid() && WellTimed(cfg, now, v) && DrainEnabled(v, w, op)
    ensures WellTimed(cfg, now, DrainApply(now, v, w, op))
  {
    var v' := DrainApply(now, v, w, op);
    if op.Requeue? { HandingBackKeepsTiming(cfg, now, v, w, op); return; }
    forall x | x in v'.tasks ensures OnTime(cfg, now, v'.rec, x, v'.tasks[x]) && Matches(v'.rec, v'.tasks[x]) {
      assert x in v.tasks && OnTime(cfg, now, v.rec, x, v.tasks[x]) && Matches(v.rec, v.tasks[x]);
    }
  }

  lemma HandingBackKeepsTiming(cfg: Settings, now: int, v: View, w: WorkerId, op: DrainOp)
    requires cfg.Valid() && WellTimed(cfg, now, v) && DrainEnabled(v, w, op) && op.Requeue?
    ensures WellTimed(cfg, now, DrainApply(now, v, w, op))
  {
    var v' := DrainApply(now, v, w, op);
    forall x | x in v'.tasks ensures OnTime(cfg, now, v'.rec, x, v'.tasks[x]) && Matches(v'.rec, v'.tasks[x]) {
      assert x in v.tasks && OnTime(cfg, now, v.rec, x, v.tasks[x]) && Matches(v.rec, v.tasks[x]);
    }
  }

  lemma SuspectKeepsTiming(cfg: Settings, now: int, v: View, rescuer: WorkerId, op: SuspectOp)
    requires cfg.Valid() && WellTimed(cfg, now, v) && SuspectEnabled(cfg, now, v, op)
    ensures WellTimed(cfg, now, SuspectApply(cfg, now, v, rescuer, op))
  {}

  lemma RescueKeepsTiming(cfg: Settings, now: int, v: View, rescuer: WorkerId, op: RescueOp)
    requires cfg.Valid() && WellTimed(cfg, now, v) && RescueEnabled(v, rescuer, op)
    ensures WellTimed(cfg, now, RescueApply(now, v, rescuer, op))
  {}

  lemma ClientKeepsTiming(cfg: Settings, now: int, v: View, op: ClientOp)
    requires cfg.Valid() && WellTimed(cfg, now, v) && ClientEnabled(v, op)
    ensures WellTimed(cfg, now, ClientApply(v, op))
  {}

  lemma StepKeepsTiming(cfg: Settings, now: int, v: View, step: Step)
    requires cfg.Valid() && WellTimed(cfg, now, v) && Enabled(cfg, now, v, step)
    ensures WellTimed(cfg, now, Apply(cfg, now, v, step))
  {
    var v' := Apply(cfg, now, v, step);
    match step {
      case Poll(w, op) => PollKeepsTiming(cfg, now, v, w, op);
      case Batch(w, op) => BatchKeepsTiming(cfg, now, v, w, op);
      case Task(w, op) => TaskKeepsTiming(cfg, now, v, w, op);
      case Drain(w, op) => DrainKeepsTiming(cfg, now, v, w, op);
      case Suspect(r, op) => SuspectKeepsTiming(cfg, now, v, r, op);
      case Recover(r, op) => RescueKeepsTiming(cfg, now, v, r, op);
      case Client(op) => ClientKeepsTiming(cfg, now, v, op);
    }
  }
}
