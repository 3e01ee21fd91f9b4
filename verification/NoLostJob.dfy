/**
 No job is lost: a job that still has to run always has an anchor, something in
 Redis or a worker's unfinished business that will put it back or finish it.
 */
module NoLostJob {
  import opened JobRecord
  import opened Lifecycle
  import opened LockTiming

  datatype Anchor =
    | InQueue(queue: QueueName)
    | Carried(worker: WorkerId)     // a running worker still answers for the job
    | InRescue                      // a recovery holds the lock and will requeue
    | OnList(worker: WorkerId)      // on the list of a worker that will not just drop it

  /** The worker will not let go of the job before it is queued or finished,
      unless it finds the lock in other hands. */
  predicate Carries(r: Record, w: WorkerId, phase: Phase) {
    match phase
    case Claimed(_) => r.hash.Some? && Owns(r.hash.value, w)
    case Loaded(_, found) => found.Some? ==> Owns(found.value, w)
    case Releasing(_, cause) => cause.Known? ==> Owns(cause.job, w)
    case Dropping => false
    case Unlocking => false
    case Tidying(_, _) => false
    case Freeing(_, _) => false
    case Lingering(_) => false
    case DrainReading(_, owes) => owes && Live(r)
    case DrainRequeueing(_, owes) => owes
    case _ => true
  }

  /** Past the last point where a foreign lock could make the worker drop the job. */
  predicate Committed(phase: Phase) {
    || phase.Marking? || phase.Checking? || phase.Adding?
    || phase.Purging? || phase.Inspecting? || phase.Condemning?
    || phase.DrainReading? || phase.DrainRequeueing?
  }

  /** The worker takes the job off its list no more, unless it queues or finishes it. */
  predicate Keeps(phase: Phase) {
    Committed(phase) || phase.Unlocking? || phase.Lingering?
  }

  /** The recovery will take the job off the list of worker `lost`. */
  predicate Detaches(stage: Stage) {
    stage.Demoting? || stage.Detaching? || stage.Trailing?
  }

  predicate BeingDetached(v: View, w: WorkerId) {
    v.rescue.Some? && v.rescue.value.lost == w && Detaches(v.rescue.value.stage)
  }

  predicate Holds(v: View, a: Anchor) {
    match a
    case InQueue(q) => q in v.rec.queued
    case Carried(w) => w in v.tasks && Carries(v.rec, w, v.tasks[w])
    case InRescue => v.rescue.Some? && (v.rescue.value.stage.Holding? || v.rescue.value.stage.Restoring?)
    case OnList(w) => w in v.rec.active && (w in v.tasks ==> Keeps(v.tasks[w])) && !BeingDetached(v, w)
  }

  /** Redis itself will not forget the job, whoever crashes: it is in a queue, or on the
      list of a worker that will not just drop it. */
  predicate Secured(v: View) {
    || v.rec.queued != map[]
    || exists w :: w in v.rec.active && (w in v.tasks ==> Keeps(v.tasks[w])) && !BeingDetached(v, w)
  }

  /** While the job is locked, only the lock's owner may be an uncommitted carrier. */
  predicate Steadfast(now: int, v: View, a: Anchor) {
    Locked(v.rec, now) && a.Carried? && a.worker in v.tasks && !Committed(v.tasks[a.worker]) ==>
      LockedBy(v.rec, Worker(a.worker), now)
  }

  /** An operator has queued the job and will reset its status, and nobody has
      finished or forgotten the job in between. */
  predicate Awaited(v: View) {
    exists o :: o in v.operators && v.operators[o].Resetting? && !v.operators[o].overtaken
  }

  /** Where a finished job that an operator has queued can be: in a queue, with a
      worker that has purged it and not yet condemned it, or on the list of one that
      was about to. */
  predicate Findable(v: View) {
    || v.rec.queued != map[]
    || (exists w :: w in v.tasks && (v.tasks[w].Inspecting? || v.tasks[w].Condemning?))
    || (v.rec.hash.Some? && !v.rec.hash.value.wellFormed && exists w :: w in v.rec.active && w !in v.tasks)
  }

  ghost predicate LiveAnchored(now: int, v: View) {
    Live(v.rec) ==> exists a :: Holds(v, a) && Steadfast(now, v, a)
  }

  predicate Sought(v: View) {
    !Live(v.rec) && Awaited(v) ==> Findable(v)
  }

  /** A live job has an anchor, and one that is about to be live again can be found. */
  ghost predicate Anchored(now: int, v: View) {
    LiveAnchored(now, v) && Sought(v)
  }

  // ---------- every step hands the anchor on

  lemma PollKeepsAnchor(cfg: Settings, now: int, v: View, w: WorkerId, op: PollOp)
    requires cfg.Valid() && WellTimed(cfg, now, v) && PollEnabled(now, v, w, op)
    requires Anchored(now, v)
    ensures LiveAnchored(now, PollApply(cfg, now, v, w, op))
  {
    var v' := PollApply(cfg, now, v, w, op);
    if op.Claim? {
      ClaimTtlPositive(v.rec.hash.value, cfg);
      assert Holds(v', Carried(w)) && Steadfast(now, v', Carried(w));
    }
  }

  lemma ClaimTtlPositive(job: Job, cfg: Settings)
    requires cfg.Valid()
    ensures 0 < ClaimTtl(job, cfg)
  {}

  lemma LookKeepsAnchor(cfg: Settings, now: int, v: View, w: WorkerId, op: BatchOp)
    requires cfg.Valid() && WellTimed(cfg, now, v) && BatchEnabled(cfg, v, w, op) && OnlyLooks(op)
    requires Anchored(now, v)
    ensures LiveAnchored(now, BatchApply(cfg, now, v, w, op))
  {
    var v' := BatchApply(cfg, now, v, w, op);
    if Live(v'.rec) {
      if op.CheckQueued? || op.Inspect? {
        var a := if op.CheckQueued? && v.tasks[w].queue in v.rec.queued then InQueue(v.tasks[w].queue) else Carried(w);
        assert Holds(v', a) && Steadfast(now, v', a);
      } else {
        LoadKeepsAnchor(cfg, now, v, w, op);
      }
    }
  }

  lemma LoadKeepsAnchor(cfg: Settings, now: int, v: View, w: WorkerId, op: BatchOp)
    requires cfg.Valid() && WellTimed(cfg, now, v) && BatchEnabled(cfg, v, w, op)
    requires op.Load? || op.FailLoad? || op.GiveBack? || op.ReadOwner?
    requires LiveAnchored(now, v) && Live(v.rec)
    ensures LiveAnchored(now, BatchApply(cfg, now, v, w, op))
  {
    var v' := BatchApply(cfg, now, v, w, op);
    var a :| Holds(v, a) && Steadfast(now, v, a);
    assert Holds(v', a) && Steadfast(now, v', a);
  }

  lemma RefreshKeepsAnchor(cfg: Settings, now: int, v: View, w: WorkerId)
    requires cfg.Valid() && WellTimed(cfg, now, v) && BatchEnabled(cfg, v, w, Lifecycle.Refresh) && Anchored(now, v)
    ensures LiveAnchored(now, BatchApply(cfg, now, v, w, Lifecycle.Refresh))
  {
    var v' := BatchApply(cfg, now, v, w, Lifecycle.Refresh);
    if Live(v'.rec) {
      var a :| Holds(v, a) && Steadfast(now, v, a);
      assert Holds(v', a) && Steadfast(now, v', a);
    }
  }

  lemma TrackingKeepsAnchor(cfg: Settings, now: int, v: View, w: WorkerId, op: BatchOp)
    requires cfg.Valid() && WellTimed(cfg, now, v) && BatchEnabled(cfg, v, w, op) && Tracks(op) && !op.Refresh?
    requires Anchored(now, v)
    ensures LiveAnchored(now, BatchApply(cfg, now, v, w, op))
  {
    var v' := BatchApply(cfg, now, v, w, op);
    if Live(v'.rec) {
      var a :| Holds(v, a) && Steadfast(now, v, a);
      assert Holds(v', a) && Steadfast(now, v', a);
    }
  }

  lemma WriteKeepsAnchor(cfg: Settings, now: int, v: View, w: WorkerId, op: BatchOp)
    requires cfg.Valid() && WellTimed(cfg, now, v) && BatchEnabled(cfg, v, w, op) && !OnlyLooks(op) && !Tracks(op)
    ensures LiveAnchored(now, BatchApply(cfg, now, v, w, op))
  {
    var v' := BatchApply(cfg, now, v, w, op);
    if Live(v'.rec) {
      var a := if op.AddToQueue? then InQueue(v.tasks[w].queue) else Carried(w);
      assert Holds(v', a) && Steadfast(now, v', a);
    }
  }

  lemma BatchKeepsAnchor(cfg: Settings, now: int, v: View, w: WorkerId, op: BatchOp)
    requires cfg.Valid() && WellTimed(cfg, now, v) && BatchEnabled(cfg, v, w, op)
    requires Anchored(now, v)
    ensures LiveAnchored(now, BatchApply(cfg, now, v, w, op))
  {
    if OnlyLooks(op) { LookKeepsAnchor(cfg, now, v, w, op); }
    else if op.Refresh? { RefreshKeepsAnchor(cfg, now, v, w); }
    else if Tracks(op) { TrackingKeepsAnchor(cfg, now, v, w, op); }
    else { WriteKeepsAnchor(cfg, now, v, w, op); }
  }

  lemma TaskKeepsAnchor(cfg: Settings, now: int, v: View, w: WorkerId, op: TaskOp)
    requires cfg.Valid() && WellTimed(cfg, now, v) && TaskEnabled(now, v, w, op)
    requires Anchored(now, v)
    ensures LiveAnchored(now, TaskApply(cfg, now, v, w, op))
  {
    var v' := TaskApply(cfg, now, v, w, op);
    if op.Report? {
      ReportKeepsAnchor(cfg, now, v, w, op);
    } else if op.Tidy? || op.Free? || op.Leave? {
      CleaningUpKeepsAnchor(cfg, now, v, w, op);
    } else if Live(v'.rec) {
      var a :| Holds(v, a) && Steadfast(now, v, a);
      assert Holds(v', a) && Steadfast(now, v', a);
    }
  }

  lemma CleaningUpKeepsAnchor(cfg: Settings, now: int, v: View, w: WorkerId, op: TaskOp)
    requires cfg.Valid() && WellTimed(cfg, now, v) && TaskEnabled(now, v, w, op) && (op.Tidy? || op.Free? || op.Leave?)
    requires LiveAnchored(now, v)
    ensures LiveAnchored(now, TaskApply(cfg, now, v, w, op))
  {
    var v' := TaskApply(cfg, now, v, w, op);
    if Live(v'.rec) {
      var a :| Holds(v, a) && Steadfast(now, v, a);
      assert Holds(v', a) && Steadfast(now, v', a);
    }
  }

  lemma ReportKeepsAnchor(cfg: Settings, now: int, v: View, w: WorkerId, op: TaskOp)
    requires TaskEnabled(now, v, w, op) && op.Report?
    ensures LiveAnchored(now, TaskApply(cfg, now, v, w, op))
  {
    var v' := TaskApply(cfg, now, v, w, op);
    if Live(v'.rec) {
      assert Holds(v', InQueue(v.tasks[w].job.queue)) && Steadfast(now, v', InQueue(v.tasks[w].job.queue));
    }
  }

  lemma DrainKeepsAnchor(cfg: Settings, now: int, v: View, w: WorkerId, op: DrainOp)
    requires cfg.Valid() && WellTimed(cfg, now, v) && DrainEnabled(v, w, op)
    requires Anchored(now, v)
    ensures LiveAnchored(now, DrainApply(now, v, w, op))
  {
    var v' := DrainApply(now, v, w, op);
    if Live(v'.rec) {
      var a: Anchor;
      if op.Requeue? {
        a := InQueue(v.tasks[w].queue);
      } else {
        a :| Holds(v, a) && Steadfast(now, v, a);
      }
      assert Holds(v', a) && Steadfast(now, v', a);
    }
  }

  lemma SuspectKeepsAnchor(cfg: Settings, now: int, v: View, rescuer: WorkerId, op: SuspectOp)
    requires cfg.Valid() && WellTimed(cfg, now, v) && SuspectEnabled(cfg, now, v, op)
    requires Anchored(now, v)
    ensures LiveAnchored(now, SuspectApply(cfg, now, v, rescuer, op))
  {
    var v' := SuspectApply(cfg, now, v, rescuer, op);
    if Live(v'.rec) {
      assert Holds(v', InRescue) && Steadfast(now, v', InRescue);
    }
  }

  lemma RescueKeepsAnchor(cfg: Settings, now: int, v: View, rescuer: WorkerId, op: RescueOp)
    requires cfg.Valid() && WellTimed(cfg, now, v) && RescueEnabled(v, rescuer, op)
    requires Anchored(now, v)
    ensures LiveAnchored(now, RescueApply(now, v, rescuer, op))
  {
    var v' := RescueApply(now, v, rescuer, op);
    if Live(v'.rec) {
      var Rescue(_, lost, stage) := v.rescue.value;
      var a: Anchor;
      if op.Restore? || (op.Check? && stage.job.queue in v.rec.queued) {
        a := InQueue(stage.job.queue);
      } else {
        a :| Holds(v, a) && Steadfast(now, v, a);
      }
      assert Holds(v', a) && Steadfast(now, v', a);
    }
  }

  /** A reset finds the job queued or about to be condemned, unless it was overtaken. */
  predicate TimelyReset(v: View, op: ClientOp) {
    op.Reset? && op.operator in v.operators && v.operators[op.operator].Resetting? ==>
      !v.operators[op.operator].overtaken || Live(v.rec) || v.rec.queued != map[]
  }

  lemma ClientKeepsAnchor(cfg: Settings, now: int, v: View, op: ClientOp)
    requires WellTimed(cfg, now, v) && ClientEnabled(v, op) && TimelyReset(v, op)
    requires Anchored(now, v)
    ensures LiveAnchored(now, ClientApply(v, op))
  {
    var v' := ClientApply(v, op);
    match op
    case Enqueue(_, q, _) => assert Holds(v', InQueue(q)) && Steadfast(now, v', InQueue(q));
    case Reset(o) => ResetKeepsAnchor(cfg, now, v, o);
    case Lift(_, _) => SameTasksKeepAnchor(now, v, v');
    case Put(_, _) => SameTasksKeepAnchor(now, v, v');
    case GiveUp(_) => SameTasksKeepAnchor(now, v, v');
    case Expire =>
  }

  lemma SameTasksKeepAnchor(now: int, v: View, v': View)
    requires LiveAnchored(now, v) && v'.tasks == v.tasks && v'.rescue == v.rescue
    requires v'.rec.hash == v.rec.hash && v'.rec.active == v.rec.active && v'.rec.lock == v.rec.lock
    requires v.rec.queued.Keys <= v'.rec.queued.Keys
    ensures LiveAnchored(now, v')
  {
    if Live(v'.rec) {
      var a :| Holds(v, a) && Steadfast(now, v, a);
      assert Holds(v', a) && Steadfast(now, v', a);
    }
  }

  lemma ResetKeepsAnchor(cfg: Settings, now: int, v: View, o: OperatorId)
    requires WellTimed(cfg, now, v) && ClientEnabled(v, Reset(o)) && TimelyReset(v, Reset(o))
    requires Anchored(now, v)
    ensures LiveAnchored(now, ClientApply(v, Reset(o)))
  {
    var v' := ClientApply(v, Reset(o));
    var a: Anchor;
    if Live(v.rec) {
      a :| Holds(v, a) && Steadfast(now, v, a);
    } else if v.rec.queued != map[] {
      var q :| q in v.rec.queued;
      a := InQueue(q);
    } else {
      assert Awaited(v);
      if w :| w in v.tasks && (v.tasks[w].Inspecting? || v.tasks[w].Condemning?) {
        a := Carried(w);
      } else {
        var w :| w in v.rec.active && w !in v.tasks;
        a := OnList(w);
      }
    }
    assert Holds(v', a) && Steadfast(now, v', a);
  }

  // ---------- the awaited job stays in sight

  lemma AwaitedBefore(cfg: Settings, now: int, v: View, step: Step)
    requires Enabled(cfg, now, v, step) && Awaited(Apply(cfg, now, v, step))
    ensures !Overtakes(v, step)
    ensures !(step.Client? && step.clientOp.Put?) ==> Awaited(v)
  {
    var v' := Apply(cfg, now, v, step);
    var o :| o in v'.operators && v'.operators[o].Resetting? && !v'.operators[o].overtaken;
    if !(step.Client? && step.clientOp.Put?) {
      assert o in v.operators && v.operators[o] == v'.operators[o];
    }
  }

  /** What one worker's step leaves of the places where the job can be found. */
  predicate SightKept(v: View, v': View, w: WorkerId) {
    && v'.rec.active - {w} == v.rec.active - {w}
    && v'.tasks - {w} == v.tasks - {w}
    && (v.rec.queued != map[] ==> v'.rec.queued != map[] || (w in v'.tasks && v'.tasks[w].Inspecting?))
    && (w in v.tasks && (v.tasks[w].Inspecting? || v.tasks[w].Condemning?) ==> w in v'.tasks && v'.tasks[w].Condemning?)
    && v'.rec.hash.Some? && v.rec.hash.Some? && v'.rec.hash.value.wellFormed == v.rec.hash.value.wellFormed
  }

  lemma BatchKeepsSight(cfg: Settings, now: int, v: View, w: WorkerId, op: BatchOp)
    requires WellTimed(cfg, now, v) && BatchEnabled(cfg, v, w, op) && !op.Condemn?
    ensures SightKept(v, BatchApply(cfg, now, v, w, op), w)
  {
    assert Matches(v.rec, v.tasks[w]);
  }

  lemma TaskKeepsSight(cfg: Settings, now: int, v: View, w: WorkerId, op: TaskOp)
    requires WellTimed(cfg, now, v) && TaskEnabled(now, v, w, op)
    ensures SightKept(v, TaskApply(cfg, now, v, w, op), w)
  {
    assert Matches(v.rec, v.tasks[w]);
  }

  lemma DrainKeepsSight(cfg: Settings, now: int, v: View, w: WorkerId, op: DrainOp)
    requires WellTimed(cfg, now, v) && DrainEnabled(v, w, op)
    ensures SightKept(v, DrainApply(now, v, w, op), w)
  {
    assert Matches(v.rec, v.tasks[w]);
  }

  lemma SightKeptFinds(v: View, v': View, w: WorkerId)
    requires SightKept(v, v', w) && Findable(v) && w in v.tasks
    ensures Findable(v')
  {
    if v.rec.queued != map[] {
    } else if x :| x in v.tasks && (v.tasks[x].Inspecting? || v.tasks[x].Condemning?) {
      if x != w { assert x in v.tasks - {w} && x in v'.tasks - {w} && v'.tasks[x] == v.tasks[x]; }
    } else {
      var x :| x in v.rec.active && x !in v.tasks;
      assert x in v.rec.active - {w} && x in v'.rec.active;
      assert x !in v'.tasks - {w};
    }
  }

  lemma RecoveryKeepsSight(cfg: Settings, now: int, v: View, step: Step)
    requires cfg.Valid() && WellTimed(cfg, now, v) && Enabled(cfg, now, v, step) && Findable(v)
    requires (step.Suspect? || step.Recover?) && !Live(v.rec) && !Live(Apply(cfg, now, v, step).rec)
    ensures Findable(Apply(cfg, now, v, step))
  {
    var v' := Apply(cfg, now, v, step);
    assert v.rec.queued != map[] ==> v'.rec.queued != map[];
    assert v'.tasks == v.tasks;
    assert v.rec.hash.Some? ==> v.rec.hash.value.wellFormed;
  }

  lemma StepKeepsSought(cfg: Settings, now: int, v: View, step: Step)
    requires cfg.Valid() && WellTimed(cfg, now, v) && Enabled(cfg, now, v, step) && Sought(v) && LiveAnchored(now, v)
    ensures Sought(Apply(cfg, now, v, step))
  {
    var v' := Apply(cfg, now, v, step);
    if !Live(v'.rec) && Awaited(v') {
      AwaitedBefore(cfg, now, v, step);
      LiveOnlyEnds(cfg, now, v, step);
      var u := Uncounted(cfg, now, v, step);
      assert v'.rec == u.rec && v'.tasks == u.tasks;
      match step {
        case Poll(_, _) =>
        case Batch(w, op) => BatchKeepsSight(cfg, now, v, w, op); SightKeptFinds(v, v', w);
        case Task(w, op) => TaskKeepsSight(cfg, now, v, w, op); SightKeptFinds(v, v', w);
        case Drain(w, op) => DrainKeepsSight(cfg, now, v, w, op); SightKeptFinds(v, v', w);
        case Suspect(_, _) => RecoveryKeepsSight(cfg, now, v, step);
        case Recover(_, _) => RecoveryKeepsSight(cfg, now, v, step);
        case Client(op) => ClientKeepsSight(cfg, now, v, op);
      }
    }
  }

  lemma ClientKeepsSight(cfg: Settings, now: int, v: View, op: ClientOp)
    requires ClientEnabled(v, op) && !op.Expire?
    requires op.Put? || (Findable(v) && !Live(ClientApply(v, op).rec))
    ensures Findable(Apply(cfg, now, v, Client(op)))
  {
    var v' := Apply(cfg, now, v, Client(op));
    if op.Put? { assert v.operators[op.operator].target in v'.rec.queued; }
  }

  /** A live job stops being live only when its end is reported, or when its hash runs
      out, which takes a lifetime; and only a report of its end gives it one. */
  predicate EndsOnlyByEnding(v: View, step: Step, r: Record) {
    && (Live(v.rec) && !Live(r) ==> Ends(v, step) || (step == Client(Expire) && v.rec.mortal))
    && (r.mortal && !v.rec.mortal ==> Ends(v, step))
  }

  lemma LiveBatchOnlyEnds(cfg: Settings, now: int, v: View, w: WorkerId, op: BatchOp)
    requires WellTimed(cfg, now, v) && BatchEnabled(cfg, v, w, op)
    ensures EndsOnlyByEnding(v, Batch(w, op), BatchApply(cfg, now, v, w, op).rec)
  {
    assert Matches(v.rec, v.tasks[w]);
  }

  lemma LiveTaskOnlyEnds(cfg: Settings, now: int, v: View, w: WorkerId, op: TaskOp)
    requires WellTimed(cfg, now, v) && TaskEnabled(now, v, w, op)
    ensures EndsOnlyByEnding(v, Task(w, op), TaskApply(cfg, now, v, w, op).rec)
  {
    assert Matches(v.rec, v.tasks[w]);
  }

  lemma LiveDrainOnlyEnds(now: int, v: View, w: WorkerId, op: DrainOp)
    requires DrainEnabled(v, w, op)
    ensures EndsOnlyByEnding(v, Drain(w, op), DrainApply(now, v, w, op).rec)
  {}

  lemma LiveSuspectOnlyEnds(cfg: Settings, now: int, v: View, rescuer: WorkerId, op: SuspectOp)
    requires SuspectEnabled(cfg, now, v, op)
    ensures EndsOnlyByEnding(v, Suspect(rescuer, op), SuspectApply(cfg, now, v, rescuer, op).rec)
  {}

  lemma LiveRescueOnlyEnds(now: int, v: View, rescuer: WorkerId, op: RescueOp)
    requires RescueEnabled(v, rescuer, op)
    ensures EndsOnlyByEnding(v, Recover(rescuer, op), RescueApply(now, v, rescuer, op).rec)
  {}

  lemma LiveClientOnlyEnds(cfg: Settings, now: int, v: View, step: Step)
    requires Enabled(cfg, now, v, step) && (step.Poll? || step.Client?)
    ensures EndsOnlyByEnding(v, step, Uncounted(cfg, now, v, step).rec)
  {}

  lemma LiveOnlyEnds(cfg: Settings, now: int, v: View, step: Step)
    requires WellTimed(cfg, now, v) && Enabled(cfg, now, v, step)
    ensures EndsOnlyByEnding(v, step, Apply(cfg, now, v, step).rec)
  {
    assert Apply(cfg, now, v, step).rec == Uncounted(cfg, now, v, step).rec;
    match step
    case Poll(_, _) => LiveClientOnlyEnds(cfg, now, v, step);
    case Batch(w, op) => LiveBatchOnlyEnds(cfg, now, v, w, op);
    case Task(w, op) => LiveTaskOnlyEnds(cfg, now, v, w, op);
    case Drain(w, op) => LiveDrainOnlyEnds(now, v, w, op);
    case Suspect(rescuer, op) => LiveSuspectOnlyEnds(cfg, now, v, rescuer, op);
    case Recover(rescuer, op) => LiveRescueOnlyEnds(now, v, rescuer, op);
    case Client(_) => LiveClientOnlyEnds(cfg, now, v, step);
  }

  lemma StepKeepsAnchor(cfg: Settings, now: int, v: View, step: Step)
    requires cfg.Valid() && WellTimed(cfg, now, v) && Enabled(cfg, now, v, step)
    requires step.Client? ==> TimelyReset(v, step.clientOp)
    requires Anchored(now, v)
    ensures Anchored(now, Apply(cfg, now, v, step))
  {
    match step {
      case Poll(w, op) => PollKeepsAnchor(cfg, now, v, w, op);
      case Batch(w, op) => BatchKeepsAnchor(cfg, now, v, w, op);
      case Task(w, op) => TaskKeepsAnchor(cfg, now, v, w, op);
      case Drain(w, op) => DrainKeepsAnchor(cfg, now, v, w, op);
      case Suspect(r, op) => SuspectKeepsAnchor(cfg, now, v, r, op);
      case Recover(r, op) => RescueKeepsAnchor(cfg, now, v, r, op);
      case Client(op) => ClientKeepsAnchor(cfg, now, v, op);
    }
    StepKeepsSought(cfg, now, v, step);
    MarkingKeepsAnchor(now, Uncounted(cfg, now, v, step), Apply(cfg, now, v, step));
  }

  lemma MarkingKeepsAnchor(now: int, u: View, v: View)
    requires LiveAnchored(now, u) && v.rec == u.rec && v.tasks == u.tasks && v.rescue == u.rescue
    ensures LiveAnchored(now, v)
  {
    if Live(v.rec) {
      var a :| Holds(u, a) && Steadfast(now, u, a);
      assert Holds(v, a) && Steadfast(now, v, a);
    }
  }
}
