/**
 The theorems about whole runs: mutual exclusion in every run, no lost job in every
 run whose crashes are harmless and whose status resets are timely, and harmless
 crashes in every run whose suspicions are right and whose takeovers are of secured jobs.
 */
module LifecycleTheorems {
  import opened JobRecord
  import opened Lifecycle
  import opened LockTiming
  import opened NoLostJob

  // ---------- timing over runs

  predicate SystemTimed(cfg: Settings, s: System) {
    forall j :: j in s.jobs ==> WellTimed(cfg, s.now, s.jobs[j])
  }

  lemma CrashKeepsTiming(cfg: Settings, now: int, v: View, w: WorkerId)
    requires WellTimed(cfg, now, v)
    ensures WellTimed(cfg, now, Bereave(v, w))
  {}

  lemma TickKeepsTiming(cfg: Settings, now: int, to: int, v: View)
    requires WellTimed(cfg, now, v) && now <= to && MayAdvance(cfg, v, to)
    ensures WellTimed(cfg, to, v)
  {}

  lemma EventKeepsTiming(cfg: Settings, s: System, e: Event)
    requires cfg.Valid() && SystemTimed(cfg, s) && EventEnabled(cfg, s, e)
    ensures SystemTimed(cfg, Happen(cfg, s, e))
  {
    var s' := Happen(cfg, s, e);
    forall j | j in s'.jobs ensures WellTimed(cfg, s'.now, s'.jobs[j]) {
      match e {
        case OnJob(k, step) => if j == k { StepKeepsTiming(cfg, s.now, Of(s, k), step); }
        case Tick(to) => TickKeepsTiming(cfg, s.now, to, s.jobs[j]);
        case Crash(w) => CrashKeepsTiming(cfg, s.now, s.jobs[j], w);
        case Shutdown(_) =>
      }
    }
  }

  lemma {:induction false} RunKeepsTiming(cfg: Settings, s: System, run: seq<Event>)
    requires cfg.Valid() && SystemTimed(cfg, s) && IsRun(cfg, s, run)
    ensures SystemTimed(cfg, After(cfg, s, run))
    decreases |run|
  {
    if run != [] {
      EventKeepsTiming(cfg, s, run[0]);
      RunKeepsTiming(cfg, Happen(cfg, s, run[0]), run[1..]);
    }
  }

  /** In every run, whoever crashes and whoever is suspected, a worker that has
      dispatched a job and not yet freed it holds the unexpired lock, so no two
      workers are ever in that position for one job. */
  lemma MutualExclusion(cfg: Settings, run: seq<Event>, j: JobId, w1: WorkerId, w2: WorkerId)
    requires cfg.Valid() && IsRun(cfg, START, run)
    requires var tasks := Of(After(cfg, START, run), j).tasks;
             w1 in tasks && Spawned(tasks[w1]) && w2 in tasks && Spawned(tasks[w2])
    ensures w1 == w2
    ensures var s := After(cfg, START, run); LockedBy(Of(s, j).rec, Worker(w1), s.now)
  {
    RunKeepsTiming(cfg, START, run);
    var s := After(cfg, START, run);
    SpawnedHoldsLock(cfg, s.now, Of(s, j), w1);
    SpawnedHoldsLock(cfg, s.now, Of(s, j), w2);
  }

  // ---------- no lost job

  /** The crash of `w` takes no live job's only holder with it: whatever `w` carries or
      recovers is secured in Redis without it. */
  predicate Harmless(v: View, w: WorkerId) {
    var carries := w in v.tasks && Carries(v.rec, w, v.tasks[w]);
    var recovers := v.rescue.Some? && v.rescue.value.rescuer == w && Holds(v, InRescue);
    Live(v.rec) && (carries || recovers) ==> Secured(Bereave(v, w))
  }

  /** A quarantine that has purged the job is still on the active list. */
  predicate PurgeIsListed(v: View, w: WorkerId) {
    w in v.tasks && (v.tasks[w].Inspecting? || v.tasks[w].Condemning?) ==> w in v.rec.active
  }

  predicate HarmlessEvent(s: System, e: Event) {
    && (e.Crash? ==> forall j :: j in s.jobs ==> Harmless(s.jobs[j], e.worker) && PurgeIsListed(s.jobs[j], e.worker))
    && (e.OnJob? && e.step.Client? ==> TimelyReset(Of(s, e.job), e.step.clientOp))
  }

  ghost predicate SystemAnchored(s: System) {
    forall j :: j in s.jobs ==> Anchored(s.now, s.jobs[j])
  }

  lemma CrashKeepsAnchor(cfg: Settings, now: int, v: View, w: WorkerId)
    requires WellTimed(cfg, now, v) && Anchored(now, v) && Harmless(v, w) && PurgeIsListed(v, w)
    ensures Anchored(now, Bereave(v, w))
  {
    var v' := Bereave(v, w);
    if Live(v.rec) {
      var a :| Holds(v, a) && Steadfast(now, v, a);
      if a == Carried(w) || (a.InRescue? && v.rescue.value.rescuer == w) {
        a := SecuredBy(v');
      }
      assert Holds(v', a) && Steadfast(now, v', a);
    } else if Awaited(v') {
      assert Awaited(v);
      CrashKeepsSight(cfg, now, v, w);
    }
  }

  lemma SecuredBy(v: View) returns (a: Anchor)
    requires Secured(v)
    ensures (a.InQueue? || a.OnList?) && Holds(v, a)
  {
    if q :| q in v.rec.queued {
      a := InQueue(q);
    } else {
      var w :| w in v.rec.active && (w in v.tasks ==> Keeps(v.tasks[w])) && !BeingDetached(v, w);
      a := OnList(w);
    }
  }

  lemma CrashKeepsSight(cfg: Settings, now: int, v: View, w: WorkerId)
    requires WellTimed(cfg, now, v) && Findable(v) && PurgeIsListed(v, w)
    ensures Findable(Bereave(v, w))
  {
    var v' := Bereave(v, w);
    if v.rec.queued != map[] {
    } else if x :| x in v.tasks && (v.tasks[x].Inspecting? || v.tasks[x].Condemning?) {
      assert Matches(v.rec, v.tasks[x]);
      if x == w { assert w in v'.rec.active && w !in v'.tasks; } else { assert x in v'.tasks; }
    } else {
      var x :| x in v.rec.active && x !in v.tasks;
      assert x in v'.rec.active && x !in v'.tasks;
    }
  }

  lemma TickKeepsAnchor(now: int, to: int, v: View)
    requires Anchored(now, v) && now <= to
    ensures Anchored(to, v)
  {}

  lemma EventKeepsAnchors(cfg: Settings, s: System, e: Event)
    requires cfg.Valid() && SystemTimed(cfg, s) && SystemAnchored(s)
    requires EventEnabled(cfg, s, e) && HarmlessEvent(s, e)
    ensures SystemAnchored(Happen(cfg, s, e))
  {
    var s' := Happen(cfg, s, e);
    forall j | j in s'.jobs ensures Anchored(s'.now, s'.jobs[j]) {
      match e {
        case OnJob(k, step) => if j == k { StepKeepsAnchor(cfg, s.now, Of(s, k), step); }
        case Tick(to) => TickKeepsAnchor(s.now, to, s.jobs[j]);
        case Crash(w) => CrashKeepsAnchor(cfg, s.now, s.jobs[j], w);
        case Shutdown(_) =>
      }
    }
  }

  predicate HarmlessRun(cfg: Settings, s: System, run: seq<Event>)
    requires IsRun(cfg, s, run)
    decreases |run|
  {
    run == [] || (HarmlessEvent(s, run[0]) && HarmlessRun(cfg, Happen(cfg, s, run[0]), run[1..]))
  }

  lemma {:induction false} RunKeepsAnchors(cfg: Settings, s: System, run: seq<Event>)
    requires cfg.Valid() && SystemTimed(cfg, s) && SystemAnchored(s)
    requires IsRun(cfg, s, run) && HarmlessRun(cfg, s, run)
    ensures SystemAnchored(After(cfg, s, run))
    decreases |run|
  {
    if run != [] {
      EventKeepsTiming(cfg, s, run[0]);
      EventKeepsAnchors(cfg, s, run[0]);
      RunKeepsAnchors(cfg, Happen(cfg, s, run[0]), run[1..]);
    }
  }

  /** A job that still has to run is in a queue, or on an active list, or carried
      by a worker or a recovery that has not crashed. */
  ghost predicate Held(v: View) {
    Live(v.rec) ==>
      v.rec.queued != map[] || v.rec.active != {} || Holds(v, InRescue) || exists w :: Holds(v, Carried(w))
  }

  lemma AnchoredIsHeld(now: int, v: View)
    requires Anchored(now, v)
    ensures Held(v)
    ensures Live(v.rec) && v.tasks == map[] && v.rescue.None? ==> v.rec.queued != map[] || v.rec.active != {}
  {}

  /** No job is lost in any run whose crashes are harmless and whose status resets are
      timely; and once nobody is at work on the job any more, Redis alone still lists it. */
  lemma NoJobIsLost(cfg: Settings, run: seq<Event>, j: JobId)
    requires cfg.Valid() && IsRun(cfg, START, run) && HarmlessRun(cfg, START, run)
    ensures var v := Of(After(cfg, START, run), j);
            && Held(v)
            && (Live(v.rec) && v.tasks == map[] && v.rescue.None? ==> v.rec.queued != map[] || v.rec.active != {})
  {
    RunKeepsAnchors(cfg, START, run);
    var s := After(cfg, START, run);
    AnchoredIsHeld(s.now, Of(s, j));
  }

  // ---------- right suspicions make every crash harmless

  /** Recovery acts only on the lists of workers that have crashed. */
  predicate SuspectsCrashed(s: System, e: Event) {
    e.OnJob? && e.step.Suspect? ==> e.step.suspectOp.lost in s.dead
  }

  /** Recovery takes a live job only while Redis has it secured: a list that has gone
      stale meanwhile may name a job that another worker is about to drop. */
  predicate TakesSecured(s: System, e: Event) {
    e.OnJob? && e.step.Suspect? && e.step.suspectOp.Take? && Live(Of(s, e.job).rec) ==> Secured(Of(s, e.job))
  }

  /** An operator that requeues the job from the dead letter list resets its status
      before anybody has finished or forgotten it, or else finds it live or queued. */
  predicate TimelyEvent(s: System, e: Event) {
    e.OnJob? && e.step.Client? ==> TimelyReset(Of(s, e.job), e.step.clientOp)
  }

  predicate RightEvent(s: System, e: Event) {
    SuspectsCrashed(s, e) && TakesSecured(s, e) && TimelyEvent(s, e)
  }

  predicate RightRun(cfg: Settings, s: System, run: seq<Event>)
    requires IsRun(cfg, s, run)
    decreases |run|
  {
    run == [] || (RightEvent(s, run[0]) && RightRun(cfg, Happen(cfg, s, run[0]), run[1..]))
  }

  /** The phases in which the worker's active list must still name the job. */
  predicate Tracked(phase: Phase) {
    match phase
    case Dropping => false
    case Unlocking => false
    case Tidying(_, _) => false
    case Freeing(_, _) => false
    case Lingering(_) => false
    case DrainReading(_, owes) => owes
    case DrainRequeueing(_, owes) => owes
    case _ => true
  }

  predicate TasksListed(dead: set<WorkerId>, v: View) {
    && (forall w :: w in v.tasks ==> w !in dead && (Tracked(v.tasks[w]) ==> w in v.rec.active))
    && (v.rescue.Some? ==> v.rescue.value.lost in dead)
  }

  /** Workers list what they carry, and what is being recovered is secured. */
  predicate Listed(dead: set<WorkerId>, v: View) {
    TasksListed(dead, v) && (Holds(v, InRescue) ==> Secured(v))
  }

  predicate SystemListed(s: System) {
    forall j :: j in s.jobs ==> Listed(s.dead, s.jobs[j])
  }

  lemma PollKeepsListed(cfg: Settings, now: int, dead: set<WorkerId>, v: View, w: WorkerId, op: PollOp)
    requires PollEnabled(now, v, w, op) && w !in dead && TasksListed(dead, v)
    ensures TasksListed(dead, PollApply(cfg, now, v, w, op))
  {}

  lemma BatchKeepsListed(cfg: Settings, now: int, dead: set<WorkerId>, v: View, w: WorkerId, op: BatchOp)
    requires BatchEnabled(cfg, v, w, op) && w !in dead && TasksListed(dead, v)
    ensures TasksListed(dead, BatchApply(cfg, now, v, w, op))
  {}

  lemma TaskKeepsListed(cfg: Settings, now: int, dead: set<WorkerId>, v: View, w: WorkerId, op: TaskOp)
    requires TaskEnabled(now, v, w, op) && w !in dead && TasksListed(dead, v)
    ensures TasksListed(dead, TaskApply(cfg, now, v, w, op))
  {}

  lemma DrainKeepsListed(now: int, dead: set<WorkerId>, v: View, w: WorkerId, op: DrainOp)
    requires DrainEnabled(v, w, op) && w !in dead && TasksListed(dead, v)
    ensures TasksListed(dead, DrainApply(now, v, w, op))
  {}

  lemma RescueKeepsListed(now: int, dead: set<WorkerId>, v: View, rescuer: WorkerId, op: RescueOp)
    requires RescueEnabled(v, rescuer, op) && TasksListed(dead, v)
    ensures TasksListed(dead, RescueApply(now, v, rescuer, op))
  {}

  /** While a recovery is about to requeue the job, its lock keeps claims away. */
  lemma PollIsLockedOut(cfg: Settings, now: int, v: View, w: WorkerId, op: PollOp)
    requires WellTimed(cfg, now, v) && Holds(v, InRescue)
    ensures !PollEnabled(now, v, w, op)
  {}

  // A worker that keeps the job on its list goes on keeping it, or queues it.

  lemma BatchKeepsSecured(cfg: Settings, now: int, v: View, w: WorkerId, op: BatchOp)
    requires WellTimed(cfg, now, v) && BatchEnabled(cfg, v, w, op) && Holds(v, InRescue) && Secured(v)
    ensures Secured(BatchApply(cfg, now, v, w, op))
  {
    var v' := BatchApply(cfg, now, v, w, op);
    var a := SecuredBy(v);
    assert Matches(v.rec, v.tasks[w]);
    if op.AddToQueue? || (op.CheckQueued? && v.tasks[w].queue in v.rec.queued) {
      assert v.tasks[w].queue in v'.rec.queued;
    } else {
      assert Holds(v', a);
    }
  }

  lemma TaskKeepsSecured(cfg: Settings, now: int, v: View, w: WorkerId, op: TaskOp)
    requires cfg.Valid() && WellTimed(cfg, now, v) && TaskEnabled(now, v, w, op) && Holds(v, InRescue) && Secured(v)
    ensures Secured(TaskApply(cfg, now, v, w, op))
  {
    var a := SecuredBy(v);
    if Spawned(v.tasks[w]) { SpawnedHoldsLock(cfg, now, v, w); }
    assert Holds(TaskApply(cfg, now, v, w, op), a);
  }

  lemma DrainKeepsSecured(cfg: Settings, now: int, v: View, w: WorkerId, op: DrainOp)
    requires cfg.Valid() && WellTimed(cfg, now, v) && DrainEnabled(v, w, op) && Holds(v, InRescue) && Secured(v)
    ensures Secured(DrainApply(now, v, w, op))
  {
    var v' := DrainApply(now, v, w, op);
    var a := SecuredBy(v);
    if op.Requeue? { assert v.tasks[w].queue in v'.rec.queued; } else { assert Holds(v', a); }
  }

  lemma RescueKeepsSecured(now: int, v: View, rescuer: WorkerId, op: RescueOp)
    requires RescueEnabled(v, rescuer, op) && Holds(v, InRescue) && Secured(v)
    requires Holds(RescueApply(now, v, rescuer, op), InRescue)
    ensures Secured(RescueApply(now, v, rescuer, op))
  {
    var a := SecuredBy(v);
    assert Holds(RescueApply(now, v, rescuer, op), a);
  }

  lemma ClientKeepsSecured(v: View, op: ClientOp)
    requires ClientEnabled(v, op) && Secured(v)
    ensures Secured(ClientApply(v, op))
  {
    var a := SecuredBy(v);
    assert Holds(ClientApply(v, op), a);
  }

  lemma StepKeepsListed(cfg: Settings, s: System, j: JobId, step: Step)
    requires cfg.Valid() && EventEnabled(cfg, s, OnJob(j, step)) && RightEvent(s, OnJob(j, step))
    requires WellTimed(cfg, s.now, Of(s, j)) && Listed(s.dead, Of(s, j))
    ensures Listed(s.dead, Uncounted(cfg, s.now, Of(s, j), step))
  {
    var v := Of(s, j);
    var waiting := Holds(v, InRescue);
    match step {
      case Poll(w, op) =>
        if waiting { PollIsLockedOut(cfg, s.now, v, w, op); } else { PollKeepsListed(cfg, s.now, s.dead, v, w, op); }
      case Batch(w, op) =>
        BatchKeepsListed(cfg, s.now, s.dead, v, w, op);
        if waiting { BatchKeepsSecured(cfg, s.now, v, w, op); }
      case Task(w, op) =>
        TaskKeepsListed(cfg, s.now, s.dead, v, w, op);
        if waiting { TaskKeepsSecured(cfg, s.now, v, w, op); }
      case Drain(w, op) =>
        DrainKeepsListed(s.now, s.dead, v, w, op);
        if waiting { DrainKeepsSecured(cfg, s.now, v, w, op); }
      case Suspect(r, op) =>
        TakingKeepsListed(cfg, s.now, s.dead, v, r, op);
      case Recover(r, op) =>
        RescueKeepsListed(s.now, s.dead, v, r, op);
        if Holds(RescueApply(s.now, v, r, op), InRescue) { RescueKeepsSecured(s.now, v, r, op); }
      case Client(op) =>
        if waiting { ClientKeepsSecured(v, op); }
    }
  }

  lemma TakingKeepsListed(cfg: Settings, now: int, dead: set<WorkerId>, v: View, rescuer: WorkerId, op: SuspectOp)
    requires SuspectEnabled(cfg, now, v, op) && op.lost in dead && TasksListed(dead, v)
    requires op.Take? && Live(v.rec) ==> Secured(v)
    ensures Listed(dead, SuspectApply(cfg, now, v, rescuer, op))
  {
    var v' := SuspectApply(cfg, now, v, rescuer, op);
    if Holds(v', InRescue) {
      var a := SecuredBy(v);
      assert Holds(v', a);
    }
  }

  lemma CrashKeepsListed(dead: set<WorkerId>, v: View, w: WorkerId)
    requires Listed(dead, v)
    ensures Listed(dead + {w}, Bereave(v, w))
    ensures w !in dead ==> Harmless(v, w) && PurgeIsListed(v, w)
  {
    var v' := Bereave(v, w);
    if Holds(v, InRescue) {
      var a := SecuredBy(v);
      assert Holds(v', a);
    }
    if w in v.tasks && Carries(v.rec, w, v.tasks[w]) && w !in dead {
      assert Holds(v', OnList(w));
    }
  }

  lemma RightEventIsHarmless(cfg: Settings, s: System, e: Event)
    requires cfg.Valid() && EventEnabled(cfg, s, e) && RightEvent(s, e) && SystemTimed(cfg, s) && SystemListed(s)
    ensures HarmlessEvent(s, e)
    ensures SystemListed(Happen(cfg, s, e))
  {
    var s' := Happen(cfg, s, e);
    if e.Crash? {
      forall j | j in s.jobs
        ensures Listed(s'.dead, s'.jobs[j]) && Harmless(s.jobs[j], e.worker) && PurgeIsListed(s.jobs[j], e.worker)
      {
        CrashKeepsListed(s.dead, s.jobs[j], e.worker);
      }
    } else if e.OnJob? {
      StepKeepsListed(cfg, s, e.job, e.step);
      var u := Uncounted(cfg, s.now, Of(s, e.job), e.step);
      MarkingKeepsListed(s.dead, u, s'.jobs[e.job]);
    }
  }

  lemma MarkingKeepsListed(dead: set<WorkerId>, u: View, v: View)
    requires Listed(dead, u) && v.rec == u.rec && v.tasks == u.tasks && v.rescue == u.rescue
    ensures Listed(dead, v)
  {
    if Holds(v, InRescue) {
      var a := SecuredBy(u);
      assert Holds(v, a);
    }
  }

  lemma {:induction false} RightRunIsHarmless(cfg: Settings, s: System, run: seq<Event>)
    requires cfg.Valid() && SystemTimed(cfg, s) && SystemListed(s) && IsRun(cfg, s, run) && RightRun(cfg, s, run)
    ensures HarmlessRun(cfg, s, run) && SystemListed(After(cfg, s, run))
    decreases |run|
  {
    if run != [] {
      EventKeepsTiming(cfg, s, run[0]);
      RightEventIsHarmless(cfg, s, run[0]);
      RightRunIsHarmless(cfg, Happen(cfg, s, run[0]), run[1..]);
    }
  }

  /** When only workers that have crashed are suspected, live jobs are taken over only
      while they are secured, and status resets are timely, any number of workers may
      crash between any two steps and no job is lost. */
  lemma NoJobIsLostUnderRightSuspicion(cfg: Settings, run: seq<Event>, j: JobId)
    requires cfg.Valid() && IsRun(cfg, START, run) && RightRun(cfg, START, run)
    ensures var v := Of(After(cfg, START, run), j);
            && Held(v)
            && (Live(v.rec) && v.tasks == map[] && v.rescue.None? ==> v.rec.queued != map[] || v.rec.active != {})
  {
    RightRunIsHarmless(cfg, START, run);
    NoJobIsLost(cfg, run, j);
  }

  // ---------- a live job does not vanish

  /** No event of the run ends job `j`. */
  predicate NeverEnds(cfg: Settings, s: System, run: seq<Event>, j: JobId)
    requires IsRun(cfg, s, run)
    decreases |run|
  {
    run == [] ||
    (!(run[0].OnJob? && run[0].job == j && Ends(Of(s, j), run[0].step)) &&
     NeverEnds(cfg, Happen(cfg, s, run[0]), run[1..], j))
  }

  lemma {:induction false} UnendedStaysLive(cfg: Settings, s: System, run: seq<Event>, j: JobId)
    requires cfg.Valid() && SystemTimed(cfg, s) && IsRun(cfg, s, run) && NeverEnds(cfg, s, run, j)
    requires !Of(s, j).rec.mortal
    ensures !Of(After(cfg, s, run), j).rec.mortal
    ensures Live(Of(s, j).rec) ==> Live(Of(After(cfg, s, run), j).rec)
    decreases |run|
  {
    if run != [] {
      var e, s' := run[0], Happen(cfg, s, run[0]);
      EventKeepsTiming(cfg, s, e);
      if e.OnJob? && e.job == j { LiveOnlyEnds(cfg, s.now, Of(s, j), e.step); }
      UnendedStaysLive(cfg, s', run[1..], j);
    }
  }

  /** A job whose end has not been reported never stops being live: its hash has no
      lifetime, and nothing else takes it away.  (A job that has failed keeps the
      lifetime it got then when it is requeued.) */
  lemma LiveUntilItsEnd(cfg: Settings, before: seq<Event>, after: seq<Event>, j: JobId)
    requires cfg.Valid() && IsRun(cfg, START, before) && IsRun(cfg, After(cfg, START, before), after)
    requires NeverEnds(cfg, START, before, j) && NeverEnds(cfg, After(cfg, START, before), after, j)
    requires Live(Of(After(cfg, START, before), j).rec)
    ensures Live(Of(After(cfg, After(cfg, START, before), after), j).rec)
  {
    UnendedStaysLive(cfg, START, before, j);
    RunKeepsTiming(cfg, START, before);
    UnendedStaysLive(cfg, After(cfg, START, before), after, j);
  }
}
