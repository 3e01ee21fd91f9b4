/**
 The retry budget over whole runs.  The worker decides between RETRYING and the
 dead letter list on the definition it loaded after its claim, while the script
 counts on the hash; the lock is what keeps the two counts equal.
 */
module RetryBudget {
  import opened Wrappers
  import opened JobRecord
  import opened Lifecycle
  import opened LockTiming
  import opened LifecycleTheorems

  predicate SameBudget(job: Job, r: Record) {
    r.hash.Some? && job.retries == r.hash.value.retries && job.maxRetries == r.hash.value.maxRetries
  }

  /** A definition loaded under the worker's own unexpired lock is up to date. */
  predicate UpToDate(now: int, r: Record, w: WorkerId, phase: Phase) {
    match phase
    case Claimed(_) => LockedBy(r, Worker(w), now) && r.hash.Some? && r.hash.value.wellFormed ==> !HasFailed(r)
    case Loaded(_, found) => LockedBy(r, Worker(w), now) && found.Some? ==> SameBudget(found.value, r) && !HasFailed(r)
    case Dispatched(_, job, _) => SameBudget(job, r) && !HasFailed(r)
    case Executing(_, job, _, _) => SameBudget(job, r) && !HasFailed(r)
    case Reporting(_, job, _, _) => SameBudget(job, r) && !HasFailed(r)
    case _ => true
  }

  function Cap(job: Job, revivals: nat): int {
    (if job.maxRetries < 1 then 1 else job.maxRetries) + revivals
  }

  /** The budget, one higher for every time the job left the FAILED state. */
  predicate InBudget(v: View) {
    v.rec.hash.Some? ==>
      var job := v.rec.hash.value;
      && 0 <= job.retries
      && (job.status == Failed ==> job.retries <= Cap(job, v.revivals))
      && (job.status != Failed ==> job.retries < Cap(job, v.revivals))
      && (job.status == Retrying ==> job.retries < job.maxRetries)
  }

  predicate Budgeted(now: int, v: View) {
    && InBudget(v)
    && forall w :: w in v.tasks ==> UpToDate(now, v.rec, w, v.tasks[w])
  }

  predicate SystemBudgeted(s: System) {
    forall j :: j in s.jobs ==> Budgeted(s.now, s.jobs[j])
  }

  // ---------- what a report writes

  /** The report changes the status and the count of the definition, and nothing else of it. */
  predicate OnlyCounts(before: Job, after: Job) {
    after.(status := before.status, retries := before.retries) == before
  }

  /** What becomes of the job, outcome by outcome: a success completes it; a fatal error or
      a timeout fails it for good; any other failure, and a handler's wish to retry, puts
      it back into its queue exactly as long as it has a retry left. */
  lemma ReportWrites(r: Record, job: Job, outcome: Outcome, score: int, ttl: int)
    requires r.hash.Some?
    ensures var h, r' := r.hash.value, Reported(r, job, outcome, score, ttl);
            && r'.lock == r.lock && r'.active == r.active && r'.hash.Some? && OnlyCounts(h, r'.hash.value)
            && var h' := r'.hash.value;
               match outcome
               case Success =>
                 && h'.status == Completed && h'.retries == h.retries
                 && r'.queued == r.queued && r'.dlq == r.dlq
                 && (0 < ttl ==> r'.mortal) && (ttl == 0 ==> !r'.mortal) && (ttl < 0 ==> r'.mortal == r.mortal)
               case Fatal => IsDeadLetter(r, r')
               case TimedOut => IsDeadLetter(r, r')
               case AskRetry =>
                 if job.retries + 1 < job.maxRetries then IsRetry(r, r', job, score) else IsDeadLetter(r, r')
               case Failure =>
                 if job.retries + 1 < job.maxRetries then IsRetry(r, r', job, score) else IsDeadLetter(r, r')
  {}

  predicate IsDeadLetter(r: Record, r': Record)
    requires r.hash.Some? && r'.hash.Some?
  {
    && r'.hash.value.status == Failed && r'.hash.value.retries == r.hash.value.retries + 1
    && r'.dlq == r.dlq + 1 && r'.queued == r.queued && r'.mortal
  }

  predicate IsRetry(r: Record, r': Record, job: Job, score: int)
    requires r.hash.Some? && r'.hash.Some?
  {
    && r'.hash.value.status == Retrying && r'.hash.value.retries == r.hash.value.retries + 1
    && r'.dlq == r.dlq && r'.queued == r.queued[job.queue := score] && r'.mortal == r.mortal
  }

  /** An execution that cannot be started is a fatal error. */
  lemma RejectionIsFatal(cfg: Settings, now: int, v: View, w: WorkerId, score: int, ttl: int)
    requires w in v.tasks && v.tasks[w].Dispatched? && v.rec.hash.Some?
    ensures var reject, report := Task(w, Reject), Task(w, Report(score, ttl));
            && Enabled(cfg, now, v, reject) && Enabled(cfg, now, Apply(cfg, now, v, reject), report)
            && var r' := Apply(cfg, now, Apply(cfg, now, v, reject), report).rec;
               r'.hash.Some? && IsDeadLetter(v.rec, r')
  {}

  /** Only a reported failure spends a retry, and it spends exactly one; claims,
      releases, drains and recoveries spend none. */
  predicate Spends(v: View, step: Step) {
    && step.Task? && step.taskOp.Report?
    && step.worker in v.tasks && v.tasks[step.worker].Reporting? && !v.tasks[step.worker].outcome.Success?
  }

  predicate KeepsCounts(before: Record, after: Record, spent: int) {
    before.hash.Some? && after.hash.Some? ==>
      && after.hash.value.maxRetries == before.hash.value.maxRetries
      && after.hash.value.retries == before.hash.value.retries + spent
      && after.hash.value.wellFormed == before.hash.value.wellFormed
  }

  lemma PollerSpendsNothing(cfg: Settings, now: int, v: View, w: WorkerId)
    ensures forall op :: PollEnabled(now, v, w, op) ==> KeepsCounts(v.rec, PollApply(cfg, now, v, w, op).rec, 0)
    ensures forall op :: BatchEnabled(cfg, v, w, op) ==> KeepsCounts(v.rec, BatchApply(cfg, now, v, w, op).rec, 0)
  {}

  lemma OnlyReportsSpend(cfg: Settings, now: int, v: View, w: WorkerId, op: TaskOp)
    requires TaskEnabled(now, v, w, op)
    ensures KeepsCounts(v.rec, TaskApply(cfg, now, v, w, op).rec, if Spends(v, Task(w, op)) then 1 else 0)
  {}

  lemma DrainSpendsNothing(now: int, v: View, w: WorkerId)
    ensures forall op :: DrainEnabled(v, w, op) ==> KeepsCounts(v.rec, DrainApply(now, v, w, op).rec, 0)
  {}

  lemma RecoverySpendsNothing(cfg: Settings, now: int, v: View, w: WorkerId)
    ensures forall op :: SuspectEnabled(cfg, now, v, op) ==> KeepsCounts(v.rec, SuspectApply(cfg, now, v, w, op).rec, 0)
    ensures forall op :: RescueEnabled(v, w, op) ==> KeepsCounts(v.rec, RescueApply(now, v, w, op).rec, 0)
  {}

  lemma ClientsSpendNothing(v: View)
    ensures forall op :: ClientEnabled(v, op) ==> KeepsCounts(v.rec, ClientApply(v, op).rec, 0)
  {}

  lemma OnlyFailuresSpend(cfg: Settings, now: int, v: View, step: Step)
    requires Enabled(cfg, now, v, step) && v.rec.hash.Some?
    ensures var next := Apply(cfg, now, v, step).rec;
            next.hash.Some? ==>
              && next.hash.value.maxRetries == v.rec.hash.value.maxRetries
              && next.hash.value.retries == v.rec.hash.value.retries + if Spends(v, step) then 1 else 0
    ensures KeepsCounts(v.rec, Apply(cfg, now, v, step).rec, if Spends(v, step) then 1 else 0)
  {
    assert Apply(cfg, now, v, step).rec == Uncounted(cfg, now, v, step).rec;
    match step
    case Poll(w, op) => PollerSpendsNothing(cfg, now, v, w);
    case Batch(w, op) => PollerSpendsNothing(cfg, now, v, w);
    case Task(w, op) => OnlyReportsSpend(cfg, now, v, w, op);
    case Drain(w, op) => DrainSpendsNothing(now, v, w);
    case Suspect(rescuer, op) => RecoverySpendsNothing(cfg, now, v, rescuer);
    case Recover(rescuer, op) => RecoverySpendsNothing(cfg, now, v, rescuer);
    case Client(op) => ClientsSpendNothing(v);
  }

  /** In the budget as `Apply` counts it. */
  predicate StaysInBudget(v: View, next: View) {
    InBudget(next.(revivals := v.revivals + if Revives(v.rec, next.rec) then 1 else 0))
  }

  lemma PollStaysInBudget(cfg: Settings, now: int, v: View, w: WorkerId)
    requires InBudget(v)
    ensures forall op :: PollEnabled(now, v, w, op) ==> StaysInBudget(v, PollApply(cfg, now, v, w, op))
  {}

  lemma BatchStaysInBudget(cfg: Settings, now: int, v: View, w: WorkerId)
    requires InBudget(v)
    ensures forall op :: BatchEnabled(cfg, v, w, op) ==> StaysInBudget(v, BatchApply(cfg, now, v, w, op))
  {}

  lemma TaskStaysInBudget(cfg: Settings, now: int, v: View, w: WorkerId, op: TaskOp)
    requires InBudget(v) && TaskEnabled(now, v, w, op) && UpToDate(now, v.rec, w, v.tasks[w])
    ensures StaysInBudget(v, TaskApply(cfg, now, v, w, op))
  {}

  lemma DrainStaysInBudget(now: int, v: View, w: WorkerId)
    requires InBudget(v)
    ensures forall op :: DrainEnabled(v, w, op) ==> StaysInBudget(v, DrainApply(now, v, w, op))
  {}

  lemma SuspectStaysInBudget(cfg: Settings, now: int, v: View, w: WorkerId)
    requires InBudget(v)
    ensures forall op :: SuspectEnabled(cfg, now, v, op) ==> StaysInBudget(v, SuspectApply(cfg, now, v, w, op))
  {}

  lemma RescueStaysInBudget(now: int, v: View, w: WorkerId, op: RescueOp)
    requires InBudget(v) && RescueEnabled(v, w, op)
    ensures StaysInBudget(v, RescueApply(now, v, w, op))
  {}

  lemma ClientsStayInBudget(v: View)
    requires InBudget(v)
    ensures forall op :: ClientEnabled(v, op) ==> StaysInBudget(v, ClientApply(v, op))
  {}

  lemma StepStaysInBudget(cfg: Settings, now: int, v: View, step: Step)
    requires Enabled(cfg, now, v, step) && Budgeted(now, v)
    ensures InBudget(Apply(cfg, now, v, step))
  {
    match step
    case Poll(w, op) => PollStaysInBudget(cfg, now, v, w);
    case Batch(w, op) => BatchStaysInBudget(cfg, now, v, w);
    case Task(w, op) => TaskStaysInBudget(cfg, now, v, w, op);
    case Drain(w, op) => DrainStaysInBudget(now, v, w);
    case Suspect(rescuer, op) => SuspectStaysInBudget(cfg, now, v, rescuer);
    case Recover(rescuer, op) => RescueStaysInBudget(now, v, rescuer, op);
    case Client(op) => ClientsStayInBudget(v);
  }

  // ---------- what others do to a job with an owner

  /** The job can still be run. */
  predicate Runnable(r: Record) {
    r.hash.Some? && r.hash.value.wellFormed && !HasFailed(r)
  }

  lemma PollerKeepsRunnable(cfg: Settings, now: int, v: View, w: WorkerId)
    requires Runnable(v.rec) && (w in v.tasks ==> Matches(v.rec, v.tasks[w]))
    ensures forall op :: PollEnabled(now, v, w, op) ==> Runnable(PollApply(cfg, now, v, w, op).rec)
    ensures forall op :: BatchEnabled(cfg, v, w, op) ==> Runnable(BatchApply(cfg, now, v, w, op).rec)
  {}

  lemma DrainKeepsRunnable(now: int, v: View, w: WorkerId)
    requires Runnable(v.rec)
    ensures forall op :: DrainEnabled(v, w, op) ==> Runnable(DrainApply(now, v, w, op).rec)
  {}

  lemma RecoveryKeepsRunnable(cfg: Settings, now: int, v: View, w: WorkerId)
    requires Runnable(v.rec)
    ensures forall op :: SuspectEnabled(cfg, now, v, op) ==> Runnable(SuspectApply(cfg, now, v, w, op).rec)
    ensures forall op :: RescueEnabled(v, w, op) ==> Runnable(RescueApply(now, v, w, op).rec)
  {}

  lemma ClientsKeepRunnable(v: View)
    requires Runnable(v.rec) && v.tasks != map[]
    ensures forall op :: ClientEnabled(v, op) ==> Runnable(ClientApply(v, op).rec)
  {}

  lemma BystandingTaskKeepsRunnable(cfg: Settings, now: int, v: View, w: WorkerId, op: TaskOp)
    requires TaskEnabled(now, v, w, op) && Runnable(v.rec) && !Spawned(v.tasks[w])
    ensures TaskApply(cfg, now, v, w, op).rec == v.rec
  {}

  /** While a worker holds the lock, nobody else changes the counts or fails the job. */
  lemma OthersKeepCounts(cfg: Settings, now: int, v: View, step: Step, w: WorkerId)
    requires cfg.Valid() && WellTimed(cfg, now, v) && Enabled(cfg, now, v, step)
    requires LockedBy(v.rec, Worker(w), now) && w in v.tasks && Runnable(v.rec)
    requires !(step.Task? && step.worker == w)
    ensures var r := Apply(cfg, now, v, step).rec; Runnable(r) && SameBudget(v.rec.hash.value, r)
  {
    OnlyFailuresSpend(cfg, now, v, step);
    assert Apply(cfg, now, v, step).rec == Uncounted(cfg, now, v, step).rec;
    match step
    case Poll(w', _) => PollerKeepsRunnable(cfg, now, v, w');
    case Batch(w', _) => PollerKeepsRunnable(cfg, now, v, w');
    case Task(w', op) =>
      if Spawned(v.tasks[w']) { SpawnedHoldsLock(cfg, now, v, w'); }
      BystandingTaskKeepsRunnable(cfg, now, v, w', op);
    case Drain(w', _) => DrainKeepsRunnable(now, v, w');
    case Suspect(rescuer, _) => RecoveryKeepsRunnable(cfg, now, v, rescuer);
    case Recover(rescuer, _) => RecoveryKeepsRunnable(cfg, now, v, rescuer);
    case Client(_) => ClientsKeepRunnable(v);
  }

  predicate ActsFor(step: Step, w: WorkerId) {
    (step.Poll? || step.Batch? || step.Task? || step.Drain?) && step.worker == w
  }

  /** Nobody but `w` can give `w` the lock. */
  ghost predicate GivesNoLock(before: Record, after: Record, now: int, giver: Option<WorkerId>) {
    forall w: WorkerId :: LockedBy(after, Worker(w), now) && giver != Some(w) ==> LockedBy(before, Worker(w), now)
  }

  lemma PollerGivesNoLock(cfg: Settings, now: int, v: View, w: WorkerId)
    ensures forall op :: PollEnabled(now, v, w, op) ==>
              GivesNoLock(v.rec, PollApply(cfg, now, v, w, op).rec, now, Some(w))
    ensures forall op :: BatchEnabled(cfg, v, w, op) ==>
              GivesNoLock(v.rec, BatchApply(cfg, now, v, w, op).rec, now, Some(w))
  {}

  lemma TaskGivesNoLock(cfg: Settings, now: int, v: View, w: WorkerId)
    ensures forall op :: TaskEnabled(now, v, w, op) ==> GivesNoLock(v.rec, TaskApply(cfg, now, v, w, op).rec, now, None)
    ensures forall op :: DrainEnabled(v, w, op) ==> GivesNoLock(v.rec, DrainApply(now, v, w, op).rec, now, None)
  {}

  lemma RecoveryGivesNoLock(cfg: Settings, now: int, v: View, w: WorkerId)
    ensures forall op :: SuspectEnabled(cfg, now, v, op) ==>
            GivesNoLock(v.rec, SuspectApply(cfg, now, v, w, op).rec, now, None)
    ensures forall op :: RescueEnabled(v, w, op) ==> GivesNoLock(v.rec, RescueApply(now, v, w, op).rec, now, None)
  {}

  lemma ClientsGiveNoLock(v: View, now: int)
    ensures forall op :: ClientEnabled(v, op) ==> GivesNoLock(v.rec, ClientApply(v, op).rec, now, None)
  {}

  lemma LockComesFromOwner(cfg: Settings, now: int, v: View, step: Step, w: WorkerId)
    requires Enabled(cfg, now, v, step) && !ActsFor(step, w)
    requires LockedBy(Apply(cfg, now, v, step).rec, Worker(w), now)
    ensures LockedBy(v.rec, Worker(w), now)
  {
    assert Apply(cfg, now, v, step).rec == Uncounted(cfg, now, v, step).rec;
    match step
    case Poll(w', _) => PollerGivesNoLock(cfg, now, v, w');
    case Batch(w', _) => PollerGivesNoLock(cfg, now, v, w');
    case Task(w', _) => TaskGivesNoLock(cfg, now, v, w');
    case Drain(w', _) => TaskGivesNoLock(cfg, now, v, w');
    case Suspect(rescuer, _) => RecoveryGivesNoLock(cfg, now, v, rescuer);
    case Recover(rescuer, _) => RecoveryGivesNoLock(cfg, now, v, rescuer);
    case Client(_) => ClientsGiveNoLock(v, now);
  }

  lemma BystanderStaysUpToDate(cfg: Settings, now: int, v: View, step: Step, w: WorkerId)
    requires cfg.Valid() && WellTimed(cfg, now, v) && Enabled(cfg, now, v, step)
    requires w in v.tasks && UpToDate(now, v.rec, w, v.tasks[w]) && !ActsFor(step, w)
    ensures UpToDate(now, Apply(cfg, now, v, step).rec, w, v.tasks[w])
  {
    var phase := v.tasks[w];
    assert Matches(v.rec, phase);
    if Spawned(phase) {
      SpawnedHoldsLock(cfg, now, v, w);
      if !phase.Tidying? && !phase.Freeing? { OthersKeepCounts(cfg, now, v, step, w); }
    } else if LockedBy(Apply(cfg, now, v, step).rec, Worker(w), now) {
      LockComesFromOwner(cfg, now, v, step, w);
      if v.rec.hash.value.wellFormed && (phase.Claimed? || phase.Loaded?) {
        OthersKeepCounts(cfg, now, v, step, w);
      } else if phase.Claimed? {
        OnlyFailuresSpend(cfg, now, v, step);
      }
    }
  }

  predicate StaysUpToDate(now: int, next: View, w: WorkerId) {
    w in next.tasks ==> UpToDate(now, next.rec, w, next.tasks[w])
  }

  lemma PollerStaysUpToDate(cfg: Settings, now: int, v: View, w: WorkerId)
    requires StaysUpToDate(now, v, w) && (w in v.tasks ==> Matches(v.rec, v.tasks[w]))
    ensures forall op :: PollEnabled(now, v, w, op) ==> StaysUpToDate(now, PollApply(cfg, now, v, w, op), w)
    ensures forall op :: BatchEnabled(cfg, v, w, op) ==> StaysUpToDate(now, BatchApply(cfg, now, v, w, op), w)
  {}

  lemma TaskStaysUpToDate(cfg: Settings, now: int, v: View, w: WorkerId)
    requires StaysUpToDate(now, v, w)
    ensures forall op :: TaskEnabled(now, v, w, op) ==> StaysUpToDate(now, TaskApply(cfg, now, v, w, op), w)
    ensures forall op :: DrainEnabled(v, w, op) ==> StaysUpToDate(now, DrainApply(now, v, w, op), w)
  {}

  lemma ActorStaysUpToDate(cfg: Settings, now: int, v: View, step: Step, w: WorkerId)
    requires WellTimed(cfg, now, v) && Enabled(cfg, now, v, step) && Budgeted(now, v) && ActsFor(step, w)
    ensures StaysUpToDate(now, Apply(cfg, now, v, step), w)
  {
    var v' := Uncounted(cfg, now, v, step);
    assert Apply(cfg, now, v, step).rec == v'.rec && Apply(cfg, now, v, step).tasks == v'.tasks;
    if step.Poll? || step.Batch? { PollerStaysUpToDate(cfg, now, v, w); } else { TaskStaysUpToDate(cfg, now, v, w); }
  }

  lemma OtherTasksStay(cfg: Settings, now: int, v: View, step: Step, w: WorkerId)
    requires Enabled(cfg, now, v, step) && !ActsFor(step, w)
    ensures var v' := Apply(cfg, now, v, step);
            w in v'.tasks ==> w in v.tasks && v'.tasks[w] == v.tasks[w]
  {
    assert Apply(cfg, now, v, step).tasks == Uncounted(cfg, now, v, step).tasks;
  }

  lemma StepKeepsBudget(cfg: Settings, now: int, v: View, step: Step)
    requires cfg.Valid() && WellTimed(cfg, now, v) && Enabled(cfg, now, v, step) && Budgeted(now, v)
    ensures Budgeted(now, Apply(cfg, now, v, step))
  {
    StepStaysInBudget(cfg, now, v, step);
    var v' := Apply(cfg, now, v, step);
    forall w | w in v'.tasks ensures UpToDate(now, v'.rec, w, v'.tasks[w]) {
      if ActsFor(step, w) {
        ActorStaysUpToDate(cfg, now, v, step, w);
      } else {
        OtherTasksStay(cfg, now, v, step, w);
        BystanderStaysUpToDate(cfg, now, v, step, w);
      }
    }
  }

  lemma EventKeepsBudget(cfg: Settings, s: System, e: Event)
    requires cfg.Valid() && SystemTimed(cfg, s) && SystemBudgeted(s) && EventEnabled(cfg, s, e)
    ensures SystemBudgeted(Happen(cfg, s, e))
  {
    var s' := Happen(cfg, s, e);
    forall j | j in s'.jobs ensures Budgeted(s'.now, s'.jobs[j]) {
      if e.OnJob? && e.job == j {
        StepKeepsBudget(cfg, s.now, Of(s, j), e.step);
      } else {
        assert Budgeted(s.now, s.jobs[j]);
        forall w | w in s'.jobs[j].tasks ensures UpToDate(s'.now, s'.jobs[j].rec, w, s'.jobs[j].tasks[w]) {
          assert UpToDate(s.now, s.jobs[j].rec, w, s.jobs[j].tasks[w]);
        }
      }
    }
  }

  lemma {:induction false} RunKeepsBudget(cfg: Settings, s: System, run: seq<Event>)
    requires cfg.Valid() && SystemTimed(cfg, s) && SystemBudgeted(s) && IsRun(cfg, s, run)
    ensures SystemBudgeted(After(cfg, s, run))
    decreases |run|
  {
    if run != [] {
      EventKeepsTiming(cfg, s, run[0]);
      EventKeepsBudget(cfg, s, run[0]);
      RunKeepsBudget(cfg, Happen(cfg, s, run[0]), run[1..]);
    }
  }

  /** In every run, crashes and false suspicions included: a job's count never
      exceeds max(1, max_retries) plus the number of times it left the FAILED
      state, and a RETRYING job has a retry left. */
  lemma RetriesStayInBudget(cfg: Settings, run: seq<Event>, j: JobId)
    requires cfg.Valid() && IsRun(cfg, START, run)
    ensures var v := Of(After(cfg, START, run), j);
            v.rec.hash.Some? ==>
              && v.rec.hash.value.retries <= Cap(v.rec.hash.value, v.revivals)
              && (v.rec.hash.value.status == Retrying ==> v.rec.hash.value.retries < v.rec.hash.value.maxRetries)
  {
    RunKeepsBudget(cfg, START, run);
  }

  /** In every run, a failure that is not fatal is retried if and only if the job has a
      retry left by its own counts; a job that it dead-letters has used up
      max(1, max_retries) attempts. */
  lemma FailureIsRetriedExactly(cfg: Settings, run: seq<Event>, j: JobId, w: WorkerId, score: int, ttl: int)
    requires cfg.Valid() && IsRun(cfg, START, run)
    requires var v := Of(After(cfg, START, run), j);
             w in v.tasks && v.tasks[w].Reporting? && (v.tasks[w].outcome.AskRetry? || v.tasks[w].outcome.Failure?)
    ensures var s := After(cfg, START, run);
            var v := Of(s, j);
            var r' := Apply(cfg, s.now, v, Task(w, Report(score, ttl))).rec;
            && v.rec.hash.Some? && r'.hash.Some?
            && var h := v.rec.hash.value;
               && (h.retries + 1 < h.maxRetries <==> r'.hash.value.status == Retrying)
               && (h.retries + 1 < h.maxRetries ==> IsRetry(v.rec, r', v.tasks[w].job, score))
               && (h.retries + 1 >= h.maxRetries ==>
                     IsDeadLetter(v.rec, r') && h.maxRetries <= r'.hash.value.retries && 1 <= r'.hash.value.retries)
  {
    RunKeepsBudget(cfg, START, run);
    var s := After(cfg, START, run);
    var v := Of(s, j);
    assert UpToDate(s.now, v.rec, w, v.tasks[w]);
    ReportWrites(v.rec, v.tasks[w].job, v.tasks[w].outcome, score, ttl);
    assert Apply(cfg, s.now, v, Task(w, Report(score, ttl))).rec ==
           Uncounted(cfg, s.now, v, Task(w, Report(score, ttl))).rec;
  }
}
