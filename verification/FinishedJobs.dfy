/**
 What prompt runs promise about jobs that are done: nobody has anything left to do with
 a finished job, and a completed one stays completed.  `DrainRuns` shows how a completed
 job is executed again in a run that is not prompt.
 */
module FinishedJobs {
  import opened JobRecord
  import opened Lifecycle
  import opened LockTiming
  import opened LifecycleTheorems
  import opened PromptRuns

  /** In a prompt run a finished job that no operator is requeueing is in no queue, so it
      is not claimed again, and no worker has anything left to do with it. */
  lemma FinishedJobIsLeftAlone(cfg: Settings, run: seq<Event>, j: JobId)
    requires cfg.Valid() && IsRun(cfg, START, run) && PromptRun(cfg, START, run)
    ensures var v := Of(After(cfg, START, run), j);
            v.rec.hash.Some? && !Live(v.rec) && v.operators == map[] ==>
              v.rec.queued == map[] && forall w :: w in v.tasks ==> !Tracked(v.tasks[w])
  {
    RunStaysPlaced(cfg, START, run, j);
    var s := After(cfg, START, run);
    assert InOnePlace(s.now, Of(s, j));
    forall w | w in Of(s, j).tasks ensures Placed(s.now, Of(s, j).rec, w, Of(s, j).tasks[w]) {}
  }

  predicate IsCompleted(r: Record) {
    r.hash.Some? && r.hash.value.status == Completed
  }

  /** Of the steps open to anybody on a completed job, none changes its definition but the
      expiry of the hash, and none queues it. */
  predicate LeavesCompleted(v: View, r: Record) {
    r.hash == v.rec.hash && r.queued == v.rec.queued
  }

  lemma WorkersLeaveCompleted(cfg: Settings, now: int, v: View, w: WorkerId)
    requires IsCompleted(v.rec) && v.rec.queued == map[] && (w in v.tasks ==> Placed(now, v.rec, w, v.tasks[w]))
    ensures forall op :: PollEnabled(now, v, w, op) ==> LeavesCompleted(v, PollApply(cfg, now, v, w, op).rec)
    ensures forall op :: BatchEnabled(cfg, v, w, op) ==> LeavesCompleted(v, BatchApply(cfg, now, v, w, op).rec)
    ensures forall op :: TaskEnabled(now, v, w, op) ==> LeavesCompleted(v, TaskApply(cfg, now, v, w, op).rec)
    ensures forall op :: DrainEnabled(v, w, op) ==> LeavesCompleted(v, DrainApply(now, v, w, op).rec)
  {}

  lemma OthersLeaveCompleted(cfg: Settings, now: int, v: View, w: WorkerId)
    requires IsCompleted(v.rec) && WellTimed(cfg, now, v) && v.operators == map[]
    ensures forall op :: SuspectEnabled(cfg, now, v, op) ==> LeavesCompleted(v, SuspectApply(cfg, now, v, w, op).rec)
    ensures forall op :: RescueEnabled(v, w, op) ==> LeavesCompleted(v, RescueApply(now, v, w, op).rec)
    ensures forall op :: ClientEnabled(v, op) && !op.Expire? ==> LeavesCompleted(v, ClientApply(v, op).rec)
  {}

  lemma StepLeavesCompleted(cfg: Settings, now: int, v: View, step: Step)
    requires WellTimed(cfg, now, v) && InOnePlace(now, v) && Enabled(cfg, now, v, step)
    requires IsCompleted(v.rec) && step != Client(Expire)
    ensures IsCompleted(Apply(cfg, now, v, step).rec)
  {
    assert Apply(cfg, now, v, step).rec == Uncounted(cfg, now, v, step).rec;
    match step
    case Poll(w, _) => WorkersLeaveCompleted(cfg, now, v, w);
    case Batch(w, _) => WorkersLeaveCompleted(cfg, now, v, w);
    case Task(w, _) => WorkersLeaveCompleted(cfg, now, v, w);
    case Drain(w, _) => WorkersLeaveCompleted(cfg, now, v, w);
    case Suspect(w, _) => OthersLeaveCompleted(cfg, now, v, w);
    case Recover(w, _) => OthersLeaveCompleted(cfg, now, v, w);
    case Client(_) => OthersLeaveCompleted(cfg, now, v, 0);
  }

  lemma {:induction false} CompletedStays(cfg: Settings, s: System, run: seq<Event>, j: JobId)
    requires cfg.Valid() && SystemTimed(cfg, s) && SystemInOnePlace(s)
    requires IsRun(cfg, s, run) && PromptRun(cfg, s, run) && OnJob(j, Client(Expire)) !in run
    requires IsCompleted(Of(s, j).rec)
    ensures IsCompleted(Of(After(cfg, s, run), j).rec)
    decreases |run|
  {
    if run != [] {
      var e := run[0];
      EventKeepsTiming(cfg, s, e);
      EventStaysPlaced(cfg, s, e, j);
      if e.OnJob? && e.job == j { StepLeavesCompleted(cfg, s.now, Of(s, j), e.step); }
      CompletedStays(cfg, Happen(cfg, s, e), run[1..], j);
    }
  }

  /** In a prompt run a completed job stays completed for as long as its hash does,
      whoever crashes, recovers, drains or requeues. */
  lemma CompletedForEver(cfg: Settings, before: seq<Event>, after: seq<Event>, j: JobId)
    requires cfg.Valid() && IsRun(cfg, START, before) && PromptRun(cfg, START, before)
    requires IsRun(cfg, After(cfg, START, before), after) && PromptRun(cfg, After(cfg, START, before), after)
    requires OnJob(j, Client(Expire)) !in after && IsCompleted(Of(After(cfg, START, before), j).rec)
    ensures IsCompleted(Of(After(cfg, After(cfg, START, before), after), j).rec)
  {
    RunKeepsTiming(cfg, START, before);
    RunStaysPlaced(cfg, START, before, j);
    CompletedStays(cfg, After(cfg, START, before), after, j);
  }
}
