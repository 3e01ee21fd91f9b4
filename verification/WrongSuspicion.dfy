/**
 Why `NoJobIsLost` needs harmless crashes, and harmless crashes right suspicions: two
 runs in which a worker that is slow, not dead, is suspected, and its job is lost.
 */
module WrongSuspicion {
  import opened Wrappers
  import opened JobRecord
  import opened Lifecycle
  import opened LifecycleTheorems
  import opened ConcreteRuns

  /** Worker `w` claims the job and is about to release it. */
  function StallSteps(job: Job, w: WorkerId): seq<Step> {
    [Client(Enqueue(job, job.queue, 0)), Poll(w, Claim(job.queue)), Batch(w, Load), Batch(w, GiveBack)]
  }

  function Stalled(cfg: Settings, job: Job, w: WorkerId): View {
    View(InHand(cfg, job, w), map[w := Releasing(job.queue, Known(Taken(job, w)))], None, map[], 0)
  }

  lemma WorkerStalls(cfg: Settings, job: Job, w: WorkerId)
    requires cfg.Valid() && Fresh(job)
    ensures CanTake(cfg, 0, FRESH, StallSteps(job, w)) && AfterSteps(cfg, 0, FRESH, StallSteps(job, w)) ==
            Stalled(cfg, job, w)
    ensures NoDrain(StallSteps(job, w))
  {
    var end := Stalled(cfg, job, w);
    var claimed := end.(tasks := map[w := Claimed(job.queue)]);
    var loaded := end.(tasks := map[w := Loaded(job.queue, Some(Taken(job, w)))]);
    NewJobIsOffered(cfg, job);
    NewJobIsClaimed(cfg, job, w);
    BatchMoves(cfg, 0, claimed, w, Load, loaded);
    BatchMoves(cfg, 0, loaded, w, GiveBack, end);
    PathIsTaken(cfg, 0, [FRESH, Offered(job), claimed, loaded, end], StallSteps(job, w));
  }

  /** The lock has run out: `rescuer` locks the job to take it over, and `w` drops it
      when it sees a lock that is not its own. */
  function LetGoSteps(w: WorkerId, rescuer: WorkerId): seq<Step> {
    [Suspect(rescuer, Take(w)), Batch(w, ReadOwner), Batch(w, RemoveActive), Batch(w, Unlock)]
  }

  function TakenOver(cfg: Settings, job: Job, w: WorkerId, rescuer: WorkerId, now: int): View {
    View(InHand(cfg, job, w).(lock := Some(Lock(Recovery(w), now + LockTtl(job, cfg)))),
         map[w := Releasing(job.queue, Known(Taken(job, w)))], Some(Rescue(rescuer, w, Holding(Taken(job, w)))), map[],
             0)
  }

  function LetGo(cfg: Settings, job: Job, w: WorkerId, rescuer: WorkerId, now: int): View {
    var v := TakenOver(cfg, job, w, rescuer, now);
    v.(rec := v.rec.(active := {}), tasks := map[])
  }

  lemma WorkerLetsGo(cfg: Settings, job: Job, w: WorkerId, rescuer: WorkerId, now: int)
    requires cfg.Valid() && Fresh(job) && LockTtl(job, cfg) <= now
    ensures CanTake(cfg, now, Stalled(cfg, job, w), LetGoSteps(w, rescuer))
    ensures AfterSteps(cfg, now, Stalled(cfg, job, w), LetGoSteps(w, rescuer)) == LetGo(cfg, job, w, rescuer, now)
  {
    var v0, v1, v4 := Stalled(cfg, job, w), TakenOver(cfg, job, w, rescuer, now), LetGo(cfg, job, w, rescuer, now);
    var v2 := v1.(tasks := map[w := Dropping]);
    var v3 := v4.(tasks := map[w := Unlocking]);
    WorkerIsSuspected(cfg, job, w, rescuer, now);
    BatchMoves(cfg, now, v1, w, ReadOwner, v2);
    BatchMoves(cfg, now, v2, w, Lifecycle.RemoveActive, v3);
    BatchMoves(cfg, now, v3, w, Unlock, v4);
    PathIsTaken(cfg, now, [v0, v1, v2, v3, v4], LetGoSteps(w, rescuer));
  }

  lemma WorkerIsSuspected(cfg: Settings, job: Job, w: WorkerId, rescuer: WorkerId, now: int)
    requires cfg.Valid() && Fresh(job) && LockTtl(job, cfg) <= now
    ensures Moves(cfg, now, Stalled(cfg, job, w), Suspect(rescuer, Take(w)), TakenOver(cfg, job, w, rescuer, now))
  {
    SuspectMoves(cfg, now, Stalled(cfg, job, w), rescuer, Take(w), TakenOver(cfg, job, w, rescuer, now));
  }

  lemma CrashMisses(cfg: Settings, s: System, j: JobId, w: WorkerId)
    requires j in s.jobs && Live(s.jobs[j].rec) && s.jobs[j].rec.queued == map[] && s.jobs[j].rec.active == {}
    requires s.jobs[j].tasks.Keys <= {w}
    requires var rescue := s.jobs[j].rescue; rescue.Some? ==> rescue.value.rescuer == w || rescue.value.stage.Finishing?
    ensures IsRun(cfg, s, [Crash(w)])
    ensures var s' := After(cfg, s, [Crash(w)]); s'.dead == s.dead + {w} && Live(Of(s', j).rec) && !Held(Of(s', j))
  {
    var s' := Happen(cfg, s, Crash(w));
    assert s'.jobs[j].tasks.Keys == {};
    assert IsRun(cfg, s', []) && [Crash(w)][1..] == [];
  }

  predicate EndsWith(run: seq<Event>, end: seq<Event>) {
    |end| <= |run| && run[|run| - |end|..] == end
  }

  /** Nobody but `w` is suspected, it is suspected by `rescuer`, and nobody crashes before
      the end. */
  predicate SuspectsAlive(run: seq<Event>, j: JobId, w: WorkerId, rescuer: WorkerId) {
    && OnJob(j, Suspect(rescuer, Take(w))) in run
    && (forall i :: 0 <= i < |run| && run[i].OnJob? && run[i].step.Suspect? ==>
          run[i] == OnJob(j, Suspect(rescuer, Take(w))))
    && (forall i :: 0 <= i < |run| - 1 ==> !run[i].Crash?)
  }

  lemma SlowWorkerIsSuspected(j: JobId, job: Job, w: WorkerId, rescuer: WorkerId, now: int, more: seq<Step>,
                              last: WorkerId)
    requires more == [] || more == UnlistSteps(job, w, rescuer, now)
    ensures var run := Around(j, StallSteps(job, w), now, LetGoSteps(w, rescuer) + more) + [Crash(last)];
            SuspectsAlive(run, j, w, rescuer)
  {
    var run := Around(j, StallSteps(job, w), now, LetGoSteps(w, rescuer) + more) + [Crash(last)];
    assert run[5] == OnJob(j, Suspect(rescuer, Take(w)));
  }

  lemma UnlistingComesLast(j: JobId, job: Job, w: WorkerId, rescuer: WorkerId, now: int)
    ensures var later := LetGoSteps(w, rescuer) + UnlistSteps(job, w, rescuer, now);
            EndsWith(Around(j, StallSteps(job, w), now, later) + [Crash(w)],
                     [OnJob(j, Poll(w, Claim(job.queue))), OnJob(j, Recover(rescuer, Trail)), Crash(w)])
  {}

  /** A slow worker is suspected and lets go of its job, and its rescuer crashes before
      it requeues: the job is still to be run, and nothing in Redis and nobody alive
      has it. */
  lemma WrongSuspicionLosesJob(cfg: Settings, j: JobId, job: Job, w: WorkerId, rescuer: WorkerId)
      returns (run: seq<Event>)
    requires cfg.Valid() && Fresh(job) && w != rescuer
    ensures IsRun(cfg, START, run) && EndsWith(run, [Crash(rescuer)])
    ensures SuspectsAlive(run, j, w, rescuer)
    ensures var s := After(cfg, START, run); s.dead == {rescuer} && Live(Of(s, j).rec) && !Held(Of(s, j))
  {
    var now := LockTtl(job, cfg);
    var a, b, end := StallSteps(job, w), LetGoSteps(w, rescuer), LetGo(cfg, job, w, rescuer, now);
    WorkerStalls(cfg, job, w);
    WorkerLetsGo(cfg, job, w, rescuer, now);
    StretchesAroundTick(cfg, j, a, Stalled(cfg, job, w), now, b, end);
    CrashMisses(cfg, System(now, {}, {}, map[j := end]), j, rescuer);
    run := Around(j, a, now, b) + [Crash(rescuer)];
    SlowWorkerIsSuspected(j, job, w, rescuer, now, [], rescuer);
    assert b + [] == b;
    RunsJoin(cfg, START, Around(j, a, now, b), [Crash(rescuer)]);
  }

  // ---------- the removal after the requeue

  /** The rescuer requeues the job, `w` claims it anew, and the rescuer takes it off the
      list of `w` once more. */
  function UnlistSteps(job: Job, w: WorkerId, rescuer: WorkerId, now: int): seq<Step> {
    [Recover(rescuer, Check), Recover(rescuer, Restore(now)), Poll(w, Claim(job.queue)), Recover(rescuer, Trail)]
  }

  function Unlisted(cfg: Settings, job: Job, w: WorkerId, rescuer: WorkerId, now: int): View {
    View(InHand(cfg, job, w).(lock := Some(Lock(Worker(w), now + LockTtl(job, cfg))), active := {}),
         map[w := Claimed(job.queue)], Some(Rescue(rescuer, w, Finishing)), map[], 0)
  }

  lemma WorkerIsUnlisted(cfg: Settings, job: Job, w: WorkerId, rescuer: WorkerId, now: int)
    requires cfg.Valid() && Fresh(job)
    ensures CanTake(cfg, now, LetGo(cfg, job, w, rescuer, now), UnlistSteps(job, w, rescuer, now))
    ensures AfterSteps(cfg, now, LetGo(cfg, job, w, rescuer, now), UnlistSteps(job, w, rescuer, now))
         == Unlisted(cfg, job, w, rescuer, now)
  {
    var q, v0, v4 := job.queue, LetGo(cfg, job, w, rescuer, now), Unlisted(cfg, job, w, rescuer, now);
    var v1 := v0.(rescue := Some(Rescue(rescuer, w, Restoring(Taken(job, w)))));
    var v2 := View(Record(Some(job.(worker := None)), map[q := now], None, {}, 0, false), map[],
                   Some(Rescue(rescuer, w, Trailing)), map[], 0);
    var v3 := v4.(rec := v4.rec.(active := {w}), rescue := v2.rescue);
    assert map[q := now] - {q} == map[];
    RecoverMoves(cfg, now, v0, rescuer, Check, v1);
    RecoverMoves(cfg, now, v1, rescuer, Restore(now), v2);
    ClaimMoves(cfg, now, v2, w, q, v3);
    RecoverMoves(cfg, now, v3, rescuer, Trail, v4);
    PathIsTaken(cfg, now, [v0, v1, v2, v3, v4], UnlistSteps(job, w, rescuer, now));
  }

  /** The rescuer never crashes: when the wrongly suspected worker does, after it has
      claimed the job again, the job is live, in no queue and on nobody's list. */
  lemma TrailingRemovalLosesJob(cfg: Settings, j: JobId, job: Job, w: WorkerId, rescuer: WorkerId)
      returns (run: seq<Event>)
    requires cfg.Valid() && Fresh(job) && w != rescuer
    ensures IsRun(cfg, START, run)
    ensures EndsWith(run, [OnJob(j, Poll(w, Claim(job.queue))), OnJob(j, Recover(rescuer, Trail)), Crash(w)])
    ensures SuspectsAlive(run, j, w, rescuer)
    ensures var s := After(cfg, START, run); s.dead == {w} && Live(Of(s, j).rec) && !Held(Of(s, j))
  {
    var now := LockTtl(job, cfg);
    var a, b, c := StallSteps(job, w), LetGoSteps(w, rescuer), UnlistSteps(job, w, rescuer, now);
    WorkerStalls(cfg, job, w);
    WorkerLetsGo(cfg, job, w, rescuer, now);
    WorkerIsUnlisted(cfg, job, w, rescuer, now);
    StepsJoin(cfg, now, Stalled(cfg, job, w), b, c);
    var end := Unlisted(cfg, job, w, rescuer, now);
    StretchesAroundTick(cfg, j, a, Stalled(cfg, job, w), now, b + c, end);
    CrashMisses(cfg, System(now, {}, {}, map[j := end]), j, w);
    run := Around(j, a, now, b + c) + [Crash(w)];
    SlowWorkerIsSuspected(j, job, w, rescuer, now, c, w);
    UnlistingComesLast(j, job, w, rescuer, now);
    RunsJoin(cfg, START, Around(j, a, now, b + c), [Crash(w)]);
  }
}
