/**
 Why suspecting only crashed workers is not enough.  A recovery pass works through the
 active list of a crashed worker as it was when it read it; a job on it may have been
 requeued and claimed by another worker since.  What follows is exactly when taking a
 job over is safe, and a run in which it is not.
 */
module StaleList {
  import opened Wrappers
  import opened JobRecord
  import opened Lifecycle
  import opened LockTiming
  import opened NoLostJob
  import opened LifecycleTheorems
  import opened ConcreteRuns

  // ---------- an unsecured job can be lost

  /** The phases of a worker that drops the job when it finds the lock in other hands. */
  predicate Drops(phase: Phase) {
    phase.Claimed? || phase.Loaded? || phase.Releasing? || phase.Dropping?
  }

  function DropSteps(w: WorkerId, phase: Phase): (steps: seq<Step>)
    ensures forall i :: 0 <= i < |steps| ==> steps[i].Batch? && steps[i].worker == w
  {
    var last := [Batch(w, ReadOwner), Batch(w, RemoveActive)];
    match phase
    case Claimed(_) => [Batch(w, FailLoad)] + last
    case Loaded(_, _) => [Batch(w, GiveBack)] + last
    case Releasing(_, _) => last
    case _ => [Batch(w, RemoveActive)]
  }

  lemma WorkerDrops(cfg: Settings, now: int, v: View, w: WorkerId)
    requires w in v.tasks && Drops(v.tasks[w]) && LockedByOther(v.rec, Worker(w), now)
    ensures var steps := DropSteps(w, v.tasks[w]);
            CanTake(cfg, now, v, steps) &&
            AfterSteps(cfg, now, v, steps) ==
              v.(rec := JobRecord.RemoveActive(v.rec, w), tasks := v.tasks[w := Unlocking])
  {
    var end := v.(rec := JobRecord.RemoveActive(v.rec, w), tasks := v.tasks[w := Unlocking]);
    var dropping := v.(tasks := v.tasks[w := Dropping]);
    BatchMoves(cfg, now, dropping, w, Lifecycle.RemoveActive, end);
    match v.tasks[w]
    case Claimed(q) =>
      var releasing := v.(tasks := v.tasks[w := Releasing(q, Unread)]);
      BatchMoves(cfg, now, v, w, FailLoad, releasing);
      BatchMoves(cfg, now, releasing, w, ReadOwner, dropping);
      PathIsTaken(cfg, now, [v, releasing, dropping, end], DropSteps(w, v.tasks[w]));
    case Loaded(q, found) =>
      var cause := match found case Some(job) => Known(job) case None => Malformed;
      var releasing := v.(tasks := v.tasks[w := Releasing(q, cause)]);
      BatchMoves(cfg, now, v, w, GiveBack, releasing);
      BatchMoves(cfg, now, releasing, w, ReadOwner, dropping);
      PathIsTaken(cfg, now, [v, releasing, dropping, end], DropSteps(w, v.tasks[w]));
    case Releasing(_, _) =>
      BatchMoves(cfg, now, v, w, ReadOwner, dropping);
      PathIsTaken(cfg, now, [v, dropping, end], DropSteps(w, v.tasks[w]));
    case Dropping =>
      assert dropping == v;
      PathIsTaken(cfg, now, [v, end], DropSteps(w, v.tasks[w]));
  }

  /** Nothing but a recovery that has just begun answers for the job, and every worker
      that lists it may still drop it. */
  predicate Doomed(now: int, v: View, rescuer: WorkerId, lost: WorkerId) {
    && Live(v.rec) && v.rec.queued == map[]
    && v.rescue.Some? && v.rescue.value.rescuer == rescuer && LockedBy(v.rec, Recovery(lost), now)
    && (forall w :: w in v.rec.active ==> w in v.tasks && Drops(v.tasks[w]))
    && (forall w :: w in v.tasks && Carries(v.rec, w, v.tasks[w]) ==> w in v.rec.active)
  }

  lemma OneDrops(cfg: Settings, now: int, v: View, rescuer: WorkerId, lost: WorkerId, w: WorkerId)
    requires Doomed(now, v, rescuer, lost) && w in v.rec.active
    ensures CanTake(cfg, now, v, DropSteps(w, v.tasks[w]))
    ensures var u := AfterSteps(cfg, now, v, DropSteps(w, v.tasks[w]));
            Doomed(now, u, rescuer, lost) && u.tasks.Keys == v.tasks.Keys && u.rec.active == v.rec.active - {w}
  {
    WorkerDrops(cfg, now, v, w);
  }

  lemma {:induction false} EverybodyDrops(cfg: Settings, now: int, v: View, rescuer: WorkerId, lost: WorkerId)
      returns (steps: seq<Step>)
    requires Doomed(now, v, rescuer, lost)
    ensures forall i :: 0 <= i < |steps| ==> steps[i].Batch? && steps[i].worker in v.tasks
    ensures CanTake(cfg, now, v, steps)
    ensures var v' := AfterSteps(cfg, now, v, steps); Doomed(now, v', rescuer, lost) && v'.rec.active == {}
    decreases |v.rec.active|
  {
    if v.rec.active == {} {
      steps := [];
    } else {
      var w :| w in v.rec.active;
      var first := DropSteps(w, v.tasks[w]);
      OneDrops(cfg, now, v, rescuer, lost, w);
      var u := AfterSteps(cfg, now, v, first);
      assert |v.rec.active - {w}| < |v.rec.active|;
      var rest := EverybodyDrops(cfg, now, u, rescuer, lost);
      StepsJoin(cfg, now, v, first, rest);
      steps := first + rest;
    }
  }

  /** Workers go on with what they have begun, or crash. */
  predicate Quiet(e: Event) {
    e.Crash? || (e.OnJob? && e.step.Batch?)
  }

  lemma {:induction false} QuietIsRight(cfg: Settings, s: System, run: seq<Event>)
    requires IsRun(cfg, s, run) && forall i :: 0 <= i < |run| ==> Quiet(run[i])
    ensures RightRun(cfg, s, run)
    decreases |run|
  {
    if run != [] {
      assert Quiet(run[0]);
      QuietIsRight(cfg, Happen(cfg, s, run[0]), run[1..]);
    }
  }

  lemma CrashLoses(cfg: Settings, s: System, j: JobId, rescuer: WorkerId, lost: WorkerId)
    requires j in s.jobs && Doomed(s.now, s.jobs[j], rescuer, lost) && s.jobs[j].rec.active == {}
    ensures IsRun(cfg, s, [Crash(rescuer)])
    ensures After(cfg, s, [Crash(rescuer)]) == Happen(cfg, s, Crash(rescuer))
    ensures !Held(Of(Happen(cfg, s, Crash(rescuer)), j))
  {
    assert IsRun(cfg, Happen(cfg, s, Crash(rescuer)), []) && [Crash(rescuer)][1..] == [];
  }

  /** When a job that is not secured is taken over, the workers that have it may all drop
      it, since they see the recovery's lock, and the recovery may crash. */
  lemma UnsecuredJobCanBeLost(cfg: Settings, s: System, j: JobId, rescuer: WorkerId, lost: WorkerId)
      returns (rest: seq<Event>)
    requires cfg.Valid() && SystemTimed(cfg, s) && SystemListed(s)
    requires EventEnabled(cfg, s, OnJob(j, Suspect(rescuer, Take(lost))))
    requires Live(Of(s, j).rec) && !Secured(Of(s, j))
    ensures forall i :: 0 <= i < |rest| ==> Quiet(rest[i])
    ensures var taken := Happen(cfg, s, OnJob(j, Suspect(rescuer, Take(lost))));
            IsRun(cfg, taken, rest) && RightRun(cfg, taken, rest) && !Held(Of(After(cfg, taken, rest), j))
  {
    var taken := Happen(cfg, s, OnJob(j, Suspect(rescuer, Take(lost))));
    TakenIsDoomed(cfg, s.now, s.dead, Of(s, j), rescuer, lost);
    var steps := EverybodyDrops(cfg, s.now, taken.jobs[j], rescuer, lost);
    StepsAreRun(cfg, taken, j, steps);
    CrashLoses(cfg, After(cfg, taken, OnJobs(j, steps)), j, rescuer, lost);
    rest := OnJobs(j, steps) + [Crash(rescuer)];
    RunsJoin(cfg, taken, OnJobs(j, steps), [Crash(rescuer)]);
    QuietIsRight(cfg, taken, rest);
  }

  lemma TakenIsDoomed(cfg: Settings, now: int, dead: set<WorkerId>, v: View, rescuer: WorkerId, lost: WorkerId)
    requires cfg.Valid() && WellTimed(cfg, now, v) && Listed(dead, v)
    requires SuspectEnabled(cfg, now, v, Take(lost)) && Live(v.rec) && !Secured(v)
    ensures Doomed(now, Apply(cfg, now, v, Suspect(rescuer, Take(lost))), rescuer, lost)
  {
    forall w | w in v.rec.active ensures w in v.tasks && Drops(v.tasks[w]) {
      if w in v.tasks && Spawned(v.tasks[w]) { SpawnedHoldsLock(cfg, now, v, w); }
    }
  }

  // ---------- exactly when taking a job over is safe

  /** No right run from here loses the job. */
  ghost predicate NeverLost(cfg: Settings, s: System, j: JobId) {
    forall rest :: IsRun(cfg, s, rest) && RightRun(cfg, s, rest) ==> Held(Of(After(cfg, s, rest), j))
  }

  /** After any right run so far: recovery may take a live job from the list of a crashed
      worker without risk if and only if Redis has the job secured. */
  lemma TakeIsSafeExactly(cfg: Settings, run: seq<Event>, j: JobId, rescuer: WorkerId, lost: WorkerId)
    requires cfg.Valid() && IsRun(cfg, START, run) && RightRun(cfg, START, run)
    requires EventEnabled(cfg, After(cfg, START, run), OnJob(j, Suspect(rescuer, Take(lost))))
    requires lost in After(cfg, START, run).dead && Live(Of(After(cfg, START, run), j).rec)
    ensures var s := After(cfg, START, run);
            NeverLost(cfg, Happen(cfg, s, OnJob(j, Suspect(rescuer, Take(lost)))), j) <==> Secured(Of(s, j))
  {
    var s, e := After(cfg, START, run), OnJob(j, Suspect(rescuer, Take(lost)));
    var taken := Happen(cfg, s, e);
    RunKeepsTiming(cfg, START, run);
    RightRunIsHarmless(cfg, START, run);
    if Secured(Of(s, j)) {
      RunKeepsAnchors(cfg, START, run);
      EventKeepsTiming(cfg, s, e);
      RightEventIsHarmless(cfg, s, e);
      EventKeepsAnchors(cfg, s, e);
      forall rest | IsRun(cfg, taken, rest) && RightRun(cfg, taken, rest) ensures Held(Of(After(cfg, taken, rest), j)) {
        RightRunIsHarmless(cfg, taken, rest);
        RunKeepsAnchors(cfg, taken, rest);
        AnchoredIsHeld(After(cfg, taken, rest).now, Of(After(cfg, taken, rest), j));
      }
    } else {
      var rest := UnsecuredJobCanBeLost(cfg, s, j, rescuer, lost);
    }
  }

  /** What a recovery can read in Redis is enough: after any right run, a job is secured if it
      is in a queue or if the crashed worker's list still names it.  A script that looks
      for either in the step that locks the job takes it over safely. */
  lemma ReadableIsSecured(cfg: Settings, run: seq<Event>, j: JobId, lost: WorkerId)
    requires cfg.Valid() && IsRun(cfg, START, run) && RightRun(cfg, START, run)
    requires lost in After(cfg, START, run).dead && Of(After(cfg, START, run), j).rescue == None
    requires var r := Of(After(cfg, START, run), j).rec; r.queued != map[] || lost in r.active
    ensures Secured(Of(After(cfg, START, run), j))
  {
    var s := After(cfg, START, run);
    RightRunIsHarmless(cfg, START, run);
    assert Listed(s.dead, Of(s, j));
    if Of(s, j).rec.queued == map[] { assert Holds(Of(s, j), OnList(lost)); }
  }

  // ---------- a run from the start

  /** Worker `w` claims the job. */
  function ClaimSteps(job: Job, w: WorkerId): seq<Step> {
    [Client(Enqueue(job, job.queue, 0)), Poll(w, Claim(job.queue))]
  }

  /** When `w` has crashed, the job is rescued, and `w2` claims it. */
  function ReclaimSteps(job: Job, w: WorkerId, w2: WorkerId, rescuer: WorkerId, now: int): seq<Step> {
    RescueSteps(w, rescuer, now) + [Poll(w2, Claim(job.queue))]
  }

  function Reclaimed(cfg: Settings, job: Job, w2: WorkerId, now: int): View {
    View(InHand(cfg, job, w2).(lock := Some(Lock(Worker(w2), now + LockTtl(job, cfg)))),
         map[w2 := Claimed(job.queue)], None, map[], 0)
  }

  lemma JobIsReclaimed(cfg: Settings, job: Job, w: WorkerId, w2: WorkerId, rescuer: WorkerId, now: int)
    requires cfg.Valid() && Fresh(job) && LockTtl(job, cfg) <= now
    ensures var v, steps := View(InHand(cfg, job, w), map[], None, map[], 0), ReclaimSteps(job, w, w2, rescuer, now);
            CanTake(cfg, now, v, steps) && AfterSteps(cfg, now, v, steps) == Reclaimed(cfg, job, w2, now)
  {
    var v := View(InHand(cfg, job, w), map[], None, map[], 0);
    OrphanIsRescued(cfg, job, map[], w, rescuer, now);
    assert map[job.queue := now] - {job.queue} == map[];
    ClaimMoves(cfg, now, Back(job, map[], now), w2, job.queue, Reclaimed(cfg, job, w2, now));
    TakeLater(cfg, now, v, RescueSteps(w, rescuer, now), Back(job, map[], now), Poll(w2, Claim(job.queue)));
  }

  function Alone(now: int, dead: set<WorkerId>, j: JobId, v: View): System {
    System(now, dead, {}, map[j := v])
  }

  lemma ClaimantCrashes(cfg: Settings, j: JobId, job: Job, w: WorkerId, now: int)
    requires cfg.Valid() && Fresh(job) && 0 <= now
    ensures var run := OnJobs(j, ClaimSteps(job, w)) + [Crash(w), Tick(now)];
            && IsRun(cfg, START, run)
            && After(cfg, START, run) == Alone(now, {w}, j, View(InHand(cfg, job, w), map[], None, map[], 0))
  {
    var claimed := View(InHand(cfg, job, w), map[w := Claimed(job.queue)], None, map[], 0);
    NewJobIsOffered(cfg, job);
    NewJobIsClaimed(cfg, job, w);
    PathIsTaken(cfg, 0, [FRESH, Offered(job), claimed], ClaimSteps(job, w));
    StepsAreRun(cfg, START, j, ClaimSteps(job, w));
    var s, events := Alone(0, {}, j, claimed), [Crash(w), Tick(now)];
    assert After(cfg, START, OnJobs(j, ClaimSteps(job, w))) == s;
    var crashed := Happen(cfg, s, Crash(w));
    assert map[w := Claimed(job.queue)] - {w} == map[];
    assert crashed.jobs == map[j := claimed.(tasks := map[])];
    TickAlone(cfg, crashed, now);
    assert events[1..] == [Tick(now)];
    RunsJoin(cfg, START, OnJobs(j, ClaimSteps(job, w)), events);
  }

  lemma TickAlone(cfg: Settings, s: System, to: int)
    requires s.now <= to && forall j :: j in s.jobs ==> MayAdvance(cfg, s.jobs[j], to)
    ensures IsRun(cfg, s, [Tick(to)]) && After(cfg, s, [Tick(to)]) == s.(now := to)
  {
    assert [Tick(to)][1..] == [] && IsRun(cfg, s.(now := to), []);
  }

  lemma ClaimGoesStale(cfg: Settings, j: JobId, job: Job, w: WorkerId, w2: WorkerId, rescuer: WorkerId, now: int)
    requires cfg.Valid() && Fresh(job) && LockTtl(job, cfg) == now && w != w2 && w != rescuer
    ensures var s := Alone(now, {w}, j, View(InHand(cfg, job, w), map[], None, map[], 0));
            var run := OnJobs(j, ReclaimSteps(job, w, w2, rescuer, now)) + [Tick(2 * now)];
            IsRun(cfg, s, run) && After(cfg, s, run) == Alone(2 * now, {w}, j, Reclaimed(cfg, job, w2, now))
  {
    var s, steps := Alone(now, {w}, j, View(InHand(cfg, job, w), map[], None, map[], 0)),
        ReclaimSteps(job, w, w2, rescuer, now);
    JobIsReclaimed(cfg, job, w, w2, rescuer, now);
    StepsAreRun(cfg, s, j, steps);
    assert s.jobs[j := Reclaimed(cfg, job, w2, now)] == map[j := Reclaimed(cfg, job, w2, now)];
    TickAlone(cfg, Alone(now, {w}, j, Reclaimed(cfg, job, w2, now)), 2 * now);
    RunsJoin(cfg, s, OnJobs(j, steps), [Tick(2 * now)]);
  }

  /** Only the list of `w` is recovered from, after its crash, and no operator acts. */
  predicate SuspectsOnly(run: seq<Event>, w: WorkerId) {
    && 2 < |run| && run[2] == Crash(w)
    && (forall i :: 0 <= i < |run| && run[i].OnJob? && run[i].step.Suspect? ==>
          2 < i && run[i].step.suspectOp.lost == w)
    && (forall i :: 0 <= i < |run| && run[i].OnJob? && run[i].step.Client? ==> run[i].step.clientOp.Enqueue?)
  }

  function TillStale(j: JobId, job: Job, w: WorkerId, w2: WorkerId, rescuer: WorkerId, now: int): seq<Event> {
    OnJobs(j, ClaimSteps(job, w)) + [Crash(w), Tick(now)] +
    (OnJobs(j, ReclaimSteps(job, w, w2, rescuer, now)) + [Tick(2 * now)])
  }

  lemma TillStaleSuspects(j: JobId, job: Job, w: WorkerId, w2: WorkerId, rescuer: WorkerId, now: int, later: WorkerId,
                          rest: seq<Event>)
    requires forall i :: 0 <= i < |rest| ==> Quiet(rest[i])
    ensures SuspectsOnly(TillStale(j, job, w, w2, rescuer, now) + ([OnJob(j, Suspect(later, Take(w)))] + rest), w)
  {
    var run := TillStale(j, job, w, w2, rescuer, now) + ([OnJob(j, Suspect(later, Take(w)))] + rest);
    forall i | 12 <= i < |run| ensures Quiet(run[i]) {
      assert run[i] == rest[i - 12];
    }
  }

  lemma ListGoesStale(cfg: Settings, j: JobId, job: Job, w: WorkerId, w2: WorkerId, rescuer: WorkerId, now: int)
    requires cfg.Valid() && Fresh(job) && LockTtl(job, cfg) == now && w != w2 && w != rescuer
    ensures var run := TillStale(j, job, w, w2, rescuer, now);
            IsRun(cfg, START, run) && After(cfg, START, run) == Alone(2 * now, {w}, j, Reclaimed(cfg, job, w2, now))
  {
    ClaimantCrashes(cfg, j, job, w, now);
    ClaimGoesStale(cfg, j, job, w, w2, rescuer, now);
    RunsJoin(cfg, START, OnJobs(j, ClaimSteps(job, w)) + [Crash(w), Tick(now)],
             OnJobs(j, ReclaimSteps(job, w, w2, rescuer, now)) + [Tick(2 * now)]);
  }

  lemma StaleJobIsUnsecured(cfg: Settings, s: System, j: JobId, job: Job, w2: WorkerId, now: int, later: WorkerId,
                            lost: WorkerId)
    requires cfg.Valid() && Fresh(job) && LockTtl(job, cfg) == now && w2 != lost && later != lost
    requires s == Alone(2 * now, {lost}, j, Reclaimed(cfg, job, w2, now))
    ensures EventEnabled(cfg, s, OnJob(j, Suspect(later, Take(lost)))) && SystemListed(s)
    ensures Live(Of(s, j).rec) && !Secured(Of(s, j))
  {}

  /** Only a crashed worker is suspected: `w` claims the job and crashes, and it is rescued.
      Then `w2` claims it and stalls past its lock, and a recovery that had read the
      list of `w` before takes the job over and crashes too, after `w2` has dropped it. */
  lemma StaleListLosesJob(cfg: Settings, j: JobId, job: Job, w: WorkerId, w2: WorkerId, rescuer: WorkerId,
                          later: WorkerId)
      returns (run: seq<Event>)
    requires cfg.Valid() && Fresh(job) && w != w2 && w != rescuer && w != later
    ensures IsRun(cfg, START, run) && SuspectsOnly(run, w)
    ensures var v := Of(After(cfg, START, run), j); Live(v.rec) && !Held(v)
  {
    var now := LockTtl(job, cfg);
    var before, take := TillStale(j, job, w, w2, rescuer, now), OnJob(j, Suspect(later, Take(w)));
    var s := Alone(2 * now, {w}, j, Reclaimed(cfg, job, w2, now));
    ListGoesStale(cfg, j, job, w, w2, rescuer, now);
    RunKeepsTiming(cfg, START, before);
    StaleJobIsUnsecured(cfg, s, j, job, w2, now, later, w);
    var rest := UnsecuredJobCanBeLost(cfg, s, j, later, w);
    assert ([take] + rest)[1..] == rest;
    run := before + ([take] + rest);
    RunsJoin(cfg, START, before, [take] + rest);
    TillStaleSuspects(j, job, w, w2, rescuer, now, later, rest);
  }
}
