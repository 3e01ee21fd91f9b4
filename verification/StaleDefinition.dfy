/**
 A recovery reads a job's definition before it locks the job, in two commands, which the
 lifecycle protocol takes in one step.  In between the job may be rescued by another
 recovery and executed; the recovery goes on with what it read.
 */
module StaleDefinition {
  import opened Wrappers
  import opened JobRecord
  import opened Lifecycle
  import opened PromptRuns
  import opened FinishedJobs
  import opened ConcreteRuns
  import opened StaleList
  import OrphanRecovery

  // ---------- locking with a definition read before

  /** The recovery of a job from the list of `lost` goes on with the definition `read`. */
  function LockWith(cfg: Settings, now: int, v: View, rescuer: WorkerId, lost: WorkerId, read: Job): View {
    v.(rec := TryLock(v.rec, Recovery(lost), now, LockTtl(read, cfg)),
       rescue := Some(Rescue(rescuer, lost, if LiveStatus(read.status) then Holding(read) else Detaching)))
  }

  /** With nobody in between it is the protocol's step. */
  lemma FreshReadTakes(cfg: Settings, now: int, v: View, rescuer: WorkerId, lost: WorkerId)
    requires SuspectEnabled(cfg, now, v, Take(lost))
    ensures SuspectApply(cfg, now, v, rescuer, Take(lost)) == LockWith(cfg, now, v, rescuer, lost, v.rec.hash.value)
  {}

  function RestSteps(rescuer: WorkerId, score: int): seq<Step> {
    [Recover(rescuer, Check), Recover(rescuer, Restore(score)), Recover(rescuer, Trail), Recover(rescuer, Done)]
  }

  /** A finished job is queued once more by a recovery that had read it live. */
  lemma FinishedJobIsRequeued(cfg: Settings, now: int, v: View, rescuer: WorkerId, lost: WorkerId, read: Job,
                              score: int)
    requires v.rescue == None && v.rec.hash.Some? && !Live(v.rec) && v.rec.lock == None
    requires LiveStatus(read.status) && read.queue !in v.rec.queued && 0 < LockTtl(read, cfg)
    ensures var held := LockWith(cfg, now, v, rescuer, lost, read);
            CanTake(cfg, now, held, RestSteps(rescuer, score)) &&
            var v' := AfterSteps(cfg, now, held, RestSteps(rescuer, score));
            && v' == v.(rec := OrphanRecovery.HandedOver(held.rec, read, lost, score, now))
            && v'.rec == v.rec.(queued := v.rec.queued[read.queue := score], active := v.rec.active - {lost})
  {
    var v0 := LockWith(cfg, now, v, rescuer, lost, read);
    var v4 := v.(rec := v.rec.(queued := v.rec.queued[read.queue := score], active := v.rec.active - {lost}));
    var v1 := v0.(rescue := Some(Rescue(rescuer, lost, Restoring(read))));
    var v2 := v4.(rescue := Some(Rescue(rescuer, lost, Trailing)));
    var v3 := v4.(rescue := Some(Rescue(rescuer, lost, Finishing)));
    assert v.rec.active - {lost} - {lost} == v.rec.active - {lost};
    RecoverMoves(cfg, now, v0, rescuer, Check, v1);
    RecoverMoves(cfg, now, v1, rescuer, Restore(score), v2);
    RecoverMoves(cfg, now, v2, rescuer, Trail, v3);
    RecoverMoves(cfg, now, v3, rescuer, Done, v4);
    PathIsTaken(cfg, now, [v0, v1, v2, v3, v4], RestSteps(rescuer, score));
  }

  // ---------- prompt stretches

  /** Nobody requeues, drains or ticks. */
  predicate Forthright(e: Event) {
    e.Crash? || (e.OnJob? && !e.step.Drain? && (e.step.Client? ==> e.step.clientOp.Enqueue?))
  }

  predicate NoOperators(s: System) {
    forall j :: j in s.jobs ==> s.jobs[j].operators == map[]
  }

  lemma NoOperatorsCome(cfg: Settings, s: System, e: Event)
    requires NoOperators(s) && Forthright(e) && EventEnabled(cfg, s, e)
    ensures NoOperators(Happen(cfg, s, e)) && PromptEvent(s, e)
  {
    if e.OnJob? {
      var u := Uncounted(cfg, s.now, Of(s, e.job), e.step);
      assert u.operators == map[] && Overtaken(u.operators) == map[];
    }
  }

  lemma {:induction false} ForthrightIsPrompt(cfg: Settings, s: System, run: seq<Event>)
    requires NoOperators(s) && IsRun(cfg, s, run) && forall i :: 0 <= i < |run| ==> Forthright(run[i])
    ensures PromptRun(cfg, s, run) && NoOperators(After(cfg, s, run))
    decreases |run|
  {
    if run != [] {
      NoOperatorsCome(cfg, s, run[0]);
      ForthrightIsPrompt(cfg, Happen(cfg, s, run[0]), run[1..]);
    }
  }

  lemma {:induction false} PromptsJoin(cfg: Settings, s: System, a: seq<Event>, b: seq<Event>)
    requires IsRun(cfg, s, a) && PromptRun(cfg, s, a)
    requires IsRun(cfg, After(cfg, s, a), b) && PromptRun(cfg, After(cfg, s, a), b)
    requires IsRun(cfg, s, a + b)
    ensures PromptRun(cfg, s, a + b)
    decreases |a|
  {
    if a == [] {
      assert a + b == b;
    } else {
      assert (a + b)[1..] == a[1..] + b;
      PromptsJoin(cfg, Happen(cfg, s, a[0]), a[1..], b);
    }
  }

  // ---------- a run from the start

  /** `w` claims the job and crashes, and its lock runs out: the job can be read. */
  function TillRead(j: JobId, job: Job, w: WorkerId, now: int): seq<Event> {
    OnJobs(j, ClaimSteps(job, w)) + [Crash(w), Tick(now)]
  }

  /** Another recovery requeues the job, and `w2` completes it. */
  function TillLock(j: JobId, job: Job, w: WorkerId, w2: WorkerId, other: WorkerId, now: int): seq<Event> {
    OnJobs(j, RescueSteps(w, other, now) + Execution(w2, job.queue, Success, now, 0))
  }

  function Orphan(cfg: Settings, job: Job, w: WorkerId): View {
    View(InHand(cfg, job, w), map[], None, map[], 0)
  }

  function Completion(job: Job, w2: WorkerId): View {
    View(Record(Some(job.(status := Completed, worker := Some(w2))), map[], None, {}, 0, false), map[], None, map[], 0)
  }

  lemma ReadIsPrompt(cfg: Settings, j: JobId, job: Job, w: WorkerId, now: int)
    requires cfg.Valid() && Fresh(job) && 0 <= now
    ensures IsRun(cfg, START, TillRead(j, job, w, now)) && PromptRun(cfg, START, TillRead(j, job, w, now))
    ensures After(cfg, START, TillRead(j, job, w, now)) == Alone(now, {w}, j, Orphan(cfg, job, w))
  {
    ClaimantCrashes(cfg, j, job, w, now);
    var a, b := OnJobs(j, ClaimSteps(job, w)) + [Crash(w)], [Tick(now)];
    assert TillRead(j, job, w, now) == a + b;
    RunSplits(cfg, START, a, b);
    ForthrightIsPrompt(cfg, START, a);
    var s := After(cfg, START, a);
    assert b[1..] == [] && s.jobs == Alone(now, {w}, j, Orphan(cfg, job, w)).jobs;
    PromptsJoin(cfg, START, a, b);
  }

  lemma {:induction false} RunSplits(cfg: Settings, s: System, a: seq<Event>, b: seq<Event>)
    requires IsRun(cfg, s, a + b)
    ensures IsRun(cfg, s, a) && IsRun(cfg, After(cfg, s, a), b)
    ensures After(cfg, s, a + b) == After(cfg, After(cfg, s, a), b)
    decreases |a|
  {
    if a == [] {
      assert a + b == b;
    } else {
      assert (a + b)[1..] == a[1..] + b;
      RunSplits(cfg, Happen(cfg, s, a[0]), a[1..], b);
    }
  }

  lemma JobIsCompletedMeanwhile(cfg: Settings, job: Job, w: WorkerId, w2: WorkerId, other: WorkerId, now: int)
    requires cfg.Valid() && Fresh(job) && LockTtl(job, cfg) <= now
    ensures var steps := RescueSteps(w, other, now) + Execution(w2, job.queue, Success, now, 0);
            CanTake(cfg, now, Orphan(cfg, job, w), steps) &&
            AfterSteps(cfg, now, Orphan(cfg, job, w), steps) == Completion(job, w2)
  {
    OrphanIsRescued(cfg, job, map[], w, other, now);
    ExecutionRuns(cfg, now, Back(job, map[], now), w2, job.queue, Success, now, 0);
    assert map[job.queue := now] - {job.queue} == map[];
    StepsJoin(cfg, now, Orphan(cfg, job, w), RescueSteps(w, other, now), Execution(w2, job.queue, Success, now, 0));
  }

  lemma LockIsPrompt(cfg: Settings, j: JobId, job: Job, w: WorkerId, w2: WorkerId, other: WorkerId, now: int)
    requires cfg.Valid() && Fresh(job) && LockTtl(job, cfg) <= now && w != w2 && w != other
    ensures var s, run := Alone(now, {w}, j, Orphan(cfg, job, w)), TillLock(j, job, w, w2, other, now);
            && IsRun(cfg, s, run) && PromptRun(cfg, s, run)
            && After(cfg, s, run) == Alone(now, {w}, j, Completion(job, w2))
  {
    var s, run := Alone(now, {w}, j, Orphan(cfg, job, w)), TillLock(j, job, w, w2, other, now);
    var steps := RescueSteps(w, other, now) + Execution(w2, job.queue, Success, now, 0);
    JobIsCompletedMeanwhile(cfg, job, w, w2, other, now);
    StepsAreRun(cfg, s, j, steps);
    assert s.jobs[j := Completion(job, w2)] == map[j := Completion(job, w2)];
    ForthrightIsPrompt(cfg, s, run);
  }

  /** A prompt run in which only the crashed `w` is suspected.  What `reader` reads at the
      end of `before` lets it lock the job at the end of `between`, when the job is
      completed, and go on to queue it: the completed job can be claimed again. */
  lemma StaleReadRevivesCompletedJob(cfg: Settings, j: JobId, job: Job, w: WorkerId, w2: WorkerId, other: WorkerId,
                                     reader: WorkerId)
      returns (before: seq<Event>, between: seq<Event>)
    requires cfg.Valid() && Fresh(job) && w != w2 && w != other && w != reader && reader != other
    ensures IsRun(cfg, START, before + between) && PromptRun(cfg, START, before + between)
    ensures SuspectsOnly(before + between, w)
    ensures IsRun(cfg, START, before)
    ensures var s, t := After(cfg, START, before), After(cfg, START, before + between);
            && EventEnabled(cfg, s, OnJob(j, Suspect(reader, Take(w)))) && w in Of(s, j).rec.active
            && reader !in t.dead
            && IsCompleted(Of(t, j).rec) && !Locked(Of(t, j).rec, t.now)
            && var held := LockWith(cfg, t.now, Of(t, j), reader, w, Of(s, j).rec.hash.value);
               CanTake(cfg, t.now, held, RestSteps(reader, t.now)) &&
               var v' := AfterSteps(cfg, t.now, held, RestSteps(reader, t.now));
               IsCompleted(v'.rec) && Claimable(v'.rec, job.queue, t.now)
  {
    var now := LockTtl(job, cfg);
    before, between := TillRead(j, job, w, now), TillLock(j, job, w, w2, other, now);
    ReadIsPrompt(cfg, j, job, w, now);
    LockIsPrompt(cfg, j, job, w, w2, other, now);
    RunsJoin(cfg, START, before, between);
    PromptsJoin(cfg, START, before, between);
    OnlyCrashedIsSuspected(j, job, w, w2, other, now);
    FinishedJobIsRequeued(cfg, now, Completion(job, w2), reader, w, Taken(job, w), now);
  }

  lemma OnlyCrashedIsSuspected(j: JobId, job: Job, w: WorkerId, w2: WorkerId, other: WorkerId, now: int)
    ensures SuspectsOnly(TillRead(j, job, w, now) + TillLock(j, job, w, w2, other, now), w)
  {}
}
