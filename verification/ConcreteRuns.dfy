/**
 How steps on one job make up a run, and what one whole execution of a job, from its
 claim to its clean-up, comes to.
 */
module ConcreteRuns {
  import opened Wrappers
  import opened JobRecord
  import opened Lifecycle

  function OnJobs(j: JobId, steps: seq<Step>): seq<Event> {
    seq(|steps|, i requires 0 <= i < |steps| => OnJob(j, steps[i]))
  }

  /** Steps that a job can take one after the other are a run when their actors may act. */
  lemma {:induction false} StepsAreRun(cfg: Settings, s: System, j: JobId, steps: seq<Step>)
    requires CanTake(cfg, s.now, Of(s, j), steps) && (j in s.jobs || steps != [])
    requires forall i :: 0 <= i < |steps| ==> ActorAllowed(s, steps[i])
    ensures IsRun(cfg, s, OnJobs(j, steps))
    ensures After(cfg, s, OnJobs(j, steps)) == s.(jobs := s.jobs[j := AfterSteps(cfg, s.now, Of(s, j), steps)])
    decreases |steps|
  {
    var events := OnJobs(j, steps);
    if steps == [] {
      assert s.jobs[j := s.jobs[j]] == s.jobs;
    } else {
      var s' := Happen(cfg, s, events[0]);
      assert events[1..] == OnJobs(j, steps[1..]);
      forall i | 0 <= i < |steps[1..]| ensures ActorAllowed(s', steps[1..][i]) {
        assert ActorAllowed(s, steps[i + 1]);
      }
      StepsAreRun(cfg, s', j, steps[1..]);
      var last := AfterSteps(cfg, s.now, Of(s, j), steps);
      assert s'.jobs[j := last] == s.jobs[j := last];
    }
  }

  lemma {:induction false} RunsJoin(cfg: Settings, s: System, a: seq<Event>, b: seq<Event>)
    requires IsRun(cfg, s, a) && IsRun(cfg, After(cfg, s, a), b)
    ensures IsRun(cfg, s, a + b) && After(cfg, s, a + b) == After(cfg, After(cfg, s, a), b)
    decreases |a|
  {
    if a == [] {
      assert a + b == b;
    } else {
      assert (a + b)[1..] == a[1..] + b;
      RunsJoin(cfg, Happen(cfg, s, a[0]), a[1..], b);
    }
  }

  lemma {:induction false} StepsJoin(cfg: Settings, now: int, v: View, a: seq<Step>, b: seq<Step>)
    requires CanTake(cfg, now, v, a) && CanTake(cfg, now, AfterSteps(cfg, now, v, a), b)
    ensures CanTake(cfg, now, v, a + b)
    ensures AfterSteps(cfg, now, v, a + b) == AfterSteps(cfg, now, AfterSteps(cfg, now, v, a), b)
    decreases |a|
  {
    if a == [] {
      assert a + b == b;
    } else {
      StepsJoin(cfg, now, Apply(cfg, now, v, a[0]), a[1..], b);
      TakeOne(cfg, now, v, a[0], a[1..] + b);
      assert [a[0]] + (a[1..] + b) == a + b;
    }
  }

  lemma TakeLater(cfg: Settings, now: int, v: View, steps: seq<Step>, u: View, step: Step)
    requires CanTake(cfg, now, v, steps) && u == AfterSteps(cfg, now, v, steps) && Enabled(cfg, now, u, step)
    ensures CanTake(cfg, now, v, steps + [step])
    ensures AfterSteps(cfg, now, v, steps + [step]) == Apply(cfg, now, u, step)
  {
    TakeOne(cfg, now, u, step, []);
    assert [step] + [] == [step];
    StepsJoin(cfg, now, v, steps, [step]);
  }

  /** Workers and operators act, nobody crashes or is shut down or suspected, and no time
      passes. */
  predicate Undisturbed(e: Event) {
    e.OnJob? && !e.step.Suspect? && !e.step.Recover? && !e.step.Drain?
  }

  predicate NoDrain(steps: seq<Step>) {
    forall i :: 0 <= i < |steps| ==> !steps[i].Drain?
  }

  /** Two stretches of steps from the start of a system that nobody has left. */
  lemma StretchesAreRun(cfg: Settings, j: JobId, a: seq<Step>, middle: View, b: seq<Step>, end: View)
    requires CanTake(cfg, 0, FRESH, a) && AfterSteps(cfg, 0, FRESH, a) == middle
    requires CanTake(cfg, 0, middle, b) && AfterSteps(cfg, 0, middle, b) == end
    requires NoDrain(a) && NoDrain(b) && a != []
    ensures IsRun(cfg, START, OnJobs(j, a + b))
    ensures After(cfg, START, OnJobs(j, a + b)) == System(0, {}, {}, map[j := end])
  {
    StepsJoin(cfg, 0, FRESH, a, b);
    forall i | 0 <= i < |a + b| ensures ActorAllowed(START, (a + b)[i]) {
      assert (a + b)[i] == if i < |a| then a[i] else b[i - |a|];
    }
    StepsAreRun(cfg, START, j, a + b);
  }

  /** Two stretches of steps with time passing in between. */
  function Around(j: JobId, a: seq<Step>, to: int, b: seq<Step>): seq<Event> {
    OnJobs(j, a) + ([Tick(to)] + OnJobs(j, b))
  }

  lemma StretchesAroundTick(cfg: Settings, j: JobId, a: seq<Step>, middle: View, to: int, b: seq<Step>, end: View)
    requires CanTake(cfg, 0, FRESH, a) && AfterSteps(cfg, 0, FRESH, a) == middle
    requires 0 <= to && MayAdvance(cfg, middle, to)
    requires CanTake(cfg, to, middle, b) && AfterSteps(cfg, to, middle, b) == end
    requires NoDrain(a) && NoDrain(b) && a != []
    ensures IsRun(cfg, START, Around(j, a, to, b))
    ensures After(cfg, START, Around(j, a, to, b)) == System(to, {}, {}, map[j := end])
  {
    StepsAreRun(cfg, START, j, a);
    var stalled := System(0, {}, {}, map[j := middle]);
    var later := System(to, {}, {}, map[j := middle]);
    assert After(cfg, START, OnJobs(j, a)) == stalled;
    StepsAreRun(cfg, later, j, b);
    assert Happen(cfg, stalled, Tick(to)) == later && ([Tick(to)] + OnJobs(j, b))[1..] == OnJobs(j, b);
    assert map[j := middle][j := end] == map[j := end];
    RunsJoin(cfg, START, OnJobs(j, a), [Tick(to)] + OnJobs(j, b));
  }

  // ---------- one execution

  /** A claim, an execution with the given outcome, the report and the clean-up. */
  function Execution(w: WorkerId, queue: QueueName, outcome: Outcome, score: int, ttl: int): seq<Step> {
    [Poll(w, Claim(queue)), Batch(w, Load), Batch(w, Refresh), Task(w, Start), Task(w, Finish(outcome)),
     Task(w, Report(score, ttl)), Task(w, Tidy), Task(w, Free), Task(w, Leave)]
  }

  predicate Executable(cfg: Settings, now: int, r: Record, queue: QueueName) {
    Claimable(r, queue, now) && r.hash.value.wellFormed && 0 < LockTtl(r.hash.value, cfg)
  }

  /** The definition once `w` has claimed the job. */
  function Taken(job: Job, w: WorkerId): Job {
    job.(status := Active, worker := Some(w))
  }

  /** What an execution makes of the record. */
  function Executed(r: Record, w: WorkerId, queue: QueueName, outcome: Outcome, score: int, ttl: int): Record
    requires r.hash.Some?
  {
    var job := Taken(r.hash.value, w);
    Reported(r.(hash := Some(job), queued := r.queued - {queue}), job, outcome, score, ttl)
      .(lock := None, active := r.active - {w})
  }

  /** The view when the job has been dispatched. */
  function Dispatcher(cfg: Settings, now: int, v: View, w: WorkerId, queue: QueueName): View
    requires v.rec.hash.Some?
  {
    var job := Taken(v.rec.hash.value, w);
    v.(rec := v.rec.(hash := Some(job), queued := v.rec.queued - {queue},
                     lock := Some(Lock(Worker(w), now + LockTtl(job, cfg))), active := v.rec.active + {w}),
       tasks := v.tasks[w := Dispatched(queue, job, now)],
       revivals := v.revivals + if HasFailed(v.rec) then 1 else 0)
  }

  lemma ClaimLives(cfg: Settings, now: int, r: Record, w: WorkerId, queue: QueueName)
    requires cfg.Valid() && Claimable(r, queue, now)
    ensures LockedBy(JobRecord.Claim(r, queue, w, cfg, now), Worker(w), now)
  {}

  lemma DispatchRuns(cfg: Settings, now: int, v: View, w: WorkerId, queue: QueueName)
    requires cfg.Valid() && w !in v.tasks && Executable(cfg, now, v.rec, queue)
    ensures var steps := [Poll(w, Claim(queue)), Batch(w, Load), Batch(w, Refresh)];
            CanTake(cfg, now, v, steps) && AfterSteps(cfg, now, v, steps) == Dispatcher(cfg, now, v, w, queue)
  {
    var job, v3 := Taken(v.rec.hash.value, w), Dispatcher(cfg, now, v, w, queue);
    var v1 := v3.(rec := JobRecord.Claim(v.rec, queue, w, cfg, now), tasks := v.tasks[w := Claimed(queue)]);
    var v2 := v1.(tasks := v.tasks[w := Loaded(queue, Some(job))]);
    ClaimLives(cfg, now, v.rec, w, queue);
    ClaimMoves(cfg, now, v, w, queue, v1);
    BatchMoves(cfg, now, v1, w, Load, v2);
    BatchMoves(cfg, now, v2, w, Lifecycle.Refresh, v3);
    PathIsTaken(cfg, now, [v, v1, v2, v3], [Poll(w, Claim(queue)), Batch(w, Load), Batch(w, Lifecycle.Refresh)]);
  }

  lemma ReportRuns(cfg: Settings, now: int, v: View, w: WorkerId, outcome: Outcome, score: int, ttl: int)
    requires w in v.tasks && v.tasks[w].Dispatched?
    ensures var steps, job := [Task(w, Start), Task(w, Finish(outcome)), Task(w, Report(score, ttl))], v.tasks[w].job;
            CanTake(cfg, now, v, steps) &&
            AfterSteps(cfg, now, v, steps) ==
              v.(rec := Reported(v.rec, job, outcome, score, ttl),
                 tasks := v.tasks[w := Tidying(v.tasks[w].queue, now + cfg.handlingBudget)],
                 revivals := v.revivals + (if Revives(v.rec, Reported(v.rec, job, outcome, score, ttl)) then 1 else 0),
                 operators := if IsFinal(job, outcome) then Overtaken(v.operators) else v.operators)
  {
    var start, finish, report := Task(w, Start), Task(w, Finish(outcome)), Task(w, Report(score, ttl));
    var v1 := Apply(cfg, now, v, start);
    var v2 := Apply(cfg, now, v1, finish);
    TakeOne(cfg, now, v2, report, []);
    TakeOne(cfg, now, v1, finish, [report] + []);
    TakeOne(cfg, now, v, start, [finish] + ([report] + []));
    assert [start] + ([finish] + ([report] + [])) == [start, finish, report];
  }

  lemma CleanUpRuns(cfg: Settings, now: int, v: View, w: WorkerId)
    requires w in v.tasks && v.tasks[w].Tidying? && LockedBy(v.rec, Worker(w), now)
    ensures var steps := [Task(w, Tidy), Task(w, Free), Task(w, Leave)];
            CanTake(cfg, now, v, steps) &&
            AfterSteps(cfg, now, v, steps) ==
              v.(rec := v.rec.(lock := None, active := v.rec.active - {w}), tasks := v.tasks - {w})
  {
    var tidy, free, leave := Task(w, Tidy), Task(w, Free), Task(w, Leave);
    var v1 := Apply(cfg, now, v, tidy);
    var v2 := Apply(cfg, now, v1, free);
    TakeOne(cfg, now, v2, leave, []);
    TakeOne(cfg, now, v1, free, [leave] + []);
    TakeOne(cfg, now, v, tidy, [free] + ([leave] + []));
    assert [tidy] + ([free] + ([leave] + [])) == [tidy, free, leave];
  }

  /** From the dispatch on. */
  lemma DispatchedRuns(cfg: Settings, now: int, v: View, w: WorkerId, outcome: Outcome, score: int, ttl: int)
    requires w in v.tasks && v.tasks[w].Dispatched? && LockedBy(v.rec, Worker(w), now) && !HasFailed(v.rec)
    ensures var steps, job := Execution(w, v.tasks[w].queue, outcome, score, ttl)[3..], v.tasks[w].job;
            CanTake(cfg, now, v, steps) &&
            AfterSteps(cfg, now, v, steps) ==
              v.(rec := Reported(v.rec, job, outcome, score, ttl).(lock := None, active := v.rec.active - {w}),
                 tasks := v.tasks - {w},
                 operators := if IsFinal(job, outcome) then Overtaken(v.operators) else v.operators)
  {
    var report := [Task(w, Start), Task(w, Finish(outcome)), Task(w, Report(score, ttl))];
    var tidy := [Task(w, Tidy), Task(w, Free), Task(w, Leave)];
    ReportRuns(cfg, now, v, w, outcome, score, ttl);
    var u := AfterSteps(cfg, now, v, report);
    assert u.rec.active == v.rec.active && u.tasks - {w} == v.tasks - {w};
    CleanUpRuns(cfg, now, u, w);
    StepsJoin(cfg, now, v, report, tidy);
    assert report + tidy == Execution(w, v.tasks[w].queue, outcome, score, ttl)[3..];
  }

  lemma ReportMeetsRecord(r: Record, dispatched: Record, w: WorkerId, queue: QueueName, outcome: Outcome, score: int,
                          ttl: int)
    requires r.hash.Some?
    requires dispatched == r.(hash := Some(Taken(r.hash.value, w)), queued := r.queued - {queue},
                              lock := dispatched.lock, active := r.active + {w})
    ensures Reported(dispatched, Taken(r.hash.value, w), outcome, score, ttl).(lock := None,
          active := dispatched.active - {w})
         == Executed(r, w, queue, outcome, score, ttl)
  {
    assert dispatched.active - {w} == r.active - {w};
  }

  /** A whole execution can be taken, and leaves the job with whatever its report says. */
  lemma ExecutionRuns(cfg: Settings, now: int, v: View, w: WorkerId, queue: QueueName, outcome: Outcome, score: int,
                      ttl: int)
    requires cfg.Valid() && w !in v.tasks && Executable(cfg, now, v.rec, queue)
    ensures var steps, job := Execution(w, queue, outcome, score, ttl), Taken(v.rec.hash.value, w);
            CanTake(cfg, now, v, steps) &&
            AfterSteps(cfg, now, v, steps) ==
              v.(rec := Executed(v.rec, w, queue, outcome, score, ttl),
                 revivals := v.revivals + (if HasFailed(v.rec) then 1 else 0),
                 operators := if IsFinal(job, outcome) then Overtaken(v.operators) else v.operators)
  {
    var steps := Execution(w, queue, outcome, score, ttl);
    var begin := [Poll(w, Claim(queue)), Batch(w, Load), Batch(w, Refresh)];
    var u := Dispatcher(cfg, now, v, w, queue);
    DispatchRuns(cfg, now, v, w, queue);
    DispatchedRuns(cfg, now, u, w, outcome, score, ttl);
    ReportMeetsRecord(v.rec, u.rec, w, queue, outcome, score, ttl);
    assert u.tasks - {w} == v.tasks;
    StepsJoin(cfg, now, v, begin, steps[3..]);
    assert begin + steps[3..] == steps;
  }

  // ---------- how the runs begin

  /** A new job with the default timeout. */
  predicate Fresh(job: Job) {
    job.status == Pending && job.retries == 0 && job.timeoutSeconds == None && job.wellFormed
  }

  function Offered(job: Job): View {
    View(Record(Some(job), map[job.queue := 0], None, {}, 0, false), map[], None, map[], 0)
  }

  /** What Redis has of the job while `w` holds it. */
  function InHand(cfg: Settings, job: Job, w: WorkerId): Record {
    Record(Some(Taken(job, w)), map[], Some(Lock(Worker(w), LockTtl(job, cfg))), {w}, 0, false)
  }

  lemma NewJobIsOffered(cfg: Settings, job: Job)
    requires Fresh(job)
    ensures Moves(cfg, 0, FRESH, Client(Enqueue(job, job.queue, 0)), Offered(job))
  {}

  lemma NewJobIsClaimed(cfg: Settings, job: Job, w: WorkerId)
    requires cfg.Valid() && Fresh(job)
    ensures Moves(cfg, 0, Offered(job), Poll(w, Claim(job.queue)),
                  View(InHand(cfg, job, w), map[w := Claimed(job.queue)], None, map[], 0))
  {
    assert map[job.queue := 0] - {job.queue} == map[];
    var claimed := View(InHand(cfg, job, w), map[w := Claimed(job.queue)], None, map[], 0);
    ClaimMoves(cfg, 0, Offered(job), w, job.queue, claimed);
  }

  // ---------- one recovery

  /** Recovery takes the job over from `lost` and requeues it. */
  function RescueSteps(lost: WorkerId, rescuer: WorkerId, now: int): seq<Step> {
    [Suspect(rescuer, Take(lost)), Recover(rescuer, Check), Recover(rescuer, Restore(now)), Recover(rescuer, Trail),
     Recover(rescuer, Done)]
  }

  function Back(job: Job, tasks: map<WorkerId, Phase>, now: int): View {
    View(Record(Some(job.(worker := None)), map[job.queue := now], None, {}, 0, false), tasks, None, map[], 0)
  }

  lemma OrphanIsRescued(cfg: Settings, job: Job, tasks: map<WorkerId, Phase>, lost: WorkerId, rescuer: WorkerId,
                        now: int)
    requires cfg.Valid() && Fresh(job) && LockTtl(job, cfg) <= now
    ensures var v, steps := View(InHand(cfg, job, lost), tasks, None, map[], 0), RescueSteps(lost, rescuer, now);
            CanTake(cfg, now, v, steps) && AfterSteps(cfg, now, v, steps) == Back(job, tasks, now)
  {
    var v0, v5 := View(InHand(cfg, job, lost), tasks, None, map[], 0), Back(job, tasks, now);
    var v1 := v0.(rec := v0.rec.(lock := Some(Lock(Recovery(lost), now + LockTtl(job, cfg)))),
                  rescue := Some(Rescue(rescuer, lost, Holding(Taken(job, lost)))));
    var v2 := v1.(rescue := Some(Rescue(rescuer, lost, Restoring(Taken(job, lost)))));
    var v3 := v5.(rescue := Some(Rescue(rescuer, lost, Trailing)));
    var v4 := v5.(rescue := Some(Rescue(rescuer, lost, Finishing)));
    SuspectMoves(cfg, now, v0, rescuer, Take(lost), v1);
    RecoverMoves(cfg, now, v1, rescuer, Check, v2);
    RecoverMoves(cfg, now, v2, rescuer, Restore(now), v3);
    RecoverMoves(cfg, now, v3, rescuer, Trail, v4);
    RecoverMoves(cfg, now, v4, rescuer, Done, v5);
    PathIsTaken(cfg, now, [v0, v1, v2, v3, v4, v5], RescueSteps(lost, rescuer, now));
  }
}
