/**
 A run in which a shutdown drain takes a job from another worker.  The table of running
 jobs outlives the release of the lock, so the drain finds a task that has handed its
 job over, and queues the job while another worker executes it; when that worker has
 completed the job, it can be claimed and executed once more.
 */
module DrainRuns {
  import opened Wrappers
  import opened JobRecord
  import opened Lifecycle
  import opened ConcreteRuns
  import ShutdownDrain

  /** A new job with an attempt to spare. */
  predicate Repeatable(job: Job) {
    Fresh(job) && 2 <= job.maxRetries
  }

  function Retried(job: Job, w: WorkerId): Job {
    job.(status := Retrying, retries := 1, worker := Some(w))
  }

  // ---------- the first execution

  function ClaimSteps(job: Job, w: WorkerId): seq<Step> {
    [Poll(w, Claim(job.queue)), Batch(w, Load), Batch(w, Refresh)]
  }

  function ReportSteps(w: WorkerId): seq<Step> {
    [Task(w, Start), Task(w, Finish(AskRetry)), Task(w, Report(0, 0))]
  }

  function FreeSteps(w: WorkerId): seq<Step> {
    [Task(w, Tidy), Task(w, Free)]
  }

  /** Worker `w` executes the job, asks for a retry and releases its lock. */
  function RetrySteps(job: Job, w: WorkerId): seq<Step> {
    [Client(Enqueue(job, job.queue, 0))] + (ClaimSteps(job, w) + (ReportSteps(w) + FreeSteps(w)))
  }

  function Started(cfg: Settings, job: Job, w: WorkerId): View {
    View(InHand(cfg, job, w), map[w := Dispatched(job.queue, Taken(job, w), 0)], None, map[], 0)
  }

  function Asked(cfg: Settings, job: Job, w: WorkerId): View {
    View(Record(Some(Retried(job, w)), map[job.queue := 0], Some(Lock(Worker(w), LockTtl(job, cfg))), {w}, 0, false),
         map[w := Tidying(job.queue, cfg.handlingBudget)], None, map[], 0)
  }

  /** Its task is done and still in its table. */
  function Lingerer(job: Job, w: WorkerId): View {
    View(Record(Some(Retried(job, w)), map[job.queue := 0], None, {}, 0, false), map[w := Lingering(job.queue)], None,
         map[], 0)
  }

  lemma TaskStarts(cfg: Settings, job: Job, w: WorkerId)
    requires cfg.Valid() && Repeatable(job)
    ensures CanTake(cfg, 0, Offered(job), ClaimSteps(job, w))
    ensures AfterSteps(cfg, 0, Offered(job), ClaimSteps(job, w)) == Started(cfg, job, w)
  {
    assert map[job.queue := 0] - {job.queue} == map[];
    DispatchRuns(cfg, 0, Offered(job), w, job.queue);
  }

  lemma TaskAsks(cfg: Settings, job: Job, w: WorkerId)
    requires cfg.Valid() && Repeatable(job)
    ensures CanTake(cfg, 0, Started(cfg, job, w), ReportSteps(w))
    ensures AfterSteps(cfg, 0, Started(cfg, job, w), ReportSteps(w)) == Asked(cfg, job, w)
  {
    ReportRuns(cfg, 0, Started(cfg, job, w), w, AskRetry, 0, 0);
  }

  lemma TaskIsFreed(cfg: Settings, job: Job, w: WorkerId)
    requires cfg.Valid() && Repeatable(job)
    ensures CanTake(cfg, 0, Asked(cfg, job, w), FreeSteps(w))
    ensures AfterSteps(cfg, 0, Asked(cfg, job, w), FreeSteps(w)) == Lingerer(job, w)
  {
    var asked := Asked(cfg, job, w);
    var freeing := asked.(rec := asked.rec.(active := {}), tasks := map[w := Freeing(job.queue, cfg.handlingBudget)]);
    TaskMoves(cfg, 0, asked, w, Tidy, freeing);
    TaskMoves(cfg, 0, freeing, w, Free, Lingerer(job, w));
    PathIsTaken(cfg, 0, [asked, freeing, Lingerer(job, w)], FreeSteps(w));
  }

  lemma TaskLingers(cfg: Settings, job: Job, w: WorkerId)
    requires cfg.Valid() && Repeatable(job)
    ensures CanTake(cfg, 0, FRESH, RetrySteps(job, w))
    ensures AfterSteps(cfg, 0, FRESH, RetrySteps(job, w)) == Lingerer(job, w)
  {
    NewJobIsOffered(cfg, job);
    TaskStarts(cfg, job, w);
    TaskAsks(cfg, job, w);
    TaskIsFreed(cfg, job, w);
    StepsJoin(cfg, 0, Started(cfg, job, w), ReportSteps(w), FreeSteps(w));
    StepsJoin(cfg, 0, Offered(job), ClaimSteps(job, w), ReportSteps(w) + FreeSteps(w));
    TakeOne(cfg, 0, FRESH, Client(Enqueue(job, job.queue, 0)), ClaimSteps(job, w) + (ReportSteps(w) + FreeSteps(w)));
  }

  // ---------- the second execution, and the drain

  /** Worker `w2` executes the job that lingers with `w`. */
  function Overlap(cfg: Settings, job: Job, w: WorkerId, w2: WorkerId): View {
    var again := Taken(Retried(job, w), w2);
    View(Record(Some(again), map[], Some(Lock(Worker(w2), LockTtl(job, cfg))), {w2}, 0, false),
         map[w := Lingering(job.queue), w2 := Dispatched(job.queue, again, 0)], None, map[], 0)
  }

  function DrainSteps(w: WorkerId): seq<Step> {
    [Drain(w, Abort), Drain(w, ReadStatus), Drain(w, Requeue(0))]
  }

  /** The drain has queued it under its hands. */
  function TakenAway(cfg: Settings, job: Job, w: WorkerId, w2: WorkerId): View {
    var v := Overlap(cfg, job, w, w2);
    v.(rec := v.rec.(hash := Some(Retried(job, w).(status := Pending, worker := None)), queued := map[job.queue := 0]),
       tasks := v.tasks[w := Dropping])
  }

  lemma JobIsTaken(cfg: Settings, job: Job, w: WorkerId, w2: WorkerId)
    requires cfg.Valid() && Repeatable(job) && w != w2
    ensures CanTake(cfg, 0, Lingerer(job, w), ClaimSteps(job, w2))
    ensures AfterSteps(cfg, 0, Lingerer(job, w), ClaimSteps(job, w2)) == Overlap(cfg, job, w, w2)
    ensures CanTake(cfg, 0, Overlap(cfg, job, w, w2), DrainSteps(w))
    ensures AfterSteps(cfg, 0, Overlap(cfg, job, w, w2), DrainSteps(w)) == TakenAway(cfg, job, w, w2)
  {
    assert map[job.queue := 0] - {job.queue} == map[];
    DispatchRuns(cfg, 0, Lingerer(job, w), w2, job.queue);
    ShutdownDrain.FinishedTaskIsDrained(cfg, 0, Overlap(cfg, job, w, w2), w, 0);
    var active := Overlap(cfg, job, w, w2).rec.active;
    assert active - {w} == active;
  }

  function Shut(draining: set<WorkerId>, j: JobId, v: View): System {
    System(0, {}, draining, map[j := v])
  }

  function TillDrain(j: JobId, job: Job, w: WorkerId, w2: WorkerId): seq<Event> {
    OnJobs(j, RetrySteps(job, w) + ClaimSteps(job, w2)) + ([Shutdown(w)] + OnJobs(j, DrainSteps(w)))
  }

  lemma ShutdownDrains(cfg: Settings, j: JobId, v: View, drained: View, w: WorkerId)
    requires CanTake(cfg, 0, v, DrainSteps(w)) && AfterSteps(cfg, 0, v, DrainSteps(w)) == drained
    ensures var run := [Shutdown(w)] + OnJobs(j, DrainSteps(w));
            IsRun(cfg, Shut({}, j, v), run) && After(cfg, Shut({}, j, v), run) == Shut({w}, j, drained)
  {
    StepsAreRun(cfg, Shut({w}, j, v), j, DrainSteps(w));
    assert map[j := v][j := drained] == map[j := drained];
    assert Happen(cfg, Shut({}, j, v), Shutdown(w)) == Shut({w}, j, v);
    assert ([Shutdown(w)] + OnJobs(j, DrainSteps(w)))[1..] == OnJobs(j, DrainSteps(w));
  }

  lemma DrainIsRun(cfg: Settings, j: JobId, job: Job, w: WorkerId, w2: WorkerId)
    requires cfg.Valid() && Repeatable(job) && w != w2
    ensures IsRun(cfg, START, TillDrain(j, job, w, w2))
    ensures After(cfg, START, TillDrain(j, job, w, w2)) == Shut({w}, j, TakenAway(cfg, job, w, w2))
  {
    TaskLingers(cfg, job, w);
    JobIsTaken(cfg, job, w, w2);
    StretchesAreRun(cfg, j, RetrySteps(job, w), Lingerer(job, w), ClaimSteps(job, w2), Overlap(cfg, job, w, w2));
    ShutdownDrains(cfg, j, Overlap(cfg, job, w, w2), TakenAway(cfg, job, w, w2), w);
    RunsJoin(cfg, START, OnJobs(j, RetrySteps(job, w) + ClaimSteps(job, w2)), [Shutdown(w)] + OnJobs(j, DrainSteps(w)));
  }

  // ---------- what comes of it

  /** Nobody crashes, no time passes, and neither recovery nor an operator acts. */
  predicate Plain(e: Event) {
    && !e.Crash? && !e.Tick?
    && (e.OnJob? ==> !e.step.Suspect? && !e.step.Recover? && (e.step.Client? ==> e.step.clientOp.Enqueue?))
  }

  /** `w2` completes the job. */
  function CompleteSteps(job: Job, w2: WorkerId): seq<Step> {
    Execution(w2, job.queue, Success, 0, 0)[3..]
  }

  function Completion(job: Job, w: WorkerId): View {
    View(Record(Some(Retried(job, w).(status := Completed, worker := None)), map[job.queue := 0], None, {}, 0, false),
         map[w := Dropping], None, map[], 0)
  }

  lemma JobIsCompleted(cfg: Settings, job: Job, w: WorkerId, w2: WorkerId)
    requires cfg.Valid() && Repeatable(job) && w != w2
    ensures var v, steps := TakenAway(cfg, job, w, w2), CompleteSteps(job, w2);
            CanTake(cfg, 0, v, steps) &&
            AfterSteps(cfg, 0, v, steps) == Completion(job, w)
  {
    DispatchedRuns(cfg, 0, TakenAway(cfg, job, w, w2), w2, Success, 0, 0);
    assert TakenAway(cfg, job, w, w2).tasks - {w2} == map[w := Dropping];
  }

  lemma CompletionIsRun(cfg: Settings, j: JobId, job: Job, w: WorkerId, w2: WorkerId)
    requires cfg.Valid() && Repeatable(job) && w != w2
    ensures var s, more := Shut({w}, j, TakenAway(cfg, job, w, w2)), OnJobs(j, CompleteSteps(job, w2));
            IsRun(cfg, s, more) && After(cfg, s, more) == Shut({w}, j, Completion(job, w))
    ensures EventEnabled(cfg, Shut({w}, j, Completion(job, w)), OnJob(j, Poll(w2, Claim(job.queue))))
  {
    JobIsCompleted(cfg, job, w, w2);
    StepsAreRun(cfg, Shut({w}, j, TakenAway(cfg, job, w, w2)), j, CompleteSteps(job, w2));
    assert map[j := TakenAway(cfg, job, w, w2)][j := Completion(job, w)] == map[j := Completion(job, w)];
  }

  lemma RunIsPlain(j: JobId, job: Job, w: WorkerId, w2: WorkerId)
    ensures var run := TillDrain(j, job, w, w2) + OnJobs(j, CompleteSteps(job, w2));
            forall i :: 0 <= i < |run| ==> Plain(run[i])
  {}

  /** With no crash and no suspicion, and in no time: the drain of `w` leaves the job that
      `w2` executes PENDING and in its queue; and when `w2` has completed the job, it
      can be claimed again. */
  lemma DrainRevivesCompletedJob(cfg: Settings, j: JobId, job: Job, w: WorkerId, w2: WorkerId)
      returns (run: seq<Event>, more: seq<Event>)
    requires cfg.Valid() && Repeatable(job) && w != w2
    ensures forall i :: 0 <= i < |run + more| ==> Plain((run + more)[i])
    ensures IsRun(cfg, START, run)
    ensures var s := After(cfg, START, run);
            && w2 in Of(s, j).tasks && Spawned(Of(s, j).tasks[w2]) && LockedBy(Of(s, j).rec, Worker(w2), s.now)
            && Of(s, j).rec.hash.Some? && Of(s, j).rec.hash.value.status == Pending
            && job.queue in Of(s, j).rec.queued
            && IsRun(cfg, s, more)
            && var t, claim := After(cfg, s, more), OnJob(j, Poll(w2, Claim(job.queue)));
               && Of(t, j).rec.hash.Some? && Of(t, j).rec.hash.value.status == Completed
               && EventEnabled(cfg, t, claim) && Live(Of(Happen(cfg, t, claim), j).rec)
  {
    run, more := TillDrain(j, job, w, w2), OnJobs(j, CompleteSteps(job, w2));
    DrainIsRun(cfg, j, job, w, w2);
    CompletionIsRun(cfg, j, job, w, w2);
    RunIsPlain(j, job, w, w2);
  }
}
