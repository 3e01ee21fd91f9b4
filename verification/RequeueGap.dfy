/**
 The gap in a requeue from the dead letter list: the job is queued before its status
 is reset, and its hash keeps the lifetime it got when it failed.
 */
module RequeueGap {
  import opened Wrappers
  import opened JobRecord
  import opened Lifecycle
  import opened NoLostJob
  import opened LifecycleTheorems
  import opened ConcreteRuns

  // ---------- when a reset strands the job

  /** Nobody lists the job, recovers it, or would answer for it once it is PENDING. */
  predicate Unlisted(v: View, target: QueueName) {
    && v.rec.queued == map[] && v.rec.active == {} && !Holds(v, InRescue)
    && forall w :: w in v.tasks ==> !Carries(ResetStatus(v.rec, target), w, v.tasks[w])
  }

  lemma ResetHolds(cfg: Settings, now: int, v: View, o: OperatorId)
    requires ClientEnabled(v, Reset(o))
    ensures Held(Apply(cfg, now, v, Client(Reset(o)))) <==> !Unlisted(v, v.operators[o].target)
    ensures Live(v.rec) && Held(v) ==> !Unlisted(v, v.operators[o].target)
  {
    var v' := Apply(cfg, now, v, Client(Reset(o)));
    forall w ensures Holds(v', Carried(w)) <==>
                     w in v.tasks && Carries(ResetStatus(v.rec, v.operators[o].target), w, v.tasks[w]) {}
    forall w ensures Live(v.rec) && Holds(v, Carried(w)) ==> Holds(v', Carried(w)) {}
  }

  /** In any run that has lost no job so far, a status reset strands the job exactly
      when somebody finished or forgot it since the operator queued it and it is
      listed nowhere any more. */
  lemma ResetStrandsExactly(cfg: Settings, run: seq<Event>, j: JobId, o: OperatorId)
    requires cfg.Valid() && IsRun(cfg, START, run) && HarmlessRun(cfg, START, run)
    requires ClientEnabled(Of(After(cfg, START, run), j), Reset(o))
    ensures var v := Of(After(cfg, START, run), j);
            !Held(Apply(cfg, After(cfg, START, run).now, v, Client(Reset(o)))) <==>
            v.operators[o].overtaken && !Live(v.rec) && Unlisted(v, v.operators[o].target)
  {
    var s := After(cfg, START, run);
    var v := Of(s, j);
    RunKeepsAnchors(cfg, START, run);
    assert Anchored(s.now, v);
    ResetHolds(cfg, s.now, v, o);
    if Live(v.rec) {
      AnchoredIsHeld(s.now, v);
    } else if !v.operators[o].overtaken {
      assert Awaited(v);
      if w :| w in v.tasks && (v.tasks[w].Inspecting? || v.tasks[w].Condemning?) {
        assert Carries(ResetStatus(v.rec, v.operators[o].target), w, v.tasks[w]);
      }
    }
  }

  // ---------- an execution in the gap

  /** The job has failed and nobody has anything to do with it. */
  predicate AtRest(v: View) {
    && HasFailed(v.rec) && v.rec.hash.value.wellFormed && 0 < v.rec.dlq
    && v.rec.queued == map[] && v.rec.active == {} && v.rec.lock == None
    && v.tasks == map[] && v.rescue == None && v.operators == map[]
  }

  function GapSteps(o: OperatorId, target: QueueName, now: int, w: WorkerId, outcome: Outcome, ttl: int): seq<Step> {
    [Client(Lift(o, target)), Client(Put(o, now))] + Execution(w, target, outcome, now, ttl) + [Client(Reset(o))]
  }

  /** A worker that runs the job between its queueing and its reset leaves it live and
      unheld if and only if its outcome was final. */
  lemma RunInTheGap(cfg: Settings, now: int, v: View, o: OperatorId, target: QueueName, w: WorkerId, outcome: Outcome,
                    ttl: int)
    requires cfg.Valid() && AtRest(v) && 0 < LockTtl(v.rec.hash.value, cfg)
    ensures CanTake(cfg, now, v, GapSteps(o, target, now, w, outcome, ttl))
    ensures var v' := AfterSteps(cfg, now, v, GapSteps(o, target, now, w, outcome, ttl));
            Live(v'.rec) && (!Held(v') <==> IsFinal(v.rec.hash.value, outcome))
  {
    var lift, put, reset := Client(Lift(o, target)), Client(Put(o, now)), Client(Reset(o));
    var execution := Execution(w, target, outcome, now, ttl);
    JobIsQueued(cfg, now, v, o, target);
    var queued := AfterSteps(cfg, now, v, [lift, put]);
    ExecutionRuns(cfg, now, queued, w, target, outcome, now, ttl);
    var executed := AfterSteps(cfg, now, queued, execution);
    assert o in executed.operators && executed.operators[o].Resetting? && executed.operators[o].target == target;
    StepsJoin(cfg, now, v, [lift, put], execution);
    TakeLater(cfg, now, v, [lift, put] + execution, executed, reset);
    ExecutedIsListed(v.rec, queued.rec, target, w, outcome, now, ttl);
    HeldMeansListed(Apply(cfg, now, executed, reset));
  }

  lemma HeldMeansListed(v: View)
    requires Live(v.rec) && v.tasks == map[] && v.rescue == None
    ensures Held(v) <==> v.rec.queued != map[] || v.rec.active != {}
  {}

  lemma JobIsQueued(cfg: Settings, now: int, v: View, o: OperatorId, target: QueueName)
    requires 0 < v.rec.dlq && o !in v.operators
    ensures var steps := [Client(Lift(o, target)), Client(Put(o, now))];
            CanTake(cfg, now, v, steps) &&
            AfterSteps(cfg, now, v, steps) == v.(rec := JobRecord.AddToQueue(LiftFromDlq(v.rec), target, now),
                                                 operators := v.operators[o := Resetting(target, false)])
  {
    var lift, put := Client(Lift(o, target)), Client(Put(o, now));
    var lifted := Apply(cfg, now, v, lift);
    TakeOne(cfg, now, lifted, put, []);
    TakeOne(cfg, now, v, lift, [put] + []);
    assert [lift] + ([put] + []) == [lift, put];
    assert v.operators[o := Lifted(target)][o := Resetting(target, false)] ==
        v.operators[o := Resetting(target, false)];
  }

  lemma ExecutedIsListed(r: Record, queued: Record, target: QueueName, w: WorkerId, outcome: Outcome, score: int,
                         ttl: int)
    requires r.hash.Some? && r.queued == map[] && r.active == {}
    requires queued.hash == r.hash && queued.queued == map[target := score] && queued.active == {}
    ensures var executed := Executed(queued, w, target, outcome, score, ttl);
            executed.active == {} && (executed.queued == map[] <==> IsFinal(r.hash.value, outcome))
  {
    assert map[target := score] - {target} == map[];
    assert !IsFinal(r.hash.value, outcome) ==>
             r.hash.value.queue in Executed(queued, w, target, outcome, score, ttl).queued;
  }

  // ---------- runs from the start

  /** A new job with one attempt. */
  predicate OneShot(job: Job) {
    Fresh(job) && job.maxRetries <= 1
  }

  /** The job is enqueued and fails for good. */
  function FailSteps(job: Job, w: WorkerId): seq<Step> {
    [Client(Enqueue(job, job.queue, 0))] + Execution(w, job.queue, Failure, 0, 0)
  }

  function FailedView(job: Job, w: WorkerId): View {
    View(Record(Some(job.(status := Failed, retries := 1, worker := Some(w))), map[], None, {}, 1, true), map[], None,
         map[], 0)
  }

  lemma JobFails(cfg: Settings, job: Job, w: WorkerId)
    requires cfg.Valid() && OneShot(job)
    ensures CanTake(cfg, 0, FRESH, FailSteps(job, w)) && AfterSteps(cfg, 0, FRESH, FailSteps(job, w)) ==
            FailedView(job, w)
    ensures AtRest(FailedView(job, w)) && NoDrain(FailSteps(job, w))
  {
    var enqueue, q := Client(Enqueue(job, job.queue, 0)), job.queue;
    NewJobIsOffered(cfg, job);
    ExecutionRuns(cfg, 0, Offered(job), w, q, Failure, 0, 0);
    TakeOne(cfg, 0, FRESH, enqueue, Execution(w, q, Failure, 0, 0));
    assert map[q := 0] - {q} == map[];
  }

  /** Without a crash and without a suspicion, a requeue from the dead letter list
      loses the job, by its last command, when a worker has finished it before. */
  lemma RequeueLosesJob(cfg: Settings, j: JobId, job: Job, w: WorkerId) returns (run: seq<Event>)
    requires cfg.Valid() && OneShot(job)
    ensures IsRun(cfg, START, run) && forall i :: 0 <= i < |run| ==> Undisturbed(run[i])
    ensures run != [] && run[|run| - 1] == OnJob(j, Client(Reset(0)))
    ensures var v := Of(After(cfg, START, run), j); Live(v.rec) && !Held(v)
  {
    var a, b := FailSteps(job, w), GapSteps(0, job.queue, 0, w, Success, 60);
    JobFails(cfg, job, w);
    RunInTheGap(cfg, 0, FailedView(job, w), 0, job.queue, w, Success, 60);
    StretchesAreRun(cfg, j, a, FailedView(job, w), b, AfterSteps(cfg, 0, FailedView(job, w), b));
    GapRunIsUndisturbed(j, job, w);
    run := OnJobs(j, a + b);
  }

  lemma GapRunIsUndisturbed(j: JobId, job: Job, w: WorkerId)
    ensures var run := OnJobs(j, FailSteps(job, w) + GapSteps(0, job.queue, 0, w, Success, 60));
            && (forall i :: 0 <= i < |run| ==> Undisturbed(run[i]))
            && run != [] && run[|run| - 1] == OnJob(j, Client(Reset(0)))
  {}

  /** A requeued job keeps the lifetime of its failure: it is live and queued, and its
      hash may run out before anybody has run it. */
  lemma RequeuedJobMayExpire(cfg: Settings, j: JobId, job: Job, w: WorkerId) returns (run: seq<Event>)
    requires cfg.Valid() && OneShot(job)
    ensures IsRun(cfg, START, run) && forall i :: 0 <= i < |run| ==> Undisturbed(run[i])
    ensures var s := After(cfg, START, run);
            && Live(Of(s, j).rec) && Of(s, j).rec.queued != map[]
            && EventEnabled(cfg, s, OnJob(j, Client(Expire)))
            && Of(Happen(cfg, s, OnJob(j, Client(Expire))), j).rec.hash == None
  {
    var a, b := FailSteps(job, w), [Client(Lift(0, job.queue)), Client(Put(0, 0)), Client(Reset(0))];
    JobFails(cfg, job, w);
    RequeueRuns(cfg, FailedView(job, w), job.queue);
    StretchesAreRun(cfg, j, a, FailedView(job, w), b, AfterSteps(cfg, 0, FailedView(job, w), b));
    run := OnJobs(j, a + b);
  }

  /** Left alone, the three commands leave the job live, queued and still mortal. */
  lemma RequeueRuns(cfg: Settings, v: View, target: QueueName)
    requires AtRest(v)
    ensures var steps := [Client(Lift(0, target)), Client(Put(0, 0)), Client(Reset(0))];
            CanTake(cfg, 0, v, steps) &&
            var v' := AfterSteps(cfg, 0, v, steps);
            && Live(v'.rec) && v'.rec.queued == map[target := 0] && v'.rec.mortal == v.rec.mortal
            && v'.tasks == map[] && v'.rescue == None
  {
    var lift, put, reset := Client(Lift(0, target)), Client(Put(0, 0)), Client(Reset(0));
    var lifted := Apply(cfg, 0, v, lift);
    var queued := Apply(cfg, 0, lifted, put);
    TakeOne(cfg, 0, queued, reset, []);
    TakeOne(cfg, 0, lifted, put, [reset] + []);
    TakeOne(cfg, 0, v, lift, [put] + ([reset] + []));
    assert [lift] + ([put] + ([reset] + [])) == [lift, put, reset];
  }
}
