/**
 Why the bound by dead letter requeues needs prompt runs: a worker that releases a
 claim long after its lock has run out marks a job PENDING that another worker has
 meanwhile failed for good, and the job gets an attempt it does not have.
 */
module OverBudget {
  import opened Wrappers
  import opened JobRecord
  import opened Lifecycle
  import opened RetryBudget
  import opened PromptRuns
  import opened RequeueGap
  import opened ConcreteRuns

  /** Worker `w` claims the job, cannot read its definition, and finds the lock its own. */
  function StallSteps(job: Job, w: WorkerId): seq<Step> {
    [Client(Enqueue(job, job.queue, 0)), Poll(w, Claim(job.queue)), Batch(w, FailLoad), Batch(w, ReadOwner)]
  }

  function Stalled(cfg: Settings, job: Job, w: WorkerId): View {
    View(InHand(cfg, job, w), map[w := Marking(job.queue)], None, map[], 0)
  }

  lemma WorkerStalls(cfg: Settings, job: Job, w: WorkerId)
    requires cfg.Valid() && OneShot(job)
    ensures CanTake(cfg, 0, FRESH, StallSteps(job, w)) && AfterSteps(cfg, 0, FRESH, StallSteps(job, w)) ==
            Stalled(cfg, job, w)
    ensures NoDrain(StallSteps(job, w))
  {
    var end := Stalled(cfg, job, w);
    var claimed := end.(tasks := map[w := Claimed(job.queue)]);
    var unread := end.(tasks := map[w := Releasing(job.queue, Unread)]);
    NewJobIsOffered(cfg, job);
    NewJobIsClaimed(cfg, job, w);
    BatchMoves(cfg, 0, claimed, w, FailLoad, unread);
    BatchMoves(cfg, 0, unread, w, ReadOwner, end);
    PathIsTaken(cfg, 0, [FRESH, Offered(job), claimed, unread, end], StallSteps(job, w));
  }

  function Rescued(job: Job, w: WorkerId, now: int): View {
    Back(job, map[w := Marking(job.queue)], now)
  }

  /** What `w` had still to do. */
  function LateSteps(w: WorkerId, now: int): seq<Step> {
    [Batch(w, MarkPending), Batch(w, CheckQueued), Batch(w, AddToQueue(now))]
  }

  lemma LateReleaseRuns(cfg: Settings, now: int, v: View, w: WorkerId, queue: QueueName)
    requires w in v.tasks && v.tasks[w] == Marking(queue) && HasFailed(v.rec) && queue !in v.rec.queued
    ensures CanTake(cfg, now, v, LateSteps(w, now))
    ensures AfterSteps(cfg, now, v, LateSteps(w, now)) ==
            v.(rec := JobRecord.AddToQueue(JobRecord.MarkPending(v.rec), queue, now),
               tasks := v.tasks[w := Dropping], revivals := v.revivals + 1)
  {
    var steps := LateSteps(w, now);
    var v1 := v.(rec := JobRecord.MarkPending(v.rec), tasks := v.tasks[w := Checking(queue)],
                 revivals := v.revivals + 1);
    var v2 := v1.(tasks := v.tasks[w := Adding(queue)]);
    var v3 := v2.(rec := JobRecord.AddToQueue(v1.rec, queue, now), tasks := v.tasks[w := Dropping]);
    FailedJobIsMarked(cfg, now, v, w, queue);
    BatchMoves(cfg, now, v1, w, CheckQueued, v2);
    BatchMoves(cfg, now, v2, w, BatchOp.AddToQueue(now), v3);
    PathIsTaken(cfg, now, [v, v1, v2, v3], steps);
  }

  lemma FailedJobIsMarked(cfg: Settings, now: int, v: View, w: WorkerId, queue: QueueName)
    requires w in v.tasks && v.tasks[w] == Marking(queue) && HasFailed(v.rec)
    ensures Moves(cfg, now, v, Batch(w, MarkPending),
                  v.(rec := JobRecord.MarkPending(v.rec), tasks := v.tasks[w := Checking(queue)],
                     revivals := v.revivals + 1))
  {}

  function Failed(job: Job, w2: WorkerId, dlq: nat): Record {
    Record(Some(job.(status := JobRecord.Failed, retries := dlq, worker := Some(w2))), map[], None, {}, dlq, true)
  }

  /** Worker `w2` runs the job to its last failure, `w` releases its old claim, and `w2`
      runs the job once more. */
  function SpendSteps(job: Job, w: WorkerId, w2: WorkerId, now: int): seq<Step> {
    Execution(w2, job.queue, Failure, now, 0) + (LateSteps(w, now) + Execution(w2, job.queue, Failure, now, 0))
  }

  lemma AttemptsAreSpent(cfg: Settings, job: Job, w: WorkerId, w2: WorkerId, now: int)
    requires cfg.Valid() && OneShot(job) && w != w2
    ensures CanTake(cfg, now, Rescued(job, w, now), SpendSteps(job, w, w2, now))
    ensures AfterSteps(cfg, now, Rescued(job, w, now), SpendSteps(job, w, w2, now)).rec == Failed(job, w2, 2)
  {
    var q, v0 := job.queue, Rescued(job, w, now);
    var execution, late := Execution(w2, q, Failure, now, 0), LateSteps(w, now);
    ExecutionRuns(cfg, now, v0, w2, q, Failure, now, 0);
    var v1 := AfterSteps(cfg, now, v0, execution);
    assert map[q := now] - {q} == map[];
    assert v1.rec == Failed(job, w2, 1);
    LateReleaseRuns(cfg, now, v1, w, q);
    var v2 := AfterSteps(cfg, now, v1, late);
    ExecutionRuns(cfg, now, v2, w2, q, Failure, now, 0);
    StepsJoin(cfg, now, v1, late, execution);
    StepsJoin(cfg, now, v0, execution, late + execution);
  }

  lemma {:induction false} NoReset(run: seq<Event>, j: JobId)
    requires forall i :: 0 <= i < |run| ==> PromptRuns.Requeue(run[i], j) == 0
    ensures Requeues(run, j) == 0
  {
    if run != [] {
      assert forall i :: 0 <= i < |run[1..]| ==> run[1..][i] == run[i + 1];
      NoReset(run[1..], j);
    }
  }

  lemma NoResetAround(j: JobId, a: seq<Step>, to: int, b: seq<Step>)
    requires forall i :: 0 <= i < |a| ==> !(a[i].Client? && a[i].clientOp.Reset?)
    requires forall i :: 0 <= i < |b| ==> !(b[i].Client? && b[i].clientOp.Reset?)
    ensures Requeues(Around(j, a, to, b), j) == 0
  {
    var run := Around(j, a, to, b);
    forall i | 0 <= i < |run| ensures PromptRuns.Requeue(run[i], j) == 0 {
      assert run[i] == if i < |a| then OnJob(j, a[i]) else if i == |a| then Tick(to) else OnJob(j, b[i - |a| - 1]);
    }
    NoReset(run, j);
  }

  function LaterSteps(job: Job, w: WorkerId, w2: WorkerId, rescuer: WorkerId, now: int): (steps: seq<Step>)
    ensures NoDrain(steps)
    ensures forall i :: 0 <= i < |steps| ==> !(steps[i].Client? && steps[i].clientOp.Reset?)
  {
    RescueSteps(w, rescuer, now) + SpendSteps(job, w, w2, now)
  }

  lemma BudgetIsOverspent(cfg: Settings, job: Job, w: WorkerId, w2: WorkerId, rescuer: WorkerId, now: int)
    requires cfg.Valid() && OneShot(job) && w != w2 && LockTtl(job, cfg) <= now
    ensures var v, steps := Stalled(cfg, job, w), LaterSteps(job, w, w2, rescuer, now);
            CanTake(cfg, now, v, steps) && AfterSteps(cfg, now, v, steps).rec == Failed(job, w2, 2)
  {
    OrphanIsRescued(cfg, job, map[w := Marking(job.queue)], w, rescuer, now);
    AttemptsAreSpent(cfg, job, w, w2, now);
    StepsJoin(cfg, now, Stalled(cfg, job, w), RescueSteps(w, rescuer, now), SpendSteps(job, w, w2, now));
  }

  /** A run without a requeue from the dead letter list, and without a crash, in which
      the count of a one-shot job exceeds its budget. */
  lemma LateReleaseOverspends(cfg: Settings, j: JobId, job: Job, w: WorkerId, w2: WorkerId, rescuer: WorkerId)
      returns (run: seq<Event>)
    requires cfg.Valid() && OneShot(job) && w != w2
    ensures IsRun(cfg, START, run) && Requeues(run, j) == 0
    ensures forall i :: 0 <= i < |run| ==> run[i].Tick? || (run[i].OnJob? && !run[i].step.Drain?)
    ensures var hash := Of(After(cfg, START, run), j).rec.hash;
            hash.Some? && Cap(hash.value, Requeues(run, j)) < hash.value.retries
  {
    var now := LockTtl(job, cfg);
    var a, b := StallSteps(job, w), LaterSteps(job, w, w2, rescuer, now);
    WorkerStalls(cfg, job, w);
    BudgetIsOverspent(cfg, job, w, w2, rescuer, now);
    StretchesAroundTick(cfg, j, a, Stalled(cfg, job, w), now, b, AfterSteps(cfg, now, Stalled(cfg, job, w), b));
    NoResetAround(j, a, now, b);
    run := Around(j, a, now, b);
  }
}
