/**
 The end of a worker's shutdown drain: what becomes of the jobs that were still
 running when the grace period ran out and whose tasks have been aborted.
 */
module ShutdownDrain {
  import opened Wrappers
  import opened JobRecord
  import opened JobStore
  import Lifecycle

  datatype Running = Running(job: JobId, queue: QueueName)

  /** What the drain makes of one running job. */
  function DrainedRecord(r: Record, queue: QueueName, w: WorkerId, score: int, now: int): Record {
    Dropped(if Live(r) then Requeue(r, queue, score, Worker(w), w, now) else r, w, now)
  }

  /** An interrupted job is handed back whole: queued where it came from, off the
      worker's list, no longer locked by it, not ACTIVE, and with no retry spent.
      When the job's lock is another worker's by then, it stays that worker's. */
  lemma InterruptedJobIsHandedBack(r: Record, queue: QueueName, w: WorkerId, score: int, now: int)
    requires Live(r)
    ensures var r' := DrainedRecord(r, queue, w, score, now);
            && r'.queued == (if queue in r.queued then r.queued else r.queued[queue := score])
            && r'.active == r.active - {w} && r'.dlq == r.dlq && r'.mortal == r.mortal
            && r'.lock == (if LockedBy(r, Worker(w), now) then None else r.lock)
            && Live(r') && r'.hash.value.status != Active
            && r'.hash == Some(if r.hash.value.status == Active
                               then r.hash.value.(status := Pending, worker := None) else r.hash.value)
  {}

  /** The drain does not ask, as the other release helpers do, whether the lock is in
      other hands.  When it is, the drain still leaves the job's status and queues
      alone if and only if the job is finished, or is queued already and not ACTIVE. */
  lemma ForeignJobIsLeftExactly(r: Record, queue: QueueName, w: WorkerId, score: int, now: int)
    requires LockedByOther(r, Worker(w), now)
    ensures var r' := DrainedRecord(r, queue, w, score, now);
            r'.hash == r.hash && r'.queued == r.queued <==>
            !Live(r) || (r.hash.value.status != Active && queue in r.queued)
  {}

  /** A finished job is only tidied up. */
  lemma FinishedJobIsLeft(r: Record, queue: QueueName, w: WorkerId, score: int, now: int)
    requires !Live(r)
    ensures var r' := DrainedRecord(r, queue, w, score, now);
            r'.hash == r.hash && r'.queued == r.queued && r'.dlq == r.dlq && w !in r'.active &&
                !LockedBy(r', Worker(w), now)
  {}

  /** The drain tidies up even after a requeue that failed.  The job then ends up in
      no queue exactly when it was in none and the script stopped before queueing
      it. */
  lemma FailedRequeueMayLoseJob(r: Record, reached: Record, queue: QueueName, w: WorkerId, score: int, now: int)
    requires Live(r) && reached in Progress(r, queue, score, Worker(w), w, now)
    ensures var r' := Dropped(reached, w, now);
            && Live(r') && w !in r'.active && !LockedBy(r', Worker(w), now)
            && (r'.queued == map[] <==>
                  r.queued == map[] && (reached == r || reached == r.(hash := Some(Demoted(r.hash.value)))))
    ensures r in Progress(r, queue, score, Worker(w), w, now)
  {
    var demoted := r.(hash := Some(Demoted(r.hash.value)));
    if reached != r && reached != demoted { assert queue in reached.queued; }
    assert Dropped(reached, w, now).queued == reached.queued;
  }

  /** The drain of one job takes exactly the steps of the lifecycle protocol. */
  lemma DrainFollowsProtocol(cfg: Settings, now: int, v: Lifecycle.View, queue: QueueName, owes: bool, w: WorkerId,
                             score: int)
    requires w in v.tasks && v.tasks[w] == Lifecycle.DrainReading(queue, owes)
    ensures var read := Lifecycle.Drain(w, Lifecycle.ReadStatus);
            var tidy := [Lifecycle.Batch(w, Lifecycle.RemoveActive), Lifecycle.Batch(w, Lifecycle.Unlock)];
            var steps := [read] + ((if Live(v.rec) then [Lifecycle.Drain(w, Lifecycle.Requeue(score))] else []) + tidy);
            Lifecycle.CanTake(cfg, now, v, steps) &&
            Lifecycle.AfterSteps(cfg, now, v, steps) ==
              v.(rec := DrainedRecord(v.rec, queue, w, score, now), tasks := v.tasks - {w})
  {
    var read, requeue := Lifecycle.Drain(w, Lifecycle.ReadStatus), Lifecycle.Drain(w, Lifecycle.Requeue(score));
    var tidy := [Lifecycle.Batch(w, Lifecycle.RemoveActive), Lifecycle.Batch(w, Lifecycle.Unlock)];
    var seen := v.(tasks := v.tasks[w := if Live(v.rec) then Lifecycle.DrainRequeueing(queue, owes)
                                    else Lifecycle.Dropping]);
    assert Lifecycle.Moves(cfg, now, v, read, seen);
    if Live(v.rec) {
      JobIsMovedAndDropped(cfg, now, seen, w, score);
      Lifecycle.TakeOne(cfg, now, v, read, [requeue] + tidy);
    } else {
      JobIsDropped(cfg, now, seen, w);
      Lifecycle.TakeOne(cfg, now, v, read, tidy);
      assert [] + tidy == tidy;
    }
  }

  lemma JobIsMovedAndDropped(cfg: Settings, now: int, v: Lifecycle.View, w: WorkerId, score: int)
    requires w in v.tasks && v.tasks[w].DrainRequeueing? && Live(v.rec)
    ensures var steps := [Lifecycle.Drain(w, Lifecycle.Requeue(score))] +
                         [Lifecycle.Batch(w, Lifecycle.RemoveActive), Lifecycle.Batch(w, Lifecycle.Unlock)];
            Lifecycle.CanTake(cfg, now, v, steps) &&
            Lifecycle.AfterSteps(cfg, now, v, steps) ==
              v.(rec := Dropped(Requeue(v.rec, v.tasks[w].queue, score, Worker(w), w, now), w, now),
                 tasks := v.tasks - {w})
  {
    var requeue := Lifecycle.Drain(w, Lifecycle.Requeue(score));
    var moved := v.(rec := Requeue(v.rec, v.tasks[w].queue, score, Worker(w), w, now),
                    tasks := v.tasks[w := Lifecycle.Dropping]);
    assert Lifecycle.Moves(cfg, now, v, requeue, moved);
    JobIsDropped(cfg, now, moved, w);
    var tidy := [Lifecycle.Batch(w, Lifecycle.RemoveActive), Lifecycle.Batch(w, Lifecycle.Unlock)];
    Lifecycle.TakeOne(cfg, now, v, requeue, tidy);
  }

  /** The last two commands of a drain. */
  lemma JobIsDropped(cfg: Settings, now: int, v: Lifecycle.View, w: WorkerId)
    requires w in v.tasks && v.tasks[w] == Lifecycle.Dropping
    ensures var tidy := [Lifecycle.Batch(w, Lifecycle.RemoveActive), Lifecycle.Batch(w, Lifecycle.Unlock)];
            Lifecycle.CanTake(cfg, now, v, tidy) &&
            Lifecycle.AfterSteps(cfg, now, v, tidy) == v.(rec := Dropped(v.rec, w, now), tasks := v.tasks - {w})
  {
    var v1 := v.(rec := RemoveActive(v.rec, w), tasks := v.tasks[w := Lifecycle.Unlocking]);
    var v2 := v.(rec := Dropped(v.rec, w, now), tasks := v.tasks - {w});
    Lifecycle.BatchMoves(cfg, now, v, w, Lifecycle.RemoveActive, v1);
    Lifecycle.BatchMoves(cfg, now, v1, w, Lifecycle.Unlock, v2);
    var tidy := [Lifecycle.Batch(w, Lifecycle.RemoveActive), Lifecycle.Batch(w, Lifecycle.Unlock)];
    Lifecycle.PathIsTaken(cfg, now, [v, v1, v2], tidy);
  }

  lemma FinishedTaskIsDrained(cfg: Settings, now: int, v: Lifecycle.View, w: WorkerId, score: int)
    requires w in v.tasks && v.tasks[w].Lingering? && Live(v.rec)
    ensures var q := v.tasks[w].queue;
            var steps := [Lifecycle.Drain(w, Lifecycle.Abort), Lifecycle.Drain(w, Lifecycle.ReadStatus),
                          Lifecycle.Drain(w, Lifecycle.Requeue(score))];
            Lifecycle.CanTake(cfg, now, v, steps) &&
            Lifecycle.AfterSteps(cfg, now, v, steps) ==
              v.(rec := Requeue(v.rec, q, score, Worker(w), w, now), tasks := v.tasks[w := Lifecycle.Dropping])
  {
    var q := v.tasks[w].queue;
    var v1 := v.(tasks := v.tasks[w := Lifecycle.DrainReading(q, false)]);
    var v2 := v.(tasks := v.tasks[w := Lifecycle.DrainRequeueing(q, false)]);
    var v3 := v.(rec := Requeue(v.rec, q, score, Worker(w), w, now), tasks := v.tasks[w := Lifecycle.Dropping]);
    assert Lifecycle.Moves(cfg, now, v, Lifecycle.Drain(w, Lifecycle.Abort), v1);
    assert Lifecycle.Moves(cfg, now, v1, Lifecycle.Drain(w, Lifecycle.ReadStatus), v2);
    assert Lifecycle.Moves(cfg, now, v2, Lifecycle.Drain(w, Lifecycle.Requeue(score)), v3);
    Lifecycle.PathIsTaken(cfg, now, [v, v1, v2, v3],
      [Lifecycle.Drain(w, Lifecycle.Abort), Lifecycle.Drain(w, Lifecycle.ReadStatus),
       Lifecycle.Drain(w, Lifecycle.Requeue(score))]);
  }

  /** A finished task whose entry is still in the worker's table is drained like a running
      one.  When another worker has claimed the job since, it is queued and demoted
      under that worker's hands, and any worker may claim it once that one's lock has
      gone; the lock, the execution and the counts stay. */
  lemma DrainMayRequeueAnothersJob(cfg: Settings, now: int, v: Lifecycle.View, w: WorkerId, other: WorkerId, score: int)
    requires w != other && w in v.tasks && v.tasks[w].Lingering? && other in v.tasks
    requires Lifecycle.Spawned(v.tasks[other])
    requires Live(v.rec) && LockedBy(v.rec, Worker(other), now)
    ensures var q := v.tasks[w].queue;
            var steps := [Lifecycle.Drain(w, Lifecycle.Abort), Lifecycle.Drain(w, Lifecycle.ReadStatus),
                          Lifecycle.Drain(w, Lifecycle.Requeue(score))];
            Lifecycle.CanTake(cfg, now, v, steps) &&
            var v' := Lifecycle.AfterSteps(cfg, now, v, steps);
            && other in v'.tasks && v'.tasks[other] == v.tasks[other] && Live(v'.rec) &&
                LockedBy(v'.rec, Worker(other), now) && q in v'.rec.queued
            && v'.rec.hash.value.status != Active && v'.rec.hash.value.retries == v.rec.hash.value.retries
            && !Claimable(v'.rec, q, now)
            && forall later :: score <= later && !Locked(v'.rec, later) && q !in v.rec.queued ==>
                Claimable(v'.rec, q, later)
  {
    FinishedTaskIsDrained(cfg, now, v, w, score);
  }

  ghost predicate DrainedAs(before: Records, after: Records, running: seq<Running>, scores: seq<int>, w: WorkerId,
                            now: int, i: nat)
    requires i < |running| <= |scores|
  {
    At(after, running[i].job) == DrainedRecord(At(before, running[i].job), running[i].queue, w, scores[i], now)
  }

  /** The first `n` running jobs are drained and nothing else is touched. */
  ghost predicate DrainedUpTo(before: Records, after: Records, running: seq<Running>, scores: seq<int>, w: WorkerId,
                              now: int, n: nat)
    requires n <= |running| <= |scores|
  {
    && (forall i {:trigger DrainedAs(before, after, running, scores, w, now, i)} :: 0 <= i < n ==>
          DrainedAs(before, after, running, scores, w, now, i))
    && (forall j :: (forall i :: 0 <= i < n ==> running[i].job != j) ==> At(after, j) == At(before, j))
  }

  predicate DistinctJobs(running: seq<Running>) {
    forall i, k :: 0 <= i < k < |running| ==> running[i].job != running[k].job
  }

  lemma OneMoreDrained(before: Records, soFar: Records, after: Records, running: seq<Running>, scores: seq<int>,
                       w: WorkerId, now: int, n: nat)
    requires n < |running| <= |scores| && DistinctJobs(running)
    requires DrainedUpTo(before, soFar, running, scores, w, now, n) && OnlyChanges(soFar, after, running[n].job)
    requires At(after, running[n].job) == DrainedRecord(At(soFar, running[n].job), running[n].queue, w, scores[n], now)
    ensures DrainedUpTo(before, after, running, scores, w, now, n + 1)
  {
    assert At(soFar, running[n].job) == At(before, running[n].job);
    forall i | 0 <= i < n + 1 ensures DrainedAs(before, after, running, scores, w, now, i) {
      if i < n { assert DrainedAs(before, soFar, running, scores, w, now, i); }
    }
    forall j | forall i :: 0 <= i < n + 1 ==> running[i].job != j ensures At(after, j) == At(before, j) {
      assert running[n].job != j;
      assert forall i :: 0 <= i < n ==> running[i].job != j;
    }
  }

  /** One running job.  A definition that does not parse ends the drain. */
  method DrainJob(store: JobStore, w: WorkerId, running: Running, score: int) returns (ok: bool, ghost reached: Record)
    modifies store
    ensures store.calm ==> OnlyChanges(old(store.records), store.records, running.job) && store.now == old(store.now)
    ensures store.calm ==>
              var r := old(At(store.records, running.job));
              && (reached == r || (Live(r) && reached in Progress(r, running.queue, score, Worker(w), w, store.now)))
              && At(store.records, running.job) in {reached, RemoveActive(reached, w),
                                                    ReleaseIfOwner(reached, Worker(w), store.now),
                                                    Dropped(reached, w, store.now)}
              && (!ok ==> At(store.records, running.job) == r)
    ensures store.calm && store.reliable ==>
              var r := old(At(store.records, running.job));
              (ok <==> r.hash.None? || r.hash.value.wellFormed) &&
              At(store.records, running.job) == if ok then DrainedRecord(r, running.queue, w, score, store.now) else r
  {
    var j := running.job;
    store.Meanwhile();
    reached := At(store.records, j);
    ok := store.Answered();
    if !ok { return; }
    var hash := At(store.records, j).hash;
    if hash.Some? && !hash.value.wellFormed {
      ok := false;
      return;
    }
    if hash.Some? && LiveStatus(hash.value.status) {
      store.Meanwhile();
      var _ := store.AtomicRequeue(j, running.queue, score, Worker(w), w);
      reached := At(store.records, j);
    }
    store.Meanwhile();
    var _ := store.Command(j, RemoveActive(At(store.records, j), w));
    store.Meanwhile();
    var _ := store.Command(j, ReleaseIfOwner(At(store.records, j), Worker(w), store.now));
  }

  /** The loop at the end of `drain_tasks`: with working commands and nobody else
      about, it drains every running job, up to the first whose definition does not
      parse; that one and the rest stay as they are, for orphan recovery. */
  method DrainTasks(store: JobStore, w: WorkerId, running: seq<Running>) returns (ok: bool, scores: seq<int>,
                    ghost drained: nat)
    requires DistinctJobs(running)
    modifies store
    ensures drained <= |running| == |scores|
    ensures store.calm && store.reliable ==>
              && DrainedUpTo(old(store.records), store.records, running, scores, w, store.now, drained)
              && (ok <==> drained == |running|)
              && (!ok ==>
                    var r := old(At(store.records, running[drained].job));
                    r.hash.Some? && !r.hash.value.wellFormed)
  {
    drained := 0;
    scores := seq(|running|, _ => 0);
    ghost var before, start := store.records, store.now;
    var i := 0;
    while i < |running|
      invariant 0 <= i <= |running| == |scores| && drained == i
      invariant store.calm ==> store.now == start
      invariant store.calm && store.reliable ==> DrainedUpTo(before, store.records, running, scores, w, start, i)
    {
      ghost var soFar, had := store.records, scores;
      var score: int := *;
      scores := scores[i := score];
      ghost var reached;
      ok, reached := DrainJob(store, w, running[i], score);
      if store.calm && store.reliable {
        ScoresBehindDoNotMatter(before, soFar, running, had, scores, w, start, i);
        if ok {
          OneMoreDrained(before, soFar, store.records, running, scores, w, start, i);
        } else {
          assert forall k :: 0 <= k < i ==> running[k].job != running[i].job;
          SameRecords(before, soFar, store.records, running, scores, w, start, i);
        }
      }
      if !ok { return; }
      i, drained := i + 1, drained + 1;
    }
    ok := true;
  }

  lemma ScoresBehindDoNotMatter(before: Records, after: Records, running: seq<Running>, had: seq<int>,
                                scores: seq<int>, w: WorkerId, now: int, n: nat)
    requires n <= |running| == |had| == |scores| && had[..n] == scores[..n]
    requires DrainedUpTo(before, after, running, had, w, now, n)
    ensures DrainedUpTo(before, after, running, scores, w, now, n)
  {
    forall i | 0 <= i < n ensures DrainedAs(before, after, running, scores, w, now, i) {
      assert DrainedAs(before, after, running, had, w, now, i);
      assert had[..n][i] == scores[..n][i];
    }
  }

  lemma SameRecords(before: Records, soFar: Records, after: Records, running: seq<Running>, scores: seq<int>,
                    w: WorkerId, now: int, n: nat)
    requires n < |running| <= |scores| && DrainedUpTo(before, soFar, running, scores, w, now, n)
    requires OnlyChanges(soFar, after, running[n].job) && At(after, running[n].job) == At(soFar, running[n].job)
    ensures DrainedUpTo(before, after, running, scores, w, now, n)
  {
    assert forall j :: At(after, j) == At(soFar, j);
    forall i | 0 <= i < n ensures DrainedAs(before, after, running, scores, w, now, i) {
      assert DrainedAs(before, soFar, running, scores, w, now, i);
    }
  }
}
