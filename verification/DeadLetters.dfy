/**
 `rrq dlq requeue`: it takes selected jobs off the dead letter list and puts them in
 a queue, three commands a job.
 */
module DeadLetters {
  import opened Wrappers
  import opened JobRecord
  import opened JobStore
  import ConcreteRuns
  import Lifecycle

  /** LREM list 1 id */
  function WithoutFirst(list: seq<JobId>, j: JobId): (rest: seq<JobId>)
    ensures multiset(rest) == if j in list then multiset(list) - multiset{j} else multiset(list)
  {
    if list == [] then []
    else if list[0] == j then assert list == [j] + list[1..]; list[1..]
    else assert list == [list[0]] + list[1..]; [list[0]] + WithoutFirst(list[1..], j)
  }

  /** The entries whose job exists and passes the filters, in list order. */
  function Selected(records: Records, list: seq<JobId>, wanted: (JobId, Job) -> bool): seq<JobId> {
    if list == [] then []
    else (if Passes(records, wanted, list[0]) then [list[0]] else []) + Selected(records, list[1..], wanted)
  }

  function Limited(ids: seq<JobId>, limit: Option<nat>): (some: seq<JobId>)
    ensures some <= ids
  {
    if limit.Some? && limit.value < |ids| then ids[..limit.value] else ids
  }

  /** Without a filter every job is wanted. */
  function Wanted(filter: Option<(JobId, Job) -> bool>): (JobId, Job) -> bool {
    if filter.Some? then filter.value else (_, _) => true
  }

  predicate Passes(records: Records, wanted: (JobId, Job) -> bool, j: JobId) {
    At(records, j).hash.Some? && wanted(j, At(records, j).hash.value)
  }

  /** Exactly the entries that pass are selected, each as often as it stands in the list. */
  lemma {:induction false} SelectedIsExact(records: Records, list: seq<JobId>, wanted: (JobId, Job) -> bool)
    ensures forall j :: multiset(Selected(records, list, wanted))[j] ==
                        if Passes(records, wanted, j) then multiset(list)[j] else 0
    ensures forall j :: j in Selected(records, list, wanted) <==> j in list && Passes(records, wanted, j)
  {
    if list != [] {
      assert list == [list[0]] + list[1..];
      SelectedIsExact(records, list[1..], wanted);
    }
  }

  /** They keep their order: what is appended to the list is appended to the selection. */
  lemma {:induction false} SelectedInOrder(records: Records, list: seq<JobId>, j: JobId,
                                           wanted: (JobId, Job) -> bool)
    ensures Selected(records, list + [j], wanted) ==
            Selected(records, list, wanted) + if Passes(records, wanted, j) then [j] else []
  {
    if list == [] {
      assert list + [j] == [j];
    } else {
      SelectedInOrder(records, list[1..], j, wanted);
      assert (list + [j])[1..] == list[1..] + [j];
    }
  }

  /** A limit keeps the first entries, as many as it allows. */
  lemma LimitedIsExact(ids: seq<JobId>, limit: Option<nat>)
    ensures var some := Limited(ids, limit);
            && (forall i :: 0 <= i < |some| ==> some[i] == ids[i])
            && (limit.None? ==> |some| == |ids|)
            && (limit.Some? ==> |some| <= limit.value && |some| <= |ids| && (|some| == limit.value || |some| == |ids|))
  {}

  lemma LimitedIsPart(ids: seq<JobId>, limit: Option<nat>)
    ensures multiset(Limited(ids, limit)) <= multiset(ids)
  {
    var some := Limited(ids, limit);
    assert ids == some + ids[|some|..];
  }

  lemma ChosenAreListed(records: Records, list: seq<JobId>, wanted: (JobId, Job) -> bool, limit: Option<nat>)
    ensures var jobs := Limited(Selected(records, list, wanted), limit);
            multiset(jobs) <= multiset(list) && forall j :: j in jobs ==> At(records, j).hash.Some?
  {
    var ids := Selected(records, list, wanted);
    SelectedIsExact(records, list, wanted);
    LimitedIsPart(ids, limit);
    assert multiset(ids) <= multiset(list);
    forall j | j in Limited(ids, limit) ensures At(records, j).hash.Some? {
      assert j in ids;
    }
  }

  /** The ZADD and the HSET on one job. */
  function Requeued(r: Record, target: QueueName, score: int): Record {
    ResetStatus(AddToQueue(r, target, score), target)
  }

  /** The job waits in the target queue and nowhere new; nothing else of it changed,
      not even the lifetime its hash got when it failed. */
  predicate Waiting(before: Record, after: Record, target: QueueName) {
    && before.hash.Some? && after.hash == Some(before.hash.value.(status := Pending, queue := target))
    && after.queued.Keys == before.queued.Keys + {target}
    && (forall q :: q in before.queued && q != target ==> after.queued[q] == before.queued[q])
    && after.lock == before.lock && after.active == before.active && after.dlq == before.dlq &&
        after.mortal == before.mortal
  }

  predicate WaitsIfMoved(before: Records, after: Records, moved: seq<JobId>, target: QueueName, j: JobId) {
    if j in moved then Waiting(At(before, j), At(after, j), target) else At(after, j) == At(before, j)
  }

  /** What a requeue does to the records. */
  ghost predicate AllWaiting(before: Records, after: Records, moved: seq<JobId>, target: QueueName) {
    forall j {:trigger WaitsIfMoved(before, after, moved, target, j)} :: WaitsIfMoved(before, after, moved, target, j)
  }

  lemma OneMoreWaits(before: Records, soFar: Records, moved: seq<JobId>, j: JobId, target: QueueName, score: int)
    requires AllWaiting(before, soFar, moved, target) && At(before, j).hash.Some?
    ensures AllWaiting(before, soFar[j := Requeued(At(soFar, j), target, score)], moved + [j], target)
  {
    var after := soFar[j := Requeued(At(soFar, j), target, score)];
    forall k ensures WaitsIfMoved(before, after, moved + [j], target, k) {
      assert WaitsIfMoved(before, soFar, moved, target, k);
    }
  }

  /** Taking one entry off the list and counting it, if it was there. */
  lemma EntryMoves(all: seq<JobId>, list: seq<JobId>, moved: seq<JobId>, j: JobId)
    requires multiset(all) == multiset(list) + multiset(moved)
    ensures multiset(all) == multiset(WithoutFirst(list, j)) + multiset(if j in list then moved + [j] else moved)
    ensures multiset(moved) + multiset(WithoutFirst(list, j)) <= multiset(all)
    ensures |all| <= |moved| + |WithoutFirst(list, j)| + 1 && |all| == |moved| + |list|
  {}

  class DeadLetterList {
    const store: JobStore
    var list: seq<JobId>

    constructor (store: JobStore, list: seq<JobId>)
      ensures this.store == store && this.list == list
    {
      this.store, this.list := store, list;
    }

    method Remove(j: JobId) returns (removed: Option<bool>)
      modifies this`list, store
      ensures store.calm ==> store.records == old(store.records)
      ensures store.reliable ==> removed.Some?
      ensures store.calm && removed.Some? ==> list == WithoutFirst(old(list), j) && removed.value == (j in old(list))
      ensures store.calm && removed.None? ==> list == old(list) || list == WithoutFirst(old(list), j)
    {
      store.Meanwhile();
      if !store.calm { list := *; }
      var answered := store.Answered();
      var executed: bool := *;
      if !answered && !executed { return None; }
      removed := if answered then Some(j in list) else None;
      list := WithoutFirst(list, j);
    }

    /** The three commands on one job.  A failure of the first or the second ends the
        whole requeue; one of the third is ignored. */
    method Move(j: JobId, target: QueueName) returns (ok: bool, done: bool, score: int)
      modifies this`list, store
      ensures store.reliable ==> ok
      ensures store.calm && ok ==> list == WithoutFirst(old(list), j) && done == (j in old(list))
      ensures store.calm ==> list == old(list) || list == WithoutFirst(old(list), j)
      ensures store.calm && store.reliable && j in old(list) ==>
                store.records == old(store.records)[j := Requeued(old(At(store.records, j)), target, score)]
    {
      done, score := false, *;
      var removed := Remove(j);
      if removed.None? { return false, false, score; }
      if !removed.value { return true, false, score; }
      store.Meanwhile();
      ok := store.Command(j, AddToQueue(At(store.records, j), target, score));
      if !ok { return false, false, score; }
      store.Meanwhile();
      var _ := store.Command(j, ResetStatus(At(store.records, j), target));
      return true, true, score;
    }

    /** The loop over the selected jobs. */
    method MoveAll(jobs: seq<JobId>, target: QueueName) returns (ok: bool, requeued: nat, ghost moved: seq<JobId>)
      requires store.calm ==>
                 multiset(jobs) <= multiset(list) && forall j :: j in jobs ==> At(store.records, j).hash.Some?
      modifies this`list, store
      ensures requeued == |moved|
      ensures store.calm ==> Conserved(old(list), list, moved, ok)
      ensures store.reliable ==> ok
      ensures store.calm && store.reliable ==>
                moved == jobs && AllWaiting(old(store.records), store.records, moved, target)
    {
      ok, requeued, moved := true, 0, [];
      ghost var all, before := list, store.records;
      var i := 0;
      while i < |jobs|
        invariant 0 <= i <= |jobs| && requeued == |moved| && ok
        invariant store.calm ==> moved == jobs[..i] && Conserved(all, list, moved, true)
        invariant store.calm && store.reliable ==> AllWaiting(before, store.records, moved, target)
      {
        ghost var soFar := store.records;
        if store.calm {
          StillThere(all, list, jobs, i);
          EntryMoves(all, list, moved, jobs[i]);
        }
        var done, score;
        ok, done, score := Move(jobs[i], target);
        if !ok { return; }
        if done {
          if store.calm && store.reliable { OneMoreWaits(before, soFar, moved, jobs[i], target, score); }
          moved, requeued := moved + [jobs[i]], requeued + 1;
        }
        assert jobs[..i + 1] == jobs[..i] + [jobs[i]];
        i := i + 1;
      }
      assert jobs[..i] == jobs;
    }

    /** `dlq_requeue`, which refuses to requeue everything unless told so.  Nobody else
        about: every entry taken off the list is a job put in the queue, but for the one at
        which a failing command stopped; when none fails, exactly the selected entries move. */
    method Requeue(filter: Option<(JobId, Job) -> bool>, everything: bool, limit: Option<nat>, dryRun: bool,
                   target: QueueName)
        returns (ok: bool, requeued: nat, ghost moved: seq<JobId>)
      modifies this`list, store
      ensures requeued == |moved|
      ensures store.calm ==> Conserved(old(list), list, moved, ok)
      ensures store.reliable ==> ok
      ensures store.calm && store.reliable ==>
                && moved == (if dryRun || (filter.None? && !everything) then []
                             else Limited(Selected(old(store.records), old(list), Wanted(filter)), limit))
                && AllWaiting(old(store.records), store.records, moved, target)
    {
      ok, requeued, moved := true, 0, [];
      if filter.None? && !everything { return; }
      store.Meanwhile();
      var answered := store.Answered();
      if !answered { return false, 0, []; }
      var ids := Selected(store.records, list, Wanted(filter));
      var jobs := Limited(ids, limit);
      if !dryRun {
        ChosenAreListed(store.records, list, Wanted(filter), limit);
        ok, requeued, moved := MoveAll(jobs, target);
      }
    }
  }

  /** The entries of the list are still there or were moved; one may be gone when a
      command failed. */
  predicate Conserved(all: seq<JobId>, list: seq<JobId>, moved: seq<JobId>, ok: bool) {
    if ok then multiset(all) == multiset(list) + multiset(moved)
    else multiset(list) + multiset(moved) <= multiset(all) && |all| <= |list| + |moved| + 1
  }

  lemma StillThere(all: seq<JobId>, left: seq<JobId>, jobs: seq<JobId>, i: nat)
    requires i < |jobs| && multiset(jobs) <= multiset(all)
    requires multiset(all) == multiset(left) + multiset(jobs[..i])
    ensures jobs[i] in left && jobs[i] in jobs
  {
    var j := jobs[i];
    assert jobs == jobs[..i] + jobs[i..];
    assert j in jobs[i..] && multiset(jobs) == multiset(jobs[..i]) + multiset(jobs[i..]);
    assert multiset(jobs)[j] <= multiset(all)[j];
    assert j in multiset(left);
  }

  // ---------- the gap between the queue and the hash

  /** The job is written into the queue before its hash says PENDING.  A worker that
      runs it in between leaves it PENDING, in nobody's hands, and in no queue it was
      not in before, exactly when its outcome was final or its own queue listed it
      already; without such a worker it waits in the target queue. */
  lemma RunInTheGapLosesTheJob(r: Record, target: QueueName, score: int, w: WorkerId, outcome: Lifecycle.Outcome,
                               retryScore: int, ttl: int, now: int)
    requires r.hash.Some? && !Locked(r, now) && score <= now && w !in r.active && target !in r.queued
    ensures Claimable(AddToQueue(r, target, score), target, now)
    ensures var run := ConcreteRuns.Executed(AddToQueue(r, target, score), w, target, outcome, retryScore, ttl);
            var lost := ResetStatus(run, target);
            && Live(lost) && lost.active == r.active && lost.lock == None
            && (lost.queued.Keys == r.queued.Keys <==>
                  Lifecycle.IsFinal(r.hash.value, outcome) || r.hash.value.queue in r.queued)
    ensures Waiting(r, Requeued(r, target, score), target)
  {
    var added, queue := AddToQueue(r, target, score), r.hash.value.queue;
    var run := ConcreteRuns.Executed(added, w, target, outcome, retryScore, ttl);
    assert added.queued - {target} == r.queued;
    assert r.active - {w} == r.active;
    assert !Lifecycle.IsFinal(r.hash.value, outcome) ==> run.queued.Keys == r.queued.Keys + {queue};
  }
}
