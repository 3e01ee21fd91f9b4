/**
 The poll loop of a worker and the helpers that give claimed jobs back.

 `handled` records what became of each claimed id, in the order of handling.
 */
module Polling {
  import opened Wrappers
  import opened JobRecord
  import opened JobStore
  import opened Collections
  import opened Backlogs
  import opened Rotation
  import opened FairShares

  datatype Fate = Dispatched | Released | Quarantined

  datatype Handled = Handled(job: JobId, fate: Fate)

  function Ids(log: seq<Handled>): (ids: seq<JobId>)
    ensures |ids| == |log|
  {
    seq(|log|, i requires 0 <= i < |log| => log[i].job)
  }

  /** How many of the handled jobs were dispatched. */
  function Dispatches(log: seq<Handled>): nat {
    if log == [] then 0
    else Dispatches(log[..|log| - 1]) + if log[|log| - 1].fate == Dispatched then 1 else 0
  }

  lemma OneMoreHandled(log: seq<Handled>, entry: Handled)
    ensures Ids(log + [entry]) == Ids(log) + [entry.job]
    ensures Dispatches(log + [entry]) == Dispatches(log) + if entry.fate == Dispatched then 1 else 0
  {}

  /** How a part of the poll ends: go on, return what was fetched, or return an error. */
  datatype Exit = Continue | Stop | Fail

  // ---------- what giving a claimed job back does to its record

  function QueuedAgain(r: Record, queue: QueueName, now: int): Record {
    if queue in r.queued then r else AddToQueue(r, queue, now)
  }

  function ReleasedRecord(r: Record, queue: QueueName, job: Job, w: WorkerId, now: int): Record {
    if LockedByOther(r, Worker(w), now) || !Owns(job, w) then Dropped(r, w, now)
    else Dropped(QueuedAgain(if job.status == Active then MarkPending(r) else r, queue, now), w, now)
  }

  function UnreadRecord(r: Record, queue: QueueName, w: WorkerId, now: int): Record {
    if LockedByOther(r, Worker(w), now) then Dropped(r, w, now)
    else Dropped(QueuedAgain(MarkPending(r), queue, now), w, now)
  }

  function QuarantinedRecord(r: Record, queue: QueueName, w: WorkerId, now: int): Record {
    if LockedByOther(r, Worker(w), now) then Dropped(r, w, now)
    else
      var purged := RemoveFromQueue(r, queue);
      Dropped(if purged.hash.Some? then Condemn(purged) else purged, w, now)
  }

  /** What giving a job back does, with its definition or without one that parses. */
  function GivenBackRecord(r: Record, queue: QueueName, definition: Option<Job>, w: WorkerId, now: int): Record {
    match definition
    case Some(job) => ReleasedRecord(r, queue, job, w, now)
    case None => QuarantinedRecord(r, queue, w, now)
  }

  /** A release leaves alone what is not the worker's to give back, and puts the rest into
      the queue, PENDING if it was ACTIVE; it spends no retry, and ends the worker's
      tracking in any case. */
  lemma ReleasedJobIs(r: Record, queue: QueueName, job: Job, w: WorkerId, now: int)
    ensures var r' := ReleasedRecord(r, queue, job, w, now);
            var mine := !LockedByOther(r, Worker(w), now) && job.worker == Some(w) &&
                        job.status in {Pending, Active, Retrying};
            && r'.active == r.active - {w} && r'.dlq == r.dlq && r'.mortal == r.mortal
            && r'.lock == (if LockedBy(r, Worker(w), now) then None else r.lock)
            && (!mine ==> r'.hash == r.hash && r'.queued == r.queued)
            && (mine ==> IsPutBack(r, r', queue, now))
            && (mine && job.status != Active ==> r'.hash == r.hash)
            && (mine && job.status == Active && r.hash.Some? ==>
                  r'.hash == Some(r.hash.value.(status := Pending, worker := None)))
  {}

  /** The job keeps its entry in the queue or gets one that is due now. */
  predicate IsPutBack(r: Record, r': Record, queue: QueueName, now: int) {
    if queue in r.queued then r'.queued == r.queued else r'.queued == r.queued[queue := now]
  }

  /** So does a release without a definition, which goes by the lock alone. */
  lemma UnreadJobIs(r: Record, queue: QueueName, w: WorkerId, now: int)
    ensures var r' := UnreadRecord(r, queue, w, now);
            && r'.active == r.active - {w} && r'.dlq == r.dlq && r'.mortal == r.mortal
            && r'.lock == (if LockedBy(r, Worker(w), now) then None else r.lock)
            && (LockedByOther(r, Worker(w), now) ==> r'.hash == r.hash && r'.queued == r.queued)
            && (!LockedByOther(r, Worker(w), now) ==> IsPutBack(r, r', queue, now))
            && (!LockedByOther(r, Worker(w), now) && r.hash.Some? ==>
                  r'.hash == Some(r.hash.value.(status := Pending, worker := None)))
  {}

  /** A quarantine takes the job out of the queue and fails it for good, with no retry spent. */
  lemma QuarantinedJobIs(r: Record, queue: QueueName, w: WorkerId, now: int)
    ensures var r' := QuarantinedRecord(r, queue, w, now);
            && r'.active == r.active - {w}
            && r'.lock == (if LockedBy(r, Worker(w), now) then None else r.lock)
            && (LockedByOther(r, Worker(w), now) ==>
                  r'.hash == r.hash && r'.queued == r.queued && r'.dlq == r.dlq && r'.mortal == r.mortal)
            && (!LockedByOther(r, Worker(w), now) ==>
                  && r'.queued == r.queued - {queue}
                  && (r.hash.None? ==> r'.hash == None && r'.dlq == r.dlq)
                  && (r.hash.Some? ==>
                        && r'.hash == Some(r.hash.value.(status := Failed))
                        && r'.dlq == r.dlq + 1 && r'.mortal))
  {}

  /** Job `k` of the batch has been given back. */
  predicate GivenBackAt(before: Records, after: Records, queue: QueueName, claimed: seq<JobId>,
                        defs: seq<Option<Job>>, w: WorkerId, now: int, k: nat)
    requires k < |claimed| == |defs|
  {
    At(after, claimed[k]) == GivenBackRecord(At(before, claimed[k]), queue, defs[k], w, now)
  }

  /** The jobs of the batch from `a` up to `b` have been given back, and nothing else changed. */
  ghost predicate GivenBack(before: Records, after: Records, queue: QueueName, claimed: seq<JobId>,
                            defs: seq<Option<Job>>, w: WorkerId, now: int, a: nat, b: nat)
    requires a <= b <= |claimed| == |defs|
  {
    && (forall k {:trigger GivenBackAt(before, after, queue, claimed, defs, w, now, k)} :: a <= k < b ==>
          GivenBackAt(before, after, queue, claimed, defs, w, now, k))
    && forall j :: j !in claimed[a..b] ==> At(after, j) == At(before, j)
  }

  lemma OneMoreGivenBack(before: Records, soFar: Records, after: Records, queue: QueueName, claimed: seq<JobId>,
                         defs: seq<Option<Job>>, w: WorkerId, now: int, a: nat, b: nat)
    requires a <= b < |claimed| == |defs| && Distinct(claimed)
    requires GivenBack(before, soFar, queue, claimed, defs, w, now, a, b) && OnlyChanges(soFar, after, claimed[b])
    requires At(after, claimed[b]) == GivenBackRecord(At(soFar, claimed[b]), queue, defs[b], w, now)
    ensures GivenBack(before, after, queue, claimed, defs, w, now, a, b + 1)
  {
    assert claimed[a..b + 1] == claimed[a..b] + [claimed[b]];
    assert claimed[b] !in claimed[a..b];
    forall k | a <= k < b + 1 ensures GivenBackAt(before, after, queue, claimed, defs, w, now, k) {
      if k < b { assert GivenBackAt(before, soFar, queue, claimed, defs, w, now, k); }
    }
  }

  /** A definition whose lock time is out of range ends the poll. */
  predicate Rejected(cfg: Settings, definition: Option<Job>) {
    && definition.Some?
    && (CheckedLockTtl(definition.value, cfg).None? || CheckedLockTtl(definition.value, cfg).value <= 0)
  }

  /** What becomes of a claimed job that the poll comes to: its lock is refreshed for as long
      as the job may take, or it is given back. */
  function HandledRecord(r: Record, queue: QueueName, definition: Option<Job>, w: WorkerId, cfg: Settings,
                         now: int): Record
  {
    if definition.Some? && LockedBy(r, Worker(w), now)
    then r.(lock := Some(Lock(Worker(w), now + LockTtl(definition.value, cfg))))
    else GivenBackRecord(r, queue, definition, w, now)
  }

  /** Job `k` of the batch has been handled, and did not end the poll. */
  predicate HandledAt(before: Records, after: Records, queue: QueueName, claimed: seq<JobId>, defs: seq<Option<Job>>,
                      w: WorkerId, cfg: Settings, now: int, k: nat)
    requires k < |claimed| == |defs|
  {
    && !Rejected(cfg, defs[k])
    && At(after, claimed[k]) == HandledRecord(At(before, claimed[k]), queue, defs[k], w, cfg, now)
  }

  ghost predicate HandledUpTo(before: Records, after: Records, queue: QueueName, claimed: seq<JobId>,
                              defs: seq<Option<Job>>, w: WorkerId, cfg: Settings, now: int, n: nat)
    requires n <= |claimed| == |defs|
  {
    && (forall k {:trigger HandledAt(before, after, queue, claimed, defs, w, cfg, now, k)} :: 0 <= k < n ==>
          HandledAt(before, after, queue, claimed, defs, w, cfg, now, k))
    && forall j :: j !in claimed[..n] ==> At(after, j) == At(before, j)
  }

  lemma OneMoreHandledUpTo(before: Records, soFar: Records, after: Records, queue: QueueName, claimed: seq<JobId>,
                           defs: seq<Option<Job>>, w: WorkerId, cfg: Settings, now: int, n: nat)
    requires n < |claimed| == |defs| && Distinct(claimed)
    requires HandledUpTo(before, soFar, queue, claimed, defs, w, cfg, now, n) && OnlyChanges(soFar, after, claimed[n])
    requires !Rejected(cfg, defs[n])
    requires At(after, claimed[n]) == HandledRecord(At(soFar, claimed[n]), queue, defs[n], w, cfg, now)
    ensures HandledUpTo(before, after, queue, claimed, defs, w, cfg, now, n + 1)
  {
    assert claimed[..n + 1] == claimed[..n] + [claimed[n]];
    assert claimed[n] !in claimed[..n];
    forall k | 0 <= k < n + 1 ensures HandledAt(before, after, queue, claimed, defs, w, cfg, now, k) {
      if k < n { assert HandledAt(before, soFar, queue, claimed, defs, w, cfg, now, k); }
    }
  }

  /** The first `n` jobs of the batch have been handled, the others given back, and nothing
      else changed. */
  ghost predicate BatchDone(before: Records, after: Records, queue: QueueName, claimed: seq<JobId>,
                            defs: seq<Option<Job>>, w: WorkerId, cfg: Settings, now: int, n: nat)
    requires n <= |claimed| == |defs|
  {
    && (forall k {:trigger HandledAt(before, after, queue, claimed, defs, w, cfg, now, k)} :: 0 <= k < n ==>
          HandledAt(before, after, queue, claimed, defs, w, cfg, now, k))
    && (forall k {:trigger GivenBackAt(before, after, queue, claimed, defs, w, now, k)} :: n <= k < |claimed| ==>
          GivenBackAt(before, after, queue, claimed, defs, w, now, k))
    && forall j :: j !in claimed ==> At(after, j) == At(before, j)
  }

  lemma RestGivenBack(before: Records, soFar: Records, after: Records, queue: QueueName, claimed: seq<JobId>,
                      defs: seq<Option<Job>>, w: WorkerId, cfg: Settings, now: int, n: nat)
    requires n <= |claimed| == |defs| && Distinct(claimed)
    requires HandledUpTo(before, soFar, queue, claimed, defs, w, cfg, now, n)
    requires GivenBack(soFar, after, queue, claimed, defs, w, now, n, |claimed|)
    ensures BatchDone(before, after, queue, claimed, defs, w, cfg, now, n)
  {
    assert claimed[..n] + claimed[n..] == claimed;
    forall k | 0 <= k < n ensures HandledAt(before, after, queue, claimed, defs, w, cfg, now, k) {
      assert claimed[k] !in claimed[n..|claimed|];
      assert HandledAt(before, soFar, queue, claimed, defs, w, cfg, now, k);
    }
    forall k | n <= k < |claimed| ensures GivenBackAt(before, after, queue, claimed, defs, w, now, k) {
      assert claimed[k] !in claimed[..n];
      assert GivenBackAt(soFar, after, queue, claimed, defs, w, now, k);
    }
  }

  lemma AllHandled(before: Records, after: Records, queue: QueueName, claimed: seq<JobId>, defs: seq<Option<Job>>,
                   w: WorkerId, cfg: Settings, now: int)
    requires |claimed| == |defs| && HandledUpTo(before, after, queue, claimed, defs, w, cfg, now, |claimed|)
    ensures BatchDone(before, after, queue, claimed, defs, w, cfg, now, |claimed|)
  {
    assert claimed[..|claimed|] == claimed;
  }

  /** The worker still answers for the job, or the job is queued or finished. */
  predicate Kept(r: Record, w: WorkerId) {
    Live(r) ==> r.queued != map[] || w in r.active
  }

  class RRQWorker {
    const id: WorkerId
    const store: JobStore
    const queues: seq<QueueName>
    var cursor: nat
    const concurrency: nat
    var permits: nat
    var holders: nat
    var running: set<JobId>
    ghost var claims: seq<JobId>
    ghost var handled: seq<Handled>

    ghost predicate Valid()
      reads this, store
    {
      && queues != [] && Distinct(queues) && store.cfg.Usable() && cursor < |queues|
      && permits + holders == concurrency
    }

    constructor (id: WorkerId, store: JobStore, queues: seq<QueueName>, concurrency: nat)
      requires queues != [] && Distinct(queues) && store.cfg.Usable()
      ensures Valid() && this.store == store && this.queues == queues && this.concurrency == concurrency
      ensures claims == [] && handled == []
    {
      this.id, this.store, this.queues, this.concurrency := id, store, queues, concurrency;
      cursor, permits, holders, running := 0, concurrency, 0, {};
      claims, handled := [], [];
    }

    // ---------- release helpers

    /** Reads the lock owner, twice if the first read fails. */
    method LockOwnedByOther(j: JobId) returns (other: Option<bool>)
      modifies store
      ensures store.calm ==> store.records == old(store.records) && store.now == old(store.now)
      ensures store.calm && other.Some? ==> other.value == LockedByOther(old(At(store.records, j)), Worker(id),
            store.now)
      ensures store.reliable ==> other.Some?
    {
      other := None;
      var attempt := 0;
      while attempt < 2 && other.None?
        invariant attempt <= 2
        invariant store.calm ==> store.records == old(store.records) && store.now == old(store.now)
        invariant store.calm && other.Some? ==>
                    other.value == LockedByOther(old(At(store.records, j)), Worker(id), store.now)
        invariant store.reliable && 0 < attempt ==> other.Some?
      {
        store.Meanwhile();
        var ok := store.Answered();
        if ok { other := Some(LockedByOther(At(store.records, j), Worker(id), store.now)); }
        attempt := attempt + 1;
      }
    }

    /** Queue the job again unless it is queued already. */
    method QueueAgain(queue: QueueName, j: JobId) returns (ok: bool)
      modifies store
      ensures store.calm ==> store.now == old(store.now)
      ensures store.calm ==>
                var r := old(At(store.records, j));
                || store.records == old(store.records)[j := QueuedAgain(r, queue, store.now)]
                || ((!ok || queue in r.queued) && store.records == old(store.records))
      ensures store.reliable ==> ok
    {
      store.Meanwhile();
      ok := store.Answered();
      if !ok { return; }
      var queued := queue in At(store.records, j).queued;
      store.Meanwhile();
      if !queued {
        ok := store.Command(j, AddToQueue(At(store.records, j), queue, store.now));
      }
    }

    method MarkPendingCommand(j: JobId) returns (ok: bool)
      modifies store
      ensures store.calm ==> store.now == old(store.now)
      ensures store.calm ==>
                || store.records == old(store.records)[j := MarkPending(old(At(store.records, j)))]
                || (!ok && store.records == old(store.records))
      ensures store.reliable ==> ok
    {
      store.Meanwhile();
      ok := store.Command(j, MarkPending(At(store.records, j)));
    }

    /** `requeue_claimed_job_if_needed` */
    method RequeueIfNeeded(queue: QueueName, j: JobId, job: Job) returns (ok: bool)
      modifies store
      ensures store.calm ==> OnlyChanges(old(store.records), store.records, j) && store.now == old(store.now)
      ensures store.calm ==>
                var r, r' := old(At(store.records, j)), At(store.records, j);
                && r'.active == r.active && r'.lock == r.lock && r'.queued.Keys >= r.queued.Keys
                && (Live(r) ==> Live(r'))
                && (ok && LiveStatus(job.status) ==>
                      r' == QueuedAgain(if job.status == Active then MarkPending(r) else r, queue, store.now))
                && (ok && !LiveStatus(job.status) ==> r' == r)
      ensures store.reliable ==> ok
    {
      ok := true;
      if LiveStatus(job.status) {
        if job.status == Active {
          ok := MarkPendingCommand(j);
          if !ok { return; }
        }
        ok := QueueAgain(queue, j);
      }
    }

    /** `cleanup_claimed_job_state`: a failure here is logged and left; only a lock
        of the wrong type is deleted unseen. */
    method Cleanup(j: JobId)
      modifies store
      ensures store.calm ==> OnlyChanges(old(store.records), store.records, j) && store.now == old(store.now)
      ensures store.calm ==>
                var r, r' := old(At(store.records, j)), At(store.records, j);
                && r'.hash == r.hash && r'.queued == r.queued && r'.dlq == r.dlq && r'.mortal == r.mortal
                && (store.reliable ==> r' == Dropped(r, id, store.now))
    {
      store.Meanwhile();
      var _ := store.Command(j, RemoveActive(At(store.records, j), id));
      store.Meanwhile();
      var released := store.Command(j, ReleaseIfOwner(At(store.records, j), Worker(id), store.now));
      if !released {
        var wrongType: bool := *;
        store.Meanwhile();
        if wrongType {
          var _ := store.Command(j, At(store.records, j).(lock := None));
        }
      }
    }

    /** Mark a job pending and queue it again, without knowing its definition. */
    method PutBack(queue: QueueName, j: JobId) returns (ok: bool)
      modifies store
      ensures store.calm ==> OnlyChanges(old(store.records), store.records, j) && store.now == old(store.now)
      ensures store.calm ==>
                var r, r' := old(At(store.records, j)), At(store.records, j);
                && r'.active == r.active && r'.lock == r.lock
                && (ok ==> r' == QueuedAgain(MarkPending(r), queue, store.now) && queue in r'.queued)
      ensures store.reliable ==> ok
    {
      ok := MarkPendingCommand(j);
      if !ok { return; }
      ok := QueueAgain(queue, j);
    }

    /** `release_claimed_job` */
    method ReleaseClaimedJob(queue: QueueName, j: JobId, job: Job)
      modifies store, this`handled
      ensures handled == old(handled) + [Handled(j, Released)]
      ensures store.calm ==> OnlyChanges(old(store.records), store.records, j) && store.now == old(store.now)
      ensures store.calm && store.reliable ==>
                At(store.records, j) == ReleasedRecord(old(At(store.records, j)), queue, job, id, store.now)
      ensures store.calm && Owns(job, id) && !LockedByOther(old(At(store.records, j)), Worker(id), old(store.now)) ==>
                id in old(At(store.records, j)).active ==> Kept(At(store.records, j), id)
    {
      handled := handled + [Handled(j, Released)];
      var other := LockOwnedByOther(j);
      var requeue := (other.None? || !other.value) && job.worker == Some(id);
      if requeue {
        var ok := RequeueIfNeeded(queue, j, job);
        if !ok { return; }
      }
      Cleanup(j);
    }

    /** `quarantine_claimed_job_without_definition` */
    method Quarantine(queue: QueueName, j: JobId)
      modifies store, this`handled
      ensures handled == old(handled) + [Handled(j, Quarantined)]
      ensures store.calm ==> OnlyChanges(old(store.records), store.records, j) && store.now == old(store.now)
      ensures store.calm && store.reliable ==>
                At(store.records, j) == QuarantinedRecord(old(At(store.records, j)), queue, id, store.now)
      ensures store.calm && !LockedByOther(old(At(store.records, j)), Worker(id), old(store.now)) ==>
                id in old(At(store.records, j)).active ==> Kept(At(store.records, j), id)
    {
      handled := handled + [Handled(j, Quarantined)];
      var other := LockOwnedByOther(j);
      if other.None? { return; }
      if !other.value {
        store.Meanwhile();
        var _ := store.Command(j, RemoveFromQueue(At(store.records, j), queue));
        store.Meanwhile();
        var read := store.Answered();
        var there := At(store.records, j).hash.Some?;
        var failed := !read;
        if read && there {
          store.Meanwhile();
          var moved := store.Command(j, Condemn(At(store.records, j)));
          failed := !moved;
        }
        if failed {
          var ok := PutBack(queue, j);
          if !ok { return; }
        }
        assert store.calm ==> Live(At(store.records, j)) ==> queue in At(store.records, j).queued;
      }
      Cleanup(j);
    }

    /** `release_claimed_job_without_definition` */
    method ReleaseUnread(queue: QueueName, j: JobId)
      modifies store, this`handled
      ensures handled == old(handled) + [Handled(j, Released)]
      ensures store.calm ==> OnlyChanges(old(store.records), store.records, j) && store.now == old(store.now)
      ensures store.calm && store.reliable ==>
                At(store.records, j) == UnreadRecord(old(At(store.records, j)), queue, id, store.now)
      ensures store.calm && !LockedByOther(old(At(store.records, j)), Worker(id), old(store.now)) ==>
                id in old(At(store.records, j)).active ==> Kept(At(store.records, j), id)
    {
      handled := handled + [Handled(j, Released)];
      var other := LockOwnedByOther(j);
      if other.None? { return; }
      if !other.value {
        var ok := PutBack(queue, j);
        if !ok { return; }
      }
      Cleanup(j);
    }

    // ---------- the poll loop

    /** Every claimed id has been handled exactly once, in the order of the claims. */
    ghost predicate Settled()
      reads this
    {
      Ids(handled) == claims
    }

    /** Release a job, or quarantine it when its definition did not parse. */
    method GiveBack(queue: QueueName, j: JobId, definition: Option<Job>)
      modifies store, this`handled
      ensures handled == old(handled) + [Handled(j, if definition.Some? then Released else Quarantined)]
      ensures store.calm ==> OnlyChanges(old(store.records), store.records, j) && store.now == old(store.now)
      ensures store.calm && store.reliable ==>
                At(store.records, j) == GivenBackRecord(old(At(store.records, j)), queue, definition, id, store.now)
    {
      match definition {
        case Some(job) => ReleaseClaimedJob(queue, j, job);
        case None => Quarantine(queue, j);
      }
    }

    /** `release_claimed_jobs_from_index` and `release_remaining_claimed_jobs` */
    method ReleaseFrom(queue: QueueName, claimed: seq<JobId>, defs: seq<Option<Job>>, index: nat)
      requires |defs| == |claimed| && index <= |claimed|
      modifies store, this`handled
      ensures Ids(handled) == Ids(old(handled)) + claimed[index..]
      ensures Dispatches(handled) == Dispatches(old(handled))
      ensures store.calm ==> store.now == old(store.now)
      ensures store.calm && store.reliable && Distinct(claimed) ==>
                GivenBack(old(store.records), store.records, queue, claimed, defs, id, store.now, index, |claimed|)
    {
      ghost var before, start := store.records, store.now;
      var i := index;
      while i < |claimed|
        invariant index <= i <= |claimed|
        invariant Ids(handled) == Ids(old(handled)) + claimed[index..i]
        invariant Dispatches(handled) == Dispatches(old(handled))
        invariant store.calm ==> store.now == start
        invariant store.calm && store.reliable && Distinct(claimed) ==>
                    GivenBack(before, store.records, queue, claimed, defs, id, start, index, i)
      {
        ghost var had, soFar := handled, store.records;
        GiveBack(queue, claimed[i], defs[i]);
        OneMoreHandled(had, handled[|had|]);
        if store.calm && store.reliable && Distinct(claimed) {
          OneMoreGivenBack(before, soFar, store.records, queue, claimed, defs, id, start, index, i);
        }
        i := i + 1;
      }
    }

    /** `release_remaining_claimed_jobs_without_definitions` */
    method ReleaseAllUnread(queue: QueueName, claimed: seq<JobId>)
      modifies store, this`handled
      ensures Ids(handled) == Ids(old(handled)) + claimed
      ensures Dispatches(handled) == Dispatches(old(handled))
      ensures store.calm ==> store.now == old(store.now)
      ensures store.calm && store.reliable && Distinct(claimed) ==>
                forall j :: At(store.records, j) ==
                            (if j in claimed then UnreadRecord(old(At(store.records, j)), queue, id, store.now)
                             else old(At(store.records, j)))
    {
      ghost var start := store.now;
      var i := 0;
      while i < |claimed|
        invariant 0 <= i <= |claimed|
        invariant Ids(handled) == Ids(old(handled)) + claimed[..i]
        invariant Dispatches(handled) == Dispatches(old(handled))
        invariant store.calm ==> store.now == start
        invariant store.calm && store.reliable && Distinct(claimed) ==>
                    forall j :: At(store.records, j) ==
                                (if j in claimed[..i] then UnreadRecord(old(At(store.records, j)), queue, id, start)
                                 else old(At(store.records, j)))
      {
        ghost var had := handled;
        ReleaseUnread(queue, claimed[i]);
        OneMoreHandled(had, handled[|had|]);
        assert claimed[..i + 1] == claimed[..i] + [claimed[i]];
        assert Distinct(claimed) ==> claimed[i] !in claimed[..i];
        i := i + 1;
      }
    }

    method ShutdownRequested() returns (b: bool)
      ensures store.calm ==> !b
    {
      b := false;
      if !store.calm { b := *; }
    }

    /** Spawned tasks of this worker end whenever they like and give back their permits. */
    method TasksFinish()
      modifies this`permits, this`holders, this`running
      ensures permits >= old(permits) && permits + holders == old(permits) + old(holders)
    {
      var done: nat :| done <= holders;
      permits, holders := permits + done, holders - done;
      var left: set<JobId> := *;
      running := running * left;
    }

    /** How a calm, reliable batch goes on at one job: it is handled, and dispatched if its lock
        is the worker's; or it ends the poll, and is given back with all behind it. */
    ghost predicate OneDone(before: Records, after: Records, now: int, queue: QueueName, claimed: seq<JobId>,
                            defs: seq<Option<Job>>, index: nat, exit: Exit, dispatched: bool)
      requires index < |claimed| == |defs|
    {
      var j := claimed[index];
      && (exit == Fail <==> Rejected(store.cfg, defs[index]))
      && (exit == Fail && Distinct(claimed) ==>
            GivenBack(before, after, queue, claimed, defs, id, now, index, |claimed|))
      && (exit == Continue ==>
            && OnlyChanges(before, after, j)
            && At(after, j) == HandledRecord(At(before, j), queue, defs[index], id, store.cfg, now)
            && dispatched == (defs[index].Some? && LockedBy(At(before, j), Worker(id), now)))
    }

    /** One claimed job with a definition: check its timeout, refresh its lock, take
        a permit and spawn its task, or give the job (or the whole rest) back. */
    method Dispatch(queue: QueueName, claimed: seq<JobId>, defs: seq<Option<Job>>, index: nat)
        returns (exit: Exit, dispatched: bool)
      requires |defs| == |claimed| && index < |claimed| && defs[index].Some?
      requires 0 < permits
      modifies store, this`handled, this`permits, this`holders, this`running
      ensures exit == Continue ==> Ids(handled) == Ids(old(handled)) + [claimed[index]]
      ensures exit == Fail ==> Ids(handled) == Ids(old(handled)) + claimed[index..] && !dispatched
      ensures exit != Stop
      ensures Dispatches(handled) == Dispatches(old(handled)) + if dispatched then 1 else 0
      ensures dispatched ==> claimed[index] in running
      ensures permits >= old(permits) - if dispatched then 1 else 0
      ensures permits + holders == old(permits) + old(holders)
      ensures store.calm && store.reliable ==>
                OneDone(old(store.records), store.records, store.now, queue, claimed, defs, index, exit, dispatched) &&
                store.now == old(store.now)
    {
      var job := defs[index].value;
      var ttl, spawned := CheckedLockTtl(job, store.cfg), None;
      if ttl.Some? && 0 < ttl.value {
        spawned := Spawn(queue, claimed[index], job, ttl.value);
      }
      if spawned.None? {
        ReleaseFrom(queue, claimed, defs, index);
        return Fail, false;
      }
      return Continue, spawned.value;
    }

    /** Refresh the lock of a claimed job, take a permit and spawn its task; or release the
        job, if the lock is not the worker's.  None: a command failed, and nothing was handled. */
    method Spawn(queue: QueueName, j: JobId, job: Job, ttl: int) returns (spawned: Option<bool>)
      requires CheckedLockTtl(job, store.cfg) == Some(ttl) && 0 < ttl && 0 < permits
      modifies store, this`handled, this`permits, this`holders, this`running
      ensures spawned.None? ==> handled == old(handled)
      ensures spawned.Some? ==> Ids(handled) == Ids(old(handled)) + [j]
      ensures Dispatches(handled) == Dispatches(old(handled)) + if spawned == Some(true) then 1 else 0
      ensures spawned == Some(true) ==> j in running
      ensures permits >= old(permits) - if spawned == Some(true) then 1 else 0
      ensures permits + holders == old(permits) + old(holders)
      ensures store.calm && store.reliable ==>
                && spawned == Some(LockedBy(old(At(store.records, j)), Worker(id), store.now))
                && store.now == old(store.now) && OnlyChanges(old(store.records), store.records, j)
                && At(store.records, j) ==
                   HandledRecord(old(At(store.records, j)), queue, Some(job), id, store.cfg, store.now)
    {
      store.Meanwhile();
      var owned := LockedBy(At(store.records, j), Worker(id), store.now);
      var ok := store.Command(j, Refresh(At(store.records, j), Worker(id), store.now, ttl));
      if !ok { return None; }
      if !owned {
        OneMoreHandled(handled, Handled(j, Released));
        ReleaseClaimedJob(queue, j, job);
        return Some(false);
      }
      TasksFinish();
      var open := store.Answered();
      if !open { return None; }
      // A permit is free: acquiring it does not wait.
      permits, holders := permits - 1, holders + 1;
      running := running + {j};
      OneMoreHandled(handled, Handled(j, Dispatched));
      handled := handled + [Handled(j, Dispatched)];
      return Some(true);
    }

    /** Nothing outside this worker disturbs the batch: every job parses, its
        timeout is in range, and its lock is this worker's. */
    ghost predicate Untroubled(claimed: seq<JobId>, defs: seq<Option<Job>>)
      requires |defs| == |claimed|
      reads store
    {
      && store.calm && store.reliable && Distinct(claimed)
      && (forall i :: 0 <= i < |claimed| ==>
            && defs[i].Some? && Sound(store.cfg, defs[i].value)
            && LockedBy(At(store.records, claimed[i]), Worker(id), store.now))
    }

    /** One job of the batch. */
    method HandleClaimed(queue: QueueName, claimed: seq<JobId>, defs: seq<Option<Job>>, index: nat)
        returns (exit: Exit, dispatched: bool)
      requires |defs| == |claimed| && index < |claimed| && 0 < permits
      modifies store, this`handled, this`permits, this`holders, this`running
      ensures exit == Continue ==> Ids(handled) == Ids(old(handled)) + [claimed[index]]
      ensures exit == Fail ==> Ids(handled) == Ids(old(handled)) + claimed[index..] && !dispatched
      ensures exit != Stop
      ensures Dispatches(handled) == Dispatches(old(handled)) + if dispatched then 1 else 0
      ensures permits >= old(permits) - if dispatched then 1 else 0
      ensures permits + holders == old(permits) + old(holders)
      ensures store.calm && store.reliable ==>
                OneDone(old(store.records), store.records, store.now, queue, claimed, defs, index, exit, dispatched) &&
                store.now == old(store.now)
    {
      if defs[index].None? {
        OneMoreHandled(handled, Handled(claimed[index], Quarantined));
        Quarantine(queue, claimed[index]);
        return Continue, false;
      }
      exit, dispatched := Dispatch(queue, claimed, defs, index);
    }

    /** The body of the loop over one claimed batch. */
    method HandleNext(queue: QueueName, claimed: seq<JobId>, defs: seq<Option<Job>>, index: nat, count: nat,
                      fetchedBefore: nat) returns (exit: Exit, fetched: nat)
      requires |defs| == |claimed| && index < |claimed| && fetchedBefore <= count <= permits + fetchedBefore
      modifies store, this`handled, this`permits, this`holders, this`running
      ensures Ids(handled) ==
              Ids(old(handled)) + if exit == Continue then [claimed[index]] else claimed[index..]
      ensures Dispatches(handled) == Dispatches(old(handled)) + (fetched - fetchedBefore)
      ensures permits + holders == old(permits) + old(holders)
      ensures fetchedBefore <= fetched <= count <= permits + fetched
      ensures store.calm && store.reliable ==>
                && store.now == old(store.now) && (exit == Stop <==> fetchedBefore == count)
                && (exit == Stop && Distinct(claimed) ==>
                      GivenBack(old(store.records), store.records, queue, claimed, defs, id, store.now, index,
                                |claimed|))
                && (exit != Stop ==>
                      OneDone(old(store.records), store.records, store.now, queue, claimed, defs, index, exit,
                              fetched == fetchedBefore + 1))
    {
      fetched := fetchedBefore;
      var shutdown := ShutdownRequested();
      if fetched >= count || shutdown {
        ReleaseFrom(queue, claimed, defs, index);
        return Stop, fetched;
      }
      var dispatched;
      exit, dispatched := HandleClaimed(queue, claimed, defs, index);
      if dispatched { fetched := fetched + 1; }
    }

    /** The body of that loop, with what it has done to the whole batch, whose records were
        `before` at first. */
    method HandleInTurn(queue: QueueName, claimed: seq<JobId>, defs: seq<Option<Job>>, index: nat, count: nat,
                        fetchedBefore: nat, ghost before: Records) returns (exit: Exit, fetched: nat)
      requires |defs| == |claimed| && index < |claimed| && fetchedBefore <= count <= permits + fetchedBefore
      requires store.calm && store.reliable && Distinct(claimed) ==>
                 HandledUpTo(before, store.records, queue, claimed, defs, id, store.cfg, store.now, index)
      modifies store, this`handled, this`permits, this`holders, this`running
      ensures Ids(handled) ==
              Ids(old(handled)) + if exit == Continue then [claimed[index]] else claimed[index..]
      ensures Dispatches(handled) == Dispatches(old(handled)) + (fetched - fetchedBefore)
      ensures permits + holders == old(permits) + old(holders)
      ensures fetchedBefore <= fetched <= count <= permits + fetched
      ensures store.calm && store.reliable && Distinct(claimed) ==>
                && store.now == old(store.now)
                && (if exit == Continue
                    then HandledUpTo(before, store.records, queue, claimed, defs, id, store.cfg, store.now, index + 1)
                    else BatchDone(before, store.records, queue, claimed, defs, id, store.cfg, store.now, index))
                && (exit == Stop <==> fetchedBefore == count) && (exit == Stop ==> fetched == count)
                && (exit != Stop ==> (exit == Fail <==> Rejected(store.cfg, defs[index])))
                && (exit == Continue ==>
                      (fetched == fetchedBefore + 1 <==>
                         defs[index].Some? && LockedBy(At(before, claimed[index]), Worker(id), store.now)))
    {
      ghost var soFar := store.records;
      assert Distinct(claimed) ==> claimed[index] !in claimed[..index];
      exit, fetched := HandleNext(queue, claimed, defs, index, count, fetchedBefore);
      if store.calm && store.reliable && Distinct(claimed) {
        if exit == Continue {
          OneMoreHandledUpTo(before, soFar, store.records, queue, claimed, defs, id, store.cfg, store.now, index);
        } else {
          RestGivenBack(before, soFar, store.records, queue, claimed, defs, id, store.cfg, store.now, index);
        }
      }
    }

    /** The loop over one claimed batch. */
    method HandleBatch(queue: QueueName, claimed: seq<JobId>, defs: seq<Option<Job>>, count: nat, fetchedBefore: nat)
        returns (exit: Exit, fetched: nat, ghost upTo: nat)
      requires |defs| == |claimed| && fetchedBefore <= count <= permits + fetchedBefore
      modifies store, this`handled, this`permits, this`holders, this`running
      ensures upTo <= |claimed|
      ensures store.calm && store.reliable && Distinct(claimed) ==>
                && BatchDone(old(store.records), store.records, queue, claimed, defs, id, store.cfg, store.now, upTo)
                && (exit == Continue <==> upTo == |claimed|)
                && (exit == Fail ==> Rejected(store.cfg, defs[upTo])) && (exit == Stop ==> fetched == count)
      ensures Ids(handled) == Ids(old(handled)) + claimed
      ensures Dispatches(handled) == Dispatches(old(handled)) + (fetched - fetchedBefore)
      ensures permits + holders == old(permits) + old(holders)
      ensures fetchedBefore <= fetched <= count <= permits + fetched
      ensures old(Untroubled(claimed, defs)) && fetchedBefore + |claimed| <= count ==>
                exit == Continue && fetched == fetchedBefore + |claimed| && store.now == old(store.now)
    {
      ghost var quiet := Untroubled(claimed, defs) && fetchedBefore + |claimed| <= count;
      ghost var before, known := store.records, store.calm && store.reliable && Distinct(claimed);
      fetched := fetchedBefore;
      var index := 0;
      while index < |claimed|
        invariant 0 <= index <= |claimed|
        invariant Ids(handled) == Ids(old(handled)) + claimed[..index]
        invariant Dispatches(handled) == Dispatches(old(handled)) + (fetched - fetchedBefore)
        invariant permits + holders == old(permits) + old(holders)
        invariant fetchedBefore <= fetched <= count <= permits + fetched
        invariant known ==>
                    HandledUpTo(before, store.records, queue, claimed, defs, id, store.cfg, store.now, index)
        invariant quiet ==> fetched == fetchedBefore + index && store.now == old(store.now)
      {
        PartsOf(claimed, index);
        exit, fetched := HandleInTurn(queue, claimed, defs, index, count, fetched, before);
        if exit != Continue { return exit, fetched, index; }
        index := index + 1;
      }
      exit, upTo := Continue, index;
      assert claimed[..index] == claimed;
      if known { AllHandled(before, store.records, queue, claimed, defs, id, store.cfg, store.now); }
    }

    /** The store is static, reliable and orderly. */
    ghost predicate Steady()
      reads store
    {
      store.calm && store.reliable && Orderly(store.records, queues, store.now, store.cfg)
    }

    /** Load the definitions of a claimed batch and handle it. */
    method HandleClaims(queue: QueueName, claimed: seq<JobId>, count: nat, fetchedBefore: nat)
        returns (exit: Exit, fetched: nat, ghost upTo: nat)
      requires fetchedBefore <= count <= permits + fetchedBefore
      modifies store, this`handled, this`permits, this`holders, this`running
      ensures upTo <= |claimed|
      ensures store.calm && store.reliable && Distinct(claimed) ==>
                && BatchDone(old(store.records), store.records, queue, claimed,
                             Definitions(old(store.records), claimed), id, store.cfg, store.now, upTo)
                && (exit == Continue <==> upTo == |claimed|) && (exit == Stop ==> fetched == count)
      ensures Ids(handled) == Ids(old(handled)) + claimed
      ensures Dispatches(handled) == Dispatches(old(handled)) + (fetched - fetchedBefore)
      ensures permits + holders == old(permits) + old(holders)
      ensures fetchedBefore <= fetched <= count <= permits + fetched
      ensures old(Untroubled(claimed, Definitions(store.records, claimed))) && fetchedBefore + |claimed| <= count ==>
                && exit == Continue && fetched == fetchedBefore + |claimed| && store.now == old(store.now)
                && AllRefreshed(old(store.records), store.records, store.now, claimed)
    {
      store.Meanwhile();
      var answered := store.Answered();
      if !answered {
        ReleaseAllUnread(queue, claimed);
        return Fail, fetchedBefore, 0;
      }
      ghost var before, start := store.records, store.now;
      var defs := Definitions(store.records, claimed);
      ghost var quiet := Untroubled(claimed, defs) && fetchedBefore + |claimed| <= count;
      exit, fetched, upTo := HandleBatch(queue, claimed, defs, count, fetchedBefore);
      if quiet { RefreshedBatch(before, store.records, queue, claimed, defs, id, store.cfg, start); }
    }

    /** Claim from one queue, load the definitions and handle the batch. */
    method ServeQueue(queue: QueueName, request: nat, count: nat, fetchedBefore: nat) returns (exit: Exit, fetched: nat)
      requires Valid() && Settled() && queue in queues
      requires 0 < request && fetchedBefore + request <= count <= permits + fetchedBefore
      modifies store, this`handled, this`permits, this`holders, this`running, this`claims
      ensures Valid() && Settled()
      ensures Dispatches(handled) == Dispatches(old(handled)) + (fetched - fetchedBefore)
      ensures fetchedBefore <= fetched <= count <= permits + fetched
      ensures old(Steady()) ==>
                && exit == Continue && Steady() && store.now == old(store.now)
                && fetched == fetchedBefore + Least(request, |old(Backlog(store.records, queue, store.now))|)
                && Gives(old(store.records), store.records, queues, queue, store.now, fetched - fetchedBefore)
    {
      ghost var steady := Steady();
      store.Meanwhile();
      var answered := store.Answered();
      if !answered { return Fail, fetchedBefore; }
      ghost var before := store.records;
      var claimed, window := store.ClaimReady(queue, id, request);
      claims := claims + claimed;
      ghost var between := store.records;
      if steady { ClaimsAreUntroubled(before, between, store.now, queue, request, window, claimed); }
      if claimed == [] {
        exit, fetched := Continue, fetchedBefore;
      } else {
        ghost var upTo;
        exit, fetched, upTo := HandleClaims(queue, claimed, count, fetchedBefore);
      }
      if steady { SteadyClaim(before, between, store.records, store.now, queue, request, window, claimed); }
    }

    lemma ClaimsAreUntroubled(before: Records, after: Records, now: int, queue: QueueName, request: nat,
                              window: seq<JobId>, claimed: seq<JobId>)
      requires store.cfg.Usable() && store.calm && store.reliable && store.records == after && store.now == now
      requires Orderly(before, queues, now, store.cfg) && queue in queues
      requires IsWindow(before, queue, now, 4 * request, window)
      requires claimed == Chosen(before, queue, now, request, window)
      requires AreClaimed(store.cfg, now, before, after, queue, id, claimed)
      ensures Untroubled(claimed, Definitions(after, claimed)) && |claimed| <= request
    {
      ChosenIsClaimable(before, queue, now, request, window);
      forall i | 0 <= i < |claimed|
        ensures LockedBy(At(after, claimed[i]), Worker(id), now)
        ensures At(after, claimed[i]).hash.Some? && Sound(store.cfg, At(after, claimed[i]).hash.value)
      {
        var j := claimed[i];
        assert j in claimed && Claimable(At(before, j), queue, now);
        assert j in before && Sound(store.cfg, before[j].hash.value);
      }
    }

    lemma SteadyClaim(before: Records, between: Records, after: Records, now: int, queue: QueueName, request: nat,
                      window: seq<JobId>, claimed: seq<JobId>)
      requires store.cfg.Usable() && 0 < request && queue in queues
      requires Orderly(before, queues, now, store.cfg)
      requires IsWindow(before, queue, now, 4 * request, window)
      requires claimed == Chosen(before, queue, now, request, window)
      requires AreClaimed(store.cfg, now, before, between, queue, id, claimed)
      requires AllRefreshed(between, after, now, claimed) && Distinct(queues)
      ensures Orderly(after, queues, now, store.cfg)
      ensures |claimed| == Least(request, |Backlog(before, queue, now)|)
      ensures Gives(before, after, queues, queue, now, |claimed|)
    {
      ShallowIsReached(before, queue, now, request, window);
      ClaimTakesBacklog(before, queue, now, request, window);
      DistinctSize(claimed);
      assert Taken(before, after, queue, now, claimed);
      TakenLeavesOrder(before, after, queues, queue, now, claimed, store.cfg);
      DifferenceSize(Backlog(before, queue, now), Elements(claimed));
    }

    /** In a steady store, a pass with this cap for each queue, and room for `room` jobs, has
        seen `k` queues: the backlogs were `sizes`, are `rest`, and room for `left` is left. */
    ghost predicate Partitioned(start: nat, sizes: seq<nat>, rest: seq<nat>, cap: nat, room: nat, left: nat, k: nat)
      requires start < |queues| && k <= |queues|
      reads this, store
    {
      && Steady() && |sizes| == |queues| && AreSizes(store.records, queues, start, store.now, rest)
      && IsPartway(sizes, rest, cap, room, left, k)
    }

    /** The body of the loop over the queues: one queue's turn, unless there is enough. */
    method OneTurn(second: bool, start: nat, offset: nat, fairShare: nat, count: nat, fetchedBefore: nat,
                   ghost steady: bool, ghost sizes: seq<nat>, ghost room: nat, ghost soFar: seq<nat>)
        returns (exit: Exit, fetched: nat, ghost rest: seq<nat>)
      requires Valid() && Settled() && 0 < fairShare && start < |queues| && offset < |queues|
      requires fetchedBefore <= count <= permits + fetchedBefore
      requires steady ==>
                 Partitioned(start, sizes, soFar, Cap(second, count, fairShare), room, count - fetchedBefore, offset)
      modifies store, this`handled, this`permits, this`holders, this`running, this`claims
      ensures Valid() && Settled()
      ensures Dispatches(handled) == Dispatches(old(handled)) + (fetched - fetchedBefore)
      ensures fetchedBefore <= fetched <= count <= permits + fetched
      ensures steady ==>
                && store.now == old(store.now) && exit != Fail && (exit == Stop ==> fetched == count)
                && Partitioned(start, sizes, rest, Cap(second, count, fairShare), room, count - fetched,
                               if exit == Continue then offset + 1 else |queues|)
    {
      fetched, rest := fetchedBefore, soFar;
      var shutdown := ShutdownRequested();
      if fetched >= count || shutdown {
        if steady { PassStops(sizes, soFar, Cap(second, count, fairShare), room, offset); }
        return Stop, fetched, rest;
      }
      exit, fetched, rest := AskQueue(second, start, offset, fairShare, count, fetchedBefore, steady, soFar);
      if steady { PassGoesOn(sizes, soFar, Cap(second, count, fairShare), room, count - fetchedBefore, offset); }
    }

    /** Ask the queue whose turn it is. */
    method AskQueue(second: bool, start: nat, offset: nat, fairShare: nat, count: nat, fetchedBefore: nat,
                    ghost steady: bool, ghost sizes: seq<nat>) returns (exit: Exit, fetched: nat, ghost rest: seq<nat>)
      requires Valid() && Settled() && 0 < fairShare && start < |queues| && offset < |queues|
      requires fetchedBefore < count <= permits + fetchedBefore
      requires steady ==> Steady() && AreSizes(store.records, queues, start, store.now, sizes)
      modifies store, this`handled, this`permits, this`holders, this`running, this`claims
      ensures Valid() && Settled()
      ensures Dispatches(handled) == Dispatches(old(handled)) + (fetched - fetchedBefore)
      ensures fetchedBefore <= fetched <= count <= permits + fetched
      ensures steady ==>
                && exit == Continue && Steady() && store.now == old(store.now)
                && AreSizes(store.records, queues, start, store.now, rest) && |sizes| == |queues|
                && var n := Least(sizes[offset], Least(Cap(second, count, fairShare), count - fetchedBefore));
                   fetched == fetchedBefore + n && rest == sizes[offset := sizes[offset] - n]
    {
      ghost var before := store.records;
      var queue := queues[Turn(start, offset, |queues|)];
      var remaining := count - fetchedBefore;
      var request := if second then remaining else Least(remaining, fairShare);
      exit, fetched := ServeQueue(queue, request, count, fetchedBefore);
      rest := sizes;
      if steady {
        rest := sizes[offset := sizes[offset] - (fetched - fetchedBefore)];
        OneMoreGives(before, store.records, queues, start, store.now, sizes, fetched - fetchedBefore, offset);
      }
    }

    /** One of the two passes over the queues, starting at `start`.  The first pass
        asks each queue for its fair share, the second for all that is left. */
    method OnePass(second: bool, start: nat, fairShare: nat, count: nat, fetchedBefore: nat, ghost steady: bool,
                   ghost sizes: seq<nat>) returns (exit: Exit, fetched: nat, ghost rest: seq<nat>)
      requires Valid() && Settled() && 0 < fairShare && start < |queues|
      requires fetchedBefore <= count <= permits + fetchedBefore
      requires steady ==> Steady() && AreSizes(store.records, queues, start, store.now, sizes)
      modifies store, this`handled, this`permits, this`holders, this`running, this`claims
      ensures Valid() && Settled()
      ensures Dispatches(handled) == Dispatches(old(handled)) + (fetched - fetchedBefore)
      ensures fetchedBefore <= fetched <= count <= permits + fetched
      ensures steady ==>
                && store.now == old(store.now) && exit != Fail && (exit == Stop ==> fetched == count)
                && Partitioned(start, sizes, rest, Cap(second, count, fairShare), count - fetchedBefore,
                               count - fetched, |queues|)
    {
      ghost var cap, room := Cap(second, count, fairShare), count - fetchedBefore;
      fetched, rest := fetchedBefore, sizes;
      var offset := 0;
      PassBegins(sizes, cap, room);
      while offset < |queues|
        invariant Valid() && Settled() && offset <= |queues|
        invariant Dispatches(handled) == Dispatches(old(handled)) + (fetched - fetchedBefore)
        invariant fetchedBefore <= fetched <= count <= permits + fetched
        invariant steady ==>
                    && store.now == old(store.now)
                    && Partitioned(start, sizes, rest, cap, room, count - fetched, offset)
      {
        exit, fetched, rest := OneTurn(second, start, offset, fairShare, count, fetched, steady, sizes, room, rest);
        if exit != Continue { return; }
        offset := offset + 1;
      }
      exit := Continue;
    }

    method ShareOf(count: nat) returns (share: nat)
      requires queues != []
      ensures 0 < share == FairShare(count, |queues|)
    {
      CeilingIsLeast(count, |queues|);
      share := (count + |queues| - 1) / |queues|;
      if share < 1 { share := 1; }
    }

    /** `poll_for_jobs`.  Every exit leaves every claimed id handled exactly once,
        and no more jobs are dispatched than there are permits.  In a steady store
        one poll fetches all that is ready, up to `count`, and what is left of each
        backlog is what the division among the queues leaves of it. */
    method PollForJobs(count: nat) returns (ok: bool, fetched: nat)
      requires Valid() && Settled() && count <= permits
      modifies store, this
      ensures Valid() && Settled()
      ensures cursor == (old(cursor) + 1) % |queues|
      ensures fetched <= count && Dispatches(handled) == Dispatches(old(handled)) + fetched
      ensures old(Steady()) ==>
                var sizes := SizesFrom(old(store.records), queues, old(cursor), store.now);
                && ok && Steady() && store.now == old(store.now)
                && SizesFrom(store.records, queues, old(cursor), store.now) == Polled(sizes, count)
                && fetched == Least(count, SumTo(sizes, |sizes|))
    {
      SmallMod(cursor, |queues|);
      var start := cursor % |queues|;
      cursor := (start + 1) % |queues|;
      ok, fetched := BothPasses(start, count);
    }

    /** The two passes. */
    method BothPasses(start: nat, count: nat) returns (ok: bool, fetched: nat)
      requires Valid() && Settled() && count <= permits && start < |queues|
      modifies store, this`handled, this`permits, this`holders, this`running, this`claims
      ensures Valid() && Settled()
      ensures fetched <= count && Dispatches(handled) == Dispatches(old(handled)) + fetched
      ensures old(Steady()) ==>
                var sizes := SizesFrom(old(store.records), queues, start, store.now);
                && ok && Steady() && store.now == old(store.now)
                && SizesFrom(store.records, queues, start, store.now) == Polled(sizes, count)
                && fetched == Least(count, SumTo(sizes, |sizes|))
    {
      var fairShare := ShareOf(count);
      ghost var steady, sizes := Steady(), SizesFrom(store.records, queues, start, store.now);
      var exit;
      ghost var middle, rest;
      exit, fetched, middle := OnePass(false, start, fairShare, count, 0, steady, sizes);
      ghost var left := count - fetched;
      rest := middle;
      if exit == Continue {
        exit, fetched, rest := OnePass(true, start, fairShare, count, fetched, steady, middle);
      } else if steady {
        NothingToDo(middle, count);
      }
      if steady {
        PollIsDone(sizes, middle, rest, count, left, count - fetched);
        SizesAreFrom(store.records, queues, start, store.now, rest);
      }
      ok := exit != Fail;
    }

    /** One poll of that loop, added to the history of the polls before it. */
    method PollInTurn(fetchCount: nat, ghost leads: seq<nat>, ghost free: seq<nat>, ghost states: seq<Records>,
                      ghost steady: bool)
        returns (ok: bool, ghost leads': seq<nat>, ghost free': seq<nat>, ghost states': seq<Records>)
      requires Valid() && Settled() && 0 < fetchCount <= permits
      requires Rotates(leads, |queues|) && |states| == |leads| + 1 && |free| == |leads|
      requires leads != [] ==> cursor == (leads[|leads| - 1] + 1) % |queues|
      requires steady ==>
                 Steady() && states[|leads|] == store.records && AllPolled(states, leads, free, queues, store.now)
      modifies store, this
      ensures Valid() && Settled() && cursor == (old(cursor) + 1) % |queues|
      ensures leads' == leads + [old(cursor)] && free' == free + [fetchCount] && states' == states + [store.records]
      ensures Rotates(leads', |queues|)
      ensures steady ==>
                ok && Steady() && store.now == old(store.now) && AllPolled(states', leads', free', queues, store.now)
    {
      SmallMod(cursor, |queues|);
      RotatesOn(leads, |queues|, cursor);
      leads', free' := leads + [cursor], free + [fetchCount];
      var fetched;
      ok, fetched := PollForJobs(fetchCount);
      if steady { OneMorePolled(states, leads, free, queues, store.now, old(cursor), fetchCount, store.records); }
      states' := states + [store.records];
    }

    /** The loop of `run` until shutdown is seen, for at most `cycles` rounds.  Of the rounds
        that poll, `leads` are the queues whose turn it was, `free` the permits that were
        free, and `states` the records between them; `idle` counts the others. */
    method Run(cycles: nat) returns (ghost leads: seq<nat>, ghost free: seq<nat>, ghost states: seq<Records>,
                                     ghost idle: nat)
      requires Valid() && Settled()
      modifies store, this
      ensures Valid() && Settled()
      ensures Rotates(leads, |queues|) && |states| == |leads| + 1 && |free| == |leads|
      ensures forall k :: 0 <= k < |free| ==> 0 < free[k] <= concurrency
      ensures old(Steady()) ==> |leads| + idle == cycles && AllPolled(states, leads, free, queues, store.now)
    {
      leads, free, states, idle := [], [], [store.records], 0;
      ghost var steady, now := Steady(), store.now;
      var cycle := 0;
      while cycle < cycles
        invariant Valid() && Settled() && cycle <= cycles
        invariant Rotates(leads, |queues|) && |states| == |leads| + 1 && |free| == |leads|
        invariant forall k :: 0 <= k < |free| ==> 0 < free[k] <= concurrency
        invariant leads != [] ==> cursor == (leads[|leads| - 1] + 1) % |queues|
        invariant steady ==> Steady() && store.now == now && AllPolled(states, leads, free, queues, now)
        invariant steady ==> states[|leads|] == store.records && |leads| + idle == cycle
      {
        var shutdown := ShutdownRequested();
        if shutdown { return; }
        TasksFinish();
        var fetchCount := permits;
        if permits == 0 { idle := idle + 1; }
        if fetchCount > 0 {
          var ok;
          ok, leads, free, states := PollInTurn(fetchCount, leads, free, states, steady);
          if !ok { return; }
        }
        cycle := cycle + 1;
      }
    }
  }

  /** The sizes of the backlogs, in the order in which a poll visits the queues. */
  function SizesFrom(records: Records, queues: seq<QueueName>, start: nat, now: int): (sizes: seq<nat>)
    requires start < |queues|
    ensures |sizes| == |queues|
  {
    seq(|queues|, k requires 0 <= k < |queues| => |Backlog(records, queues[Turn(start, k, |queues|)], now)|)
  }

  /** What a queue is asked for at most in the first or second pass. */
  function Cap(second: bool, count: nat, fairShare: nat): nat {
    if second then count else fairShare
  }

  ghost predicate AreSizes(records: Records, queues: seq<QueueName>, start: nat, now: int, sizes: seq<nat>)
    requires start < |queues|
  {
    && |sizes| == |queues|
    && forall i {:trigger sizes[i]} :: 0 <= i < |sizes| ==>
         sizes[i] == |Backlog(records, queues[Turn(start, i, |queues|)], now)|
  }

  lemma SizesAreFrom(records: Records, queues: seq<QueueName>, start: nat, now: int, sizes: seq<nat>)
    requires start < |queues| && AreSizes(records, queues, start, now, sizes)
    ensures SizesFrom(records, queues, start, now) == sizes
  {}

  lemma OneMoreGives(soFar: Records, after: Records, queues: seq<QueueName>, start: nat, now: int, sizes: seq<nat>,
                     n: nat, k: nat)
    requires start < |queues| && k < |queues| && Distinct(queues) && AreSizes(soFar, queues, start, now, sizes)
    requires n <= sizes[k] && Gives(soFar, after, queues, queues[Turn(start, k, |queues|)], now, n)
    ensures AreSizes(after, queues, start, now, sizes[k := sizes[k] - n])
  {
    forall i | 0 <= i < |queues| && i != k
      ensures sizes[i] == |Backlog(after, queues[Turn(start, i, |queues|)], now)|
    {
      TurnsDiffer(start, |queues|, i, k);
    }
  }

  /** The queue whose turn it is gives a job, if it has one. */
  lemma LeadIsServed(before: Records, after: Records, queues: seq<QueueName>, start: nat, now: int, count: nat)
    requires start < |queues| && 0 < count
    requires SizesFrom(after, queues, start, now) == Polled(SizesFrom(before, queues, start, now), count)
    ensures Served(before, after, queues[start], now)
  {
    var sizes := SizesFrom(before, queues, start, now);
    EveryQueueGetsItsShare(sizes, count, 0);
    SmallMod(start, |queues|);
    assert sizes[0] == |Backlog(before, queues[start], now)|;
    assert SizesFrom(after, queues, start, now)[0] == |Backlog(after, queues[start], now)|;
  }

  /** Poll `k` asked for as many jobs as permits were free, and divided them as it should. */
  ghost predicate PolledAt(states: seq<Records>, leads: seq<nat>, free: seq<nat>, queues: seq<QueueName>, now: int,
                           k: nat)
    requires |states| == |leads| + 1 && |free| == |leads| && k < |leads|
  {
    leads[k] < |queues| &&
    SizesFrom(states[k + 1], queues, leads[k], now) == Polled(SizesFrom(states[k], queues, leads[k], now), free[k])
  }

  ghost predicate AllPolled(states: seq<Records>, leads: seq<nat>, free: seq<nat>, queues: seq<QueueName>, now: int)
    requires |states| == |leads| + 1 && |free| == |leads|
  {
    forall k :: 0 <= k < |leads| ==> PolledAt(states, leads, free, queues, now, k)
  }

  lemma OneMorePolled(states: seq<Records>, leads: seq<nat>, free: seq<nat>, queues: seq<QueueName>, now: int,
                      lead: nat, count: nat, after: Records)
    requires |states| == |leads| + 1 && |free| == |leads| && AllPolled(states, leads, free, queues, now)
    requires lead < |queues|
    requires SizesFrom(after, queues, lead, now) == Polled(SizesFrom(states[|leads|], queues, lead, now), count)
    ensures AllPolled(states + [after], leads + [lead], free + [count], queues, now)
  {
    forall k | 0 <= k < |leads| + 1
      ensures PolledAt(states + [after], leads + [lead], free + [count], queues, now, k)
    {
      if k < |leads| { assert PolledAt(states, leads, free, queues, now, k); }
    }
  }

  lemma LeadIsServedAt(states: seq<Records>, leads: seq<nat>, free: seq<nat>, queues: seq<QueueName>, now: int, k: nat)
    requires |states| == |leads| + 1 && |free| == |leads| && k < |leads| && 0 < free[k]
    requires PolledAt(states, leads, free, queues, now, k)
    ensures Served(states[k], states[k + 1], queues[leads[k]], now)
  {
    LeadIsServed(states[k], states[k + 1], queues, leads[k], now, free[k]);
  }

  /** Any n consecutive polls of a worker with n queues serve every queue: one of them
      takes a job from it, if it has a ready job then. */
  lemma EveryQueueIsServed(states: seq<Records>, leads: seq<nat>, free: seq<nat>, queues: seq<QueueName>, now: int,
                           a: nat, queue: QueueName) returns (k: nat)
    requires |states| == |leads| + 1 && |free| == |leads| && Rotates(leads, |queues|)
    requires AllPolled(states, leads, free, queues, now) && forall i :: 0 <= i < |free| ==> 0 < free[i]
    requires a + |queues| <= |leads| && queue in queues
    ensures a <= k < a + |queues| && queues[leads[k]] == queue
    ensures Backlog(states[k], queue, now) != {} ==>
              |Backlog(states[k + 1], queue, now)| < |Backlog(states[k], queue, now)|
  {
    var i :| 0 <= i < |queues| && queues[i] == queue;
    EveryPlaceHasItsTurn(leads, |queues|, a, i);
    k :| a <= k < a + |queues| && leads[k] == i;
    assert PolledAt(states, leads, free, queues, now, k);
    LeadIsServedAt(states, leads, free, queues, now, k);
  }

  /** `get_job_definitions`: a missing or malformed hash gives None. */
  function Definitions(records: Records, ids: seq<JobId>): seq<Option<Job>> {
    seq(|ids|, i requires 0 <= i < |ids| =>
      var hash := At(records, ids[i]).hash;
      if hash.Some? && hash.value.wellFormed then hash else None)
  }

  lemma PartsOf(ids: seq<JobId>, index: nat)
    requires index < |ids|
    ensures ids[..index] + ids[index..] == ids && ids[..index + 1] == ids[..index] + [ids[index]]
  {}

  lemma RefreshedBatch(before: Records, after: Records, queue: QueueName, claimed: seq<JobId>, defs: seq<Option<Job>>,
                       w: WorkerId, cfg: Settings, now: int)
    requires |claimed| == |defs| && BatchDone(before, after, queue, claimed, defs, w, cfg, now, |claimed|)
    requires forall i :: 0 <= i < |claimed| ==>
               defs[i].Some? && Sound(cfg, defs[i].value) && LockedBy(At(before, claimed[i]), Worker(w), now)
    ensures AllRefreshed(before, after, now, claimed)
  {
    forall j | j in claimed ensures At(after, j).queued == At(before, j).queued && Locked(At(after, j), now) {
      var i :| 0 <= i < |claimed| && claimed[i] == j;
      assert HandledAt(before, after, queue, claimed, defs, w, cfg, now, i);
    }
  }

  /** The named jobs keep their queue entries and hold a live lock; nothing else changed. */
  ghost predicate AllRefreshed(before: Records, after: Records, now: int, ids: seq<JobId>) {
    forall j ::
      if j in ids then At(after, j).queued == At(before, j).queued && Locked(At(after, j), now)
      else At(after, j) == At(before, j)
  }
}
