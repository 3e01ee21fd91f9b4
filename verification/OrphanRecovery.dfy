/**
 Orphan recovery: one pass over the active sets of the workers without a
 heartbeat.  In a calm store (nobody else acts meanwhile) the pass keeps a
 relation between the records before and after; in a reliable one it also
 leaves no orphan behind and its count is exact.
 */
module OrphanRecovery {
  import opened Wrappers
  import opened JobRecord
  import opened JobStore
  import opened Collections
  import Lifecycle

  const MAX_RECOVERIES_PER_TICK: nat := 100

  // ---------- one orphan

  /** The definition ends the whole pass: it does not parse, or its lock time overflows. */
  predicate Poisonous(cfg: Settings, r: Record) {
    r.hash.Some? && (!r.hash.value.wellFormed || CheckedLockTtl(r.hash.value, cfg).None?)
  }

  predicate NeverLockable(cfg: Settings, r: Record) {
    r.hash.Some? && LockTtl(r.hash.value, cfg) <= 0
  }

  /** What recovery makes of one entry of the active set of `lost`. */
  function Recovered(cfg: Settings, r: Record, lost: WorkerId, score: int, now: int): Record
    requires !Poisonous(cfg, r)
  {
    if Locked(r, now) then r
    else if r.hash.None? then RemoveActive(r, lost)
    else if NeverLockable(cfg, r) then r
    else HandedOver(TryLock(r, Recovery(lost), now, LockTtl(r.hash.value, cfg)), r.hash.value, lost, score, now)
  }

  /** What it does under its lock, going by a definition read before. */
  function HandedOver(held: Record, job: Job, lost: WorkerId, score: int, now: int): Record {
    var owner := Recovery(lost);
    var moved :=
      if job.queue in held.queued then (if job.status == Active then MarkPending(held) else held)
      else if LiveStatus(job.status) then Requeue(held, job.queue, score, owner, lost, now)
      else held;
    ReleaseIfOwner(RemoveActive(moved, lost), owner, now)
  }

  lemma FreshDefinition(cfg: Settings, r: Record, job: Job, lost: WorkerId, score: int, now: int)
    requires job.wellFormed && CheckedLockTtl(job, cfg).Some? && 0 < CheckedLockTtl(job, cfg).value
    requires r.hash == Some(job) && !Locked(r, now)
    ensures !Poisonous(cfg, r)
    ensures Recovered(cfg, r, lost, score, now) ==
            HandedOver(TryLock(r, Recovery(lost), now, CheckedLockTtl(job, cfg).value), job, lost, score, now)
  {}

  /** A recovered live job is queued exactly once more than never, off the set of
      the lost worker, unlocked, and no longer ACTIVE. */
  lemma OrphanIsHandedOver(cfg: Settings, r: Record, lost: WorkerId, score: int, now: int)
    requires Live(r) && !Locked(r, now) && !Poisonous(cfg, r) && !NeverLockable(cfg, r)
    ensures var job, r' := r.hash.value, Recovered(cfg, r, lost, score, now);
            && r'.queued == (if job.queue in r.queued then r.queued else r.queued[job.queue := score])
            && r'.active == r.active - {lost}
            && r'.lock == None && r'.dlq == r.dlq && r'.mortal == r.mortal
            && r'.hash == Some(if job.status == Active then job.(status := Pending, worker := None) else job)
  {}

  /** A recovery that read the definition before the job was finished still leaves it alone
      if and only if what it read was finished too, or was queued and not ACTIVE. */
  lemma FinishedJobIsLeftExactly(held: Record, stale: Job, lost: WorkerId, score: int, now: int)
    requires held.hash.Some? && !Live(held)
    ensures var r' := HandedOver(held, stale, lost, score, now);
            r'.hash == held.hash && r'.queued == held.queued <==>
            !LiveStatus(stale.status) || (stale.queue in held.queued && stale.status != Active)
  {
    var r' := HandedOver(held, stale, lost, score, now);
    if LiveStatus(stale.status) && stale.queue !in held.queued { assert stale.queue in r'.queued; }
  }

  /** What any number of recoveries may do to a record, commands failing or not. */
  ghost predicate Safe(cfg: Settings, healthy: set<WorkerId>, now: int, r: Record, r': Record) {
    && (Locked(r, now) || Poisonous(cfg, r) ==> r' == r)
    && (r.active <= healthy ==> r' == r)
    && r'.active <= r.active && r.active * healthy <= r'.active
    && r'.dlq == r.dlq && r'.mortal == r.mortal
    && (r'.hash == r.hash || (r.hash.Some? && r'.hash == Some(Demoted(r.hash.value))))
    && (r'.queued == r.queued ||
        (Live(r) && r.hash.value.queue !in r.queued &&
         r'.queued.Keys == r.queued.Keys + {r.hash.value.queue} && forall q :: q in r.queued ==>
             r'.queued[q] == r.queued[q]))
    && (Live(r) && r'.active != r.active ==> r.hash.value.queue in r'.queued)
  }

  /** What they do besides when no command fails. */
  ghost predicate Clean(now: int, r: Record, r': Record) {
    && (Locked(r', now) ==> r' == r)
    && (r'.lock == None || r'.lock == r.lock)
    && (Live(r) && r'.active != r.active ==> r'.lock == None && Live(r') && r'.hash.value.status != Active)
  }

  lemma SafeTwice(cfg: Settings, healthy: set<WorkerId>, now: int, r0: Record, r1: Record, r2: Record)
    requires Safe(cfg, healthy, now, r0, r1) && Safe(cfg, healthy, now, r1, r2)
    ensures Safe(cfg, healthy, now, r0, r2)
    ensures Clean(now, r0, r1) && Clean(now, r1, r2) ==> Clean(now, r0, r2)
  {}

  lemma RecoveredIsSafe(cfg: Settings, healthy: set<WorkerId>, r: Record, lost: WorkerId, score: int, now: int)
    requires !Poisonous(cfg, r) && lost in r.active && lost !in healthy
    ensures var r' := Recovered(cfg, r, lost, score, now);
            Safe(cfg, healthy, now, r, r') && Clean(now, r, r') &&
            (lost in r'.active ==> Locked(r', now) || NeverLockable(cfg, r'))
  {
    if r.hash.Some? && !Locked(r, now) && !NeverLockable(cfg, r) {
      var ttl := LockTtl(r.hash.value, cfg);
      HandedOverIsSafe(cfg, healthy, r, TryLock(r, Recovery(lost), now, ttl), lost, score, now);
    }
  }

  lemma HandedOverIsSafe(cfg: Settings, healthy: set<WorkerId>, r: Record, held: Record, lost: WorkerId, score: int,
                         now: int)
    requires r.hash.Some? && !Poisonous(cfg, r) && !Locked(r, now) && lost in r.active && lost !in healthy
    requires held == r.(lock := held.lock) && LockedBy(held, Recovery(lost), now)
    ensures var r' := HandedOver(held, r.hash.value, lost, score, now);
            Safe(cfg, healthy, now, r, r') && Clean(now, r, r') && lost !in r'.active
  {}

  /** `held` is the orphan `r` under a recovery lock, in no queue of its own. */
  predicate Orphaned(r: Record, held: Record, lost: WorkerId, job: Job, now: int) {
    && r.hash == Some(job) && !Locked(r, now) && lost in r.active
    && held == r.(lock := held.lock) && job.queue !in r.queued
  }

  lemma ProgressIsSafe(cfg: Settings, healthy: set<WorkerId>, r: Record, held: Record, reached: Record, score: int,
                       lost: WorkerId, now: int)
    requires Live(r) && !Poisonous(cfg, r)
    requires Orphaned(r, held, lost, r.hash.value, now) && lost !in healthy
    requires reached in Progress(held, r.hash.value.queue, score, Recovery(lost), lost, now)
    ensures Safe(cfg, healthy, now, r, reached)
    ensures Safe(cfg, healthy, now, r, ReleaseIfOwner(reached, Recovery(lost), now))
  {}

  // ---------- the whole pass

  ghost predicate SafeAt(cfg: Settings, healthy: set<WorkerId>, now: int, before: Records, after: Records, j: JobId) {
    Safe(cfg, healthy, now, At(before, j), At(after, j))
  }

  ghost predicate CleanAt(now: int, before: Records, after: Records, j: JobId) {
    Clean(now, At(before, j), At(after, j))
  }

  ghost predicate AllSafe(cfg: Settings, healthy: set<WorkerId>, now: int, before: Records, after: Records) {
    forall j :: SafeAt(cfg, healthy, now, before, after, j)
  }

  ghost predicate AllClean(now: int, before: Records, after: Records) {
    forall j :: CleanAt(now, before, after, j)
  }

  /** The jobs a pass put back into a queue. */
  function NewlyQueued(before: Records, after: Records): set<JobId> {
    set j | j in after && At(after, j).queued != At(before, j).queued
  }

  lemma PassGoesOn(cfg: Settings, healthy: set<WorkerId>, now: int, before: Records, soFar: Records, after: Records,
                   j: JobId)
    requires AllSafe(cfg, healthy, now, before, soFar) && OnlyChanges(soFar, after, j)
    requires SafeAt(cfg, healthy, now, soFar, after, j) && soFar.Keys <= after.Keys
    ensures AllSafe(cfg, healthy, now, soFar, after) && AllSafe(cfg, healthy, now, before, after)
    ensures AllClean(now, before, soFar) && CleanAt(now, soFar, after, j) ==> AllClean(now, before, after)
    ensures At(after, j).queued == At(soFar, j).queued ==> NewlyQueued(before, after) == NewlyQueued(before, soFar)
    ensures At(after, j).queued != At(soFar, j).queued ==>
              j !in NewlyQueued(before, soFar) && NewlyQueued(before, after) == NewlyQueued(before, soFar) + {j}
  {
    forall k ensures SafeAt(cfg, healthy, now, soFar, after, k) {
      if k != j { assert At(after, k) == At(soFar, k); }
    }
    AllSafeTwice(cfg, healthy, now, before, soFar, after);
    if AllClean(now, before, soFar) && CleanAt(now, soFar, after, j) {
      forall k ensures CleanAt(now, before, after, k) {
        assert CleanAt(now, before, soFar, k) && SafeAt(cfg, healthy, now, before, soFar, k) &&
            SafeAt(cfg, healthy, now, soFar, after, k);
        if k != j { assert At(after, k) == At(soFar, k); }
        SafeTwice(cfg, healthy, now, At(before, k), At(soFar, k), At(after, k));
      }
    }
    if At(after, j).queued != At(soFar, j).queued {
      assert SafeAt(cfg, healthy, now, before, soFar, j) && SafeAt(cfg, healthy, now, soFar, after, j);
      assert At(soFar, j).queued == At(before, j).queued;
    }
    forall k ensures k != j ==> (k in NewlyQueued(before, after) <==> k in NewlyQueued(before, soFar)) {
      assert SafeAt(cfg, healthy, now, before, soFar, k);
      if k != j { assert At(after, k) == At(soFar, k); }
    }
    assert SafeAt(cfg, healthy, now, before, soFar, j) && SafeAt(cfg, healthy, now, soFar, after, j);
  }

  lemma AllSafeTwice(cfg: Settings, healthy: set<WorkerId>, now: int, before: Records, soFar: Records, after: Records)
    requires AllSafe(cfg, healthy, now, before, soFar) && AllSafe(cfg, healthy, now, soFar, after)
    ensures AllSafe(cfg, healthy, now, before, after)
  {
    forall j ensures SafeAt(cfg, healthy, now, before, after, j) {
      assert SafeAt(cfg, healthy, now, before, soFar, j) && SafeAt(cfg, healthy, now, soFar, after, j);
      SafeTwice(cfg, healthy, now, At(before, j), At(soFar, j), At(after, j));
    }
  }

  /** Nothing is left to recover of job record `r` for worker `w`. */
  predicate Dealt(cfg: Settings, now: int, r: Record, w: WorkerId) {
    w !in r.active || Locked(r, now) || (!Poisonous(cfg, r) && NeverLockable(cfg, r))
  }

  lemma DealtStays(cfg: Settings, healthy: set<WorkerId>, now: int, r: Record, r': Record, w: WorkerId)
    requires Safe(cfg, healthy, now, r, r') && Dealt(cfg, now, r, w)
    ensures Dealt(cfg, now, r', w)
  {}

  predicate DealtAt(cfg: Settings, now: int, records: Records, w: WorkerId, j: JobId) {
    Dealt(cfg, now, At(records, j), w)
  }

  ghost predicate AllDealt(cfg: Settings, now: int, records: Records, w: WorkerId) {
    forall j :: DealtAt(cfg, now, records, w, j)
  }

  lemma AllDealtStays(cfg: Settings, healthy: set<WorkerId>, now: int, before: Records, after: Records, w: WorkerId)
    requires AllSafe(cfg, healthy, now, before, after) && AllDealt(cfg, now, before, w)
    ensures AllDealt(cfg, now, after, w)
  {
    forall j ensures DealtAt(cfg, now, after, w, j) {
      assert SafeAt(cfg, healthy, now, before, after, j) && DealtAt(cfg, now, before, w, j);
      DealtStays(cfg, healthy, now, At(before, j), At(after, j), w);
    }
  }

  /** The entries of `ids` from `i` on are still listed for the worker, and all that are listed are there. */
  ghost predicate StillListed(records: Records, w: WorkerId, ids: seq<JobId>, i: nat) {
    && (forall k :: i <= k < |ids| ==> w in At(records, ids[k]).active)
    && (forall j :: w in At(records, j).active ==> j in ids)
  }

  ghost predicate DealtUpTo(cfg: Settings, now: int, records: Records, w: WorkerId, ids: seq<JobId>, i: nat)
    requires i <= |ids|
  {
    forall j :: j in ids[..i] ==> DealtAt(cfg, now, records, w, j)
  }

  lemma WalkGoesOn(cfg: Settings, now: int, soFar: Records, after: Records, w: WorkerId, ids: seq<JobId>, i: nat)
    requires i < |ids| && Distinct(ids) && OnlyChanges(soFar, after, ids[i])
    requires At(after, ids[i]).active <= At(soFar, ids[i]).active
    requires StillListed(soFar, w, ids, i)
    ensures StillListed(after, w, ids, i + 1)
    ensures DealtUpTo(cfg, now, soFar, w, ids, i) && Dealt(cfg, now, At(after, ids[i]), w) ==>
            DealtUpTo(cfg, now, after, w, ids, i + 1)
  {
    assert ids[..i + 1] == ids[..i] + [ids[i]];
    forall j | w in At(after, j).active ensures w in At(soFar, j).active {
      if j != ids[i] { assert At(after, j) == At(soFar, j); }
    }
  }

  lemma WalkEnds(cfg: Settings, now: int, records: Records, w: WorkerId, ids: seq<JobId>)
    requires StillListed(records, w, ids, |ids|) && DealtUpTo(cfg, now, records, w, ids, |ids|)
    ensures AllDealt(cfg, now, records, w)
  {}

  /** An entry of the worker's active set whose unlocked definition ends the pass. */
  predicate Poisoned(cfg: Settings, now: int, r: Record, w: WorkerId) {
    w in r.active && !Locked(r, now) && Poisonous(cfg, r)
  }

  /** A pass neither makes poison nor cures it. */
  lemma PoisonWasThere(cfg: Settings, healthy: set<WorkerId>, now: int, before: Records, after: Records, w: WorkerId,
                       j: JobId)
    requires AllSafe(cfg, healthy, now, before, after)
    ensures Poisoned(cfg, now, At(after, j), w) ==> Poisoned(cfg, now, At(before, j), w)
    ensures Poisoned(cfg, now, At(before, j), w) ==> At(after, j) == At(before, j)
  {
    assert SafeAt(cfg, healthy, now, before, after, j);
  }

  ghost predicate PoisonFree(cfg: Settings, now: int, records: Records, w: WorkerId) {
    forall j :: !Poisoned(cfg, now, At(records, j), w)
  }

  lemma DealtMeansPoisonFree(cfg: Settings, healthy: set<WorkerId>, now: int, before: Records, after: Records,
                             w: WorkerId)
    requires AllSafe(cfg, healthy, now, before, after) && AllDealt(cfg, now, after, w)
    ensures PoisonFree(cfg, now, before, w)
  {
    forall j ensures !Poisoned(cfg, now, At(before, j), w) {
      PoisonWasThere(cfg, healthy, now, before, after, w, j);
      assert DealtAt(cfg, now, after, w, j);
    }
  }

  /** A live orphan that could be locked is in its queue now, off the list, unlocked, and
      not ACTIVE. */
  predicate IsHandedOver(cfg: Settings, now: int, r: Record, r': Record, w: WorkerId) {
    Live(r) && w in r.active && !Locked(r, now) && !Poisonous(cfg, r) && !NeverLockable(cfg, r) ==>
      && r.hash.value.queue in r'.queued && w !in r'.active && r'.lock == None
      && Live(r') && r'.hash.value.status != Active && r'.hash.value.retries == r.hash.value.retries
  }

  predicate HandedOverAt(cfg: Settings, now: int, before: Records, after: Records, w: WorkerId, j: JobId) {
    IsHandedOver(cfg, now, At(before, j), At(after, j), w)
  }

  ghost predicate AllHandedOver(cfg: Settings, now: int, before: Records, after: Records, w: WorkerId) {
    forall j :: HandedOverAt(cfg, now, before, after, w, j)
  }

  lemma DealtMeansHandedOver(cfg: Settings, healthy: set<WorkerId>, now: int, before: Records, after: Records,
                             w: WorkerId)
    requires AllSafe(cfg, healthy, now, before, after) && AllClean(now, before, after)
    requires AllDealt(cfg, now, after, w)
    ensures AllHandedOver(cfg, now, before, after, w)
  {
    forall j ensures HandedOverAt(cfg, now, before, after, w, j) {
      assert SafeAt(cfg, healthy, now, before, after, j) && CleanAt(now, before, after, j);
      assert DealtAt(cfg, now, after, w, j);
    }
  }

  lemma NothingDoneYet(cfg: Settings, healthy: set<WorkerId>, now: int, records: Records)
    ensures AllSafe(cfg, healthy, now, records, records) && AllClean(now, records, records)
    ensures NewlyQueued(records, records) == {}
  {}

  datatype Verdict = Skip | Count | Abort

  datatype Ending = Finished | Limited | Interrupted | Aborted

  class Recoverer {
    const store: JobStore
    const healthy: set<WorkerId>
    var recovered: nat

    constructor (store: JobStore, healthy: set<WorkerId>)
      ensures this.store == store && this.healthy == healthy && recovered == 0
    {
      this.store, this.healthy, recovered := store, healthy, 0;
    }

    /** The body of the loop over the active jobs of a lost worker. */
    method RecoverJob(lost: WorkerId, j: JobId) returns (verdict: Verdict, score: int)
      modifies store
      ensures store.calm ==> OnlyChanges(old(store.records), store.records, j) && store.now == old(store.now)
      ensures store.calm ==> old(store.records).Keys <= store.records.Keys
      ensures store.calm && lost in old(At(store.records, j)).active && lost !in healthy ==>
                Safe(store.cfg, healthy, store.now, old(At(store.records, j)), At(store.records, j))
      ensures store.calm && store.reliable ==>
                var r := old(At(store.records, j));
                (verdict == Abort <==> !Locked(r, store.now) && Poisonous(store.cfg, r)) &&
                (verdict == Abort ==> store.records == old(store.records)) &&
                (Locked(r, store.now) ==> At(store.records, j) == r) &&
                (!Poisonous(store.cfg, r) ==>
                   At(store.records, j) == Recovered(store.cfg, r, lost, score, store.now)) &&
                (verdict == Count <==> At(store.records, j).queued != r.queued)
    {
      verdict, score := Skip, 0;
      store.Meanwhile();
      var ok := store.Answered();
      if !ok { return Abort, 0; }
      if Locked(At(store.records, j), store.now) { return; }
      store.Meanwhile();
      ok := store.Answered();
      if !ok { return Abort, 0; }
      var hash := At(store.records, j).hash;
      if hash.None? {
        store.Meanwhile();
        var _ := store.Command(j, RemoveActive(At(store.records, j), lost));
        return;
      }
      var job := hash.value;
      if !job.wellFormed { return Abort, 0; }
      var ttl := CheckedLockTtl(job, store.cfg);
      if ttl.None? { return Abort, 0; }
      if ttl.value <= 0 { return; }
      ghost var r := At(store.records, j);
      verdict, score := RecoverLockable(lost, j, job, ttl.value);
      if store.calm { FreshDefinition(store.cfg, r, job, lost, score, store.now); }
    }

    /** From `try_lock_job` on. */
    method RecoverLockable(lost: WorkerId, j: JobId, job: Job, ttl: int) returns (verdict: Verdict, score: int)
      requires 0 < ttl
      modifies store
      ensures store.calm ==> OnlyChanges(old(store.records), store.records, j) && store.now == old(store.now)
      ensures store.calm ==> old(store.records).Keys <= store.records.Keys
      ensures store.calm && lost in old(At(store.records, j)).active && lost !in healthy &&
              old(At(store.records, j)).hash == Some(job) && !Poisonous(store.cfg, old(At(store.records, j))) ==>
                Safe(store.cfg, healthy, store.now, old(At(store.records, j)), At(store.records, j))
      ensures store.calm && store.reliable ==>
                var r := old(At(store.records, j));
                verdict != Abort &&
                (!Locked(r, store.now) ==>
                   var held := TryLock(r, Recovery(lost), store.now, ttl);
                   At(store.records, j) == HandedOver(held, job, lost, score, store.now) &&
                   (verdict == Count <==> At(store.records, j).queued != r.queued))
    {
      verdict, score := Skip, 0;
      var owner := Recovery(lost);
      store.Meanwhile();
      var free := !Locked(At(store.records, j), store.now);
      var ok := store.Command(j, TryLock(At(store.records, j), owner, store.now, ttl));
      if !ok { return Abort, 0; }
      if !free { return; }
      verdict, score := RecoverHeld(lost, j, job, old(At(store.records, j)));
    }

    /** Under the recovery lock; `r` is the record before recovery locked it. */
    method RecoverHeld(lost: WorkerId, j: JobId, job: Job, ghost r: Record) returns (verdict: Verdict, score: int)
      modifies store
      ensures store.calm ==> OnlyChanges(old(store.records), store.records, j) && store.now == old(store.now)
      ensures store.calm ==> old(store.records).Keys <= store.records.Keys
      ensures store.calm && lost in r.active && lost !in healthy && r.hash == Some(job) && !Poisonous(store.cfg, r) &&
              !Locked(r, old(store.now)) && old(At(store.records, j)) == r.(lock := old(At(store.records, j)).lock) ==>
                Safe(store.cfg, healthy, store.now, r, At(store.records, j))
      ensures store.calm && store.reliable ==>
                verdict != Abort &&
                var held := old(At(store.records, j));
                At(store.records, j) == HandedOver(held, job, lost, score, store.now) &&
                (verdict == Count <==> At(store.records, j).queued != held.queued)
    {
      verdict, score := Skip, 0;
      store.Meanwhile();
      var ok := store.Answered();
      if !ok { return Abort, 0; }
      if job.queue in At(store.records, j).queued {
        DemoteAndDetach(lost, j, job);
      } else if LiveStatus(job.status) {
        verdict, score := RequeueOrphan(lost, j, job, r);
      } else {
        Detach(lost, j);
      }
    }

    /** The job is queued already: only its status and the tracking are put right. */
    method DemoteAndDetach(lost: WorkerId, j: JobId, job: Job)
      modifies store
      ensures store.calm ==> OnlyChanges(old(store.records), store.records, j) && store.now == old(store.now)
      ensures store.calm ==> old(store.records).Keys <= store.records.Keys
      ensures store.calm ==>
                var r, r' := old(At(store.records, j)), At(store.records, j);
                var marked := if job.status == Active then MarkPending(r) else r;
                && (r'.hash == r.hash || r'.hash == marked.hash)
                && r'.queued == r.queued && r'.dlq == r.dlq && r'.mortal == r.mortal
                && (r'.active == r.active || r'.active == r.active - {lost})
                && (store.reliable ==> r' == ReleaseIfOwner(RemoveActive(marked, lost), Recovery(lost), store.now))
    {
      if job.status == Active {
        store.Meanwhile();
        var _ := store.Command(j, MarkPending(At(store.records, j)));
      }
      Detach(lost, j);
    }

    /** The atomic requeue and what follows it, on a live job that is not queued;
        `r` is the record before recovery locked it. */
    method RequeueOrphan(lost: WorkerId, j: JobId, job: Job, ghost r: Record) returns (verdict: Verdict, score: int)
      requires LiveStatus(job.status)
      modifies store
      ensures store.calm ==> OnlyChanges(old(store.records), store.records, j) && store.now == old(store.now)
      ensures store.calm ==> old(store.records).Keys <= store.records.Keys
      ensures store.calm && Orphaned(r, old(At(store.records, j)), lost, job, store.now) && lost !in healthy &&
              !Poisonous(store.cfg, r) ==>
                Safe(store.cfg, healthy, store.now, r, At(store.records, j))
      ensures store.calm && store.reliable ==>
                var held := old(At(store.records, j));
                verdict != Abort &&
                var requeued := Requeue(held, job.queue, score, Recovery(lost), lost, store.now);
                (verdict == Count <==> held.hash.Some?) &&
                At(store.records, j) == ReleaseIfOwner(RemoveActive(requeued, lost), Recovery(lost), store.now)
    {
      verdict, score := Skip, *;
      store.Meanwhile();
      var code := store.AtomicRequeue(j, job.queue, score, Recovery(lost), lost);
      if store.calm && Orphaned(r, old(At(store.records, j)), lost, job, store.now) && lost !in healthy &&
          !Poisonous(store.cfg, r) {
        ProgressIsSafe(store.cfg, healthy, r, old(At(store.records, j)), At(store.records, j), score, lost, store.now);
      }
      if code.None? || code.value == -1 {
        store.Meanwhile();
        var _ := store.Command(j, ReleaseIfOwner(At(store.records, j), Recovery(lost), store.now));
        return;
      }
      Detach(lost, j);
      if code.value != 0 { verdict := Count; }
    }

    /** Drop the job from the lost worker's set and release the recovery lock. */
    method Detach(lost: WorkerId, j: JobId)
      modifies store
      ensures store.calm ==> OnlyChanges(old(store.records), store.records, j) && store.now == old(store.now)
      ensures store.calm ==> old(store.records).Keys <= store.records.Keys
      ensures store.calm ==>
                var r, r' := old(At(store.records, j)), At(store.records, j);
                && r'.hash == r.hash && r'.queued == r.queued && r'.dlq == r.dlq && r'.mortal == r.mortal
                && (r'.active == r.active || r'.active == r.active - {lost})
                && (store.reliable ==> r' == ReleaseIfOwner(RemoveActive(r, lost), Recovery(lost), store.now))
    {
      store.Meanwhile();
      var _ := store.Command(j, RemoveActive(At(store.records, j), lost));
      store.Meanwhile();
      var _ := store.Command(j, ReleaseIfOwner(At(store.records, j), Recovery(lost), store.now));
    }

    // ---------- the scan

    /** The pass so far has kept the relation to the records it started from. */
    ghost predicate OnTrack(before: Records, start: int)
      reads this, store
    {
      && recovered <= MAX_RECOVERIES_PER_TICK
      && (store.calm ==>
            && store.now == start && before.Keys <= store.records.Keys
            && AllSafe(store.cfg, healthy, start, before, store.records)
            && (store.reliable ==>
                  && AllClean(start, before, store.records)
                  && recovered == |NewlyQueued(before, store.records)|))
    }

    /** The active set of a worker, in some order. */
    method ActiveIds(w: WorkerId) returns (ids: seq<JobId>)
      ensures Distinct(ids)
      ensures forall j :: j in ids <==> w in At(store.records, j).active
    {
      var left := set j | j in store.records && w in store.records[j].active;
      ids := [];
      while left != {}
        invariant forall j :: w in At(store.records, j).active <==> j in left || j in ids
        invariant forall j :: j in left ==> j !in ids
        invariant Distinct(ids)
        decreases left
      {
        var j :| j in left;
        ids, left := ids + [j], left - {j};
      }
    }

    /** One job of the scan, counted. */
    method RecoverNext(lost: WorkerId, j: JobId, ghost before: Records, ghost start: int)
        returns (ending: Option<Ending>)
      requires OnTrack(before, start) && recovered < MAX_RECOVERIES_PER_TICK && lost !in healthy
      requires store.calm ==> lost in At(store.records, j).active
      modifies store, this`recovered
      ensures OnTrack(before, start)
      ensures store.calm ==> OnlyChanges(old(store.records), store.records, j)
      ensures store.calm ==> AllSafe(store.cfg, healthy, start, old(store.records), store.records)
      ensures recovered == MAX_RECOVERIES_PER_TICK <==> ending == Some(Limited)
      ensures ending in {None, Some(Limited), Some(Aborted)}
      ensures store.calm && store.reliable && ending == Some(Aborted) ==>
                Poisoned(store.cfg, start, At(old(store.records), j), lost)
      ensures store.calm && store.reliable && ending != Some(Aborted) ==>
              Dealt(store.cfg, start, At(store.records, j), lost)
    {
      ghost var soFar := store.records;
      var verdict, score := RecoverJob(lost, j);
      if store.calm {
        PassGoesOn(store.cfg, healthy, start, before, soFar, store.records, j);
        if store.reliable && verdict != Abort && !Locked(At(soFar, j), start) {
          RecoveredIsSafe(store.cfg, healthy, At(soFar, j), lost, score, start);
        }
      }
      match verdict {
        case Abort => return Some(Aborted);
        case Skip => return None;
        case Count =>
          recovered := recovered + 1;
          return if recovered >= MAX_RECOVERIES_PER_TICK then Some(Limited) else None;
      }
    }

    method ShutdownRequested() returns (b: bool)
      ensures store.calm ==> !b
    {
      b := false;
      if !store.calm { b := *; }
    }

    /** Every job of one lost worker. */
    method RecoverActive(lost: WorkerId, ghost before: Records, ghost start: int) returns (ending: Option<Ending>)
      requires OnTrack(before, start) && recovered < MAX_RECOVERIES_PER_TICK && lost !in healthy
      modifies store, this`recovered
      ensures OnTrack(before, start)
      ensures store.calm ==> AllSafe(store.cfg, healthy, start, old(store.records), store.records)
      ensures recovered == MAX_RECOVERIES_PER_TICK <==> ending == Some(Limited)
      ensures ending != Some(Finished) && (store.calm ==> ending != Some(Interrupted))
      ensures store.calm && store.reliable && ending == Some(Aborted) ==>
                !PoisonFree(store.cfg, start, before, lost)
      ensures store.calm && store.reliable && ending == None ==> AllDealt(store.cfg, start, store.records, lost)
    {
      var answered := store.Answered();
      if !answered { return Some(Aborted); }
      var ids := ActiveIds(lost);
      ghost var was := store.records;
      var i := 0;
      while i < |ids|
        invariant 0 <= i <= |ids| && recovered < MAX_RECOVERIES_PER_TICK
        invariant OnTrack(before, start)
        invariant store.calm ==> AllSafe(store.cfg, healthy, start, was, store.records)
        invariant store.calm ==> StillListed(store.records, lost, ids, i)
        invariant store.calm && store.reliable ==> DealtUpTo(store.cfg, start, store.records, lost, ids, i)
      {
        var shutdown := ShutdownRequested();
        if shutdown { return Some(Interrupted); }
        ghost var soFar := store.records;
        ending := RecoverNext(lost, ids[i], before, start);
        if store.calm { AllSafeTwice(store.cfg, healthy, start, was, soFar, store.records); }
        if ending.Some? {
          if store.calm { PoisonWasThere(store.cfg, healthy, start, before, soFar, lost, ids[i]); }
          return;
        }
        if store.calm {
          assert SafeAt(store.cfg, healthy, start, soFar, store.records, ids[i]);
          WalkGoesOn(store.cfg, start, soFar, store.records, lost, ids, i);
        }
        i := i + 1;
      }
      ending := None;
      if store.calm && store.reliable { WalkEnds(store.cfg, start, store.records, lost, ids); }
    }

    /** `recover_orphaned_jobs`, over the active sets the scan finds, in its order. */
    method RecoverOrphans(keys: seq<WorkerId>) returns (ending: Ending)
      requires recovered == 0
      modifies store, this`recovered
      ensures OnTrack(old(store.records), old(store.now))
      ensures ending == Limited <==> recovered == MAX_RECOVERIES_PER_TICK
      ensures store.calm ==> ending in {Finished, Limited, Aborted}
      ensures store.calm && store.reliable && ending == Finished ==>
                forall w :: w in keys && w !in healthy ==>
                  AllDealt(store.cfg, store.now, store.records, w) &&
                  PoisonFree(store.cfg, store.now, old(store.records), w) &&
                  AllHandedOver(store.cfg, store.now, old(store.records), store.records, w)
      ensures store.calm && store.reliable && ending == Aborted ==>
                exists w :: w in keys && w !in healthy && !PoisonFree(store.cfg, store.now, old(store.records), w)
    {
      ghost var before, start := store.records, store.now;
      NothingDoneYet(store.cfg, healthy, start, before);
      var i := 0;
      while i < |keys|
        invariant 0 <= i <= |keys| && recovered < MAX_RECOVERIES_PER_TICK
        invariant OnTrack(before, start)
        invariant store.calm && store.reliable ==>
                    forall w :: w in keys[..i] && w !in healthy ==> AllDealt(store.cfg, start, store.records, w)
      {
        var answered := store.Answered();
        if !answered { return Aborted; }
        if keys[i] !in healthy {
          ghost var soFar := store.records;
          var end := RecoverActive(keys[i], before, start);
          if end.Some? { return end.value; }
          if store.calm && store.reliable {
            forall w | w in keys[..i] && w !in healthy ensures AllDealt(store.cfg, start, store.records, w) {
              AllDealtStays(store.cfg, healthy, start, soFar, store.records, w);
            }
          }
        }
        assert keys[..i + 1] == keys[..i] + [keys[i]];
        i := i + 1;
      }
      assert keys[..i] == keys;
      ending := Finished;
      if store.calm && store.reliable {
        forall w | w in keys && w !in healthy
          ensures PoisonFree(store.cfg, start, before, w) && AllHandedOver(store.cfg, start, before, store.records, w)
        {
          DealtMeansPoisonFree(store.cfg, healthy, start, before, store.records, w);
          DealtMeansHandedOver(store.cfg, healthy, start, before, store.records, w);
        }
      }
    }
  }

  // ---------- the pass and the lifecycle protocol

  /** The protocol steps by which one orphan is recovered. */
  function RecoverySteps(r: Record, rescuer: WorkerId, lost: WorkerId, score: int): seq<Lifecycle.Step>
    requires r.hash.Some?
  {
    var job := r.hash.value;
    var take := Lifecycle.Suspect(rescuer, Lifecycle.Take(lost));
    var detach := [Lifecycle.Recover(rescuer, Lifecycle.Detach), Lifecycle.Recover(rescuer, Lifecycle.Unlatch)];
    if !LiveStatus(job.status) then [take] + detach
    else if job.queue !in r.queued then
      [take, Lifecycle.Recover(rescuer, Lifecycle.Check), Lifecycle.Recover(rescuer, Lifecycle.Restore(score)),
       Lifecycle.Recover(rescuer, Lifecycle.Trail), Lifecycle.Recover(rescuer, Lifecycle.Done)]
    else if job.status == Active then
      [take, Lifecycle.Recover(rescuer, Lifecycle.Check), Lifecycle.Recover(rescuer, Lifecycle.Demote)] + detach
    else [take, Lifecycle.Recover(rescuer, Lifecycle.Check)] + detach
  }

  lemma TakeLast(cfg: Settings, now: int, v: Lifecycle.View, rescuer: WorkerId, first: Lifecycle.RescueOp,
                 second: Lifecycle.RescueOp)
    requires Lifecycle.RescueEnabled(v, rescuer, first)
    requires Lifecycle.RescueEnabled(Lifecycle.Apply(cfg, now, v, Lifecycle.Recover(rescuer, first)), rescuer, second)
    ensures var steps, next := [Lifecycle.Recover(rescuer, first), Lifecycle.Recover(rescuer, second)],
                               Lifecycle.Apply(cfg, now, v, Lifecycle.Recover(rescuer, first));
            Lifecycle.CanTake(cfg, now, v, steps) &&
            Lifecycle.AfterSteps(cfg, now, v, steps) == Lifecycle.Apply(cfg, now, next,
                  Lifecycle.Recover(rescuer, second))
  {
    var last := [Lifecycle.Recover(rescuer, second)];
    var next := Lifecycle.Apply(cfg, now, v, Lifecycle.Recover(rescuer, first));
    Lifecycle.TakeOne(cfg, now, next, last[0], []);
    Lifecycle.TakeOne(cfg, now, v, Lifecycle.Recover(rescuer, first), last);
    assert [last[0]] + [] == last;
    assert [Lifecycle.Recover(rescuer, first)] + last == [Lifecycle.Recover(rescuer, first), last[0]];
  }

  lemma FinishedOrphanFollowsProtocol(cfg: Settings, now: int, v: Lifecycle.View, rescuer: WorkerId, lost: WorkerId,
                                      score: int)
    requires CanBeTaken(cfg, now, v) && !LiveStatus(v.rec.hash.value.status)
    ensures Follows(cfg, now, v, rescuer, lost, score)
  {
    var take := Lifecycle.Suspect(rescuer, Lifecycle.Take(lost));
    var taken := Lifecycle.Apply(cfg, now, v, take);
    TakeLast(cfg, now, taken, rescuer, Lifecycle.Detach, Lifecycle.Unlatch);
    Lifecycle.TakeOne(cfg, now, v, take, [Lifecycle.Recover(rescuer, Lifecycle.Detach),
                                          Lifecycle.Recover(rescuer, Lifecycle.Unlatch)]);
  }

  lemma QueuedOrphanFollowsProtocol(cfg: Settings, now: int, v: Lifecycle.View, rescuer: WorkerId, lost: WorkerId,
                                    score: int)
    requires CanBeTaken(cfg, now, v) && (v.rec.hash.value.status == Pending || v.rec.hash.value.status == Retrying)
    requires v.rec.hash.value.queue in v.rec.queued
    ensures Follows(cfg, now, v, rescuer, lost, score)
  {
    var take, check := Lifecycle.Suspect(rescuer, Lifecycle.Take(lost)), Lifecycle.Recover(rescuer, Lifecycle.Check);
    var taken := Lifecycle.Apply(cfg, now, v, take);
    var checked := Lifecycle.Apply(cfg, now, taken, check);
    var detach := [Lifecycle.Recover(rescuer, Lifecycle.Detach), Lifecycle.Recover(rescuer, Lifecycle.Unlatch)];
    TakeLast(cfg, now, checked, rescuer, Lifecycle.Detach, Lifecycle.Unlatch);
    Lifecycle.TakeOne(cfg, now, taken, check, detach);
    Lifecycle.TakeOne(cfg, now, v, take, [check] + detach);
    assert RecoverySteps(v.rec, rescuer, lost, score) == [take] + ([check] + detach);
  }

  lemma UnqueuedOrphanFollowsProtocol(cfg: Settings, now: int, v: Lifecycle.View, rescuer: WorkerId, lost: WorkerId,
                                      score: int)
    requires CanBeTaken(cfg, now, v) && Live(v.rec) && v.rec.hash.value.queue !in v.rec.queued
    ensures Follows(cfg, now, v, rescuer, lost, score)
  {
    var take, check := Lifecycle.Suspect(rescuer, Lifecycle.Take(lost)), Lifecycle.Recover(rescuer, Lifecycle.Check);
    var move := Lifecycle.Recover(rescuer, Lifecycle.Restore(score));
    var rest := [Lifecycle.Recover(rescuer, Lifecycle.Trail), Lifecycle.Recover(rescuer, Lifecycle.Done)];
    var taken := Lifecycle.Apply(cfg, now, v, take);
    var checked := Lifecycle.Apply(cfg, now, taken, check);
    TakeLast(cfg, now, Lifecycle.Apply(cfg, now, checked, move), rescuer, Lifecycle.Trail, Lifecycle.Done);
    Lifecycle.TakeOne(cfg, now, checked, move, rest);
    Lifecycle.TakeOne(cfg, now, taken, check, [move] + rest);
    Lifecycle.TakeOne(cfg, now, v, take, [check] + ([move] + rest));
    assert RecoverySteps(v.rec, rescuer, lost, score) == [take] + ([check] + ([move] + rest));
  }

  lemma StaleOrphanFollowsProtocol(cfg: Settings, now: int, v: Lifecycle.View, rescuer: WorkerId, lost: WorkerId,
                                   score: int)
    requires CanBeTaken(cfg, now, v) && v.rec.hash.value.status == Active && v.rec.hash.value.queue in v.rec.queued
    ensures Follows(cfg, now, v, rescuer, lost, score)
  {
    var take, check := Lifecycle.Suspect(rescuer, Lifecycle.Take(lost)), Lifecycle.Recover(rescuer, Lifecycle.Check);
    var move := Lifecycle.Recover(rescuer, Lifecycle.Demote);
    var rest := [Lifecycle.Recover(rescuer, Lifecycle.Detach), Lifecycle.Recover(rescuer, Lifecycle.Unlatch)];
    var taken := Lifecycle.Apply(cfg, now, v, take);
    var checked := Lifecycle.Apply(cfg, now, taken, check);
    TakeLast(cfg, now, Lifecycle.Apply(cfg, now, checked, move), rescuer, Lifecycle.Detach, Lifecycle.Unlatch);
    Lifecycle.TakeOne(cfg, now, checked, move, rest);
    Lifecycle.TakeOne(cfg, now, taken, check, [move] + rest);
    Lifecycle.TakeOne(cfg, now, v, take, [check] + ([move] + rest));
    assert RecoverySteps(v.rec, rescuer, lost, score) == [take] + ([check] + ([move] + rest));
  }

  predicate CanBeTaken(cfg: Settings, now: int, v: Lifecycle.View) {
    && v.rescue.None? && v.rec.hash.Some? && !Locked(v.rec, now)
    && !Poisonous(cfg, v.rec) && !NeverLockable(cfg, v.rec)
  }

  predicate Follows(cfg: Settings, now: int, v: Lifecycle.View, rescuer: WorkerId, lost: WorkerId, score: int)
    requires CanBeTaken(cfg, now, v)
  {
    var steps := RecoverySteps(v.rec, rescuer, lost, score);
    Lifecycle.CanTake(cfg, now, v, steps) && Lifecycle.AfterSteps(cfg, now, v, steps) ==
        v.(rec := Recovered(cfg, v.rec, lost, score, now))
  }

  /** Whatever state the protocol has brought a job to, once its lock is gone and no
      recovery of it is under way, recovery can take all of its steps, and they do
      to the record exactly what the pass does. */
  lemma PassFollowsProtocol(cfg: Settings, now: int, v: Lifecycle.View, rescuer: WorkerId, lost: WorkerId, score: int)
    requires CanBeTaken(cfg, now, v)
    ensures var steps := RecoverySteps(v.rec, rescuer, lost, score);
            Lifecycle.CanTake(cfg, now, v, steps) &&
            Lifecycle.AfterSteps(cfg, now, v, steps) == v.(rec := Recovered(cfg, v.rec, lost, score, now))
  {
    var job := v.rec.hash.value;
    if !LiveStatus(job.status) { FinishedOrphanFollowsProtocol(cfg, now, v, rescuer, lost, score); }
    else if job.queue !in v.rec.queued { UnqueuedOrphanFollowsProtocol(cfg, now, v, rescuer, lost, score); }
    else if job.status == Active { StaleOrphanFollowsProtocol(cfg, now, v, rescuer, lost, score); }
    else { QueuedOrphanFollowsProtocol(cfg, now, v, rescuer, lost, score); }
  }
}
