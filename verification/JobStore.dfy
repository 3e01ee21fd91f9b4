/**
 The job store the worker talks to: one `Record` per job id, a clock, and one
 method per Redis command or script that the poll loop, its release helpers and
 orphan recovery use.

 `calm` stores are touched by nobody else between two commands; `reliable` ones
 never fail a command.  A failed command may still have been executed.
 */
module JobStore {
  import opened Wrappers
  import opened JobRecord
  import opened Collections
  import opened Integers

  type JobId = nat

  type Records = map<JobId, Record>

  function At(records: Records, j: JobId): Record {
    if j in records then records[j] else UNTOUCHED
  }

  ghost predicate OnlyChanges(before: Records, after: Records, j: JobId) {
    forall k :: k != j ==> At(after, k) == At(before, k)
  }

  // ---------- sorted sets

  predicate Ready(r: Record, queue: QueueName, now: int) {
    queue in r.queued && r.queued[queue] <= now
  }

  function ReadyIds(records: Records, queue: QueueName, now: int): set<JobId> {
    set j | j in records && Ready(records[j], queue, now)
  }

  /** Redis order of two members: by score, then by name. */
  predicate Before(records: Records, queue: QueueName, j: JobId, k: JobId)
    requires queue in At(records, j).queued && queue in At(records, k).queued
  {
    var s, t := At(records, j).queued[queue], At(records, k).queued[queue];
    s < t || (s == t && j < k)
  }

  /** `ids` is the answer to ZRANGEBYSCORE queue -inf now LIMIT 0 limit. */
  ghost predicate IsWindow(records: Records, queue: QueueName, now: int, limit: nat, ids: seq<JobId>) {
    var ready := ReadyIds(records, queue, now);
    && Distinct(ids)
    && (forall i :: 0 <= i < |ids| ==> ids[i] in ready)
    && (forall i, k :: 0 <= i < k < |ids| ==> Before(records, queue, ids[i], ids[k]))
    && |ids| <= limit
    && (|ids| < limit ==> forall j :: j in ready ==> j in ids)
    && (forall j, i :: j in ready && j !in ids && 0 <= i < |ids| ==> Before(records, queue, ids[i], j))
  }

  /** The claimable members of a window, in order, and no more than `limit`. */
  function Chosen(records: Records, queue: QueueName, now: int, limit: nat, ids: seq<JobId>): seq<JobId> {
    if ids == [] || limit == 0 then []
    else if Claimable(At(records, ids[0]), queue, now) then
      [ids[0]] + Chosen(records, queue, now, limit - 1, ids[1..])
    else Chosen(records, queue, now, limit, ids[1..])
  }

  lemma {:induction false} ChosenIsClaimable(records: Records, queue: QueueName, now: int, limit: nat, ids: seq<JobId>)
    requires Distinct(ids)
    ensures var c := Chosen(records, queue, now, limit, ids);
            && Distinct(c) && |c| <= limit
            && (forall j :: j in c ==> j in ids && Claimable(At(records, j), queue, now))
            && (|c| < limit ==> forall j :: j in ids && Claimable(At(records, j), queue, now) ==> j in c)
  {
    if ids != [] && 0 < limit {
      assert forall j :: j in ids[1..] ==> j in ids && j != ids[0];
      assert forall j :: j in ids ==> j == ids[0] || j in ids[1..];
      ChosenIsClaimable(records, queue, now,
        if Claimable(At(records, ids[0]), queue, now) then limit - 1 else limit, ids[1..]);
    }
  }

  /** And it takes them in the order of the window: no claimable one is passed over. */
  lemma {:induction false} ChosenAreFirst(records: Records, queue: QueueName, now: int, limit: nat, ids: seq<JobId>,
                                          i: nat, k: nat)
    requires Distinct(ids) && i < k < |ids| && Claimable(At(records, ids[i]), queue, now)
    requires ids[k] in Chosen(records, queue, now, limit, ids)
    ensures ids[i] in Chosen(records, queue, now, limit, ids)
  {
    assert Distinct(ids[1..]);
    if i > 0 {
      assert ids[1..][i - 1] == ids[i] && ids[1..][k - 1] == ids[k];
      ChosenAreFirst(records, queue, now,
        if Claimable(At(records, ids[0]), queue, now) then limit - 1 else limit, ids[1..], i - 1, k - 1);
    }
  }

  /** So every claimed job was due no later than any that could have been claimed instead. */
  lemma EarliestAreClaimed(records: Records, queue: QueueName, now: int, limit: nat, window: seq<JobId>, a: JobId,
                           b: JobId)
    requires IsWindow(records, queue, now, 4 * limit, window)
    requires a in Chosen(records, queue, now, limit, window) && b !in Chosen(records, queue, now, limit, window)
    requires Claimable(At(records, b), queue, now)
    ensures queue in At(records, a).queued
    ensures var s, t := At(records, a).queued[queue], At(records, b).queued[queue];
            s <= t && (s == t ==> a < b)
  {
    ChosenIsClaimable(records, queue, now, limit, window);
    var i :| 0 <= i < |window| && window[i] == a;
    assert b in ReadyIds(records, queue, now) && a != b;
    if b in window {
      var k :| 0 <= k < |window| && window[k] == b;
      if k < i { ChosenAreFirst(records, queue, now, limit, window, k, i); }
    }
    assert Before(records, queue, a, b);
  }

  /** The lock of a claim lasts as long as the lock the worker refreshes it with, for every
      definition it would dispatch; for any other, as long as that of a job without a
      timeout of its own. */
  lemma ClaimLockLasts(job: Job, cfg: Settings)
    requires cfg.Usable()
    ensures Sound(cfg, job) && (job.timeoutSeconds.Some? ==> 0 < job.timeoutSeconds.value) ==>
              CheckedLockTtl(job, cfg) == Some(ClaimTtl(job, cfg)) && ClaimTtl(job, cfg) == LockTtl(job, cfg)
    ensures job.timeoutSeconds.None? || job.timeoutSeconds.value <= 0 || I64_MAX < LockTtl(job, cfg) ==>
              ClaimTtl(job, cfg) == LockTtl(job.(timeoutSeconds := None), cfg)
    ensures 0 < ClaimTtl(job, cfg) <= I64_MAX
  {}

  /** What a claim does to the records: the claimed jobs are claimed, and of the
      others only dangling queue entries go. */
  ghost predicate AreClaimed(cfg: Settings, now: int, before: Records, after: Records, queue: QueueName,
                             worker: WorkerId, claimed: seq<JobId>)
  {
    forall j ::
      var r := At(before, j);
      if j in claimed then
        Claimable(r, queue, now) && At(after, j) == Claim(r, queue, worker, cfg, now)
      else
        At(after, j) == r || (r.hash.None? && At(after, j) == RemoveFromQueue(r, queue))
  }

  /** A claimed job was due, unlocked and defined; it is the worker's now, under its lock, and
      keeps its counts, its other queues and its definition. */
  lemma ClaimedJobIs(cfg: Settings, now: int, before: Records, after: Records, queue: QueueName, worker: WorkerId,
                     claimed: seq<JobId>, j: JobId)
    requires cfg.Usable() && AreClaimed(cfg, now, before, after, queue, worker, claimed) && j in claimed
    ensures var r, r' := At(before, j), At(after, j);
            && queue in r.queued && r.queued[queue] <= now && !Locked(r, now) && r.hash.Some?
            && r'.hash == Some(r.hash.value.(status := Active, worker := Some(worker)))
            && r'.queued == r.queued - {queue} && r'.active == r.active + {worker}
            && LockedBy(r', Worker(worker), now) && r'.lock.value.expires == now + ClaimTtl(r.hash.value, cfg)
            && r'.dlq == r.dlq && r'.mortal == r.mortal
  {
    ClaimLockLasts(At(before, j).hash.value, cfg);
  }

  lemma ClaimedOneMore(cfg: Settings, now: int, before: Records, soFar: Records, after: Records, queue: QueueName,
                       worker: WorkerId, claimed: seq<JobId>, j: JobId, got: bool)
    requires AreClaimed(cfg, now, before, soFar, queue, worker, claimed)
    requires j !in claimed && At(soFar, j) == At(before, j)
    requires got ==> Claimable(At(before, j), queue, now) &&
                     after == soFar[j := Claim(At(before, j), queue, worker, cfg, now)]
    requires !got ==> after == soFar || (At(before, j).hash.None? &&
                                         after == soFar[j := RemoveFromQueue(At(before, j), queue)])
    ensures AreClaimed(cfg, now, before, after, queue, worker, if got then claimed + [j] else claimed)
  {}

  /** The claim after `i` candidates: what is claimed is claimed, the rest is as it was. */
  ghost predicate Midway(cfg: Settings, now: int, before: Records, soFar: Records, queue: QueueName, worker: WorkerId,
                         max: nat, candidates: seq<JobId>, claimed: seq<JobId>, i: nat)
    requires i <= |candidates|
  {
    && |claimed| <= max
    && Chosen(before, queue, now, max, candidates)
       == claimed + Chosen(before, queue, now, max - |claimed|, candidates[i..])
    && AreClaimed(cfg, now, before, soFar, queue, worker, claimed)
    && forall k :: i <= k < |candidates| ==>
         candidates[k] !in claimed && At(soFar, candidates[k]) == At(before, candidates[k])
  }

  lemma MidwayNext(cfg: Settings, now: int, before: Records, soFar: Records, after: Records, queue: QueueName,
                   worker: WorkerId, max: nat, candidates: seq<JobId>, claimed: seq<JobId>, i: nat, got: bool)
    requires i < |candidates| && |claimed| < max && Distinct(candidates)
    requires Midway(cfg, now, before, soFar, queue, worker, max, candidates, claimed, i)
    requires got == Claimable(At(before, candidates[i]), queue, now)
    requires got ==> after == soFar[candidates[i] := Claim(At(before, candidates[i]), queue, worker, cfg, now)]
    requires !got ==>
               || after == soFar
               || (At(before, candidates[i]).hash.None? &&
                   after == soFar[candidates[i] := RemoveFromQueue(At(before, candidates[i]), queue)])
    ensures Midway(cfg, now, before, after, queue, worker, max, candidates,
                   if got then claimed + [candidates[i]] else claimed, i + 1)
  {
    var j := candidates[i];
    ClaimedOneMore(cfg, now, before, soFar, after, queue, worker, claimed, j, got);
    assert candidates[i..][0] == j && candidates[i..][1..] == candidates[i + 1..];
    forall k | i + 1 <= k < |candidates| ensures candidates[k] != j {}
  }

  /** The states requeue_job.lua can stop in: none, some or all of its writes made. */
  function Progress(r: Record, queue: QueueName, score: int, owner: Owner, worker: WorkerId, now: int): set<Record> {
    if r.hash.None? then {r}
    else
      var demoted := r.(hash := Some(Demoted(r.hash.value)));
      var queued := if queue in r.queued then demoted else AddToQueue(demoted, queue, score);
      {r, demoted, queued, RemoveActive(queued, worker), ReleaseIfOwner(RemoveActive(queued, worker), owner, now)}
  }

  lemma WritesAreProgress(r: Record, queue: QueueName, score: int, owner: Owner, worker: WorkerId, now: int)
    requires r.hash.Some?
    ensures var demoted := r.(hash := Some(Demoted(r.hash.value)));
            var queued := if queue in r.queued then demoted else AddToQueue(demoted, queue, score);
            var done := Requeue(r, queue, score, owner, worker, now);
            && {r, demoted, queued, RemoveActive(queued, worker), done} == Progress(r, queue, score, owner, worker, now)
            && done == ReleaseIfOwner(RemoveActive(queued, worker), owner, now)
  {}

  class JobStore {
    const cfg: Settings
    const calm: bool
    const reliable: bool
    var records: Records
    var now: int

    constructor (cfg: Settings, calm: bool, reliable: bool)
      ensures this.cfg == cfg && this.calm == calm && this.reliable == reliable
      ensures records == map[]
    {
      this.cfg, this.calm, this.reliable := cfg, calm, reliable;
      records, now := map[], 0;
    }

    /** Whatever other processes and the clock do between two commands. */
    method Meanwhile()
      modifies this
      ensures calm ==> records == old(records) && now == old(now)
    {
      if !calm {
        records := *;
        now := *;
      }
    }

    /** A command on one job: it may fail, and fail after taking effect. */
    method Command(j: JobId, after: Record) returns (ok: bool)
      modifies this`records
      ensures reliable ==> ok
      ensures records == old(records)[j := after] || (!ok && records == old(records))
    {
      ok := true;
      if !reliable { ok := *; }
      var done := true;
      if !ok { done := *; }
      if done { records := records[j := after]; }
    }

    /** A read: it may fail. */
    method Answered() returns (ok: bool)
      ensures reliable ==> ok
    {
      ok := true;
      if !reliable { ok := *; }
    }

    /** requeue_job.lua, write by write.  It answers None when the command failed, and
        -1 when one of its writes did, after the writes before it have been made. */
    method AtomicRequeue(j: JobId, queue: QueueName, score: int, owner: Owner, worker: WorkerId)
        returns (code: Option<int>)
      modifies this`records
      ensures OnlyChanges(old(records), records, j)
      ensures old(records).Keys <= records.Keys
      ensures reliable ==> code == Some(RequeueCode(old(At(records, j)), queue))
      ensures code.Some? && code.value != -1 ==>
                && code.value == RequeueCode(old(At(records, j)), queue)
                && At(records, j) == Requeue(old(At(records, j)), queue, score, owner, worker, now)
      ensures At(records, j) in Progress(old(At(records, j)), queue, score, owner, worker, now)
    {
      var sent := Answered();
      if !sent { return None; }
      var r := At(records, j);
      if r.hash.None? {
        code := Some(0);
      } else {
        var ok := Answered();
        if !ok { return Some(-1); }
        WritesAreProgress(r, queue, score, owner, worker, now);
        records := records[j := r.(hash := Some(Demoted(r.hash.value)))];
        var listed := queue in r.queued;
        if !listed {
          ok := Answered();
          if !ok { return Some(-1); }
          records := records[j := AddToQueue(At(records, j), queue, score)];
        }
        ok := Answered();
        if !ok { return Some(-1); }
        records := records[j := RemoveActive(At(records, j), worker)];
        ok := Answered();
        if !ok { return Some(-1); }
        records := records[j := ReleaseIfOwner(At(records, j), owner, now)];
        code := Some(if listed then 2 else 1);
      }
      var answered := Answered();
      if !answered { code := None; }
    }

    method ZRangeByScore(queue: QueueName, limit: nat) returns (ids: seq<JobId>)
      ensures IsWindow(records, queue, now, limit, ids)
    {
      var left := ReadyIds(records, queue, now);
      ids := [];
      while left != {} && |ids| < limit
        invariant left <= ReadyIds(records, queue, now) && |ids| <= limit
        invariant forall j :: j in ReadyIds(records, queue, now) <==> j in left || j in ids
        invariant forall i :: 0 <= i < |ids| ==> ids[i] !in left
        invariant Distinct(ids)
        invariant forall i, k :: 0 <= i < k < |ids| ==> Before(records, queue, ids[i], ids[k])
        invariant forall i, j :: 0 <= i < |ids| && j in left ==> Before(records, queue, ids[i], j)
        decreases left
      {
        var first := First(queue, left);
        ids := ids + [first];
        left := left - {first};
      }
    }

    method First(queue: QueueName, ids: set<JobId>) returns (first: JobId)
      requires ids != {} && ids <= ReadyIds(records, queue, now)
      ensures first in ids && forall j :: j in ids && j != first ==> Before(records, queue, first, j)
    {
      first :| first in ids;
      var rest := ids - {first};
      while rest != {}
        invariant rest <= ids && first in ids && first !in rest
        invariant forall j :: j in ids && j !in rest && j != first ==> Before(records, queue, first, j)
        decreases rest
      {
        var j :| j in rest;
        rest := rest - {j};
        if Before(records, queue, j, first) { first := j; }
      }
    }

    /** One candidate of claim_ready.lua. */
    method ClaimOne(queue: QueueName, worker: WorkerId, j: JobId) returns (got: bool)
      requires cfg.Usable() && Ready(At(records, j), queue, now)
      modifies this`records
      ensures got == Claimable(old(At(records, j)), queue, now)
      ensures got ==> records == old(records)[j := Claim(old(At(records, j)), queue, worker, cfg, now)]
      ensures !got ==>
                || records == old(records)
                || (old(At(records, j)).hash.None? &&
                    records == old(records)[j := RemoveFromQueue(old(At(records, j)), queue)])
    {
      var r := At(records, j);
      got := false;
      if r.hash.None? {
        records := records[j := RemoveFromQueue(r, queue)];
      } else if !Locked(r, now) {
        var locked := TryLock(r, Worker(worker), now, ClaimTtl(r.hash.value, cfg));
        var taken := RemoveFromQueue(locked, queue);
        var job := r.hash.value.(status := Active, worker := Some(worker));
        records := records[j := taken.(hash := Some(job), active := taken.active + {worker})];
        got := true;
      }
    }

    /** The loop of claim_ready.lua over its candidates. */
    method ClaimAmong(queue: QueueName, worker: WorkerId, maxClaims: nat, candidates: seq<JobId>)
        returns (claimed: seq<JobId>)
      requires cfg.Usable() && Distinct(candidates)
      requires forall k :: 0 <= k < |candidates| ==> Ready(At(records, candidates[k]), queue, now)
      modifies this`records
      ensures claimed == Chosen(old(records), queue, now, maxClaims, candidates)
      ensures AreClaimed(cfg, now, old(records), records, queue, worker, claimed)
    {
      claimed := [];
      ghost var before := records;
      var i := 0;
      assert candidates[i..] == candidates;
      while i < |candidates| && |claimed| < maxClaims
        invariant 0 <= i <= |candidates|
        invariant Midway(cfg, now, before, records, queue, worker, maxClaims, candidates, claimed, i)
      {
        var j := candidates[i];
        ghost var soFar := records;
        assert At(soFar, j) == At(before, j);
        var got := ClaimOne(queue, worker, j);
        MidwayNext(cfg, now, before, soFar, records, queue, worker, maxClaims, candidates, claimed, i, got);
        if got { claimed := claimed + [j]; }
        i := i + 1;
      }
    }

    /** claim_ready.lua: scans at most four times as many entries as it may claim,
        skips locked jobs, and sweeps entries whose job is gone. */
    method ClaimReady(queue: QueueName, worker: WorkerId, maxClaims: nat) returns (claimed: seq<JobId>,
                      ghost window: seq<JobId>)
      requires cfg.Usable()
      modifies this`records
      ensures IsWindow(old(records), queue, now, 4 * maxClaims, window)
      ensures claimed == Chosen(old(records), queue, now, maxClaims, window)
      ensures AreClaimed(cfg, now, old(records), records, queue, worker, claimed)
    {
      var candidates := ZRangeByScore(queue, 4 * maxClaims);
      window := candidates;
      forall k | 0 <= k < |candidates| ensures Ready(At(records, candidates[k]), queue, now) {
        assert candidates[k] in ReadyIds(records, queue, now);
      }
      claimed := ClaimAmong(queue, worker, maxClaims, candidates);
    }
  }
}
