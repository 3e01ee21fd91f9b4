/**
 The part of Redis that concerns one job id: its hash, the queues that list it,
 its lock, the workers whose active set lists it, and how often it stands in the
 dead letter list.  One function per Redis script or command of `JobStore`.

 Times are milliseconds.  A lock with `expires <= now` is gone: Redis drops it.
 */
module JobRecord {
  import opened Wrappers
  import opened Integers

  type WorkerId = nat
  type QueueName = string

  datatype Status = Pending | Active | Completed | Failed | Retrying | Cancelled

  /** A lock is held by a worker, or by the synthetic owner that a recovery of
      worker `lost` uses. */
  datatype Owner = Worker(id: WorkerId) | Recovery(lost: WorkerId)

  datatype Lock = Lock(owner: Owner, expires: int)

  /** `wellFormed` is false for a hash that `parse_job_map` rejects. */
  datatype Job = Job(
    status: Status,
    retries: int,
    maxRetries: int,
    worker: Option<WorkerId>,
    queue: QueueName,
    timeoutSeconds: Option<int>,
    wellFormed: bool)

  /** `mortal` says that the key of the hash has a lifetime.  Writing fields leaves it
      as it is. */
  datatype Record = Record(
    hash: Option<Job>,
    queued: map<QueueName, int>,
    lock: Option<Lock>,
    active: set<WorkerId>,
    dlq: nat,
    mortal: bool)

  const UNTOUCHED := Record(None, map[], None, {}, 0, false)

  /** The settings the protocol depends on, and the two time budgets its mutual
      exclusion rests on. */
  datatype Settings = Settings(
    defaultTimeoutSeconds: int,
    extensionSeconds: int,
    dispatchBudget: int,
    handlingBudget: int)
  {
    /** What a worker demands of its settings before it starts. */
    predicate Usable() {
      && 0 < defaultTimeoutSeconds && 0 <= extensionSeconds
      && InI64((defaultTimeoutSeconds + extensionSeconds) * 1000)
    }

    /** The timing assumption: dispatch and outcome handling together take less than
        the extension of the lock. */
    predicate Valid() {
      && Usable()
      && 0 <= dispatchBudget && 0 <= handlingBudget
      && dispatchBudget + handlingBudget < extensionSeconds * 1000
    }
  }

  /** What a missing hash becomes when a command writes a field of it. */
  const STUB := Job(Pending, 0, 0, None, "", None, false)

  predicate LiveStatus(s: Status) {
    s == Pending || s == Active || s == Retrying
  }

  predicate Owns(job: Job, w: WorkerId) {
    job.worker == Some(w) && LiveStatus(job.status)
  }

  /** The job still has to run. */
  predicate Live(r: Record) {
    r.hash.Some? && LiveStatus(r.hash.value.status)
  }

  predicate Locked(r: Record, now: int) {
    r.lock.Some? && now < r.lock.value.expires
  }

  predicate LockedBy(r: Record, owner: Owner, now: int) {
    Locked(r, now) && r.lock.value.owner == owner
  }

  predicate LockedByOther(r: Record, owner: Owner, now: int) {
    Locked(r, now) && r.lock.value.owner != owner
  }

  function TimeoutMs(job: Job, cfg: Settings): int {
    1000 * match job.timeoutSeconds case Some(t) => t case None => cfg.defaultTimeoutSeconds
  }

  /** Lock lifetime of a job: its timeout plus the extension. */
  function LockTtl(job: Job, cfg: Settings): int {
    TimeoutMs(job, cfg) + 1000 * cfg.extensionSeconds
  }

  /** The lifetime claim_ready.lua uses: the job's own when it has a positive
      timeout and the sum fits Redis, else the worker's provisional default. */
  function ClaimTtl(job: Job, cfg: Settings): int {
    var fallback := 1000 * (cfg.defaultTimeoutSeconds + cfg.extensionSeconds);
    match job.timeoutSeconds
    case Some(t) =>
      var own := 1000 * (t + cfg.extensionSeconds);
      if 0 < t && 0 < own <= I64_MAX then own else fallback
    case None => fallback
  }

  /** The lock lifetime of a job, or None when 64-bit arithmetic overflows. */
  function CheckedLockTtl(job: Job, cfg: Settings): Option<int> {
    var timeout := match job.timeoutSeconds case Some(t) => t case None => cfg.defaultTimeoutSeconds;
    var sum := timeout + cfg.extensionSeconds;
    if InI64(sum) && InI64(sum * 1000) then Some(sum * 1000) else None
  }

  /** A definition the poll loop dispatches without ado. */
  predicate Sound(cfg: Settings, job: Job) {
    job.wellFormed && CheckedLockTtl(job, cfg).Some? && 0 < CheckedLockTtl(job, cfg).value
  }

  function HashOrStub(r: Record): Job {
    if r.hash.Some? then r.hash.value else STUB
  }

  // ---------- enqueue.lua

  function Enqueue(r: Record, job: Job, queue: QueueName, score: int): Record {
    if r.hash.Some? then r
    else r.(hash := Some(job), queued := r.queued[queue := score])
  }

  /** The first enqueue of an id decides: the job is queued as asked, and no later call
      with that id changes anything. */
  lemma FirstEnqueueWins(r: Record, job: Job, queue: QueueName, score: int, another: Job, elsewhere: QueueName,
                         later: int)
    ensures var r' := Enqueue(r, job, queue, score);
            && Enqueue(r', another, elsewhere, later) == r'
            && (r.hash.Some? ==> r' == r)
            && (r.hash.None? ==>
                  && r'.hash == Some(job) && r'.queued == r.queued[queue := score]
                  && r'.lock == r.lock && r'.active == r.active && r'.dlq == r.dlq && r'.mortal == r.mortal)
  {}

  // ---------- claim_ready.lua, for one candidate

  predicate Claimable(r: Record, queue: QueueName, now: int) {
    queue in r.queued && r.queued[queue] <= now && r.hash.Some? && !Locked(r, now)
  }

  function Claim(r: Record, queue: QueueName, worker: WorkerId, cfg: Settings, now: int): Record
    requires Claimable(r, queue, now)
  {
    var job := r.hash.value;
    r.(hash := Some(job.(status := Active, worker := Some(worker))),
       queued := r.queued - {queue},
       lock := Some(Lock(Worker(worker), now + ClaimTtl(job, cfg))),
       active := r.active + {worker})
  }

  // ---------- refresh_lock.lua, release_lock_if_owner.lua, SET NX PX

  function Refresh(r: Record, owner: Owner, now: int, ttl: int): Record {
    if LockedBy(r, owner, now) then r.(lock := Some(Lock(owner, now + ttl))) else r
  }

  function ReleaseIfOwner(r: Record, owner: Owner, now: int): Record {
    if LockedBy(r, owner, now) then r.(lock := None) else r
  }

  /** The job off the worker's list, and its lock released if it is the worker's. */
  function Dropped(r: Record, w: WorkerId, now: int): Record {
    ReleaseIfOwner(RemoveActive(r, w), Worker(w), now)
  }

  function TryLock(r: Record, owner: Owner, now: int, ttl: int): Record {
    if Locked(r, now) then r else r.(lock := Some(Lock(owner, now + ttl)))
  }

  // ---------- single commands

  function RemoveActive(r: Record, worker: WorkerId): Record {
    r.(active := r.active - {worker})
  }

  function AddToQueue(r: Record, queue: QueueName, score: int): Record {
    r.(queued := r.queued[queue := score])
  }

  function RemoveFromQueue(r: Record, queue: QueueName): Record {
    r.(queued := r.queued - {queue})
  }

  function MarkPending(r: Record): Record {
    r.(hash := Some(HashOrStub(r).(status := Pending, worker := None)))
  }

  /** A positive result lifetime is set on the hash, zero clears any lifetime it has. */
  function SaveResult(r: Record, ttl: int): Record {
    r.(hash := Some(HashOrStub(r).(status := Completed)), mortal := if ttl == 0 then false else 0 < ttl || r.mortal)
  }

  /** `move_job_to_dlq`, the pipeline that quarantine uses: no retry is counted. */
  function Condemn(r: Record): Record {
    r.(hash := Some(HashOrStub(r).(status := Failed)), dlq := r.dlq + 1, mortal := true)
  }

  // ---------- retry.lua, move_to_dlq.lua

  function Retry(r: Record, queue: QueueName, score: int): Record {
    var job := HashOrStub(r);
    r.(hash := Some(job.(status := Retrying, retries := job.retries + 1)),
       queued := r.queued[queue := score])
  }

  function MoveToDlq(r: Record): Record {
    var job := HashOrStub(r);
    r.(hash := Some(job.(status := Failed, retries := job.retries + 1)), dlq := r.dlq + 1, mortal := true)
  }

  // ---------- the commands of `rrq dlq requeue`

  function LiftFromDlq(r: Record): Record
    requires 0 < r.dlq
  {
    r.(dlq := r.dlq - 1)
  }

  /** The status and the queue are written; the lifetime from the failure stays. */
  function ResetStatus(r: Record, target: QueueName): Record {
    r.(hash := Some(HashOrStub(r).(status := Pending, queue := target)))
  }

  // ---------- requeue_job.lua

  /** The demotion of the hash that precedes both exits of the script. */
  function Demoted(job: Job): Job {
    if job.status == Active then job.(status := Pending, worker := None) else job
  }

  function RequeueCode(r: Record, queue: QueueName): int {
    if r.hash.None? then 0 else if queue in r.queued then 2 else 1
  }

  function Requeue(r: Record, queue: QueueName, score: int, owner: Owner, worker: WorkerId, now: int): Record {
    if r.hash.None? then r
    else
      var tracked := ReleaseIfOwner(
        r.(hash := Some(Demoted(r.hash.value)), active := r.active - {worker}), owner, now);
      if queue in r.queued then tracked else AddToQueue(tracked, queue, score)
  }
}
