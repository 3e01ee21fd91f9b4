/**
 The lock an enqueue takes for a unique key: how long it lives, when a blocked
 caller's job is scheduled, and what a failed enqueue leaves behind.

 Instants are nanoseconds; the Redis clock counts milliseconds.
 */
module UniqueLock {
  import opened Wrappers
  import opened Integers
  import opened KeyLifetimes

  type JobId = string

  const SECOND := 1_000_000_000

  datatype Deferral = AtOnce | Until(instant: int) | For(nanos: int)

  datatype EnqueueError =
    | InvalidTimeout | LockTtlOverflow | InvalidLockTtl | TtlUnread | AcquireUnanswered | DuplicateJobId
    | EnqueueUnanswered

  function Max(a: int, b: int): int {
    if a < b then b else a
  }

  /** `num_seconds`: whole seconds, toward zero. */
  function WholeSeconds(nanos: int): int {
    if 0 <= nanos then nanos / SECOND else -(-nanos / SECOND)
  }

  function TtlFloor(timeout: int, extension: int): Result<int, EnqueueError> {
    if timeout <= 0 then Err(InvalidTimeout)
    else if !InI64(timeout + extension) || !InI64(timeout + extension + 1) then Err(LockTtlOverflow)
    else if timeout + extension + 1 <= 0 then Err(InvalidLockTtl)
    else Ok(timeout + extension + 1)
  }

  /** The lifetime, in seconds, of the lock. */
  function LockTtl(configured: int, floor: int, enqueued: int, deferral: Deferral): int {
    var ttl := Max(configured, floor);
    match deferral
    case AtOnce => ttl
    case Until(instant) =>
      var diff := WholeSeconds(instant - enqueued);
      if 0 < diff then Max(ttl, diff + 1) else ttl
    case For(nanos) => Max(ttl, Max(WholeSeconds(nanos), 0) + 1)
  }

  /** When the job is to run, before contention is looked at. */
  function DesiredTime(enqueued: int, deferral: Deferral): int {
    match deferral
    case AtOnce => enqueued
    case Until(instant) => instant
    case For(nanos) => enqueued + nanos
  }

  /** The deferral ends in the very millisecond the lock's last second does. */
  predicate EndsWithLock(ttl: int, enqueued: int, desired: int) {
    WholeMillis(desired - enqueued) == 1000 * ttl - 1 && desired % MILLI < enqueued % MILLI
  }

  /** The lock outlives the job's timeout and extension; and, whenever after the
      enqueue time it was taken, it is live at the scheduled millisecond, exactly
      unless that is the millisecond in which it ends. */
  lemma LockCoversJob(configured: int, timeout: int, extension: int, enqueued: int, deferral: Deferral)
    requires TtlFloor(timeout, extension).Ok?
    ensures var ttl, desired := LockTtl(configured, TtlFloor(timeout, extension).value, enqueued, deferral),
            DesiredTime(enqueued, deferral);
            && timeout + extension < ttl
            && ((forall at :: enqueued <= at ==> Millis(desired) < GoneAt(at, ttl)) <==>
                !EndsWithLock(ttl, enqueued, desired))
  {
    var ttl, desired := LockTtl(configured, TtlFloor(timeout, extension).value, enqueued, deferral),
        DesiredTime(enqueued, deferral);
    LastsTheDeferral(configured, TtlFloor(timeout, extension).value, enqueued, deferral);
    MillisOfDifference(enqueued, desired);
    forall at | enqueued <= at ensures GoneAt(enqueued, ttl) <= GoneAt(at, ttl) {
      assert enqueued / MILLI <= at / MILLI;
    }
    assert Millis(desired) < GoneAt(enqueued, ttl) <==> !EndsWithLock(ttl, enqueued, desired);
  }

  lemma LastsTheDeferral(configured: int, floor: int, enqueued: int, deferral: Deferral)
    requires 0 < floor
    ensures DesiredTime(enqueued, deferral) - enqueued < LockTtl(configured, floor, enqueued, deferral) * SECOND
  {}

  /** Nor does it live longer than that takes: the configured lifetime, the timeout with the
      extension and a second, or up to a second beyond the deferral. */
  lemma LockIsNoLonger(configured: int, floor: int, enqueued: int, deferral: Deferral)
    requires 0 < floor
    ensures var ttl := LockTtl(configured, floor, enqueued, deferral);
            && configured <= ttl && floor <= ttl
            && (ttl == configured || ttl == floor || (ttl - 1) * SECOND <= DesiredTime(enqueued, deferral) - enqueued)
  {}

  /** The lifetime is refused exactly for a timeout that is not positive, or when a sum
      leaves 64 bits or is not positive. */
  lemma TtlFloorIsChecked(timeout: int, extension: int)
    ensures var sum := timeout + extension + 1;
            && (TtlFloor(timeout, extension) == Ok(sum) <==>
                  0 < timeout && InI64(sum - 1) && 0 < sum <= I64_MAX)
            && (timeout <= 0 <==> TtlFloor(timeout, extension) == Err(InvalidTimeout))
            && (TtlFloor(timeout, extension).Ok? ==> TtlFloor(timeout, extension).value == sum)
  {}

  // ---------- the lock in Redis

  datatype Lock = Lock(job: JobId, expires: Option<int>)

  predicate LockLive(locks: map<string, Lock>, key: string, now: int) {
    key in locks && (locks[key].expires.Some? ==> now < locks[key].expires.value)
  }

  /** The same locks, to whoever looks at or after `now`. */
  ghost predicate SameLocks(a: map<string, Lock>, b: map<string, Lock>, now: int) {
    forall k :: LockLive(a, k, now) == LockLive(b, k, now) && (LockLive(a, k, now) ==> a[k] == b[k])
  }

  /** `TTL`, which rounds to the nearest second; no lock and no expiry both read as 0. */
  function TtlRead(locks: map<string, Lock>, key: string, now: int): (ttl: nat) {
    if LockLive(locks, key, now) && locks[key].expires.Some? then (locks[key].expires.value - now + 500) / 1000 else 0
  }

  /** What a blocked caller reads is right to half a second. */
  lemma TtlReadIsClose(locks: map<string, Lock>, key: string, now: int)
    requires LockLive(locks, key, now) && locks[key].expires.Some?
    ensures now + 1000 * TtlRead(locks, key, now) - 500 <= locks[key].expires.value < now + 1000 * TtlRead(locks, key,
          now) + 500
  {}

  /** The lifetime was read at some moment of the call. */
  ghost predicate WasRead(locks: map<string, Lock>, key: string, start: int, end: int, read: nat) {
    exists at :: start <= at <= end && read == TtlRead(locks, key, at)
  }

  /** The commands on the lock that were answered, with their answers. */
  datatype Command = ReadTtl(key: string, ttl: nat) | TakeLock(key: string, taken: bool)

  /** How the caller settles a key: it reads the lifetime of the lock, takes the lock if there
      is none, and when it is refused it reads again.  The last lifetime read counts. */
  predicate Settles(asked: seq<Command>, key: string, acquired: bool, read: nat) {
    if acquired then asked == [ReadTtl(key, 0), TakeLock(key, true)]
    else
      || (0 < read && asked == [ReadTtl(key, read)])
      || asked == [ReadTtl(key, 0), TakeLock(key, false), ReadTtl(key, read)]
  }

  /** How an enqueue came out: when the job runs, and what was read or taken. */
  datatype Scheduled = Scheduled(runAt: int, acquired: bool, read: nat)

  class RRQClient {
    const configured: int
    const extension: int
    const alone: bool
    const reliable: bool
    const undisputed: bool
    var locks: map<string, Lock>
    var jobs: set<JobId>
    var now: int
    ghost var asked: seq<Command>

    constructor (configured: int, extension: int, alone: bool, reliable: bool, undisputed: bool)
      ensures this.configured == configured && this.extension == extension && this.alone == alone &&
              this.reliable == reliable && this.undisputed == undisputed
    {
      this.configured, this.extension, this.alone, this.reliable := configured, extension, alone, reliable;
      this.undisputed := undisputed;
      locks, jobs, now, asked := map[], {}, 0, [];
    }

    /** Time passes between two commands, and others use the store, but when the
        client is `alone` not the locks, and when it is `undisputed` not the job ids. */
    method Meanwhile()
      modifies this
      ensures asked == old(asked)
      ensures old(now) <= now && (alone ==> locks == old(locks)) && (undisputed ==> jobs == old(jobs))
    {
      var later: nat :| true;
      now := now + later;
      if !undisputed { jobs := *; }
      if !alone { locks := *; }
    }

    method GetLockTtl(key: string) returns (ttl: Option<nat>)
      modifies this
      ensures old(now) <= now && (alone ==> locks == old(locks)) && (undisputed ==> jobs == old(jobs))
      ensures ttl.Some? ==>
                ttl.value == TtlRead(locks, key, now) && asked == old(asked) + [ReadTtl(key, ttl.value)]
      ensures reliable ==> ttl.Some?
    {
      Meanwhile();
      var answered: bool := *;
      ttl := if answered || reliable then Some(TtlRead(locks, key, now)) else None;
      if ttl.Some? { asked := asked + [ReadTtl(key, ttl.value)]; }
    }

    /** SET NX EX; when it is not answered it may have been executed. */
    method AcquireUniqueLock(key: string, job: JobId, ttl: int) returns (acquired: Option<bool>)
      modifies this
      ensures old(now) <= now && (undisputed ==> jobs == old(jobs))
      ensures alone && acquired.Some? ==> acquired.value == !LockLive(old(locks), key, now)
      ensures acquired.Some? ==> asked == old(asked) + [TakeLock(key, acquired.value)]
      ensures acquired == Some(true) ==>
                && LockLive(locks, key, now) == (0 < ttl) && key in locks
                && locks[key] == Lock(job, Some(now + 1000 * ttl))
      ensures reliable ==> acquired.Some?
      ensures alone ==>
                || locks == old(locks)
                || (acquired != Some(false) && locks == old(locks)[key := Lock(job, Some(now + 1000 * ttl))])
    {
      Meanwhile();
      var answered, executed: bool := *, *;
      answered := answered || reliable;
      if !answered && !executed { return None; }
      acquired := Some(!LockLive(locks, key, now));
      if acquired.value { locks := locks[key := Lock(job, Some(now + 1000 * ttl))]; }
      if !answered {
        acquired := None;
      } else {
        asked := asked + [TakeLock(key, acquired.value)];
      }
    }

    /** DEL, without a look at the owner; the caller ignores a failure. */
    method ReleaseUniqueLock(key: string)
      modifies this
      ensures old(now) <= now && (undisputed ==> jobs == old(jobs))
      ensures alone ==> locks == old(locks) - {key} || (!reliable && locks == old(locks))
    {
      Meanwhile();
      var executed: bool := *;
      if executed || reliable { locks := locks - {key}; }
    }

    method AtomicEnqueue(job: JobId) returns (created: Option<bool>)
      modifies this
      ensures old(now) <= now && (alone ==> locks == old(locks))
      ensures created == Some(true) ==> job in jobs
      ensures asked == old(asked)
      ensures undisputed && created.Some? ==> created.value == (job !in old(jobs)) && jobs == old(jobs) + {job}
      ensures undisputed ==> jobs == old(jobs) || jobs == old(jobs) + {job}
      ensures reliable ==> created.Some?
    {
      Meanwhile();
      var answered, executed: bool := *, *;
      answered := answered || reliable;
      if !answered && !executed { return None; }
      created := Some(job !in jobs);
      jobs := jobs + {job};
      if !answered { created := None; }
    }

    /** The part of `enqueue` between the lock's lifetime and the job's hash. */
    method Contend(key: string, job: JobId, ttl: int, enqueued: int, desired: int)
        returns (result: Result<Scheduled, EnqueueError>)
      requires 0 < ttl
      modifies this
      ensures old(now) <= now && (undisputed ==> jobs == old(jobs))
      ensures alone && reliable && !LockLive(old(locks), key, old(now)) ==> result.Ok? && result.value.acquired
      ensures result.Ok? ==>
                && old(asked) <= asked
                && Settles(asked[|old(asked)|..], key, result.value.acquired, result.value.read)
                && result.value.runAt ==
                     Max(desired, if 0 < result.value.read then enqueued + SECOND * result.value.read else desired)
                && (result.value.acquired ==> result.value.read == 0)
      ensures alone && result.Ok? && result.value.acquired ==>
                && !LockLive(old(locks), key, now) && locks == old(locks)[key := Lock(job, Some(now + 1000 * ttl))]
      ensures alone && result.Ok? && !result.value.acquired ==>
                locks == old(locks) && WasRead(locks, key, old(now), now, result.value.read)
      ensures result.Err? ==> result.error in {TtlUnread, AcquireUnanswered} && !reliable
      ensures alone && result == Err(TtlUnread) ==> locks == old(locks)
    {
      var runAt := desired;
      var remaining := GetLockTtl(key);
      if remaining.None? { return Err(TtlUnread); }
      if remaining.value > 0 {
        return Ok(Scheduled(Max(runAt, enqueued + SECOND * remaining.value), false, remaining.value));
      }
      var acquired := AcquireUniqueLock(key, job, ttl);
      if acquired.None? { return Err(AcquireUnanswered); }
      if acquired.value { return Ok(Scheduled(runAt, true, 0)); }
      var again := GetLockTtl(key);
      if again.None? { return Err(TtlUnread); }
      if again.value > 0 { runAt := Max(runAt, enqueued + SECOND * again.value); }
      return Ok(Scheduled(runAt, false, again.value));
    }

    /** `enqueue`.  A blocked caller's job is scheduled no earlier than the lifetime it
        read; a failed enqueue of a client that is alone with reliable commands leaves
        the locks as they were. */
    method Enqueue(job: JobId, key: Option<string>, timeout: int, deferral: Deferral, enqueued: int)
        returns (result: Result<Scheduled, EnqueueError>)
      modifies this
      ensures TtlFloor(timeout, extension).Err? ==>
                result == Err(TtlFloor(timeout, extension).error) && locks == old(locks) && jobs == old(jobs)
      ensures result.Ok? ==>
                && job in jobs
                && DesiredTime(enqueued, deferral) <= result.value.runAt
                && (0 < result.value.read ==> enqueued + SECOND * result.value.read <= result.value.runAt)
                && (result.value.acquired ==> key.Some? && result.value.runAt == DesiredTime(enqueued, deferral))
      ensures result.Ok? ==>
                var desired := DesiredTime(enqueued, deferral);
                && result.value.runAt ==
                     (if 0 < result.value.read then Max(desired, enqueued + SECOND * result.value.read) else desired)
                && (key.None? ==> !result.value.acquired && result.value.read == 0)
      ensures result.Ok? ==>
                && old(asked) <= asked
                && var commands := asked[|old(asked)|..];
                   if key.Some? then Settles(commands, key.value, result.value.acquired, result.value.read)
                   else commands == []
      ensures undisputed && result.Ok? ==> job !in old(jobs) && jobs == old(jobs) + {job}
      ensures undisputed && reliable && TtlFloor(timeout, extension).Ok? ==>
                if job in old(jobs) then result == Err(DuplicateJobId) && jobs == old(jobs) else result.Ok?
      ensures alone && reliable && result.Ok? && key.Some? && !LockLive(old(locks), key.value, old(now)) ==>
                result.value.acquired
      ensures alone && result.Ok? && result.value.acquired ==>
                && TtlFloor(timeout, extension).Ok? && key.value in locks && locks[key.value].job == job &&
                    locks[key.value].expires.Some?
                && var lifetime :=
                     1000 * LockTtl(configured, TtlFloor(timeout, extension).value, enqueued, deferral);
                   old(now) + lifetime <= locks[key.value].expires.value <= now + lifetime
      ensures alone && reliable && result.Err? ==> SameLocks(old(locks), locks, now)
      ensures alone && result.Err? && result.error != AcquireUnanswered ==>
                SameLocks(old(locks), locks, now) || (key.Some? && key.value in locks && locks[key.value].job == job)
      ensures alone && result.Ok? && !result.value.acquired ==> locks == old(locks)
      ensures alone && result.Ok? && key.Some? ==>
                if result.value.acquired then !LockLive(old(locks), key.value, now)
                else WasRead(old(locks), key.value, old(now), now, result.value.read)
    {
      var floor := TtlFloor(timeout, extension);
      if floor.Err? { return Err(floor.error); }
      var ttl := LockTtl(configured, floor.value, enqueued, deferral);
      var scheduled := Scheduled(DesiredTime(enqueued, deferral), false, 0);
      if key.Some? {
        var contended := Contend(key.value, job, ttl, enqueued, scheduled.runAt);
        if contended.Err? { return Err(contended.error); }
        scheduled := contended.value;
      }
      var created := AtomicEnqueue(job);
      if created != Some(true) {
        if scheduled.acquired { ReleaseUniqueLock(key.value); }
        return Err(if created.None? then EnqueueUnanswered else DuplicateJobId);
      }
      return Ok(scheduled);
    }
  }
}
