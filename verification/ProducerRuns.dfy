/**
 Whole runs of producers and workers: any producers calling any of the three
 scripts, time passing, and workers rewriting jobs and queues as they please.
 */
module ProducerRuns {
  import opened Wrappers
  import opened ProducerScripts

  datatype Event =
    | EnqueueCall(key: Option<string>, call: Call)
    | RateLimitCall(name: string, call: Call)
    | DebounceCall(name: string, call: Call)
    | Wait(to: int)
    | Work(jobs: map<JobId, Job>, queues: map<QueueName, map<JobId, int>>)

  predicate Possible(db: Db, e: Event) {
    match e
    case RateLimitCall(_, call) => 0 < call.ttl
    case DebounceCall(_, call) => 0 < call.ttl
    case Wait(to) => db.now <= to
    case _ => true
  }

  function IdempotencyKey(name: Option<string>): Option<Key> {
    if name.Some? then Some(Idempotency(name.value)) else None
  }

  function Answer(db: Db, e: Event): (Db, Reply) {
    match e
    case EnqueueCall(name, call) => EnqueueStep(db, IdempotencyKey(name), call)
    case RateLimitCall(name, call) => RateLimitStep(db, RateLimit(name), call)
    case DebounceCall(name, call) => DebounceStep(db, Debounce(name), call)
    case Wait(to) => (db.(now := to), Reply(0, ""))
    case Work(jobs, queues) => (db.(jobs := jobs, queues := queues), Reply(0, ""))
  }

  function Next(db: Db, e: Event): Db {
    Answer(db, e).0
  }

  predicate IsRun(db: Db, run: seq<Event>)
    decreases |run|
  {
    run == [] || (Possible(db, run[0]) && IsRun(Next(db, run[0]), run[1..]))
  }

  function After(db: Db, run: seq<Event>): Db
    decreases |run|
  {
    if run == [] then db else After(Next(db, run[0]), run[1..])
  }

  // ---------- what one call writes

  /** The job as the call describes it, new and with no retry spent. */
  predicate Describes(call: Call, job: Job) {
    && job.id == call.id && job.function_ == call.function_ && job.params == call.params
    && job.enqueueTime == call.enqueueTime && job.nextRun == call.nextRun
    && job.maxRetries == call.maxRetries && job.timeoutSeconds == call.timeoutSeconds
    && job.resultTtlSeconds == call.resultTtlSeconds && job.queue == call.queue
    && job.trace == call.trace && job.correlation == call.correlation
    && job.status == "PENDING" && job.retries == 0
  }

  predicate HasEntry(db: Db, queue: QueueName, id: JobId, score: int) {
    queue in db.queues && id in db.queues[queue] && db.queues[queue][id] == score
  }

  /** The entry of job `id` in `queue` is the same in both. */
  ghost predicate SameEntry(a: Db, b: Db, queue: QueueName, id: JobId) {
    forall score :: HasEntry(a, queue, id, score) <==> HasEntry(b, queue, id, score)
  }

  predicate SameKey(a: Db, b: Db, key: Key) {
    KeyLive(a, key) == KeyLive(b, key) && (KeyLive(a, key) ==> a.keys[key] == b.keys[key])
  }

  /** The call's job is there, due at the call's score in the call's queue, and nothing
      else has changed among jobs and queues. */
  ghost predicate Writes(before: Db, after: Db, call: Call) {
    && call.id !in before.jobs && call.id in after.jobs && Describes(call, after.jobs[call.id])
    && HasEntry(after, call.queue, call.id, call.score)
    && (forall id :: id != call.id ==> (id in after.jobs <==> id in before.jobs))
    && (forall id :: id in before.jobs ==> after.jobs[id] == before.jobs[id])
    && (forall q, id :: q != call.queue || id != call.id ==> SameEntry(after, before, q, id))
  }

  /** The key names the job, for the call's lifetime from now on if that is positive and
      for good if not; no other key is touched. */
  ghost predicate Claims(before: Db, after: Db, key: Key, id: JobId, ttl: int) {
    && KeyLive(after, key) && after.keys[key].job == id
    && after.keys[key].expires == (if 0 < ttl then Some(before.now + 1000 * ttl) else None)
    && forall k :: k != key ==> SameKey(after, before, k)
  }

  lemma CreatedWrites(before: Db, db: Db, call: Call)
    requires call.id !in before.jobs && db.jobs == before.jobs && db.queues == before.queues
    ensures Writes(before, Created(db, call), call)
  {
    EntryWritten(before, Created(db, call), call.queue, call.id, call.score);
  }

  lemma EntryWritten(before: Db, after: Db, queue: QueueName, id: JobId, score: int)
    requires after.queues == before.queues[queue := Entries(before.queues, queue)[id := score]]
    ensures HasEntry(after, queue, id, score)
    ensures forall q, i :: q != queue || i != id ==> SameEntry(after, before, q, i)
  {}

  lemma HeldClaims(before: Db, db: Db, key: Key, call: Call)
    requires db.now == before.now && forall k :: k != key ==> SameKey(db, before, k)
    ensures Claims(before, Held(db, key, call), key, call.id, call.ttl)
    ensures Held(db, key, call).jobs == db.jobs && Held(db, key, call).queues == db.queues
  {
    forall k | k != key ensures SameKey(Held(db, key, call), before, k) { assert SameKey(db, before, k); }
  }

  lemma CreatedClaims(before: Db, db: Db, key: Key, call: Call, id: JobId, ttl: int)
    requires Claims(before, db, key, id, ttl)
    ensures Claims(before, Created(db, call), key, id, ttl)
  {
    forall k | k != key ensures SameKey(Created(db, call), before, k) { assert SameKey(db, before, k); }
  }

  /** The key is free, and all else is as before. */
  ghost predicate Frees(before: Db, after: Db, key: Key) {
    && after.jobs == before.jobs && after.queues == before.queues
    && !KeyLive(after, key) && forall k :: k != key ==> SameKey(after, before, k)
  }

  lemma FreeFrees(db: Db, key: Key)
    ensures Frees(db, Free(db, key), key)
  {}

  lemma NewCallWrites(before: Db, db: Db, key: Key, call: Call)
    requires call.id !in before.jobs && db.jobs == before.jobs && db.queues == before.queues && db.now == before.now
    requires forall k :: k != key ==> SameKey(db, before, k)
    ensures var after := Created(Held(db, key, call), call);
            Writes(before, after, call) && Claims(before, after, key, call.id, call.ttl)
  {
    HeldClaims(before, db, key, call);
    CreatedWrites(before, Held(db, key, call), call);
    CreatedClaims(before, Held(db, key, call), key, call, call.id, call.ttl);
  }

  /** An idempotent enqueue is answered with the key's job while that exists, refused when
      the id is taken, and written otherwise. */
  lemma EnqueueWrites(db: Db, key: Option<Key>, call: Call)
    ensures var (after, reply) := EnqueueStep(db, key, call);
            var known := key.Some? && KeyLive(db, key.value) && db.keys[key.value].job in db.jobs;
            && after.now == db.now
            && (known ==> reply == Reply(0, db.keys[key.value].job) && after == db)
            && (!known && call.id in db.jobs ==>
                  && reply == Reply(-1, call.id)
                  && if key.Some? then Frees(db, after, key.value) else after == db)
            && (!known && call.id !in db.jobs ==>
                  && reply == Reply(1, call.id) && Writes(db, after, call)
                  && (key.Some? ==> Claims(db, after, key.value, call.id, call.ttl))
                  && (key.None? ==> after.keys == db.keys))
  {
    if key.Some? {
      FreeFrees(db, key.value);
      if call.id !in db.jobs { NewCallWrites(db, Free(db, key.value), key.value, call); }
    } else if call.id !in db.jobs {
      CreatedWrites(db, db, call);
    }
  }

  /** A rate-limited enqueue is refused while the key lives or when the id is taken, and
      written otherwise. */
  lemma RateLimitWrites(db: Db, key: Key, call: Call)
    ensures var (after, reply) := RateLimitStep(db, key, call);
            var open := 0 < call.ttl && !KeyLive(db, key);
            && after.now == db.now
            && (call.ttl <= 0 ==> reply.status == -2 && after == db)
            && (0 < call.ttl && KeyLive(db, key) ==> reply.status == 2 && after == db)
            && (open && call.id in db.jobs ==>
                  reply == Reply(-1, call.id) && Frees(db, after, key))
            && (open && call.id !in db.jobs ==>
                  reply == Reply(1, call.id) && Writes(db, after, call) && Claims(db, after, key, call.id, call.ttl))
  {
    FreeFrees(db, key);
    if call.id !in db.jobs { NewCallWrites(db, db, key, call); }
  }

  /** A debounced enqueue moves the key's job while that is still pending, is refused when
      the id is taken, and is written otherwise. */
  lemma DebounceWrites(db: Db, key: Key, call: Call)
    ensures var (after, reply) := DebounceStep(db, key, call);
            var named := if KeyLive(db, key) then Some(db.keys[key].job) else None;
            var pending := named.Some? && named.value in db.jobs && db.jobs[named.value].status == "PENDING";
            && after.now == db.now
            && (pending ==>
                  && reply == Reply(0, named.value)
                  && (0 < call.ttl ==> Claims(db, after, key, named.value, call.ttl))
                  && (call.ttl <= 0 ==> forall k :: SameKey(after, db, k))
                  && after.jobs.Keys == db.jobs.Keys && HasEntry(after, call.queue, named.value, call.score)
                  && (forall id :: id in db.jobs && id != named.value ==> after.jobs[id] == db.jobs[id])
                  && (forall q, id :: q != call.queue || id != named.value ==> SameEntry(after, db, q, id)))
            && (!pending && call.id in db.jobs ==>
                  reply == Reply(-1, call.id) && Frees(db, after, key))
            && (!pending && call.id !in db.jobs ==>
                  reply == Reply(1, call.id) && Writes(db, after, call) && Claims(db, after, key, call.id, call.ttl))
  {
    FreeFrees(db, key);
    if Reusable(db, key) {
      EntryWritten(db, DebounceStep(db, key, call).0, call.queue, db.keys[key].job, call.score);
    } else if call.id !in db.jobs {
      NewCallWrites(db, Free(db, key), key, call);
    }
  }

  // ---------- rate limit

  /** From now until `until` the key cannot be taken. */
  predicate Guarded(db: Db, key: Key, until: int) {
    until <= db.now || (key in db.keys && (db.keys[key].expires.Some? ==> until <= db.keys[key].expires.value))
  }

  lemma {:induction false} GuardLasts(db: Db, run: seq<Event>, name: string, until: int)
    requires IsRun(db, run) && Guarded(db, RateLimit(name), until)
    ensures Guarded(After(db, run), RateLimit(name), until)
    decreases |run|
  {
    if run != [] {
      GuardLasts(Next(db, run[0]), run[1..], name, until);
    }
  }

  /** Whatever happens between them, two accepted calls with one rate key are at
      least the first one's window apart. */
  lemma AcceptedCallsAreApart(db: Db, name: string, first: Call, between: seq<Event>, second: Call)
    requires RateLimitStep(db, RateLimit(name), first).1.status == 1
    requires IsRun(RateLimitStep(db, RateLimit(name), first).0, between)
    requires RateLimitStep(After(RateLimitStep(db, RateLimit(name), first).0, between), RateLimit(name),
                           second).1.status == 1
    ensures db.now + 1000 * first.ttl <= After(RateLimitStep(db, RateLimit(name), first).0, between).now
  {
    GuardLasts(RateLimitStep(db, RateLimit(name), first).0, between, name, db.now + 1000 * first.ttl);
  }

  /** A call that is not accepted changes no job and no queue; a rejected one
      changes nothing at all, and a duplicate id leaves the key free. */
  lemma RefusalsChangeNothing(db: Db, name: string, call: Call)
    requires 0 < call.ttl
    ensures var key, (after, reply) := RateLimit(name), RateLimitStep(db, RateLimit(name), call);
            && reply.status in {1, 2, -1}
            && (reply.status != 1 ==> after.jobs == db.jobs && after.queues == db.queues)
            && (reply.status == 2 <==> KeyLive(db, key)) && (reply.status == 2 ==> after == db)
            && (reply.status == -1 ==> !KeyLive(after, key) && forall k :: k != key ==>
                KeyLive(after, k) == KeyLive(db, k))
            && (reply.status == 1 ==> KeyLive(after, key) && after.keys[key].job == call.id)
  {}

  // ---------- idempotency

  predicate Bound(db: Db, key: Key, id: JobId, expires: Option<int>) {
    key in db.keys && db.keys[key] == Entry(id, expires) && KeyLive(db, key) && id in db.jobs
  }

  /** Workers keep the job's hash, and the key does not run out. */
  predicate Outlasts(run: seq<Event>, id: JobId, expires: Option<int>) {
    forall i :: 0 <= i < |run| ==>
      match run[i]
      case Work(jobs, _) => id in jobs
      case Wait(to) => expires.Some? ==> to < expires.value
      case _ => true
  }

  lemma {:induction false} BindingLasts(db: Db, run: seq<Event>, name: string, id: JobId, expires: Option<int>)
    requires IsRun(db, run) && Outlasts(run, id, expires) && Bound(db, Idempotency(name), id, expires)
    ensures Bound(After(db, run), Idempotency(name), id, expires)
    decreases |run|
  {
    if run != [] {
      assert forall i :: 0 <= i < |run[1..]| ==> run[1..][i] == run[i + 1];
      BindingLasts(Next(db, run[0]), run[1..], name, id, expires);
    }
  }

  /** Once a call with an idempotency key has answered, every later call with that
      key, until the key expires or the job's hash goes, gives the same id and
      changes nothing. */
  lemma SameKeySameJob(db: Db, name: string, call: Call, between: seq<Event>, again: Call)
    requires EnqueueStep(db, Some(Idempotency(name)), call).1.status != -1
    requires IsRun(EnqueueStep(db, Some(Idempotency(name)), call).0, between)
    requires var (after, reply) := EnqueueStep(db, Some(Idempotency(name)), call);
             Outlasts(between, reply.id, after.keys[Idempotency(name)].expires)
    ensures var (after, reply) := EnqueueStep(db, Some(Idempotency(name)), call);
            EnqueueStep(After(after, between), Some(Idempotency(name)), again) ==
                (After(after, between), Reply(0, reply.id))
    ensures var (after, reply) := EnqueueStep(db, Some(Idempotency(name)), call);
            reply.status == 1 ==> after.keys[Idempotency(name)].expires == Expiry(db.now, call.ttl)
  {
    var (after, reply) := EnqueueStep(db, Some(Idempotency(name)), call);
    BindingLasts(after, between, name, reply.id, after.keys[Idempotency(name)].expires);
  }

  // ---------- conservation

  predicate NoWork(run: seq<Event>) {
    forall i :: 0 <= i < |run| ==> !run[i].Work?
  }

  predicate IsCall(e: Event) {
    e.EnqueueCall? || e.RateLimitCall? || e.DebounceCall?
  }

  /** The ids whose calls were answered with status 1, in order. */
  function CreatedIds(db: Db, run: seq<Event>): seq<JobId>
    decreases |run|
  {
    if run == [] then []
    else (if IsCall(run[0]) && Answer(db, run[0]).1.status == 1 then [Answer(db, run[0]).1.id] else [])
         + CreatedIds(Next(db, run[0]), run[1..])
  }

  /** The job is listed in the queue its hash names. */
  predicate Listed(db: Db, id: JobId) {
    id in db.jobs && id in Entries(db.queues, db.jobs[id].queue)
  }

  /** Producers alone create exactly the jobs their answers say, each one once,
      lose none, and leave every job of theirs in the queue its hash names. */
  lemma {:induction false} AnswersAccountForJobs(db: Db, run: seq<Event>)
    requires IsRun(db, run) && NoWork(run)
    ensures var after, created := After(db, run), CreatedIds(db, run);
            && (forall id :: id in after.jobs <==> id in db.jobs || id in created)
            && (forall i :: 0 <= i < |created| ==> created[i] !in db.jobs && Listed(after, created[i]))
            && (forall i, k :: 0 <= i < k < |created| ==> created[i] != created[k])
            && (forall id :: Listed(db, id) ==> Listed(after, id))
    decreases |run|
  {
    if run != [] {
      assert forall i :: 0 <= i < |run[1..]| ==> run[1..][i] == run[i + 1];
      assert !run[0].Work?;
      AnswersAccountForJobs(Next(db, run[0]), run[1..]);
      OneCallAccounts(db, run[0]);
    }
  }

  lemma OneCallAccounts(db: Db, e: Event)
    requires Possible(db, e) && !e.Work?
    ensures var (after, reply) := Answer(db, e);
            && (forall id :: Listed(db, id) ==> Listed(after, id))
            && (if IsCall(e) && reply.status == 1
                then reply.id !in db.jobs && after.jobs.Keys == db.jobs.Keys + {reply.id} && Listed(after, reply.id)
                else after.jobs.Keys == db.jobs.Keys)
  {}
}
