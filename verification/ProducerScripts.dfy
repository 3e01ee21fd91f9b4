/**
 The three scripts a producer enqueues with, one Redis command at a time, and
 what each does in one step.

 Times are milliseconds.  A key with `expires <= now` is gone.  Texts are opaque;
 "" stands for an absent context, as it does in the scripts' arguments.
 */
module ProducerScripts {
  import opened Wrappers

  type JobId = string
  type QueueName = string
  type Text = string

  /** Key names of the three families never coincide: each carries its prefix. */
  datatype Key = Idempotency(name: string) | RateLimit(name: string) | Debounce(name: string)

  datatype Entry = Entry(job: JobId, expires: Option<int>)

  /** `status` is the text the hash holds. */
  datatype Job = Job(
    id: JobId,
    function_: Text,
    params: Text,
    enqueueTime: Text,
    status: Text,
    retries: int,
    nextRun: Text,
    maxRetries: int,
    timeoutSeconds: int,
    resultTtlSeconds: int,
    queue: QueueName,
    trace: Text,
    correlation: Text)

  /** The arguments of a script call.  The producers always pass status PENDING
      and no retries. */
  datatype Call = Call(
    id: JobId,
    function_: Text,
    params: Text,
    enqueueTime: Text,
    nextRun: Text,
    maxRetries: int,
    timeoutSeconds: int,
    resultTtlSeconds: int,
    queue: QueueName,
    trace: Text,
    correlation: Text,
    score: int,
    ttl: int)

  datatype Db = Db(jobs: map<JobId, Job>, queues: map<QueueName, map<JobId, int>>, keys: map<Key, Entry>, now: int)

  datatype Reply = Reply(status: int, id: JobId)

  const PENDING: Text := "PENDING"

  predicate KeyLive(db: Db, key: Key) {
    key in db.keys && (db.keys[key].expires.Some? ==> db.now < db.keys[key].expires.value)
  }

  function Entries(queues: map<QueueName, map<JobId, int>>, queue: QueueName): map<JobId, int> {
    if queue in queues then queues[queue] else map[]
  }

  function NewJob(call: Call): Job {
    Job(call.id, call.function_, call.params, call.enqueueTime, PENDING, 0, call.nextRun, call.maxRetries,
        call.timeoutSeconds, call.resultTtlSeconds, call.queue, call.trace, call.correlation)
  }

  /** A debounce call on a pending job: a call without a trace context leaves the
      old one in place, one without a correlation context removes it. */
  function Updated(job: Job, call: Call): Job {
    job.(function_ := call.function_, params := call.params, nextRun := call.nextRun, maxRetries := call.maxRetries,
         timeoutSeconds := call.timeoutSeconds, resultTtlSeconds := call.resultTtlSeconds, queue := call.queue,
         trace := if call.trace != "" then call.trace else job.trace,
         correlation := call.correlation)
  }

  function Expiry(now: int, ttl: int): Option<int> {
    if 0 < ttl then Some(now + 1000 * ttl) else None
  }

  // ---------- what each script does in one step

  function Created(db: Db, call: Call): Db {
    db.(jobs := db.jobs[call.id := NewJob(call)],
        queues := db.queues[call.queue := Entries(db.queues, call.queue)[call.id := call.score]])
  }

  function Free(db: Db, key: Key): Db {
    db.(keys := db.keys - {key})
  }

  function Held(db: Db, key: Key, call: Call): Db {
    db.(keys := db.keys[key := Entry(call.id, Expiry(db.now, call.ttl))])
  }

  function EnqueueStep(db: Db, key: Option<Key>, call: Call): (Db, Reply) {
    if key.Some? && KeyLive(db, key.value) && db.keys[key.value].job in db.jobs then
      (db, Reply(0, db.keys[key.value].job))
    else
      var freed := if key.Some? then Free(db, key.value) else db;
      if call.id in db.jobs then (freed, Reply(-1, call.id))
      else (Created(if key.Some? then Held(freed, key.value, call) else freed, call), Reply(1, call.id))
  }

  function RateLimitStep(db: Db, key: Key, call: Call): (Db, Reply) {
    if call.ttl <= 0 then (db, Reply(-2, call.id))
    else if KeyLive(db, key) then (db, Reply(2, ""))
    else if call.id in db.jobs then (Free(db, key), Reply(-1, call.id))
    else (Created(Held(db, key, call), call), Reply(1, call.id))
  }

  /** The key names a job that can still be rescheduled. */
  predicate Reusable(db: Db, key: Key) {
    KeyLive(db, key) && db.keys[key].job in db.jobs && db.jobs[db.keys[key].job].status == PENDING
  }

  function DebounceStep(db: Db, key: Key, call: Call): (Db, Reply) {
    if Reusable(db, key) then
      var id := db.keys[key].job;
      var expires := if 0 < call.ttl then Expiry(db.now, call.ttl) else db.keys[key].expires;
      (db.(jobs := db.jobs[id := Updated(db.jobs[id], call)],
           queues := db.queues[call.queue := Entries(db.queues, call.queue)[id := call.score]],
           keys := db.keys[key := Entry(id, expires)]),
       Reply(0, id))
    else if call.id in db.jobs then (Free(db, key), Reply(-1, call.id))
    else (Created(Held(Free(db, key), key, call), call), Reply(1, call.id))
  }

  // ---------- the scripts, command by command

  class Redis {
    var jobs: map<JobId, Job>
    var queues: map<QueueName, map<JobId, int>>
    var keys: map<Key, Entry>
    var now: int

    constructor ()
      ensures State() == Db(map[], map[], map[], 0)
    {
      jobs, queues, keys, now := map[], map[], map[], 0;
    }

    function State(): Db
      reads this
    {
      Db(jobs, queues, keys, now)
    }

    /** Redis forgets an expired key when it is looked at. */
    method Get(key: Key) returns (job: Option<JobId>)
      modifies this`keys
      ensures job == if old(KeyLive(State(), key)) then Some(old(keys)[key].job) else None
      ensures keys == if old(KeyLive(State(), key)) then old(keys) else old(keys) - {key}
    {
      if KeyLive(State(), key) { return Some(keys[key].job); }
      keys := keys - {key};
      job := None;
    }

    method Del(key: Key)
      modifies this`keys
      ensures keys == old(keys) - {key}
    {
      keys := keys - {key};
    }

    /** SET key job NX, with EX ttl when one is given. */
    method SetNx(key: Key, job: JobId, ttl: Option<int>) returns (ok: bool)
      requires ttl.Some? ==> 0 < ttl.value
      modifies this`keys
      ensures ok == !old(KeyLive(State(), key))
      ensures keys == if ok then old(keys)[key := Entry(job, if ttl.Some? then Expiry(now, ttl.value) else None)]
              else old(keys)
    {
      ok := !KeyLive(State(), key);
      if ok {
        keys := keys[key := Entry(job, if ttl.Some? then Some(now + 1000 * ttl.value) else None)];
      }
    }

    method Expire(key: Key, ttl: int)
      requires KeyLive(State(), key)
      modifies this`keys
      ensures keys == old(keys)[key := Entry(old(keys)[key].job, Some(now + 1000 * ttl))]
    {
      keys := keys[key := keys[key].(expires := Some(now + 1000 * ttl))];
    }

    method ZAdd(queue: QueueName, score: int, job: JobId)
      modifies this`queues
      ensures queues == old(queues)[queue := Entries(old(queues), queue)[job := score]]
    {
      queues := queues[queue := Entries(queues, queue)[job := score]];
    }

    /** The HSETs and the ZADD that end all three scripts. */
    method WriteJob(call: Call)
      requires call.id !in jobs
      modifies this`jobs, this`queues
      ensures State() == Created(old(State()), call)
    {
      var job := Job(call.id, call.function_, call.params, call.enqueueTime, PENDING, 0, call.nextRun, call.maxRetries,
                     call.timeoutSeconds, call.resultTtlSeconds, call.queue, "", "");
      if call.trace != "" { job := job.(trace := call.trace); }
      if call.correlation != "" { job := job.(correlation := call.correlation); }
      jobs := jobs[call.id := job];
      ZAdd(call.queue, call.score, call.id);
    }

    /** `build_enqueue_script` */
    method EnqueueScript(key: Option<Key>, call: Call) returns (reply: Reply)
      modifies this
      ensures Same(State(), EnqueueStep(old(State()), key, call).0)
      ensures reply == EnqueueStep(old(State()), key, call).1
    {
      if key.Some? {
        var existing := Get(key.value);
        if existing.Some? {
          if existing.value in jobs { return Reply(0, existing.value); }
          Del(key.value);
        }
      }
      if call.id in jobs { return Reply(-1, call.id); }
      if key.Some? {
        var ok := SetNx(key.value, call.id, if 0 < call.ttl then Some(call.ttl) else None);
        // The branch that would read a winner: the key was just seen free.
        if !ok { assert false; }
      }
      WriteJob(call);
      return Reply(1, call.id);
    }

    /** `build_rate_limit_script` */
    method RateLimitScript(key: Key, call: Call) returns (reply: Reply)
      modifies this
      ensures Same(State(), RateLimitStep(old(State()), key, call).0)
      ensures reply == RateLimitStep(old(State()), key, call).1
    {
      if call.ttl <= 0 { return Reply(-2, call.id); }
      var ok := SetNx(key, call.id, Some(call.ttl));
      if !ok { return Reply(2, ""); }
      if call.id in jobs {
        Del(key);
        return Reply(-1, call.id);
      }
      WriteJob(call);
      return Reply(1, call.id);
    }

    /** The writes on the pending job the key names. */
    method Reschedule(key: Key, call: Call)
      requires Reusable(State(), key)
      modifies this`jobs, this`queues, this`keys
      ensures State() == DebounceStep(old(State()), key, call).0
    {
      var id := keys[key].job;
      var job := jobs[id].(function_ := call.function_, params := call.params, nextRun := call.nextRun,
                           maxRetries := call.maxRetries, timeoutSeconds := call.timeoutSeconds,
                           resultTtlSeconds := call.resultTtlSeconds, queue := call.queue);
      if call.trace != "" { job := job.(trace := call.trace); }
      if call.correlation != "" {
        job := job.(correlation := call.correlation);
      } else {
        job := job.(correlation := "");
      }
      jobs := jobs[id := job];
      ZAdd(call.queue, call.score, id);
      if 0 < call.ttl { Expire(key, call.ttl); }
    }

    /** `build_debounce_script` */
    method DebounceScript(key: Key, call: Call) returns (reply: Reply)
      modifies this
      ensures Same(State(), DebounceStep(old(State()), key, call).0)
      ensures reply == DebounceStep(old(State()), key, call).1
    {
      var existing := Get(key);
      if existing.Some? {
        var id := existing.value;
        if id in jobs && jobs[id].status == PENDING {
          Reschedule(key, call);
          return Reply(0, id);
        }
        Del(key);
      }
      if call.id in jobs { return Reply(-1, call.id); }
      if 0 < call.ttl {
        var ok := SetNx(key, call.id, Some(call.ttl));
        // The branch that would answer for another job, or with status 2.
        if !ok { assert false; }
      } else {
        var _ := SetNx(key, call.id, None);
      }
      WriteJob(call);
      return Reply(1, call.id);
    }
  }

  /** Equal as far as anyone can see: expired keys do not count. */
  ghost predicate Same(a: Db, b: Db) {
    && a.jobs == b.jobs && a.queues == b.queues && a.now == b.now
    && forall k :: KeyLive(a, k) == KeyLive(b, k) && (KeyLive(a, k) ==> a.keys[k] == b.keys[k])
  }
}
