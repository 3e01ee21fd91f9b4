/**
 Debouncing over whole runs: while the key lasts and no worker takes the job, all
 calls on a key fold into one job with one queue entry.
 */
module DebounceRuns {
  import opened ProducerScripts
  import opened ProducerRuns

  predicate CallsKey(e: Event, name: string) {
    e.DebounceCall? && e.name == name
  }

  /** The calls of the run on one debounce key. */
  function CallsOn(name: string, run: seq<Event>): seq<Call> {
    if run == [] then []
    else CallsOn(name, run[..|run| - 1]) +
         if CallsKey(run[|run| - 1], name) then [run[|run| - 1].call] else []
  }

  /** What the calls on one key make of their job. */
  function Fold(calls: seq<Call>): Job
    requires calls != []
  {
    if |calls| == 1 then NewJob(calls[0]) else Updated(Fold(calls[..|calls| - 1]), calls[|calls| - 1])
  }

  /** The trace context is that of the last call that carried one. */
  predicate IsLastTrace(calls: seq<Call>, trace: Text) {
    if trace == "" then forall i :: 0 <= i < |calls| ==> calls[i].trace == ""
    else exists i :: 0 <= i < |calls| && calls[i].trace == trace && forall k :: i < k < |calls| ==> calls[k].trace == ""
  }

  /** The job has the first call's identity and the last call's parameters; only
      the trace context may be older than the rest. */
  lemma {:induction false} FoldMeaning(calls: seq<Call>)
    requires calls != []
    ensures var job, first, last := Fold(calls), calls[0], calls[|calls| - 1];
            && job.id == first.id && job.enqueueTime == first.enqueueTime && job.status == PENDING && job.retries == 0
            && job.(trace := last.trace) == NewJob(last).(id := first.id, enqueueTime := first.enqueueTime)
            && IsLastTrace(calls, job.trace)
  {
    var n := |calls|;
    if n == 1 {
      FirstTrace(calls);
    } else {
      FoldMeaning(calls[..n - 1]);
      NextTrace(calls, Fold(calls[..n - 1]).trace);
    }
  }

  lemma FirstTrace(calls: seq<Call>)
    requires |calls| == 1
    ensures IsLastTrace(calls, calls[0].trace)
  {
    if calls[0].trace != "" { assert calls[0].trace == calls[0].trace; }
  }

  lemma NextTrace(calls: seq<Call>, earlier: Text)
    requires calls != [] && IsLastTrace(calls[..|calls| - 1], earlier)
    ensures var last := calls[|calls| - 1].trace; IsLastTrace(calls, if last != "" then last else earlier)
  {
    var n, init := |calls|, calls[..|calls| - 1];
    if calls[n - 1].trace == "" && earlier != "" {
      var i :| 0 <= i < |init| && init[i].trace == earlier && forall k :: i < k < |init| ==> init[k].trace == "";
      assert calls[i].trace == earlier;
      assert forall k :: i < k < n ==> calls[k].trace == if k < n - 1 then init[k].trace else "";
    } else if calls[n - 1].trace == "" {
      assert forall i :: 0 <= i < n ==> calls[i].trace == if i < n - 1 then init[i].trace else "";
    }
  }

  /** Until the next event, nothing disturbs the job of the key: the key does not
      run out, workers leave the job and its queue entries alone, and calls on the
      key name its queue. */
  ghost predicate Leaves(db: Db, e: Event, name: string, id: JobId, queue: QueueName)
    requires Debounce(name) in db.keys && id in db.jobs
  {
    match e
    case Wait(to) => db.keys[Debounce(name)].expires.Some? && to < db.keys[Debounce(name)].expires.value
    case Work(jobs, queues) =>
      && id in jobs && jobs[id] == db.jobs[id]
      && (forall q ::
            (id in Entries(queues, q) <==> id in Entries(db.queues, q)) &&
            (id in Entries(queues, q) ==> Entries(queues, q)[id] == Entries(db.queues, q)[id]))
    case DebounceCall(n, call) => n == name ==> call.queue == queue
    case _ => true
  }

  ghost predicate Undisturbed(db: Db, run: seq<Event>, name: string, id: JobId, queue: QueueName)
    decreases |run|
  {
    run == [] ||
    (Debounce(name) in db.keys && id in db.jobs && Leaves(db, run[0], name, id, queue) &&
     Undisturbed(Next(db, run[0]), run[1..], name, id, queue))
  }

  predicate Lists(db: Db, queue: QueueName, id: JobId) {
    id in Entries(db.queues, queue)
  }

  /** No other debounce key names the job. */
  ghost predicate SoleKey(db: Db, name: string, id: JobId) {
    forall k :: k in db.keys && k.Debounce? && k != Debounce(name) ==> db.keys[k].job != id
  }

  /** The state in which `calls` have been folded into job `id`; `others` are the
      queues that listed the id before. */
  ghost predicate Folded(db: Db, name: string, id: JobId, queue: QueueName, calls: seq<Call>, others: set<QueueName>)
    requires calls != []
  {
    && Names(db, name, id) && db.jobs[id] == Fold(calls)
    && ListedOnceMore(db, id, queue, others) && Entries(db.queues, queue)[id] == calls[|calls| - 1].score
    && SoleKey(db, name, id)
  }

  /** The key is live and will run out, and names the pending job. */
  predicate Names(db: Db, name: string, id: JobId) {
    var key := Debounce(name);
    && Reusable(db, key) && db.keys[key].job == id && db.keys[key].expires.Some?
  }

  ghost predicate ListedOnceMore(db: Db, id: JobId, queue: QueueName, others: set<QueueName>) {
    && Lists(db, queue, id)
    && forall q :: q != queue ==> (Lists(db, q, id) <==> q in others)
  }

  lemma CallOnKeyFolds(db: Db, call: Call, name: string, id: JobId, queue: QueueName, calls: seq<Call>,
                       others: set<QueueName>)
    requires calls != [] && Folded(db, name, id, queue, calls, others)
    requires 0 < call.ttl && call.queue == queue
    ensures var (after, reply) := DebounceStep(db, Debounce(name), call);
            reply == Reply(0, id) && Folded(after, name, id, queue, calls + [call], others)
  {}

  /** What any other event leaves as it was. */
  ghost predicate Kept(db: Db, after: Db, name: string, id: JobId)
    requires Names(db, name, id)
  {
    && Names(after, name, id) && after.jobs[id] == db.jobs[id]
    && (forall q :: Lists(after, q, id) <==> Lists(db, q, id))
    && (forall q :: Lists(db, q, id) ==> Entries(after.queues, q)[id] == Entries(db.queues, q)[id])
    && (SoleKey(db, name, id) ==> SoleKey(after, name, id))
  }

  lemma OtherEventKeeps(db: Db, e: Event, name: string, id: JobId, queue: QueueName)
    requires Names(db, name, id) && SoleKey(db, name, id) && !CallsKey(e, name)
    requires Possible(db, e) && Leaves(db, e, name, id, queue)
    ensures Kept(db, Next(db, e), name, id)
  {
    match e {
      case Work(jobs, queues) =>
      case Wait(to) =>
      case EnqueueCall(key, call) => OtherEntryAdded(db, Next(db, e), call.queue, call.id, call.score, id);
      case RateLimitCall(n, call) => OtherEntryAdded(db, Next(db, e), call.queue, call.id, call.score, id);
      case DebounceCall(n, call) =>
        OtherEntryAdded(db, Next(db, e), call.queue,
                        if Reusable(db, Debounce(n)) then db.keys[Debounce(n)].job else call.id, call.score, id);
    }
  }

  lemma OtherEntryAdded(db: Db, after: Db, queue: QueueName, other: JobId, score: int, id: JobId)
    requires after.queues == db.queues ||
             (other != id && after.queues == db.queues[queue := Entries(db.queues, queue)[other := score]])
    ensures forall q :: Lists(after, q, id) <==> Lists(db, q, id)
    ensures forall q :: Lists(db, q, id) ==> Entries(after.queues, q)[id] == Entries(db.queues, q)[id]
  {}

  lemma OneEventFolds(db: Db, e: Event, name: string, id: JobId, queue: QueueName, calls: seq<Call>,
                      others: set<QueueName>)
    requires calls != [] && Folded(db, name, id, queue, calls, others)
    requires Possible(db, e) && Leaves(db, e, name, id, queue)
    ensures Folded(Next(db, e), name, id, queue, if CallsKey(e, name) then calls + [e.call] else calls, others)
    ensures CallsKey(e, name) ==> Answer(db, e).1 == Reply(0, id)
  {
    if CallsKey(e, name) {
      CallOnKeyFolds(db, e.call, name, id, queue, calls, others);
    } else {
      OtherEventKeeps(db, e, name, id, queue);
    }
  }

  /** Every call on the key is answered with the same id. */
  predicate AllAnswered(db: Db, run: seq<Event>, name: string, id: JobId)
    decreases |run|
  {
    run == [] ||
    ((CallsKey(run[0], name) ==> Answer(db, run[0]).1 == Reply(0, id)) &&
     AllAnswered(Next(db, run[0]), run[1..], name, id))
  }

  lemma {:induction false} CallsOnFirst(name: string, run: seq<Event>)
    requires run != []
    ensures CallsOn(name, run) == (if CallsKey(run[0], name) then [run[0].call] else []) + CallsOn(name, run[1..])
  {
    var n := |run|;
    if n == 1 {
      assert run[..0] == [] && run[1..] == [];
      assert CallsOn(name, run[..0]) == [];
    } else {
      assert run[..n - 1][1..] == run[1..][..n - 2];
      CallsOnFirst(name, run[..n - 1]);
      assert run[1..][n - 2] == run[n - 1];
    }
  }

  lemma CallsOnMore(name: string, run: seq<Event>, calls: seq<Call>)
    requires run != []
    ensures (if CallsKey(run[0], name) then calls + [run[0].call] else calls) + CallsOn(name, run[1..]) ==
            calls + CallsOn(name, run)
  {
    CallsOnFirst(name, run);
  }

  lemma {:induction false} RunFolds(db: Db, run: seq<Event>, name: string, id: JobId, queue: QueueName,
                                    calls: seq<Call>, others: set<QueueName>)
    requires calls != [] && Folded(db, name, id, queue, calls, others)
    requires IsRun(db, run) && Undisturbed(db, run, name, id, queue)
    ensures Folded(After(db, run), name, id, queue, calls + CallsOn(name, run), others)
    ensures AllAnswered(db, run, name, id)
    decreases |run|
  {
    if run == [] {
      assert calls + CallsOn(name, run) == calls;
    } else {
      var more := if CallsKey(run[0], name) then calls + [run[0].call] else calls;
      CallsOnMore(name, run, calls);
      OneEventFolds(db, run[0], name, id, queue, calls, others);
      RunFolds(Next(db, run[0]), run[1..], name, id, queue, more, others);
    }
  }

  /** The first call on a free key makes a job; all later ones, among whatever else
      producers and workers do, get its id, and leave one job holding their fold
      and one new queue entry with the last call's score. */
  lemma CallsFoldIntoOneJob(db: Db, name: string, first: Call, run: seq<Event>, others: set<QueueName>)
    requires !Reusable(db, Debounce(name)) && first.id !in db.jobs && 0 < first.ttl
    requires SoleKey(db, name, first.id)
    requires forall q :: q in others <==> Lists(db, q, first.id)
    requires var db1 := DebounceStep(db, Debounce(name), first).0;
             IsRun(db1, run) && Undisturbed(db1, run, name, first.id, first.queue)
    ensures var (db1, reply) := DebounceStep(db, Debounce(name), first);
            var calls, after := [first] + CallsOn(name, run), After(db1, run);
            && reply == Reply(1, first.id) && AllAnswered(db1, run, name, first.id)
            && first.id in after.jobs && after.jobs[first.id] == Fold(calls)
            && Lists(after, first.queue, first.id)
            && Entries(after.queues, first.queue)[first.id] == calls[|calls| - 1].score
            && forall q :: q != first.queue ==> (Lists(after, q, first.id) <==> q in others)
  {
    RunFolds(DebounceStep(db, Debounce(name), first).0, run, name, first.id, first.queue, [first], others);
  }

  /** Why the calls must name one queue: a call that names another leaves the old
      entry where it was, so the job is listed twice. */
  lemma AnotherQueueLeavesTheOldEntry(db: Db, name: string, call: Call, queue: QueueName)
    requires Reusable(db, Debounce(name)) && 0 < call.ttl && call.queue != queue
    requires Lists(db, queue, db.keys[Debounce(name)].job)
    ensures var id, (after, reply) := db.keys[Debounce(name)].job, DebounceStep(db, Debounce(name), call);
            reply == Reply(0, id) && after.jobs[id].queue == call.queue && Lists(after, call.queue, id) &&
                Lists(after, queue, id)
  {}
}
