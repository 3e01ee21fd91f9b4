/**
 The in-flight tracker of the Python runner runtime: one task that consumes a queue
 of events and alone touches the two tables.
 */
module InflightTracker {
  import opened Collections
  import opened Wrappers
  import opened RequestIndex

  /** An asyncio task: each start brings a new one. */
  type TaskId = nat

  datatype Entry = Entry(job: JobId, task: TaskId)

  datatype Event =
    | Start(request: RequestId, job: JobId, task: TaskId)
    | Finish(request: RequestId)
    | CancelRequest(request: RequestId)
    | CancelJob(job: JobId)
    | Stop

  // ---------- the tracker without an index

  /** Requests in flight, and the tasks that have been cancelled. */
  datatype Plain = Plain(inFlight: map<RequestId, Entry>, cancelled: set<TaskId>)

  const IDLE := Plain(map[], {})

  function Cancelling(p: Plain, ids: set<RequestId>): Plain {
    Plain(p.inFlight - ids, p.cancelled + set r | r in p.inFlight && r in ids :: p.inFlight[r].task)
  }

  function OfJob(p: Plain, job: JobId): set<RequestId> {
    set r | r in p.inFlight && p.inFlight[r].job == job
  }

  function PlainStep(p: Plain, e: Event): Plain {
    match e
    case Start(request, job, task) => p.(inFlight := p.inFlight[request := Entry(job, task)])
    case Finish(request) => p.(inFlight := p.inFlight - {request})
    case CancelRequest(request) => Cancelling(p, {request})
    case CancelJob(job) => Cancelling(p, OfJob(p, job))
    case Stop => Cancelling(p, p.inFlight.Keys)
  }

  /** Events behind a Stop are never read. */
  function PlainRun(p: Plain, events: seq<Event>): Plain
    decreases |events|
  {
    if events == [] then p
    else if events[0].Stop? then PlainStep(p, events[0])
    else PlainRun(PlainStep(p, events[0]), events[1..])
  }

  /** Request ids are not reused and every start brings a new task. */
  predicate FreshStarts(events: seq<Event>) {
    forall i, k :: 0 <= i < k < |events| && events[i].Start? && events[k].Start? ==>
      events[i].request != events[k].request && events[i].task != events[k].task
  }

  /** No start of the rest clashes with what is there. */
  predicate Unclashing(p: Plain, e: Event) {
    e.Start? ==>
      && e.request !in p.inFlight && e.task !in p.cancelled
      && forall r :: r in p.inFlight ==> p.inFlight[r].task != e.task
  }

  function Jobs(entries: map<RequestId, Entry>): map<RequestId, JobId> {
    map r | r in entries :: entries[r].job
  }

  /** No task has been cancelled twice, and none that is in flight has been cancelled
      or is in flight twice. */
  ghost predicate OnlyOnce(inFlight: map<RequestId, Entry>, cancelled: seq<TaskId>) {
    && Distinct(cancelled)
    && (forall r :: r in inFlight ==> inFlight[r].task !in cancelled)
    && (forall r, q :: r in inFlight && q in inFlight && r != q ==> inFlight[r].task != inFlight[q].task)
  }

  lemma StillOnlyOnce(inFlight: map<RequestId, Entry>, cancelled: seq<TaskId>, request: RequestId)
    requires OnlyOnce(inFlight, cancelled) && request in inFlight
    ensures OnlyOnce(inFlight - {request}, cancelled + [inFlight[request].task])
    ensures Elements(cancelled + [inFlight[request].task]) == Elements(cancelled) + {inFlight[request].task}
  {}

  lemma StillInverse(inFlight: map<RequestId, Entry>, index: map<JobId, set<RequestId>>, request: RequestId)
    requires IsInverse(Jobs(inFlight), index) && request in inFlight
    ensures IsInverse(Jobs(inFlight - {request}), Removed(index, inFlight[request].job, request))
  {
    RemovedIsInverse(Jobs(inFlight), index, request);
    assert Jobs(inFlight - {request}) == Jobs(inFlight) - {request};
  }

  class Tracker {
    var inFlight: map<RequestId, Entry>
    var jobIndex: map<JobId, set<RequestId>>
    ghost var cancelled: seq<TaskId>

    ghost function State(): Plain
      reads this
    {
      Plain(inFlight, Elements(cancelled))
    }

    ghost predicate Valid()
      reads this
    {
      IsInverse(Jobs(inFlight), jobIndex) && OnlyOnce(inFlight, cancelled)
    }

    constructor ()
      ensures Valid() && State() == IDLE
    {
      inFlight, jobIndex, cancelled := map[], map[], [];
    }

    method CancelOne(request: RequestId)
      requires Valid()
      modifies this
      ensures Valid() && State() == Cancelling(old(State()), {request})
    {
      if request !in inFlight {
        assert State() == Cancelling(State(), {request});
        return;
      }
      var entry := inFlight[request];
      StillInverse(inFlight, jobIndex, request);
      StillOnlyOnce(inFlight, cancelled, request);
      assert Cancelling(State(), {request}) == Plain(inFlight - {request}, Elements(cancelled) + {entry.task});
      inFlight := inFlight - {request};
      cancelled := cancelled + [entry.task];
      jobIndex := Removed(jobIndex, entry.job, request);
    }

    method RemoveRequest(request: RequestId)
      requires Valid()
      modifies this
      ensures Valid() && State() == PlainStep(old(State()), Finish(request)) && cancelled == old(cancelled)
    {
      if request !in inFlight {
        assert inFlight - {request} == inFlight;
        return;
      }
      var entry := inFlight[request];
      StillInverse(inFlight, jobIndex, request);
      inFlight := inFlight - {request};
      jobIndex := Removed(jobIndex, entry.job, request);
    }

    /** Cancel the given requests, in any order. */
    method CancelAll(ids: set<RequestId>)
      requires Valid()
      modifies this
      ensures Valid() && State() == Cancelling(old(State()), ids)
    {
      var left := ids;
      assert State() == Cancelling(State(), {});
      while left != {}
        invariant left <= ids
        invariant Valid() && State() == Cancelling(old(State()), ids - left)
        decreases left
      {
        var request :| request in left;
        ghost var soFar := ids - left;
        CancelOne(request);
        left := left - {request};
        CancellingMore(old(State()), soFar, request);
        assert soFar + {request} == ids - left;
      }
      assert ids - left == ids;
    }

    /** One turn of the loop in `_run`. */
    method Handle(e: Event) returns (stop: bool)
      requires Valid() && Unclashing(State(), e)
      modifies this
      ensures Valid() && State() == PlainStep(old(State()), e)
      ensures stop == e.Stop?
    {
      stop := false;
      match e {
        case Start(request, job, task) =>
          AddedIsInverse(Jobs(inFlight), jobIndex, job, request);
          assert Jobs(inFlight[request := Entry(job, task)]) == Jobs(inFlight)[request := job];
          inFlight := inFlight[request := Entry(job, task)];
          jobIndex := Added(jobIndex, job, request);
        case Finish(request) =>
          RemoveRequest(request);
        case CancelRequest(request) =>
          CancelOne(request);
        case CancelJob(job) =>
          LookupIsScan(Jobs(inFlight), jobIndex, job);
          assert Scan(Jobs(inFlight), job) == OfJob(State(), job);
          CancelAll(Lookup(jobIndex, job));
        case Stop =>
          CancelAll(inFlight.Keys);
          stop := true;
      }
    }

    /** `_run`: the tracker with an index does what the one that scans does, never
        cancels a task twice, and a Stop leaves both tables empty. */
    method Run(events: seq<Event>)
      requires Valid() && State() == IDLE && FreshStarts(events)
      modifies this
      ensures Valid() && State() == PlainRun(IDLE, events)
      ensures Stop in events ==> inFlight == map[] && jobIndex == map[]
    {
      var i := 0;
      while i < |events|
        invariant 0 <= i <= |events| && Valid()
        invariant PlainRun(IDLE, events) == PlainRun(State(), events[i..])
        invariant Known(State(), events[..i])
        invariant Stop !in events[..i]
      {
        FreshIsUnclashing(State(), events, i);
        ghost var before := State();
        assert events[i..][0] == events[i] && events[i..][1..] == events[i + 1..];
        var stop := Handle(events[i]);
        if stop {
          IndexedJobsHaveRequests(Jobs(inFlight), jobIndex);
          assert inFlight == map[] && jobIndex.Keys == {};
          return;
        }
        KnownNext(before, events, i);
        i := i + 1;
      }
      assert events[..i] == events;
    }
  }

  // ---------- what becomes of a started task

  /** The event takes the request out of flight. */
  predicate Ends(e: Event, request: RequestId, job: JobId) {
    e == Finish(request) || e == CancelRequest(request) || e == CancelJob(job) || e == Stop
  }

  /** The first event that does. */
  function EndOf(events: seq<Event>, request: RequestId, job: JobId): Option<Event>
    decreases |events|
  {
    if events == [] then None
    else if Ends(events[0], request, job) then Some(events[0])
    else EndOf(events[1..], request, job)
  }

  /** Nothing to come starts this request, or this task. */
  predicate NotAgain(events: seq<Event>, request: RequestId, task: TaskId) {
    forall e :: e in events && e.Start? ==> e.request != request && e.task != task
  }

  /** The task belongs to this request alone. */
  predicate OnlyOf(p: Plain, request: RequestId, task: TaskId) {
    forall r :: r in p.inFlight && p.inFlight[r].task == task ==> r == request
  }

  lemma {:induction false} WhatIsGoneStaysGone(p: Plain, events: seq<Event>, request: RequestId, task: TaskId)
    requires NotAgain(events, request, task) && OnlyOf(p, request, task) && request !in p.inFlight
    ensures task in PlainRun(p, events).cancelled <==> task in p.cancelled
    ensures request !in PlainRun(p, events).inFlight
    decreases |events|
  {
    if events != [] && !events[0].Stop? {
      WhatIsGoneStaysGone(PlainStep(p, events[0]), events[1..], request, task);
    }
  }

  lemma {:induction false} InFlightUntilItsEnd(p: Plain, events: seq<Event>, request: RequestId, job: JobId,
                                               task: TaskId)
    requires NotAgain(events, request, task) && OnlyOf(p, request, task)
    requires request in p.inFlight && p.inFlight[request] == Entry(job, task) && task !in p.cancelled
    ensures var end := EndOf(events, request, job);
            && (task in PlainRun(p, events).cancelled <==> end.Some? && end != Some(Finish(request)))
            && (request in PlainRun(p, events).inFlight <==> end.None?)
    decreases |events|
  {
    if events != [] {
      var e, q := events[0], PlainStep(p, events[0]);
      assert e in events && NotAgain(events[1..], request, task) && OnlyOf(q, request, task);
      if Ends(e, request, job) {
        assert request !in q.inFlight && (task in q.cancelled <==> e != Finish(request));
        if !e.Stop? { WhatIsGoneStaysGone(q, events[1..], request, task); }
      } else {
        assert request in q.inFlight && task !in q.cancelled;
        InFlightUntilItsEnd(q, events[1..], request, job, task);
      }
    }
  }

  /** A task that was started is cancelled exactly if the first event behind its start that
      names its request, its job or everything is not the request's own end; and its request
      is in flight exactly if there is no such event. */
  lemma {:induction false} CancelledExactly(p: Plain, events: seq<Event>, i: nat)
    requires FreshStarts(events) && (forall e :: e in events ==> Unclashing(p, e))
    requires i < |events| && events[i].Start? && Stop !in events[..i]
    ensures var end := EndOf(events[i + 1..], events[i].request, events[i].job);
            && (events[i].task in PlainRun(p, events).cancelled <==>
                  end.Some? && end != Some(Finish(events[i].request)))
            && (events[i].request in PlainRun(p, events).inFlight <==> end.None?)
    decreases i
  {
    var q, rest := PlainStep(p, events[0]), events[1..];
    assert PlainRun(p, events) == PlainRun(q, rest) && Unclashing(p, events[0]);
    if i == 0 {
      forall e | e in rest && e.Start? ensures e.request != events[0].request && e.task != events[0].task {
        var k :| 0 <= k < |rest| && rest[k] == e;
        assert events[k + 1] == e;
      }
      InFlightUntilItsEnd(q, rest, events[0].request, events[0].job, events[0].task);
    } else {
      assert rest[i - 1] == events[i] && rest[i..] == events[i + 1..] && rest[..i - 1] == events[1..i];
      forall e | e in rest ensures Unclashing(q, e) {
        var k :| 0 <= k < |rest| && rest[k] == e;
        assert events[k + 1] == e && Unclashing(p, e);
      }
      CancelledExactly(q, rest, i - 1);
    }
  }

  lemma CancellingMore(p: Plain, ids: set<RequestId>, r: RequestId)
    ensures Cancelling(Cancelling(p, ids), {r}) == Cancelling(p, ids + {r})
  {}

  /** All that is in the tables came from the starts seen so far. */
  predicate Known(p: Plain, seen: seq<Event>) {
    && (forall r :: r in p.inFlight ==> Start(r, p.inFlight[r].job, p.inFlight[r].task) in seen)
    && (forall t :: t in p.cancelled ==> exists i :: 0 <= i < |seen| && seen[i].Start? && seen[i].task == t)
  }

  lemma FreshIsUnclashing(p: Plain, events: seq<Event>, i: nat)
    requires i < |events| && FreshStarts(events) && Known(p, events[..i])
    ensures Unclashing(p, events[i])
  {}

  lemma KnownNext(p: Plain, events: seq<Event>, i: nat)
    requires i < |events| && Known(p, events[..i])
    ensures Known(PlainStep(p, events[i]), events[..i + 1])
  {}
}
