/**
 The registry of the TypeScript runner runtime: requests in flight, the index by job
 and the set of active requests of each connection.  Every method is one turn of
 the event loop; a response that is being written leaves its clean-up for later.

 Request ids are fresh.
 */
module RunnerRuntime {
  import opened Wrappers
  import opened Collections
  import opened RequestIndex

  type ConnectionId = nat

  const MAX_IN_FLIGHT_PER_CONNECTION: nat := 64

  datatype Task = Task(job: JobId, connection: ConnectionId, completed: bool)

  type Tasks = map<RequestId, Task>

  datatype Turn =
    | Open(connection: ConnectionId)
    | Request(connection: ConnectionId, request: RequestId, job: JobId, supported: bool)
    | Cancel(job: JobId, only: Option<RequestId>, supported: bool)
    | Settle(request: RequestId)
    | CleanUp(request: RequestId)
    | Close(connection: ConnectionId)

  function JobsOf(tasks: Tasks): map<RequestId, JobId> {
    map r | r in tasks :: tasks[r].job
  }

  function OnConnection(tasks: Tasks, c: ConnectionId): set<RequestId> {
    set r | r in tasks && tasks[r].connection == c
  }

  ghost predicate MirrorsAt(active: map<ConnectionId, set<RequestId>>, tasks: Tasks, c: ConnectionId)
    requires c in active
  {
    active[c] == OnConnection(tasks, c) && |active[c]| <= MAX_IN_FLIGHT_PER_CONNECTION
  }

  /** The active sets are exactly the requests in flight, connection by connection. */
  ghost predicate Mirrors(active: map<ConnectionId, set<RequestId>>, tasks: Tasks) {
    && (forall c {:trigger MirrorsAt(active, tasks, c)} :: c in active ==> MirrorsAt(active, tasks, c))
    && (forall r :: r in tasks ==> tasks[r].connection in active)
  }

  ghost predicate AccountedAt(tasks: Tasks, accepted: set<RequestId>, answered: seq<RequestId>,
                              dropped: set<RequestId>, r: RequestId)
  {
    && (r in accepted <==> r in tasks || r in answered || r in dropped)
    && (r in tasks ==> r !in dropped && (tasks[r].completed <==> r in answered))
    && !(r in answered && r in dropped)
  }

  /** Every accepted request is in flight, answered or dropped with its connection;
      one in flight is answered exactly when it is completed, and none twice. */
  ghost predicate Accounted(tasks: Tasks, accepted: set<RequestId>, answered: seq<RequestId>, dropped: set<RequestId>) {
    && Distinct(answered)
    && (forall r {:trigger AccountedAt(tasks, accepted, answered, dropped, r)} ::
          AccountedAt(tasks, accepted, answered, dropped, r))
  }

  ghost predicate Captured(finishing: Tasks, tasks: Tasks, answered: seq<RequestId>, r: RequestId)
    requires r in finishing
  {
    r in answered && (r in tasks ==> tasks[r] == finishing[r])
  }

  /** A clean-up that is still to come belongs to an answered request and knows its task. */
  ghost predicate AllCaptured(finishing: Tasks, tasks: Tasks, answered: seq<RequestId>) {
    forall r {:trigger Captured(finishing, tasks, answered, r)} :: r in finishing ==>
        Captured(finishing, tasks, answered, r)
  }

  function Completed(tasks: Tasks, ids: set<RequestId>): Tasks {
    map r | r in tasks :: if r in ids then tasks[r].(completed := true) else tasks[r]
  }

  /** The targets of a cancel that get an answer. */
  function Unanswered(tasks: Tasks, ids: set<RequestId>): set<RequestId> {
    set r | r in ids && r in tasks && !tasks[r].completed
  }

  /** All that the registry keeps, and what has become of every accepted request. */
  datatype Book = Book(
    tasks: Tasks,
    index: map<JobId, set<RequestId>>,
    active: map<ConnectionId, set<RequestId>>,
    finishing: Tasks,
    accepted: set<RequestId>,
    answered: seq<RequestId>,
    dropped: set<RequestId>)

  ghost predicate Consistent(b: Book) {
    && IsInverse(JobsOf(b.tasks), b.index)
    && Mirrors(b.active, b.tasks)
    && Accounted(b.tasks, b.accepted, b.answered, b.dropped)
    && AllCaptured(b.finishing, b.tasks, b.answered)
  }

  function Joined(b: Book, r: RequestId, task: Task): Book
    requires task.connection in b.active
  {
    b.(tasks := b.tasks[r := task],
       index := Added(b.index, task.job, r),
       active := b.active[task.connection := b.active[task.connection] + {r}],
       accepted := b.accepted + {r})
  }

  lemma AddedTask(tasks: Tasks, index: map<JobId, set<RequestId>>, r: RequestId, task: Task)
    requires IsInverse(JobsOf(tasks), index) && r !in tasks
    ensures IsInverse(JobsOf(tasks[r := task]), Added(index, task.job, r))
  {
    AddedIsInverse(JobsOf(tasks), index, task.job, r);
    assert JobsOf(tasks[r := task]) == JobsOf(tasks)[r := task.job];
  }

  lemma AddedMirrors(active: map<ConnectionId, set<RequestId>>, tasks: Tasks, r: RequestId, task: Task)
    requires Mirrors(active, tasks) && r !in tasks
    requires task.connection in active && |active[task.connection]| < MAX_IN_FLIGHT_PER_CONNECTION
    ensures Mirrors(active[task.connection := active[task.connection] + {r}], tasks[r := task])
  {
    var active', tasks' := active[task.connection := active[task.connection] + {r}], tasks[r := task];
    forall c | c in active' ensures MirrorsAt(active', tasks', c) {
      assert MirrorsAt(active, tasks, c);
      OneMoreOnConnection(tasks, r, task, c);
    }
    forall q | q in tasks' ensures tasks'[q].connection in active' {
      if q != r { assert tasks[q].connection in active; }
    }
  }

  lemma OneMoreOnConnection(tasks: Tasks, r: RequestId, task: Task, c: ConnectionId)
    requires r !in tasks
    ensures c == task.connection ==>
              OnConnection(tasks[r := task], c) == OnConnection(tasks, c) + {r} &&
              |OnConnection(tasks[r := task], c)| == |OnConnection(tasks, c)| + 1
    ensures c != task.connection ==> OnConnection(tasks[r := task], c) == OnConnection(tasks, c)
  {}

  lemma JoinedIsConsistent(b: Book, r: RequestId, task: Task)
    requires Consistent(b) && r !in b.accepted && !task.completed
    requires task.connection in b.active && |b.active[task.connection]| < MAX_IN_FLIGHT_PER_CONNECTION
    ensures Consistent(Joined(b, r, task))
  {
    var b' := Joined(b, r, task);
    assert AccountedAt(b.tasks, b.accepted, b.answered, b.dropped, r);
    AddedTask(b.tasks, b.index, r, task);
    AddedMirrors(b.active, b.tasks, r, task);
    forall q ensures AccountedAt(b'.tasks, b'.accepted, b'.answered, b'.dropped, q) {
      assert AccountedAt(b.tasks, b.accepted, b.answered, b.dropped, q);
    }
    forall q | q in b'.finishing ensures Captured(b'.finishing, b'.tasks, b'.answered, q) {
      assert Captured(b.finishing, b.tasks, b.answered, q);
    }
  }

  function Answered(b: Book, r: RequestId): Book
    requires r in b.tasks
  {
    var task := b.tasks[r].(completed := true);
    b.(tasks := b.tasks[r := task], finishing := b.finishing[r := task], answered := b.answered + [r])
  }

  lemma AnsweredIsConsistent(b: Book, r: RequestId)
    requires Consistent(b) && r in b.tasks && !b.tasks[r].completed
    ensures Consistent(Answered(b, r))
  {
    var b' := Answered(b, r);
    assert AccountedAt(b.tasks, b.accepted, b.answered, b.dropped, r);
    assert JobsOf(b'.tasks) == JobsOf(b.tasks);
    forall c | c in b'.active ensures MirrorsAt(b'.active, b'.tasks, c) {
      assert MirrorsAt(b.active, b.tasks, c);
      assert OnConnection(b'.tasks, c) == OnConnection(b.tasks, c);
    }
    forall q ensures AccountedAt(b'.tasks, b'.accepted, b'.answered, b'.dropped, q) {
      assert AccountedAt(b.tasks, b.accepted, b.answered, b.dropped, q);
    }
    forall q | q in b'.finishing ensures Captured(b'.finishing, b'.tasks, b'.answered, q) {
      if q != r { assert Captured(b.finishing, b.tasks, b.answered, q); }
    }
  }

  function Gone(b: Book, r: RequestId): Book
    requires r in b.tasks && b.tasks[r].connection in b.active
  {
    var task := b.tasks[r];
    b.(tasks := b.tasks - {r},
       index := Removed(b.index, task.job, r),
       active := b.active[task.connection := b.active[task.connection] - {r}],
       dropped := b.dropped + if task.completed then {} else {r})
  }

  lemma GoneIsConsistent(b: Book, r: RequestId)
    requires Consistent(b) && r in b.tasks
    ensures b.tasks[r].connection in b.active && Consistent(Gone(b, r))
  {
    var b' := Gone(b, r);
    RemovedIsInverse(JobsOf(b.tasks), b.index, r);
    assert JobsOf(b'.tasks) == JobsOf(b.tasks) - {r};
    forall c | c in b'.active ensures MirrorsAt(b'.active, b'.tasks, c) {
      assert MirrorsAt(b.active, b.tasks, c);
      assert OnConnection(b'.tasks, c) == OnConnection(b.tasks, c) - {r};
      assert |b.active[c] - {r}| <= |b.active[c]|;
      assert c != b.tasks[r].connection ==> r !in OnConnection(b.tasks, c);
    }
    forall q ensures AccountedAt(b'.tasks, b'.accepted, b'.answered, b'.dropped, q) {
      assert AccountedAt(b.tasks, b.accepted, b.answered, b.dropped, q);
    }
    forall q | q in b'.finishing ensures Captured(b'.finishing, b'.tasks, b'.answered, q) {
      assert Captured(b.finishing, b.tasks, b.answered, q);
    }
  }

  /** A clean-up that comes after the connection has closed finds nothing to do. */
  lemma LateCleanUpIsConsistent(b: Book, r: RequestId, job: JobId)
    requires Consistent(b)
    ensures Consistent(b.(finishing := b.finishing - {r}))
    ensures r !in b.tasks ==> Removed(b.index, job, r) == b.index && b.tasks - {r} == b.tasks
  {
    var b' := b.(finishing := b.finishing - {r});
    if r !in b.tasks { RemovedNothing(JobsOf(b.tasks), b.index, job, r); }
    forall q | q in b'.finishing ensures Captured(b'.finishing, b'.tasks, b'.answered, q) {
      assert Captured(b.finishing, b.tasks, b.answered, q);
    }
  }

  lemma OpenedIsConsistent(b: Book, c: ConnectionId)
    requires Consistent(b) && c !in b.active
    ensures Consistent(b.(active := b.active[c := {}]))
  {
    var active' := b.active[c := {}];
    assert OnConnection(b.tasks, c) == {};
    forall d | d in active' ensures MirrorsAt(active', b.tasks, d) {
      if d != c { assert MirrorsAt(b.active, b.tasks, d); }
    }
  }

  lemma CompletedMore(tasks: Tasks, ids: set<RequestId>, r: RequestId)
    ensures Completed(Completed(tasks, ids), {r}) == Completed(tasks, ids + {r})
    ensures Completed(tasks, {}) == tasks
    ensures (r in tasks ==> tasks[r].completed) ==> Completed(tasks, {r}) == tasks
  {}

  predicate FreshRequests(turns: seq<Turn>) {
    forall i, k :: 0 <= i < k < |turns| && turns[i].Request? && turns[k].Request? ==>
        turns[i].request != turns[k].request
  }

  /** What consistency comes to for a reader: the index is what a scan of the table
      finds and names no job without requests; each connection's set is its requests
      in flight, 64 at most; no request is answered twice, and each accepted one is
      still unanswered in flight, or answered, or went with its connection. */
  lemma ConsistentMeans(b: Book, j: JobId, c: ConnectionId, r: RequestId)
    requires Consistent(b)
    ensures Lookup(b.index, j) == Scan(JobsOf(b.tasks), j) && (j in b.index ==> b.index[j] != {})
    ensures c in b.active ==> b.active[c] == OnConnection(b.tasks, c) && |b.active[c]| <= 64
    ensures forall i, k :: 0 <= i < k < |b.answered| ==> b.answered[i] != b.answered[k]
    ensures var waits, done, lost := r in b.tasks && !b.tasks[r].completed, r in b.answered, r in b.dropped;
            (r in b.accepted <==> waits || done || lost) && !(waits && done) && !(waits && lost) && !(done && lost)
  {
    LookupIsScan(JobsOf(b.tasks), b.index, j);
    if j in b.index { assert Backed(JobsOf(b.tasks), b.index, j); }
    if c in b.active { assert MirrorsAt(b.active, b.tasks, c); }
    assert AccountedAt(b.tasks, b.accepted, b.answered, b.dropped, r);
  }

  /** The targets in `done` have been completed, and answered if they were not. */
  ghost predicate Settling(before: Tasks, had: seq<RequestId>, tasks: Tasks, answered: seq<RequestId>,
                           done: set<RequestId>)
  {
    && tasks == Completed(before, done)
    && Elements(answered) == Elements(had) + Unanswered(before, done)
  }

  lemma SettlingMore(before: Tasks, had: seq<RequestId>, tasks: Tasks, answered: seq<RequestId>, done: set<RequestId>,
                     r: RequestId)
    requires Settling(before, had, tasks, answered, done) && r !in done
    ensures Settling(before, had, Completed(tasks, {r}), answered + if r in tasks && !tasks[r].completed then [r]
                     else [], done + {r})
  {
    CompletedMore(before, done, r);
    var more := if r in tasks && !tasks[r].completed then [r] else [];
    assert Elements(answered + more) == Elements(answered) + Elements(more);
    assert Elements(more) == Unanswered(before, {r});
    assert Unanswered(before, done + {r}) == Unanswered(before, done) + Unanswered(before, {r});
  }

  class Registry {
    var inFlight: Tasks
    var jobIndex: map<JobId, set<RequestId>>
    var active: map<ConnectionId, set<RequestId>>
    var finishing: Tasks
    ghost var accepted: set<RequestId>
    ghost var answered: seq<RequestId>
    ghost var dropped: set<RequestId>

    ghost function Contents(): Book
      reads this
    {
      Book(inFlight, jobIndex, active, finishing, accepted, answered, dropped)
    }

    ghost predicate Valid()
      reads this
    {
      Consistent(Contents())
    }

    constructor ()
      ensures Valid() && Contents() == Book(map[], map[], map[], map[], {}, [], {})
    {
      inFlight, jobIndex, active, finishing := map[], map[], map[], map[];
      accepted, answered, dropped := {}, [], {};
    }

    method HandleOpen(c: ConnectionId)
      requires Valid() && c !in active
      modifies this`active
      ensures Valid() && active == old(active)[c := {}]
    {
      OpenedIsConsistent(Contents(), c);
      active := active[c := {}];
    }

    /** A request message: refused for its version or because the connection is busy. */
    method HandleRequest(c: ConnectionId, request: RequestId, job: JobId, supported: bool) returns (taken: bool)
      requires Valid() && c in active && request !in accepted
      modifies this
      ensures Valid()
      ensures taken == (supported && |old(active)[c]| < MAX_IN_FLIGHT_PER_CONNECTION)
      ensures Contents() == if taken then Joined(old(Contents()), request, Task(job, c, false)) else old(Contents())
    {
      if !supported { return false; }
      if |active[c]| >= MAX_IN_FLIGHT_PER_CONNECTION { return false; }
      taken := true;
      JoinedIsConsistent(Contents(), request, Task(job, c, false));
      inFlight := inFlight[request := Task(job, c, false)];
      jobIndex := Added(jobIndex, job, request);
      active := active[c := active[c] + {request}];
      accepted := accepted + {request};
    }

    /** Answer a request that is in flight and unanswered; its clean-up follows the write. */
    method Respond(request: RequestId)
      requires Valid() && request in inFlight && !inFlight[request].completed
      modifies this`inFlight, this`finishing, this`answered
      ensures Valid() && Contents() == Answered(old(Contents()), request)
    {
      AnsweredIsConsistent(Contents(), request);
      inFlight := inFlight[request := inFlight[request].(completed := true)];
      answered := answered + [request];
      finishing := finishing[request := inFlight[request]];
    }

    /** The continuation of an execution that has ended, one way or another. */
    method HandleSettled(request: RequestId)
      requires Valid()
      modifies this`inFlight, this`finishing, this`answered
      ensures Valid()
      ensures inFlight == Completed(old(inFlight), {request})
      ensures answered == old(answered) + if request in old(inFlight) && !old(inFlight)[request].completed
              then [request] else []
    {
      CompletedMore(inFlight, {}, request);
      if request in inFlight && !inFlight[request].completed {
        Respond(request);
      }
    }

    /** A cancel message, for one request or for all of a job: every target that is in
        flight is completed, and those that were not are answered. */
    method HandleCancel(job: JobId, only: Option<RequestId>, supported: bool)
      requires Valid()
      modifies this`inFlight, this`finishing, this`answered
      ensures Valid()
      ensures var targets := if !supported then {} else if only.Some? then {only.value}
              else Scan(JobsOf(old(inFlight)), job);
              && inFlight == Completed(old(inFlight), targets)
              && Elements(answered) == Elements(old(answered)) + Unanswered(old(inFlight), targets)
    {
      CompletedMore(inFlight, {}, "");
      if !supported { return; }
      LookupIsScan(JobsOf(inFlight), jobIndex, job);
      var ids := if only.Some? then {only.value} else Lookup(jobIndex, job);
      CompleteAll(ids);
    }

    method CompleteAll(ids: set<RequestId>)
      requires Valid()
      modifies this`inFlight, this`finishing, this`answered
      ensures Valid() && inFlight == Completed(old(inFlight), ids)
      ensures Elements(answered) == Elements(old(answered)) + Unanswered(old(inFlight), ids)
    {
      var left := ids;
      CompletedMore(inFlight, {}, "");
      while left != {}
        invariant left <= ids && Valid()
        invariant Settling(old(inFlight), old(answered), inFlight, answered, ids - left)
        decreases left
      {
        var r :| r in left;
        SettlingMore(old(inFlight), old(answered), inFlight, answered, ids - left, r);
        assert ids - (left - {r}) == ids - left + {r};
        HandleSettled(r);
        left := left - {r};
      }
      assert ids - left == ids;
    }

    /** `cleanupRequest`, run when the response has been written; the connection may
        have closed and cleaned up before. */
    method HandleCleanUp(request: RequestId)
      requires Valid() && request in finishing
      modifies this
      ensures Valid()
      ensures inFlight == old(inFlight) - {request} && finishing == old(finishing) - {request}
      ensures accepted == old(accepted) && answered == old(answered) && dropped == old(dropped)
    {
      var task := finishing[request];
      assert Captured(finishing, inFlight, answered, request);
      LateCleanUpIsConsistent(Contents(), request, task.job);
      finishing := finishing - {request};
      if request in inFlight {
        assert AccountedAt(inFlight, accepted, answered, dropped, request);
        Leave(request);
      } else {
        jobIndex := Removed(jobIndex, task.job, request);
      }
    }

    /** The deletions of `cleanupRequest` for a request in flight. */
    method Leave(request: RequestId)
      requires Valid() && request in inFlight
      modifies this`inFlight, this`jobIndex, this`active, this`dropped
      ensures old(inFlight)[request].connection in old(active)
      ensures Valid() && Contents() == Gone(old(Contents()), request)
    {
      GoneIsConsistent(Contents(), request);
      var task := inFlight[request];
      inFlight := inFlight - {request};
      jobIndex := Removed(jobIndex, task.job, request);
      active := active[task.connection := active[task.connection] - {request}];
      if !task.completed { dropped := dropped + {request}; }
      assert Contents() == Gone(old(Contents()), request);
    }

    /** A closing socket aborts and cleans up all that is active on it. */
    method HandleClose(c: ConnectionId)
      requires Valid() && c in active
      modifies this
      ensures Valid() && c in active && active[c] == {}
      ensures inFlight == old(inFlight) - OnConnection(old(inFlight), c)
      ensures accepted == old(accepted) && answered == old(answered) && finishing == old(finishing)
    {
      assert MirrorsAt(active, inFlight, c);
      var left := active[c];
      ghost var all := left;
      while left != {}
        invariant left <= all && c in active && active[c] == left && Valid()
        invariant inFlight == old(inFlight) - (all - left)
        invariant accepted == old(accepted) && answered == old(answered) && finishing == old(finishing)
        decreases left
      {
        assert MirrorsAt(active, inFlight, c);
        var r :| r in left;
        Leave(r);
        assert all - (left - {r}) == (all - left) + {r};
        left := left - {r};
      }
      assert all - left == all;
    }

    /** The event loop over any order of turns. */
    method Run(turns: seq<Turn>)
      requires Contents() == Book(map[], map[], map[], map[], {}, [], {}) && FreshRequests(turns)
      modifies this
      ensures Valid()
    {
      var i := 0;
      while i < |turns|
        invariant 0 <= i <= |turns| && Valid()
        invariant forall r :: r in accepted ==> exists k :: 0 <= k < i && turns[k].Request? && turns[k].request == r
      {
        match turns[i] {
          case Open(c) => if c !in active { HandleOpen(c); }
          case Request(c, request, job, supported) =>
            if c in active { var _ := HandleRequest(c, request, job, supported); }
          case Cancel(job, only, supported) => HandleCancel(job, only, supported);
          case Settle(request) => HandleSettled(request);
          case CleanUp(request) => if request in finishing { HandleCleanUp(request); }
          case Close(c) => if c in active { HandleClose(c); }
        }
        i := i + 1;
      }
    }
  }
}
