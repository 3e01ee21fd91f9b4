/**
 A persistent connection to a runner: any number of `execute` calls share one map
 of pending requests and one closed flag with the reader task and the writer task,
 and every access to either is a step of its own.

 Request ids are fresh.  A oneshot channel is an `inbox` that should never get a
 second message; a sender that is dropped unsent counts as the message `Dropped`.
 */
module Connection {
  import opened Wrappers

  type WaiterId = nat
  type RequestId = string
  type JobId = string

  datatype Payload = Payload(request: Option<RequestId>, job: Option<JobId>)

  datatype Message = Outcome(payload: Payload) | Failure | Dropped

  datatype Error = ConnectionClosed | ResponseTimeout | RunnerFailure | JobMismatch | RequestMismatch

  /** Where an `execute` call is.  `passed` records whether it got past its second
      look at the closed flag. */
  datatype Phase =
    | Checking
    | Inserting
    | Rechecking
    | Removing(error: Error, passed: bool)
    | Sending
    | Waiting
    | Returned(result: Result<Payload, Error>)
    | Aborted(passed: bool)

  datatype Waiter = Waiter(request: RequestId, job: JobId, phase: Phase, inbox: seq<Message>)

  /** The reader and the writer task.  Both close the connection the same way: set
      the flag, drain the map, then fail the drained waiters one at a time. */
  datatype Task =
    | Serving
    | Handing(waiter: WaiterId, message: Message)
    | Flagging
    | Draining
    | Failing(left: set<WaiterId>)
    | Ended

  datatype Side = Reader | Writer

  datatype State = State(
    closed: bool,
    pending: map<RequestId, WaiterId>,
    waiters: map<WaiterId, Waiter>,
    reader: Task,
    writer: Task)

  const OPENED := State(false, map[], map[], Serving, Serving)

  datatype Event =
    | Call(waiter: WaiterId, request: RequestId, job: JobId)
    | Check(waiter: WaiterId)
    | Insert(waiter: WaiterId)
    | Recheck(waiter: WaiterId)
    | Send(waiter: WaiterId)
    | TakeMessage(waiter: WaiterId)
    | TimeOut(waiter: WaiterId)
    | Remove(waiter: WaiterId)
    | Abort(waiter: WaiterId)
    | Forget(request: RequestId)
    | Receive(payload: Payload)
    | Hand
    | Fail(side: Side)
    | SetFlag(side: Side)
    | Drain(side: Side)
    | FailOne(side: Side, waiter: WaiterId)
    | Finish(side: Side)

  function TaskOf(s: State, side: Side): Task {
    if side == Reader then s.reader else s.writer
  }

  function WithTask(s: State, side: Side, task: Task): State {
    if side == Reader then s.(reader := task) else s.(writer := task)
  }

  function WithPhase(s: State, w: WaiterId, phase: Phase): State
    requires w in s.waiters
  {
    s.(waiters := s.waiters[w := s.waiters[w].(phase := phase)])
  }

  function Deliver(s: State, w: WaiterId, message: Message): State {
    if w in s.waiters then s.(waiters := s.waiters[w := s.waiters[w].(inbox := s.waiters[w].inbox + [message])]) else s
  }

  predicate InPhase(s: State, w: WaiterId, phase: Phase) {
    w in s.waiters && s.waiters[w].phase == phase
  }

  predicate Enabled(s: State, e: Event) {
    match e
    case Call(w, request, _) => w !in s.waiters && forall x :: x in s.waiters ==> s.waiters[x].request != request
    case Check(w) => InPhase(s, w, Checking)
    case Insert(w) => InPhase(s, w, Inserting)
    case Recheck(w) => InPhase(s, w, Rechecking)
    case Send(w) => InPhase(s, w, Sending)
    case TakeMessage(w) => InPhase(s, w, Waiting) && s.waiters[w].inbox != []
    case TimeOut(w) => InPhase(s, w, Waiting)
    case Remove(w) => w in s.waiters && s.waiters[w].phase.Removing?
    case Abort(w) => w in s.waiters && !s.waiters[w].phase.Returned? && !s.waiters[w].phase.Aborted?
    case Forget(request) => request in s.pending
    case Receive(_) => s.reader == Serving
    case Hand => s.reader.Handing?
    case Fail(side) => TaskOf(s, side) == Serving
    case SetFlag(side) => TaskOf(s, side) == Flagging
    case Drain(side) => TaskOf(s, side) == Draining
    case FailOne(side, w) => TaskOf(s, side).Failing? && w in TaskOf(s, side).left
    case Finish(side) => TaskOf(s, side) == Failing({})
  }

  /** The checks `execute` makes on what it received. */
  function Judge(waiter: Waiter, message: Message): Result<Payload, Error> {
    match message
    case Failure => Err(RunnerFailure)
    case Dropped => Err(ConnectionClosed)
    case Outcome(payload) =>
      if payload.job != Some(waiter.job) then Err(JobMismatch)
      else if payload.request != Some(waiter.request) then Err(RequestMismatch)
      else Ok(payload)
  }

  predicate Passed(phase: Phase) {
    || phase.Sending? || phase.Waiting? || phase.Returned?
    || (phase.Removing? && phase.passed) || (phase.Aborted? && phase.passed)
  }

  /** What the reader does with an outcome: find its request; without an id, fail
      the only pending request, or close the connection when there are several. */
  ghost function Received(s: State, payload: Payload): State {
    match payload.request
    case Some(request) =>
      if request in s.pending then
        s.(pending := s.pending - {request}, reader := Handing(s.pending[request], Outcome(payload)))
      else s
    case None =>
      if s.pending == map[] then s
      else if |s.pending| == 1 then
        var request :| request in s.pending;
        s.(pending := map[], reader := Handing(s.pending[request], Failure))
      else s.(reader := Flagging)
  }

  ghost function Next(s: State, e: Event): State
    requires Enabled(s, e)
  {
    match e
    case Call(w, request, job) => s.(waiters := s.waiters[w := Waiter(request, job, Checking, [])])
    case Check(w) => WithPhase(s, w, if s.closed then Returned(Err(ConnectionClosed)) else Inserting)
    case Insert(w) =>
      WithPhase(s.(pending := s.pending[s.waiters[w].request := w]), w, Rechecking)
    case Recheck(w) => WithPhase(s, w, if s.closed then Removing(ConnectionClosed, false) else Sending)
    // The channel to the writer is gone once the writer has ended.
    case Send(w) => WithPhase(s, w, if s.writer == Ended then Removing(ConnectionClosed, true) else Waiting)
    case TakeMessage(w) => WithPhase(s, w, Returned(Judge(s.waiters[w], s.waiters[w].inbox[0])))
    case TimeOut(w) => WithPhase(s, w, Removing(ResponseTimeout, true))
    case Remove(w) =>
      WithPhase(s.(pending := s.pending - {s.waiters[w].request}), w, Returned(Err(s.waiters[w].phase.error)))
    case Abort(w) => WithPhase(s, w, Aborted(Passed(s.waiters[w].phase)))
    case Forget(request) => Deliver(s.(pending := s.pending - {request}), s.pending[request], Dropped)
    case Receive(payload) => Received(s, payload)
    case Hand => Deliver(s.(reader := Serving), s.reader.waiter, s.reader.message)
    case Fail(side) => WithTask(s, side, Flagging)
    case SetFlag(side) => WithTask(s.(closed := true), side, Draining)
    case Drain(side) => WithTask(s.(pending := map[]), side, Failing(s.pending.Values))
    case FailOne(side, w) => Deliver(WithTask(s, side, Failing(TaskOf(s, side).left - {w})), w, Failure)
    case Finish(side) => WithTask(s, side, Ended)
  }

  ghost predicate IsRun(s: State, run: seq<Event>)
    decreases |run|
  {
    run == [] || (Enabled(s, run[0]) && IsRun(Next(s, run[0]), run[1..]))
  }

  ghost function After(s: State, run: seq<Event>): State
    requires IsRun(s, run)
    decreases |run|
  {
    if run == [] then s else After(Next(s, run[0]), run[1..])
  }

  // ---------- the invariant

  /** The task holds the waiter's sender and owes it one message. */
  predicate Holds(task: Task, w: WaiterId) {
    (task.Handing? && task.waiter == w) || (task.Failing? && w in task.left)
  }

  predicate IsPending(s: State, w: WaiterId) {
    w in s.waiters && s.waiters[w].request in s.pending && s.pending[s.waiters[w].request] == w
  }

  predicate Drained(task: Task) {
    task.Failing? || task.Ended?
  }

  /** The message may be given to the waiter. */
  predicate Fitting(waiter: Waiter, message: Message) {
    message.Outcome? ==> message.payload.request == Some(waiter.request)
  }

  /** The one place where the waiter's sender is: in the map, with one of the two
      tasks, or spent. */
  predicate Placed(s: State, w: WaiterId)
    requires w in s.waiters
  {
    var waiter := s.waiters[w];
    && |waiter.inbox| <= 1
    && (IsPending(s, w) ==> waiter.inbox == [] && !Holds(s.reader, w) && !Holds(s.writer, w))
    && (Holds(s.reader, w) ==> waiter.inbox == [] && !Holds(s.writer, w))
    && (Holds(s.writer, w) ==> waiter.inbox == [])
    && (waiter.phase.Checking? || waiter.phase.Inserting? ==>
          !IsPending(s, w) && !Holds(s.reader, w) && !Holds(s.writer, w) && waiter.inbox == [])
    && (waiter.phase.Rechecking? || waiter.phase.Sending? || waiter.phase.Waiting? ==>
          IsPending(s, w) || Holds(s.reader, w) || Holds(s.writer, w) || waiter.inbox != [])
    && (waiter.phase.Returned? ==> !IsPending(s, w))
  }

  predicate Routed(s: State, w: WaiterId)
    requires w in s.waiters
  {
    var waiter := s.waiters[w];
    && (forall i :: 0 <= i < |waiter.inbox| ==> Fitting(waiter, waiter.inbox[i]))
    && (s.reader.Handing? && s.reader.waiter == w ==> Fitting(waiter, s.reader.message))
    && (waiter.phase.Returned? ==> HasCause(waiter, waiter.phase.result))
    && (waiter.phase.Removing? ==> GaveUp(waiter.phase.error))
  }

  /** Errors that no message brings. */
  predicate GaveUp(error: Error) {
    error == ConnectionClosed || error == ResponseTimeout
  }

  /** What the call returned is what its message calls for. */
  predicate HasCause(waiter: Waiter, result: Result<Payload, Error>) {
    match result
    case Ok(payload) => payload == Payload(Some(waiter.request), Some(waiter.job)) && waiter.inbox == [Outcome(payload)]
    case Err(error) =>
      match error
      case RunnerFailure => waiter.inbox == [Failure]
      case JobMismatch =>
        |waiter.inbox| == 1 && waiter.inbox[0].Outcome? && waiter.inbox[0].payload.job != Some(waiter.job)
      case RequestMismatch => false
      case _ => true
  }

  /** A closer sets the flag before it drains; after a drain nobody past the second
      look at the flag is in the map. */
  predicate Sealed(s: State, w: WaiterId)
    requires w in s.waiters
  {
    (Drained(s.reader) || Drained(s.writer)) && IsPending(s, w) ==> !Passed(s.waiters[w].phase)
  }

  predicate Flagged(s: State) {
    && (s.reader.Draining? || Drained(s.reader) || s.writer.Draining? || Drained(s.writer) ==> s.closed)
    && !s.writer.Handing?
  }

  predicate Known(s: State, task: Task) {
    && (task.Handing? ==> task.waiter in s.waiters)
    && (task.Failing? ==> task.left <= s.waiters.Keys)
  }

  predicate OwnedAt(s: State, r: RequestId)
    requires r in s.pending
  {
    s.pending[r] in s.waiters && s.waiters[s.pending[r]].request == r
  }

  predicate ToldApart(s: State, w: WaiterId, x: WaiterId)
    requires w in s.waiters && x in s.waiters
  {
    w != x ==> s.waiters[w].request != s.waiters[x].request
  }

  predicate Owned(s: State) {
    && (forall r :: r in s.pending ==> OwnedAt(s, r))
    && Known(s, s.reader) && Known(s, s.writer)
    && (forall w, x :: w in s.waiters && x in s.waiters ==> ToldApart(s, w, x))
  }

  predicate SoundAt(s: State, w: WaiterId)
    requires w in s.waiters
  {
    Placed(s, w) && Routed(s, w) && Sealed(s, w)
  }

  predicate Sound(s: State) {
    Flagged(s) && Owned(s) && forall w :: w in s.waiters ==> SoundAt(s, w)
  }

  lemma CallsKeepOwned(s: State, e: Event)
    requires Flagged(s) && Owned(s) && Enabled(s, e) && (e.Call? || e.Insert? || e.Remove?)
    ensures Owned(Next(s, e)) && Flagged(Next(s, e))
  {
    var t := Next(s, e);
    forall r | r in t.pending ensures OwnedAt(t, r) {
      if r in s.pending { assert OwnedAt(s, r); }
    }
    forall w, x | w in t.waiters && x in t.waiters ensures ToldApart(t, w, x) {
      if w in s.waiters && x in s.waiters { assert ToldApart(s, w, x); }
    }
  }

  /** Nobody comes, and the map loses entries at most. */
  ghost predicate NobodyJoins(s: State, t: State) {
    && t.waiters.Keys == s.waiters.Keys && (forall w :: w in s.waiters ==> t.waiters[w].request == s.waiters[w].request)
    && (forall r :: r in t.pending ==> r in s.pending && t.pending[r] == s.pending[r])
  }

  lemma OwnedWithoutJoins(s: State, t: State)
    requires Owned(s) && NobodyJoins(s, t) && Known(t, t.reader) && Known(t, t.writer)
    ensures Owned(t)
  {}

  lemma CallersKeepOwned(s: State, e: Event)
    requires Flagged(s) && Owned(s) && Enabled(s, e)
    requires e.Check? || e.Recheck? || e.Send? || e.TakeMessage? || e.TimeOut? || e.Abort?
    ensures Owned(Next(s, e)) && Flagged(Next(s, e))
  {
    OwnedWithoutJoins(s, Next(s, e));
  }

  lemma RemovalsKeepOwned(s: State, e: Event)
    requires Flagged(s) && Owned(s) && Enabled(s, e) && (e.Forget? || e.Receive? || e.Drain?)
    ensures Owned(Next(s, e)) && Flagged(Next(s, e))
  {
    if e.Receive? { ReceivingJoinsNobody(s, e.payload); } else { RemovalJoinsNobody(s, e); }
    OwnedWithoutJoins(s, Next(s, e));
  }

  lemma ReceivingJoinsNobody(s: State, payload: Payload)
    requires Flagged(s) && Owned(s) && s.reader == Serving
    ensures NobodyJoins(s, Received(s, payload)) && Flagged(Received(s, payload))
  {
    forall r | r in s.pending ensures s.pending[r] in s.waiters { assert OwnedAt(s, r); }
  }

  lemma RemovalJoinsNobody(s: State, e: Event)
    requires Flagged(s) && Owned(s) && Enabled(s, e) && (e.Forget? || e.Drain?)
    ensures NobodyJoins(s, Next(s, e)) && Flagged(Next(s, e))
  {
    forall r | r in s.pending ensures s.pending[r] in s.waiters { assert OwnedAt(s, r); }
  }

  lemma DeliveriesKeepOwned(s: State, e: Event)
    requires Flagged(s) && Owned(s) && Enabled(s, e) && (e.Hand? || e.FailOne?)
    ensures Owned(Next(s, e)) && Flagged(Next(s, e))
  {
    OwnedWithoutJoins(s, Next(s, e));
  }

  lemma ClosersKeepOwned(s: State, e: Event)
    requires Flagged(s) && Owned(s) && Enabled(s, e) && (e.Fail? || e.SetFlag? || e.Finish?)
    ensures Owned(Next(s, e)) && Flagged(Next(s, e))
  {
    OwnedWithoutJoins(s, Next(s, e));
  }

  lemma LookingKeepsSound(s: State, e: Event, x: WaiterId)
    requires Owned(s) && Flagged(s) && Enabled(s, e) && (e.Check? || e.Recheck? || e.Send?)
    requires x in s.waiters && SoundAt(s, x)
    ensures SoundAt(Next(s, e), x)
  {}

  lemma LeavingKeepsSound(s: State, e: Event, x: WaiterId)
    requires Owned(s) && Flagged(s) && Enabled(s, e) && (e.TakeMessage? || e.TimeOut? || e.Abort?)
    requires x in s.waiters && SoundAt(s, x)
    ensures SoundAt(Next(s, e), x)
  {}

  lemma EntryKeepsSound(s: State, e: Event, x: WaiterId)
    requires Owned(s) && Flagged(s) && Enabled(s, e) && (e.Insert? || e.Remove?)
    requires x in s.waiters && SoundAt(s, x)
    ensures SoundAt(Next(s, e), x)
  {
    if x != e.waiter { assert ToldApart(s, e.waiter, x); }
  }

  lemma CallKeepsSound(s: State, e: Event, x: WaiterId)
    requires Owned(s) && Flagged(s) && Enabled(s, e) && e.Call?
    requires x in Next(s, e).waiters && (x in s.waiters ==> SoundAt(s, x))
    ensures SoundAt(Next(s, e), x)
  {}

  lemma TheOnlyKey(m: map<RequestId, WaiterId>, r: RequestId, q: RequestId)
    requires |m| == 1 && r in m && q in m
    ensures q == r
  {
    var others := m.Keys - {r};
    assert |others| == |m.Keys| - 1;
    assert others == {};
  }

  lemma ReceivingKeepsSound(s: State, e: Event, x: WaiterId)
    requires Owned(s) && Flagged(s) && Enabled(s, e) && e.Receive?
    requires x in s.waiters && SoundAt(s, x)
    ensures SoundAt(Next(s, e), x)
  {
    if e.payload.request.None? {
      if |s.pending| == 1 && IsPending(s, x) {
        var r :| r in s.pending && Next(s, e).reader == Handing(s.pending[r], Failure);
        TheOnlyKey(s.pending, r, s.waiters[x].request);
      } else if |s.pending| == 1 {
        var r :| r in s.pending && Next(s, e).reader == Handing(s.pending[r], Failure);
        assert OwnedAt(s, r);
      }
    } else if e.payload.request.value in s.pending {
      assert OwnedAt(s, e.payload.request.value);
    }
  }

  lemma ForgettingKeepsSound(s: State, e: Event, x: WaiterId)
    requires Owned(s) && Flagged(s) && Enabled(s, e) && e.Forget?
    requires x in s.waiters && SoundAt(s, x)
    ensures SoundAt(Next(s, e), x)
  {}

  lemma HandingKeepsSound(s: State, e: Event, x: WaiterId)
    requires Owned(s) && Flagged(s) && Enabled(s, e) && e.Hand?
    requires x in s.waiters && SoundAt(s, x)
    ensures SoundAt(Next(s, e), x)
  {}

  lemma FailingOneKeepsSound(s: State, e: Event, x: WaiterId)
    requires Owned(s) && Flagged(s) && Enabled(s, e) && e.FailOne?
    requires x in s.waiters && SoundAt(s, x)
    ensures SoundAt(Next(s, e), x)
  {}

  lemma ClosingKeepsSound(s: State, e: Event, x: WaiterId)
    requires Owned(s) && Flagged(s) && Enabled(s, e) && (e.Fail? || e.SetFlag?)
    requires x in s.waiters && SoundAt(s, x)
    ensures SoundAt(Next(s, e), x)
  {}

  lemma EndingKeepsSound(s: State, e: Event, x: WaiterId)
    requires Owned(s) && Flagged(s) && Enabled(s, e) && e.Finish?
    requires x in s.waiters && SoundAt(s, x)
    ensures SoundAt(Next(s, e), x)
  {}

  lemma DrainingKeepsSound(s: State, e: Event, x: WaiterId)
    requires Owned(s) && Flagged(s) && Enabled(s, e) && e.Drain?
    requires x in s.waiters && SoundAt(s, x)
    ensures SoundAt(Next(s, e), x)
  {}

  lemma StepKeepsOwned(s: State, e: Event)
    requires Flagged(s) && Owned(s) && Enabled(s, e)
    ensures Owned(Next(s, e)) && Flagged(Next(s, e))
  {
    if e.Call? || e.Insert? || e.Remove? { CallsKeepOwned(s, e); }
    else if e.Check? || e.Recheck? || e.Send? || e.TakeMessage? || e.TimeOut? || e.Abort? { CallersKeepOwned(s, e); }
    else if e.Forget? || e.Receive? || e.Drain? { RemovalsKeepOwned(s, e); }
    else if e.Hand? || e.FailOne? { DeliveriesKeepOwned(s, e); }
    else { ClosersKeepOwned(s, e); }
  }

  lemma StepKeepsSoundAt(s: State, e: Event, x: WaiterId)
    requires Owned(s) && Flagged(s) && Enabled(s, e) && x in Next(s, e).waiters
    requires x in s.waiters ==> SoundAt(s, x)
    ensures SoundAt(Next(s, e), x)
  {
    if e.Call? { CallKeepsSound(s, e, x); }
    else if e.Check? || e.Recheck? || e.Send? { LookingKeepsSound(s, e, x); }
    else if e.TakeMessage? || e.TimeOut? || e.Abort? { LeavingKeepsSound(s, e, x); }
    else if e.Insert? || e.Remove? { EntryKeepsSound(s, e, x); }
    else if e.Forget? { ForgettingKeepsSound(s, e, x); }
    else if e.Receive? { ReceivingKeepsSound(s, e, x); }
    else if e.Hand? { HandingKeepsSound(s, e, x); }
    else if e.Drain? { DrainingKeepsSound(s, e, x); }
    else if e.FailOne? { FailingOneKeepsSound(s, e, x); }
    else if e.Finish? { EndingKeepsSound(s, e, x); }
    else { ClosingKeepsSound(s, e, x); }
  }

  lemma StepKeepsSound(s: State, e: Event)
    requires Sound(s) && Enabled(s, e)
    ensures Sound(Next(s, e))
  {
    StepKeepsOwned(s, e);
    forall x | x in Next(s, e).waiters ensures SoundAt(Next(s, e), x) {
      if x in s.waiters { assert SoundAt(s, x); }
      StepKeepsSoundAt(s, e, x);
    }
  }

  // ---------- what runs guarantee

  lemma {:induction false} RunKeepsSound(s: State, run: seq<Event>)
    requires Sound(s) && IsRun(s, run)
    ensures Sound(After(s, run))
    decreases |run|
  {
    if run != [] {
      StepKeepsSound(s, run[0]);
      RunKeepsSound(Next(s, run[0]), run[1..]);
    }
  }

  lemma OpenedIsSound()
    ensures Sound(OPENED)
  {}

  predicate Quiet(task: Task) {
    !task.Handing? && (task.Failing? ==> task.left == {})
  }

  /** Once a closer has drained the map, no call past its second look at the flag
      is left in it; and when no delivery is under way, every such call that is
      still waiting has its one message. */
  lemma NoStrandedWaiter(run: seq<Event>, w: WaiterId)
    requires IsRun(OPENED, run) && w in After(OPENED, run).waiters
    ensures var s := After(OPENED, run);
            Drained(s.reader) || Drained(s.writer) ==>
              && (Passed(s.waiters[w].phase) ==> !IsPending(s, w))
              && (Quiet(s.reader) && Quiet(s.writer) && s.waiters[w].phase.Waiting? ==> |s.waiters[w].inbox| == 1)
  {
    OpenedIsSound();
    RunKeepsSound(OPENED, run);
    assert SoundAt(After(OPENED, run), w);
  }

  /** No sender is ever used twice. */
  lemma AtMostOneMessage(run: seq<Event>, w: WaiterId)
    requires IsRun(OPENED, run) && w in After(OPENED, run).waiters
    ensures |After(OPENED, run).waiters[w].inbox| <= 1
  {
    OpenedIsSound();
    RunKeepsSound(OPENED, run);
    assert SoundAt(After(OPENED, run), w);
  }

  /** A call returns Ok only with an outcome that carries its own request id and its
      own job id, and the check of the request id never fails: an outcome without
      an id, or with another one, does not reach the call. */
  lemma OnlyItsOwnOutcome(run: seq<Event>, w: WaiterId)
    requires IsRun(OPENED, run) && w in After(OPENED, run).waiters
    ensures var waiter := After(OPENED, run).waiters[w];
            waiter.phase.Returned? ==>
              match waiter.phase.result
              case Ok(payload) => payload.request == Some(waiter.request) && payload.job == Some(waiter.job)
              case Err(error) => error != RequestMismatch
    ensures var waiter := After(OPENED, run).waiters[w];
            waiter.phase.Returned? ==> HasCause(waiter, waiter.phase.result)
  {
    OpenedIsSound();
    RunKeepsSound(OPENED, run);
    assert SoundAt(After(OPENED, run), w);
  }

  /** The closer owes the waiter its one error, or has given it. */
  predicate Owes(s: State, side: Side, w: WaiterId) {
    && w in s.waiters && Drained(TaskOf(s, side))
    && (if Holds(TaskOf(s, side), w) then s.waiters[w].inbox == [] else s.waiters[w].inbox == [Failure])
  }

  lemma {:induction false} OwedIsPaid(s: State, run: seq<Event>, side: Side, w: WaiterId)
    requires Sound(s) && IsRun(s, run) && Owes(s, side, w)
    ensures Owes(After(s, run), side, w)
    decreases |run|
  {
    if run != [] {
      StepKeepsSound(s, run[0]);
      OneStepOwes(s, run[0], side, w);
      OwedIsPaid(Next(s, run[0]), run[1..], side, w);
    }
  }

  lemma OneStepOwes(s: State, e: Event, side: Side, w: WaiterId)
    requires Sound(s) && Enabled(s, e) && Owes(s, side, w)
    ensures Owes(Next(s, e), side, w)
  {
    assert SoundAt(s, w);
    if IsCallers(e) {
      CallerOwes(s, e, side, w);
    } else if e.FailOne? || e.Finish? || e.Hand? {
      DeliveryOwes(s, e, side, w);
    } else if e.Forget? {
      assert OwnedAt(s, e.request);
      ForgettingOwes(s, e, side, w);
    } else {
      CloserOwes(s, e, side, w);
    }
  }

  predicate IsCallers(e: Event) {
    e.Call? || e.Check? || e.Insert? || e.Recheck? || e.Send? || e.TakeMessage? || e.TimeOut? || e.Remove? || e.Abort?
  }

  lemma CallerOwes(s: State, e: Event, side: Side, w: WaiterId)
    requires IsCallers(e) && Enabled(s, e) && Owes(s, side, w)
    ensures Owes(Next(s, e), side, w)
  {}

  lemma ForgettingOwes(s: State, e: Event, side: Side, w: WaiterId)
    requires Enabled(s, e) && Owes(s, side, w) && SoundAt(s, w)
    requires e.Forget? && OwnedAt(s, e.request)
    ensures Owes(Next(s, e), side, w)
  {}

  lemma CloserOwes(s: State, e: Event, side: Side, w: WaiterId)
    requires e.Receive? || e.Fail? || e.SetFlag? || e.Drain?
    requires Enabled(s, e) && Owes(s, side, w)
    ensures Owes(Next(s, e), side, w)
  {}

  lemma DeliveryOwes(s: State, e: Event, side: Side, w: WaiterId)
    requires Flagged(s) && Enabled(s, e) && Owes(s, side, w) && SoundAt(s, w)
    requires e.FailOne? || e.Finish? || e.Hand?
    ensures Owes(Next(s, e), side, w)
  {}

  /** Whatever happens after a drain, each drained call gets exactly one message
      by the time the closer has ended: an error. */
  lemma DrainedCallsGetOneError(s: State, side: Side, run: seq<Event>, w: WaiterId)
    requires Sound(s) && Enabled(s, Drain(side)) && IsPending(s, w) && IsRun(Next(s, Drain(side)), run)
    requires TaskOf(After(Next(s, Drain(side)), run), side).Ended?
    ensures w in After(Next(s, Drain(side)), run).waiters
    ensures After(Next(s, Drain(side)), run).waiters[w].inbox == [Failure]
  {
    assert SoundAt(s, w) && s.pending[s.waiters[w].request] in s.pending.Values;
    StepKeepsSound(s, Drain(side));
    OwedIsPaid(Next(s, Drain(side)), run, side, w);
  }

  /** The waiter will never get an outcome: it has none, the reader is not handing it
      one, and it is no longer pending or the reader no longer reads. */
  predicate Doomed(s: State, w: WaiterId) {
    && w in s.waiters
    && (forall i :: 0 <= i < |s.waiters[w].inbox| ==> !s.waiters[w].inbox[i].Outcome?)
    && !(s.reader.Handing? && s.reader.waiter == w && s.reader.message.Outcome?)
    && !s.waiters[w].phase.Checking? && !s.waiters[w].phase.Inserting?
    && (IsPending(s, w) ==> Closing(s.reader))
    && (s.waiters[w].phase.Returned? ==> s.waiters[w].phase.result.Err?)
  }

  predicate Closing(task: Task) {
    task.Flagging? || task.Draining? || task.Failing? || task.Ended?
  }

  lemma CallersStayDoomed(s: State, e: Event, w: WaiterId)
    requires Owned(s) && Enabled(s, e) && Doomed(s, w)
    requires IsCallers(e)
    ensures Doomed(Next(s, e), w)
  {
    if !e.Call? && e.waiter != w { assert ToldApart(s, e.waiter, w); }
  }

  lemma ReaderStaysDoomed(s: State, e: Event, w: WaiterId)
    requires Owned(s) && Flagged(s) && Enabled(s, e) && Doomed(s, w) && (e.Forget? || e.Receive? || e.Hand?)
    ensures Doomed(Next(s, e), w)
  {
    if e.Receive? && e.payload.request.Some? && e.payload.request.value in s.pending {
      assert OwnedAt(s, e.payload.request.value);
    }
  }

  lemma ClosersStayDoomed(s: State, e: Event, w: WaiterId)
    requires Enabled(s, e) && Doomed(s, w) && (e.Fail? || e.SetFlag? || e.Drain?)
    ensures Doomed(Next(s, e), w)
  {}

  lemma FailuresStayDoomed(s: State, e: Event, w: WaiterId)
    requires Enabled(s, e) && Doomed(s, w) && (e.FailOne? || e.Finish?)
    ensures Doomed(Next(s, e), w)
  {}

  lemma {:induction false} DoomedForEver(s: State, run: seq<Event>, w: WaiterId)
    requires Sound(s) && IsRun(s, run) && Doomed(s, w)
    ensures Doomed(After(s, run), w)
    decreases |run|
  {
    if run != [] {
      var e := run[0];
      StepKeepsSound(s, e);
      if e.Forget? || e.Receive? || e.Hand? {
        ReaderStaysDoomed(s, e, w);
      } else if e.Fail? || e.SetFlag? || e.Drain? {
        ClosersStayDoomed(s, e, w);
      } else if e.FailOne? || e.Finish? {
        FailuresStayDoomed(s, e, w);
      } else {
        CallersStayDoomed(s, e, w);
      }
      DoomedForEver(Next(s, e), run[1..], w);
    }
  }

  /** An outcome without a request id helps nobody: of the calls that are pending when
      it comes, one or many, none ever gets an outcome or returns Ok, whatever
      happens afterwards. */
  lemma UnnamedOutcomeHelpsNobody(before: seq<Event>, payload: Payload, after: seq<Event>, w: WaiterId)
    requires IsRun(OPENED, before) && payload.request.None?
    requires Enabled(After(OPENED, before), Receive(payload)) && IsPending(After(OPENED, before), w)
    requires IsRun(Next(After(OPENED, before), Receive(payload)), after)
    ensures var s := After(Next(After(OPENED, before), Receive(payload)), after);
            && w in s.waiters
            && (forall i :: 0 <= i < |s.waiters[w].inbox| ==> !s.waiters[w].inbox[i].Outcome?)
            && (s.waiters[w].phase.Returned? ==> s.waiters[w].phase.result.Err?)
  {
    var s, e := After(OPENED, before), Receive(payload);
    OpenedIsSound();
    RunKeepsSound(OPENED, before);
    assert SoundAt(s, w);
    var t := Next(s, e);
    if |s.pending| == 1 {
      var r :| r in s.pending && t.reader == Handing(s.pending[r], Failure);
      TheOnlyKey(s.pending, r, s.waiters[w].request);
    }
    StepKeepsSound(s, e);
    assert Doomed(t, w);
    DoomedForEver(t, after, w);
  }

  // ---------- what reaches a call

  /** On an open connection a call gets through: it is registered and waits. */
  lemma OpenCallWaits(s: State, w: WaiterId, request: RequestId, job: JobId)
    requires Enabled(s, Call(w, request, job)) && !s.closed && s.writer != Ended
    ensures var run := [Call(w, request, job), Check(w), Insert(w), Recheck(w), Send(w)];
            IsRun(s, run) &&
            After(s, run) == s.(waiters := s.waiters[w := Waiter(request, job, Waiting, [])],
                                pending := s.pending[request := w])
  {
    var waiter := Waiter(request, job, Checking, []);
    var s1 := s.(waiters := s.waiters[w := waiter]);
    var s2 := s.(waiters := s.waiters[w := waiter.(phase := Inserting)]);
    ListedCallWaits(s2, w);
    assert s2.waiters[w := waiter.(phase := Waiting)] == s.waiters[w := waiter.(phase := Waiting)];
    OneMore(s1, Check(w), s2, [Insert(w), Recheck(w), Send(w)]);
    OneMore(s, Call(w, request, job), s1, [Check(w)] + [Insert(w), Recheck(w), Send(w)]);
    assert [Call(w, request, job)] + ([Check(w)] + [Insert(w), Recheck(w), Send(w)]) ==
           [Call(w, request, job), Check(w), Insert(w), Recheck(w), Send(w)];
  }

  lemma ListedCallWaits(s: State, w: WaiterId)
    requires InPhase(s, w, Inserting) && !s.closed && s.writer != Ended
    ensures var run := [Insert(w), Recheck(w), Send(w)];
            IsRun(s, run) &&
            After(s, run) == WithPhase(s.(pending := s.pending[s.waiters[w].request := w]), w, Waiting)
  {
    var registered := s.(pending := s.pending[s.waiters[w].request := w]);
    var s2, s3 := WithPhase(registered, w, Rechecking), WithPhase(registered, w, Sending);
    OneMore(s3, Send(w), WithPhase(registered, w, Waiting), []);
    OneMore(s2, Recheck(w), s3, [Send(w)] + []);
    OneMore(s, Insert(w), s2, [Recheck(w)] + ([Send(w)] + []));
    assert [Insert(w)] + ([Recheck(w)] + ([Send(w)] + [])) == [Insert(w), Recheck(w), Send(w)];
  }

  lemma OneMore(s: State, e: Event, t: State, rest: seq<Event>)
    requires Enabled(s, e) && Next(s, e) == t && IsRun(t, rest)
    ensures IsRun(s, [e] + rest) && After(s, [e] + rest) == After(t, rest)
  {}

  /** On a closed connection a call is refused, before it is registered or after, and
      leaves nothing behind. */
  lemma ClosedCallIsRefused(s: State, w: WaiterId)
    requires s.closed && w in s.waiters
    ensures InPhase(s, w, Checking) ==>
              Next(s, Check(w)) == WithPhase(s, w, Returned(Err(ConnectionClosed)))
    ensures InPhase(s, w, Rechecking) ==>
              var t := Next(s, Recheck(w));
              Enabled(t, Remove(w)) &&
              Next(t, Remove(w)) ==
                WithPhase(s.(pending := s.pending - {s.waiters[w].request}), w, Returned(Err(ConnectionClosed)))
  {}

  /** A call whose request cannot be sent, or that waits too long, leaves nothing behind either. */
  lemma UnansweredCallGivesUp(s: State, w: WaiterId)
    requires w in s.waiters
    ensures InPhase(s, w, Sending) && s.writer == Ended ==>
              var t := Next(s, Send(w));
              Enabled(t, Remove(w)) &&
              Next(t, Remove(w)) ==
                WithPhase(s.(pending := s.pending - {s.waiters[w].request}), w, Returned(Err(ConnectionClosed)))
    ensures InPhase(s, w, Waiting) ==>
              var t := Next(s, TimeOut(w));
              Enabled(t, Remove(w)) &&
              Next(t, Remove(w)) ==
                WithPhase(s.(pending := s.pending - {s.waiters[w].request}), w, Returned(Err(ResponseTimeout)))
  {}

  /** What a call makes of its message. */
  function Due(waiter: Waiter, message: Message): Result<Payload, Error> {
    match message
    case Outcome(payload) => if payload.job == Some(waiter.job) then Ok(payload) else Err(JobMismatch)
    case Failure => Err(RunnerFailure)
    case Dropped => Err(ConnectionClosed)
  }

  lemma TakenMessageDecides(s: State, w: WaiterId)
    requires Sound(s) && Enabled(s, TakeMessage(w))
    ensures var t := Next(s, TakeMessage(w));
            t == WithPhase(s, w, Returned(Due(s.waiters[w], s.waiters[w].inbox[0])))
  {
    assert SoundAt(s, w) && Fitting(s.waiters[w], s.waiters[w].inbox[0]);
  }

  /** The outcome is on its way to the waiter, or there; if the waiter has returned, then
      with it, or having given up before. */
  predicate Brings(s: State, w: WaiterId, payload: Payload) {
    && w in s.waiters && payload.request == Some(s.waiters[w].request)
    && !s.waiters[w].phase.Checking? && !s.waiters[w].phase.Inserting?
    && (if s.reader == Handing(w, Outcome(payload)) then s.waiters[w].inbox == []
        else s.waiters[w].inbox == [Outcome(payload)])
    && (s.waiters[w].phase.Returned? ==>
          var result := s.waiters[w].phase.result;
          result == Due(s.waiters[w], Outcome(payload)) || (result.Err? && GaveUp(result.error)))
  }

  lemma CallersKeepBringing(s: State, e: Event, w: WaiterId, payload: Payload)
    requires Enabled(s, e) && IsCallers(e) && Brings(s, w, payload) && SoundAt(s, w)
    ensures Brings(Next(s, e), w, payload)
  {}

  lemma ReaderKeepsBringing(s: State, e: Event, w: WaiterId, payload: Payload)
    requires Owned(s) && Enabled(s, e) && (e.Forget? || e.Receive? || e.Hand?)
    requires Brings(s, w, payload) && SoundAt(s, w)
    ensures Brings(Next(s, e), w, payload)
  {
    if e.Receive? && e.payload.request.Some? && e.payload.request.value in s.pending {
      assert OwnedAt(s, e.payload.request.value);
    }
    if e.Forget? { assert OwnedAt(s, e.request); }
  }

  lemma ClosersKeepBringing(s: State, e: Event, w: WaiterId, payload: Payload)
    requires Flagged(s) && Enabled(s, e) && Brings(s, w, payload) && SoundAt(s, w)
    requires e.Fail? || e.SetFlag? || e.Drain? || e.FailOne? || e.Finish?
    ensures Brings(Next(s, e), w, payload)
  {}

  lemma {:induction false} StillBrought(s: State, run: seq<Event>, w: WaiterId, payload: Payload)
    requires Sound(s) && IsRun(s, run) && Brings(s, w, payload)
    ensures Brings(After(s, run), w, payload) && Sound(After(s, run))
    decreases |run|
  {
    if run != [] {
      var e := run[0];
      StepKeepsSound(s, e);
      assert SoundAt(s, w);
      if IsCallers(e) { CallersKeepBringing(s, e, w, payload); }
      else if e.Forget? || e.Receive? || e.Hand? { ReaderKeepsBringing(s, e, w, payload); }
      else { ClosersKeepBringing(s, e, w, payload); }
      StillBrought(Next(s, e), run[1..], w, payload);
    }
  }

  /** A correct outcome reaches its call: read while the call is pending, whatever else
      happens it ends up as the call's only message once the reader has handed it over;
      and a call that has not given up returns it, or says that the job is another's. */
  lemma OutcomeReachesItsCall(before: seq<Event>, w: WaiterId, payload: Payload, after: seq<Event>)
    requires IsRun(OPENED, before) && IsPending(After(OPENED, before), w)
    requires After(OPENED, before).reader == Serving
    requires payload.request == Some(After(OPENED, before).waiters[w].request)
    requires IsRun(Next(After(OPENED, before), Receive(payload)), after)
    ensures var s := After(Next(After(OPENED, before), Receive(payload)), after);
            && w in s.waiters
            && (s.reader != Handing(w, Outcome(payload)) ==> s.waiters[w].inbox == [Outcome(payload)])
            && (s.waiters[w].phase.Returned? ==>
                  var result := s.waiters[w].phase.result;
                  result == Due(s.waiters[w], Outcome(payload)) || (result.Err? && GaveUp(result.error)))
            && (s.waiters[w].phase.Waiting? && s.reader != Handing(w, Outcome(payload)) ==>
                  && Enabled(s, TakeMessage(w))
                  && Next(s, TakeMessage(w)).waiters[w].phase == Returned(Due(s.waiters[w], Outcome(payload))))
  {
    var s := After(OPENED, before);
    OpenedIsSound();
    RunKeepsSound(OPENED, before);
    assert SoundAt(s, w);
    StepKeepsSound(s, Receive(payload));
    StillBrought(Next(s, Receive(payload)), after, w, payload);
    var t := After(Next(s, Receive(payload)), after);
    if Enabled(t, TakeMessage(w)) { TakenMessageDecides(t, w); }
  }

  /** Receiving it and handing it over touches nobody else. */
  lemma OutcomeTouchesNobodyElse(s: State, w: WaiterId, payload: Payload, x: WaiterId)
    requires Sound(s) && IsPending(s, w) && s.reader == Serving && payload.request == Some(s.waiters[w].request)
    requires x in s.waiters && x != w
    ensures var t := Next(s, Receive(payload));
            && Enabled(t, Hand)
            && var u := Next(t, Hand);
               && u.reader == Serving && u.writer == s.writer && u.closed == s.closed
               && !IsPending(u, w) && u.waiters[w] == s.waiters[w].(inbox := [Outcome(payload)])
               && x in u.waiters && u.waiters[x] == s.waiters[x] && IsPending(u, x) == IsPending(s, x)
  {
    assert SoundAt(s, w) && ToldApart(s, w, x);
  }

  /** What becomes of an outcome without a request id: with no call pending it is dropped, one
      pending call gets a failure, and with several the reader closes the connection. */
  lemma UnnamedOutcomeIsAFailure(s: State, payload: Payload, w: WaiterId)
    requires Sound(s) && s.reader == Serving && payload.request.None?
    ensures s.pending == map[] ==> Next(s, Receive(payload)) == s
    ensures 1 < |s.pending| ==> Next(s, Receive(payload)) == s.(reader := Flagging)
    ensures IsPending(s, w) && |s.pending| == 1 ==>
              var t := Next(s, Receive(payload));
              && Enabled(t, Hand)
              && Next(t, Hand) == Deliver(s.(pending := map[]), w, Failure) && s.waiters[w].inbox == []
  {
    if IsPending(s, w) && |s.pending| == 1 {
      assert SoundAt(s, w);
      var r :| r in s.pending &&
               Next(s, Receive(payload)) == s.(pending := map[], reader := Handing(s.pending[r], Failure));
      TheOnlyKey(s.pending, r, s.waiters[w].request);
    }
  }

  /** An outcome for a request that is not pending is dropped. */
  lemma UnknownOutcomeIsDropped(s: State, payload: Payload)
    requires payload.request.Some? && payload.request.value !in s.pending && s.reader == Serving
    ensures Next(s, Receive(payload)) == s
  {}
}
