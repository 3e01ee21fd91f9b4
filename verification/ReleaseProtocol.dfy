/**
 The release helpers of the poll loop, and its handling of a claimed job, undisturbed,
 do what the steps of the lifecycle protocol do one after the other.
 */
module ReleaseProtocol {
  import opened Wrappers
  import opened JobRecord
  import opened Lifecycle
  import Polling

  /** What the helper for this cause makes of the record. */
  function GivenBack(r: Record, queue: QueueName, cause: Cause, w: WorkerId, now: int): Record {
    match cause
    case Known(job) => Polling.ReleasedRecord(r, queue, job, w, now)
    case Malformed => Polling.QuarantinedRecord(r, queue, w, now)
    case Unread => Polling.UnreadRecord(r, queue, w, now)
  }

  function StepsOf(w: WorkerId, ops: seq<BatchOp>): seq<Step> {
    seq(|ops|, i requires 0 <= i < |ops| => Batch(w, ops[i]))
  }

  /** The operations from a phase on; `r` is the record then. */
  function OpsFrom(r: Record, phase: Phase, now: int): seq<BatchOp> {
    match phase
    case Marking(queue) => [MarkPending] + OpsFromChecking(r, queue, now)
    case Checking(queue) => OpsFromChecking(r, queue, now)
    case Purging(queue) => [Purge, Inspect] + (if r.hash.Some? then [Condemn] else []) + [RemoveActive, Unlock]
    case _ => [RemoveActive, Unlock]
  }

  function OpsFromChecking(r: Record, queue: QueueName, now: int): seq<BatchOp> {
    [CheckQueued] + (if queue in r.queued then [] else [AddToQueue(now)]) + [RemoveActive, Unlock]
  }

  /** The worker can take the operations, which leave the record as given and end its
      business with the job. */
  predicate Leads(cfg: Settings, now: int, v: View, w: WorkerId, ops: seq<BatchOp>, rec: Record) {
    && CanTake(cfg, now, v, StepsOf(w, ops))
    && AfterSteps(cfg, now, v, StepsOf(w, ops)).rec == rec
    && AfterSteps(cfg, now, v, StepsOf(w, ops)).tasks == v.tasks - {w}
    && AfterSteps(cfg, now, v, StepsOf(w, ops)).rescue == v.rescue
  }

  lemma LeadsFrom(cfg: Settings, now: int, v: View, w: WorkerId, op: BatchOp, rest: seq<BatchOp>, rec: Record)
    requires BatchEnabled(cfg, v, w, op)
    requires var next := Apply(cfg, now, v, Batch(w, op));
             Leads(cfg, now, next, w, rest, rec) && next.tasks - {w} == v.tasks - {w} && next.rescue == v.rescue
    ensures Leads(cfg, now, v, w, [op] + rest, rec)
  {
    TakeOne(cfg, now, v, Batch(w, op), StepsOf(w, rest));
    assert StepsOf(w, [op] + rest) == [Batch(w, op)] + StepsOf(w, rest);
  }

  lemma DroppingLeads(cfg: Settings, now: int, v: View, w: WorkerId)
    requires w in v.tasks && v.tasks[w] == Dropping
    ensures Leads(cfg, now, v, w, [RemoveActive, Unlock], Dropped(v.rec, w, now))
  {
    var removed := Apply(cfg, now, v, Batch(w, RemoveActive));
    var unlocked := Apply(cfg, now, removed, Batch(w, Unlock));
    TakeOne(cfg, now, removed, Batch(w, Unlock), []);
    TakeOne(cfg, now, v, Batch(w, RemoveActive), [Batch(w, Unlock)] + []);
    assert StepsOf(w, [RemoveActive, Unlock]) == [Batch(w, RemoveActive)] + ([Batch(w, Unlock)] + []);
  }

  lemma CheckingLeads(cfg: Settings, now: int, v: View, w: WorkerId, queue: QueueName)
    requires w in v.tasks && v.tasks[w] == Checking(queue)
    ensures Leads(cfg, now, v, w, OpsFromChecking(v.rec, queue, now),
                  Dropped(Polling.QueuedAgain(v.rec, queue, now), w, now))
  {
    var target := Dropped(Polling.QueuedAgain(v.rec, queue, now), w, now);
    var checked := Apply(cfg, now, v, Batch(w, CheckQueued));
    if queue in v.rec.queued {
      DroppingLeads(cfg, now, checked, w);
      LeadsFrom(cfg, now, v, w, CheckQueued, [RemoveActive, Unlock], target);
      assert OpsFromChecking(v.rec, queue, now) == [CheckQueued] + [RemoveActive, Unlock];
    } else {
      DroppingLeads(cfg, now, Apply(cfg, now, checked, Batch(w, AddToQueue(now))), w);
      LeadsFrom(cfg, now, checked, w, AddToQueue(now), [RemoveActive, Unlock], target);
      LeadsFrom(cfg, now, v, w, CheckQueued, [AddToQueue(now)] + [RemoveActive, Unlock], target);
      assert OpsFromChecking(v.rec, queue, now) == [CheckQueued] + ([AddToQueue(now)] + [RemoveActive, Unlock]);
    }
  }

  lemma MarkingLeads(cfg: Settings, now: int, v: View, w: WorkerId, queue: QueueName)
    requires w in v.tasks && v.tasks[w] == Marking(queue)
    ensures Leads(cfg, now, v, w, [MarkPending] + OpsFromChecking(v.rec, queue, now),
                  Dropped(Polling.QueuedAgain(JobRecord.MarkPending(v.rec), queue, now), w, now))
  {
    CheckingLeads(cfg, now, Apply(cfg, now, v, Batch(w, MarkPending)), w, queue);
    LeadsFrom(cfg, now, v, w, MarkPending, OpsFromChecking(v.rec, queue, now),
              Dropped(Polling.QueuedAgain(JobRecord.MarkPending(v.rec), queue, now), w, now));
  }

  lemma PurgingLeads(cfg: Settings, now: int, v: View, w: WorkerId, queue: QueueName)
    requires w in v.tasks && v.tasks[w] == Purging(queue)
    ensures var purged := RemoveFromQueue(v.rec, queue);
            Leads(cfg, now, v, w, OpsFrom(v.rec, Purging(queue), now),
                  Dropped(if purged.hash.Some? then JobRecord.Condemn(purged) else purged, w, now))
  {
    var purged := RemoveFromQueue(v.rec, queue);
    var target := Dropped(if purged.hash.Some? then JobRecord.Condemn(purged) else purged, w, now);
    InspectingLeads(cfg, now, Apply(cfg, now, v, Batch(w, Purge)), w);
    LeadsFrom(cfg, now, v, w, Purge, OpsFromInspecting(v.rec), target);
    assert OpsFrom(v.rec, Purging(queue), now) == [Purge] + OpsFromInspecting(v.rec);
  }

  function OpsFromInspecting(r: Record): seq<BatchOp> {
    [Inspect] + ((if r.hash.Some? then [Condemn] else []) + [RemoveActive, Unlock])
  }

  lemma InspectingLeads(cfg: Settings, now: int, v: View, w: WorkerId)
    requires w in v.tasks && v.tasks[w].Inspecting?
    ensures Leads(cfg, now, v, w, OpsFromInspecting(v.rec),
                  Dropped(if v.rec.hash.Some? then JobRecord.Condemn(v.rec) else v.rec, w, now))
  {
    var target := Dropped(if v.rec.hash.Some? then JobRecord.Condemn(v.rec) else v.rec, w, now);
    var inspected := Apply(cfg, now, v, Batch(w, Inspect));
    if v.rec.hash.Some? {
      DroppingLeads(cfg, now, Apply(cfg, now, inspected, Batch(w, Condemn)), w);
      LeadsFrom(cfg, now, inspected, w, Condemn, [RemoveActive, Unlock], target);
    } else {
      DroppingLeads(cfg, now, inspected, w);
      assert [] + [RemoveActive, Unlock] == [RemoveActive, Unlock];
    }
    LeadsFrom(cfg, now, v, w, Inspect, (if v.rec.hash.Some? then [Condemn] else []) + [RemoveActive, Unlock], target);
  }

  /** From the moment a worker decides to give a job back, whatever the cause, the
      protocol's steps are open to it and do exactly what the helper does. */
  lemma ReleaseFollowsProtocol(cfg: Settings, now: int, v: View, w: WorkerId, queue: QueueName, cause: Cause)
    requires w in v.tasks && v.tasks[w] == Releasing(queue, cause)
    ensures var phase := AfterOwnerRead(cause, queue, w, LockedByOther(v.rec, Worker(w), now));
            Leads(cfg, now, v, w, [ReadOwner] + OpsFrom(v.rec, phase, now), GivenBack(v.rec, queue, cause, w, now))
  {
    var phase := AfterOwnerRead(cause, queue, w, LockedByOther(v.rec, Worker(w), now));
    var read := Apply(cfg, now, v, Batch(w, ReadOwner));
    assert read.tasks[w] == phase && read.rec == v.rec;
    if phase.Dropping? { DroppingLeads(cfg, now, read, w); }
    else if phase.Marking? { MarkingLeads(cfg, now, read, w, queue); }
    else if phase.Checking? { CheckingLeads(cfg, now, read, w, queue); }
    else { PurgingLeads(cfg, now, read, w, queue); }
    LeadsFrom(cfg, now, v, w, ReadOwner, OpsFrom(v.rec, phase, now), GivenBack(v.rec, queue, cause, w, now));
  }

  /** So does the handling of a claimed job that the poll has loaded: a job under the
      worker's lock is dispatched with that lock refreshed, any other is given back. */
  lemma HandlingFollowsProtocol(cfg: Settings, now: int, v: View, w: WorkerId, queue: QueueName, found: Option<Job>)
    requires w in v.tasks && v.tasks[w] == Loaded(queue, found) && !Polling.Rejected(cfg, found)
    ensures var r' := Polling.HandledRecord(v.rec, queue, found, w, cfg, now);
            var cause := match found case Some(job) => Known(job) case None => Malformed;
            var phase := AfterOwnerRead(cause, queue, w, LockedByOther(v.rec, Worker(w), now));
            if found.Some? && LockedBy(v.rec, Worker(w), now) then
              && BatchEnabled(cfg, v, w, Lifecycle.Refresh)
              && Apply(cfg, now, v, Batch(w, Lifecycle.Refresh)) ==
                   v.(rec := r', tasks := v.tasks[w := Dispatched(queue, found.value, now)])
            else
              Leads(cfg, now, v, w,
                    [if found.Some? then Lifecycle.Refresh else GiveBack] + ([ReadOwner] + OpsFrom(v.rec, phase, now)),
                    r')
  {
    var cause := match found case Some(job) => Known(job) case None => Malformed;
    var phase := AfterOwnerRead(cause, queue, w, LockedByOther(v.rec, Worker(w), now));
    if found.None? || !LockedBy(v.rec, Worker(w), now) {
      var op := if found.Some? then Lifecycle.Refresh else GiveBack;
      var next := Apply(cfg, now, v, Batch(w, op));
      assert next == v.(tasks := v.tasks[w := Releasing(queue, cause)]);
      ReleaseFollowsProtocol(cfg, now, next, w, queue, cause);
      LeadsFrom(cfg, now, v, w, op, [ReadOwner] + OpsFrom(v.rec, phase, now),
                Polling.HandledRecord(v.rec, queue, found, w, cfg, now));
    }
  }
}
