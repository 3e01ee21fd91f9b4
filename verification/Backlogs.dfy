/**
 What one claim takes from a queue's backlog, and how a locked head of the queue
 can hide ready jobs from it.
 */
module Backlogs {
  import opened Wrappers
  import opened JobRecord
  import opened JobStore
  import opened Collections

  /** The jobs of the queue a worker could run now. */
  function Backlog(records: Records, queue: QueueName, now: int): set<JobId> {
    set j | j in records && Claimable(records[j], queue, now)
  }

  /** Due entries that no claim can take: locked jobs and dangling entries. */
  function Stuck(records: Records, queue: QueueName, now: int): set<JobId> {
    set j | j in records && Ready(records[j], queue, now) && !Claimable(records[j], queue, now)
  }

  function Least(a: nat, b: nat): nat {
    if a < b then a else b
  }

  /** At most three quarters of what the claim scans is stuck, or it scans all that is ready. */
  predicate Reaches(records: Records, queue: QueueName, now: int, max: nat, window: seq<JobId>) {
    || |Elements(window) * Stuck(records, queue, now)| <= 3 * max
    || Backlog(records, queue, now) <= Elements(window)
  }

  lemma WindowSplits(records: Records, queue: QueueName, now: int, max: nat, window: seq<JobId>)
    requires IsWindow(records, queue, now, 4 * max, window)
    ensures var claimable, stuck := Elements(window) * Backlog(records, queue, now),
            Elements(window) * Stuck(records, queue, now);
            Elements(window) == claimable + stuck && |window| == |claimable| + |stuck|
    ensures |window| < 4 * max ==> Backlog(records, queue, now) <= Elements(window)
  {
    var claimable, stuck := Elements(window) * Backlog(records, queue, now),
        Elements(window) * Stuck(records, queue, now);
    DistinctSize(window);
    forall j | j in window ensures j in records && Ready(records[j], queue, now) {
      var i :| 0 <= i < |window| && window[i] == j;
      assert window[i] in ReadyIds(records, queue, now);
    }
    assert Elements(window) == claimable + stuck && claimable * stuck == {};
    forall j | j in Backlog(records, queue, now) ensures j in ReadyIds(records, queue, now) {}
  }

  /** The claim takes the claimable part of its window, up to its limit. */
  lemma ClaimTakesFromWindow(records: Records, queue: QueueName, now: int, max: nat, window: seq<JobId>)
    requires IsWindow(records, queue, now, 4 * max, window)
    ensures var claimed := Chosen(records, queue, now, max, window);
            var claimable := Elements(window) * Backlog(records, queue, now);
            && Distinct(claimed) && Elements(claimed) <= claimable
            && |claimed| == |Elements(claimed)| == Least(max, |claimable|)
            && (|claimed| < max ==> Elements(claimed) == claimable)
  {
    var claimed := Chosen(records, queue, now, max, window);
    var claimable := Elements(window) * Backlog(records, queue, now);
    ChosenIsClaimable(records, queue, now, max, window);
    DistinctSize(claimed);
    assert Elements(claimed) <= claimable;
    SubsetSize(Elements(claimed), claimable);
    if |claimed| < max {
      assert forall j :: j in claimable ==> At(records, j) == records[j];
      assert Elements(claimed) == claimable;
    }
  }

  /** A claim is work-conserving, taking as many jobs as are ready up to its limit, if
      and only if it reaches the backlog. */
  lemma ClaimTakesBacklog(records: Records, queue: QueueName, now: int, max: nat, window: seq<JobId>)
    requires IsWindow(records, queue, now, 4 * max, window)
    ensures var claimed := Chosen(records, queue, now, max, window);
            && Distinct(claimed) && Elements(claimed) <= Backlog(records, queue, now)
            && (|claimed| == Least(max, |Backlog(records, queue, now)|) <==> Reaches(records, queue, now, max, window))
  {
    var backlog, claimed := Backlog(records, queue, now), Chosen(records, queue, now, max, window);
    var claimable := Elements(window) * backlog;
    WindowSplits(records, queue, now, max, window);
    ClaimTakesFromWindow(records, queue, now, max, window);
    SubsetSize(claimable, backlog);
    if backlog <= Elements(window) {
      assert claimable == backlog;
    } else if |Elements(window) * Stuck(records, queue, now)| > 3 * max {
      assert |claimed| == |claimable| < max;
      if |claimable| == |backlog| { SameSize(claimable, backlog); }
    }
  }

  lemma SameSize<T>(a: set<T>, b: set<T>)
    requires a <= b && |a| == |b|
    ensures a == b
  {
    assert b == a + (b - a) && |b - a| == 0;
  }

  /** A claim leaves room and still misses a ready job if and only if it does not reach
      the backlog; its window is full then. */
  lemma MissedOnlyBehindStuckHead(records: Records, queue: QueueName, now: int, max: nat, window: seq<JobId>)
    requires IsWindow(records, queue, now, 4 * max, window)
    ensures var claimed := Chosen(records, queue, now, max, window);
            |claimed| < max && !(Backlog(records, queue, now) <= Elements(claimed)) <==>
                !Reaches(records, queue, now, max, window)
    ensures !Reaches(records, queue, now, max, window) ==> |window| == 4 * max
  {
    WindowSplits(records, queue, now, max, window);
    ClaimTakesFromWindow(records, queue, now, max, window);
  }

  /** The stuck entries in front of a ready job. */
  function StuckBefore(records: Records, queue: QueueName, now: int, j: JobId): set<JobId>
    requires queue in At(records, j).queued
  {
    set s | s in Stuck(records, queue, now) && queue in At(records, s).queued && Before(records, queue, s, j)
  }

  /** No ready job has more than three stuck entries in front of it. */
  predicate Shallow(records: Records, queue: QueueName, now: int) {
    forall j :: j in Backlog(records, queue, now) && queue in At(records, j).queued ==>
        |StuckBefore(records, queue, now, j)| <= 3
  }

  lemma ShallowIsReached(records: Records, queue: QueueName, now: int, max: nat, window: seq<JobId>)
    requires IsWindow(records, queue, now, 4 * max, window) && 0 < max && Shallow(records, queue, now)
    ensures Reaches(records, queue, now, max, window)
  {
    if j :| j in Backlog(records, queue, now) && j !in window {
      assert j in ReadyIds(records, queue, now);
      var stuck := Elements(window) * Stuck(records, queue, now);
      forall s | s in stuck ensures s in StuckBefore(records, queue, now, j) {
        var i :| 0 <= i < |window| && window[i] == s;
      }
      SubsetSize(stuck, StuckBefore(records, queue, now, j));
    }
  }

  /** A claim takes nothing at all if and only if the first ready job has four times the
      limit of stuck entries in front of it. */
  lemma ClaimIsEmptyBehindStuckHead(records: Records, queue: QueueName, now: int, max: nat, window: seq<JobId>,
                                    first: JobId)
    requires IsWindow(records, queue, now, 4 * max, window) && 0 < max
    requires first in Backlog(records, queue, now)
    requires forall j :: j in Backlog(records, queue, now) && j != first ==> Before(records, queue, first, j)
    ensures Chosen(records, queue, now, max, window) == [] <==> 4 * max <= |StuckBefore(records, queue, now, first)|
  {
    var head := StuckBefore(records, queue, now, first);
    if 4 * max <= |head| {
      HiddenBehindStuckHead(records, queue, now, max, window, head);
    }
    WindowSplits(records, queue, now, max, window);
    ClaimTakesFromWindow(records, queue, now, max, window);
    if Chosen(records, queue, now, max, window) == [] {
      assert first in ReadyIds(records, queue, now) && first !in window;
      forall s | s in window ensures s in head {
        var i :| 0 <= i < |window| && window[i] == s;
        assert s in Elements(window) * Stuck(records, queue, now);
      }
      DistinctSize(window);
      SubsetSize(Elements(window), head);
    }
  }

  /** Behind four times the limit of stuck entries nothing is claimed, however long it
      has been due. */
  lemma HiddenBehindStuckHead(records: Records, queue: QueueName, now: int, max: nat, window: seq<JobId>,
                              head: set<JobId>)
    requires IsWindow(records, queue, now, 4 * max, window)
    requires head <= Stuck(records, queue, now) && |head| >= 4 * max
    requires forall h, j :: h in head && j in Backlog(records, queue, now) ==> Before(records, queue, h, j)
    ensures Chosen(records, queue, now, max, window) == []
  {
    var claimed := Chosen(records, queue, now, max, window);
    ChosenIsClaimable(records, queue, now, max, window);
    if claimed != [] {
      var j := claimed[0];
      assert j in claimed && j in window;
      var i :| 0 <= i < |window| && window[i] == j;
      assert j in ReadyIds(records, queue, now) && j in Backlog(records, queue, now);
      forall h | h in head ensures h in window {
        assert h in ReadyIds(records, queue, now) && Before(records, queue, h, j);
        assert !Before(records, queue, window[i], h);
      }
      DistinctSize(window);
      SubsetSize(head + {j}, Elements(window));
    }
  }

  /** Such a head exists: four locked jobs hide a ready one from a claim of one. */
  lemma LockedHeadHidesReadyJob(window: seq<JobId>)
    requires IsWindow(HIDDEN, "q", 10, 4, window)
    ensures 5 in Backlog(HIDDEN, "q", 10) && Chosen(HIDDEN, "q", 10, 1, window) == []
  {
    var head := {1, 2, 3, 4};
    assert Claimable(HIDDEN[5], "q", 10) && !Claimable(BUSY, "q", 10) && Ready(BUSY, "q", 10);
    assert |head| == 4;
    assert HIDDEN.Keys == {1, 2, 3, 4, 5};
    assert Backlog(HIDDEN, "q", 10) == {5};
    assert head <= Stuck(HIDDEN, "q", 10);
    HiddenBehindStuckHead(HIDDEN, "q", 10, 1, window, head);
  }

  // ---------- several queues

  /** A static, orderly store: a job is due in one polled queue only, claimable
      jobs have sound definitions, and no ready job is far behind stuck entries. */
  ghost predicate Orderly(records: Records, queues: seq<QueueName>, now: int, cfg: Settings) {
    && (forall j, p, q :: j in records && p in queues && q in queues ==>
          Ready(records[j], p, now) && Ready(records[j], q, now) ==> p == q)
    && (forall j, q :: j in records && q in queues && Claimable(records[j], q, now) ==>
          Sound(cfg, records[j].hash.value))
    && (forall q :: q in queues ==> Shallow(records, q, now))
  }

  /** The claimed jobs have left `queue` and are locked; of the others only
      dangling entries may have gone. */
  ghost predicate Taken(before: Records, after: Records, queue: QueueName, now: int, claimed: seq<JobId>) {
    forall j ::
      var r, r' := At(before, j), At(after, j);
      if j in claimed then Claimable(r, queue, now) && r'.queued == r.queued - {queue} && Locked(r', now)
      else r' == r || (r.hash.None? && r' == RemoveFromQueue(r, queue))
  }

  lemma TakenStaysShallow(before: Records, after: Records, queue: QueueName, now: int)
    requires Shallow(before, queue, now)
    requires Stuck(after, queue, now) <= Stuck(before, queue, now)
    requires Backlog(after, queue, now) <= Backlog(before, queue, now)
    requires forall j :: j in after && Ready(after[j], queue, now) ==>
               queue in At(before, j).queued && At(before, j).queued[queue] == after[j].queued[queue]
    ensures Shallow(after, queue, now)
  {
    forall j | j in Backlog(after, queue, now) && queue in At(after, j).queued
      ensures |StuckBefore(after, queue, now, j)| <= 3
    {
      forall s | s in StuckBefore(after, queue, now, j) ensures s in StuckBefore(before, queue, now, j) {
        assert At(after, s) == after[s] && At(after, j) == after[j];
      }
      SubsetSize(StuckBefore(after, queue, now, j), StuckBefore(before, queue, now, j));
    }
  }

  lemma TakenFromQueue(before: Records, after: Records, queues: seq<QueueName>, queue: QueueName, now: int,
                       claimed: seq<JobId>, cfg: Settings, q: QueueName)
    requires Orderly(before, queues, now, cfg) && Taken(before, after, queue, now, claimed) && queue in queues
    requires q in queues
    ensures Backlog(after, q, now) == if q == queue then Backlog(before, q, now) - Elements(claimed)
            else Backlog(before, q, now)
    ensures Stuck(after, q, now) <= Stuck(before, q, now)
    ensures forall j :: j in after && Ready(after[j], q, now) ==>
              q in At(before, j).queued && At(before, j).queued[q] == after[j].queued[q]
  {
    forall j ensures j in Stuck(after, q, now) ==> j in Stuck(before, q, now) {
      assert At(after, j) == if j in after then after[j] else UNTOUCHED;
    }
    forall j ensures j in Backlog(after, q, now) <==> j in Backlog(before, q, now) && (q == queue ==> j !in claimed) {
      assert At(after, j) == if j in after then after[j] else UNTOUCHED;
    }
    forall j | j in after && Ready(after[j], q, now)
      ensures q in At(before, j).queued && At(before, j).queued[q] == after[j].queued[q]
    {
      assert At(after, j) == after[j];
    }
  }

  lemma TakenLeavesOrder(before: Records, after: Records, queues: seq<QueueName>, queue: QueueName, now: int,
                         claimed: seq<JobId>, cfg: Settings)
    requires Orderly(before, queues, now, cfg) && Taken(before, after, queue, now, claimed) && queue in queues
    ensures Orderly(after, queues, now, cfg)
    ensures Backlog(after, queue, now) == Backlog(before, queue, now) - Elements(claimed)
    ensures forall q :: q in queues && q != queue ==> Backlog(after, q, now) == Backlog(before, q, now)
  {
    forall q | q in queues
      ensures Backlog(after, q, now) == if q == queue then Backlog(before, q, now) - Elements(claimed)
              else Backlog(before, q, now)
      ensures Shallow(after, q, now)
    {
      TakenFromQueue(before, after, queues, queue, now, claimed, cfg, q);
      TakenStaysShallow(before, after, q, now);
    }
    forall j, p, q | j in after && p in queues && q in queues && Ready(after[j], p, now) && Ready(after[j], q, now)
      ensures p == q
    {
      assert At(after, j) == after[j] && Ready(At(before, j), p, now) && Ready(At(before, j), q, now);
    }
    forall j, q | j in after && q in queues && Claimable(after[j], q, now) ensures Sound(cfg, after[j].hash.value) {
      assert At(after, j) == after[j] && j !in claimed;
    }
  }

  /** Exactly `n` jobs have left the backlog of `queue`, and none any other. */
  ghost predicate Gives(before: Records, after: Records, queues: seq<QueueName>, queue: QueueName, now: int, n: int) {
    && |Backlog(after, queue, now)| == |Backlog(before, queue, now)| - n
    && forall q :: q in queues && q != queue ==> |Backlog(after, q, now)| == |Backlog(before, q, now)|
  }

  /** A job of the queue was taken, if one was ready. */
  ghost predicate Served(before: Records, after: Records, queue: QueueName, now: int) {
    Backlog(before, queue, now) != {} ==> |Backlog(after, queue, now)| < |Backlog(before, queue, now)|
  }

  lemma DifferenceSize<T>(a: set<T>, b: set<T>)
    requires b <= a
    ensures |a - b| == |a| - |b|
  {}

  const BUSY := Record(Some(Job(Active, 0, 3, Some(1), "q", None, true)), map["q" := 0], Some(Lock(Worker(1), 99)), {1},
                       0, false)
  const IDLE := Record(Some(Job(Pending, 0, 3, None, "q", None, true)), map["q" := 1], None, {}, 0, false)
  const HIDDEN: Records := map[1 := BUSY, 2 := BUSY, 3 := BUSY, 4 := BUSY, 5 := IDLE]
}
