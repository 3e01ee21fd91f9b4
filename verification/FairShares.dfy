/**
 How a poll divides what it may fetch among the queues.  Queues are known here by the
 sizes of their backlogs, in the order in which the poll visits them.
 */
module FairShares {
  import opened Backlogs

  /** The least share, one at least, of which `n` make up `count`. */
  predicate IsFairShare(share: nat, count: nat, n: nat) {
    0 < share && count <= n * share && (share == 1 || n * (share - 1) < count)
  }

  /** `count.div_ceil(n).max(1)` */
  function FairShare(count: nat, n: nat): nat
    requires 0 < n
  {
    if count == 0 then 1 else (count + n - 1) / n
  }

  lemma FairShareIsFair(count: nat, n: nat)
    requires 0 < n
    ensures IsFairShare(FairShare(count, n), count, n)
  {
    CeilingIsLeast(count, n);
  }

  /** There is only one. */
  lemma FairShareIsOne(a: nat, b: nat, count: nat, n: nat)
    requires 0 < n && IsFairShare(a, count, n) && IsFairShare(b, count, n)
    ensures a == b
  {
    if a < b { LessIsLess(n, a, b - 1); }
    if b < a { LessIsLess(n, b, a - 1); }
  }

  lemma LessIsLess(n: nat, a: nat, b: nat)
    requires a <= b
    ensures n * a <= n * b
  {}

  lemma CeilingIsLeast(count: nat, n: nat)
    requires 0 < n
    ensures 0 < count ==> IsFairShare((count + n - 1) / n, count, n)
    ensures count == 0 ==> (count + n - 1) / n == 0
    ensures IsFairShare(1, 0, n)
  {
    var share, rest := (count + n - 1) / n, (count + n - 1) % n;
    DivMod(count + n - 1, n);
    assert n * share + rest == count + n - 1;
    assert n * share == n * (share - 1) + n;
    if 0 < count { FactorIsPositive(n, share); }
    if count == 0 { SmallQuotient(n - 1, n); }
  }

  lemma FactorIsPositive(n: nat, share: nat)
    requires 0 < n * share
    ensures 0 < share
  {}

  lemma DivMod(a: nat, n: nat)
    requires 0 < n
    ensures n * (a / n) + a % n == a && 0 <= a % n < n
  {}

  lemma SmallQuotient(a: nat, n: nat)
    requires a < n
    ensures a / n == 0
  {}

  // ---------- one pass

  /** What is left of `room` after the first `k` queues, each giving at most `cap`. */
  function Left(sizes: seq<nat>, cap: nat, room: nat, k: nat): (left: nat)
    requires k <= |sizes|
    ensures left <= room
  {
    if k == 0 then room
    else
      var left := Left(sizes, cap, room, k - 1);
      left - Least(sizes[k - 1], Least(cap, left))
  }

  /** What queue `k` gives. */
  function Share(sizes: seq<nat>, cap: nat, room: nat, k: nat): (share: nat)
    requires k < |sizes|
    ensures share <= sizes[k]
  {
    Least(sizes[k], Least(cap, Left(sizes, cap, room, k)))
  }

  /** What the queues have when the pass is through with the first `k` of them. */
  function Partway(sizes: seq<nat>, cap: nat, room: nat, k: nat): (now: seq<nat>)
    requires k <= |sizes|
    ensures |now| == |sizes|
  {
    seq(|sizes|, i requires 0 <= i < |sizes| => if i < k then sizes[i] - Share(sizes, cap, room, i) else sizes[i])
  }

  /** What they have afterwards. */
  function Rest(sizes: seq<nat>, cap: nat, room: nat): (rest: seq<nat>)
    ensures |rest| == |sizes|
  {
    Partway(sizes, cap, room, |sizes|)
  }

  lemma {:induction false} NothingLeft(sizes: seq<nat>, cap: nat, room: nat, k: nat, j: nat)
    requires k <= j <= |sizes| && Left(sizes, cap, room, k) == 0
    ensures Left(sizes, cap, room, j) == 0
    decreases j
  {
    if k < j { NothingLeft(sizes, cap, room, k, j - 1); }
  }

  /** From `sizes` and `room`, turns of the first `k` queues lead to `now` and `left`. */
  predicate IsPartway(sizes: seq<nat>, now: seq<nat>, cap: nat, room: nat, left: nat, k: nat)
    requires k <= |sizes| == |now|
    decreases k
  {
    if k == 0 then now == sizes && left == room
    else
      && now[k - 1] <= sizes[k - 1]
      && var given := sizes[k - 1] - now[k - 1];
         && given == Least(sizes[k - 1], Least(cap, left + given))
         && IsPartway(sizes, now[k - 1 := sizes[k - 1]], cap, room, left + given, k - 1)
  }

  lemma {:induction false} PartwayIs(sizes: seq<nat>, now: seq<nat>, cap: nat, room: nat, left: nat, k: nat)
    requires k <= |sizes| == |now| && IsPartway(sizes, now, cap, room, left, k)
    ensures now == Partway(sizes, cap, room, k) && left == Left(sizes, cap, room, k)
    decreases k
  {
    if k > 0 {
      var given := sizes[k - 1] - now[k - 1];
      var earlier := now[k - 1 := sizes[k - 1]];
      PartwayIs(sizes, earlier, cap, room, left + given, k - 1);
      forall i | 0 <= i < |sizes| ensures now[i] == Partway(sizes, cap, room, k)[i] {
        if i != k - 1 { assert now[i] == earlier[i]; }
      }
    }
  }

  lemma PassBegins(sizes: seq<nat>, cap: nat, room: nat)
    ensures IsPartway(sizes, sizes, cap, room, room, 0)
  {}

  lemma PassGoesOn(sizes: seq<nat>, soFar: seq<nat>, cap: nat, room: nat, left: nat, k: nat)
    requires k < |sizes| == |soFar| && IsPartway(sizes, soFar, cap, room, left, k)
    ensures var n := Least(soFar[k], Least(cap, left));
            IsPartway(sizes, soFar[k := soFar[k] - n], cap, room, left - n, k + 1)
  {
    PartwayIs(sizes, soFar, cap, room, left, k);
    var n := Least(soFar[k], Least(cap, left));
    assert soFar[k := soFar[k] - n][k := sizes[k]] == soFar;
  }

  /** A pass without room left is over, whether it goes on or not. */
  lemma {:induction false} PassStops(sizes: seq<nat>, now: seq<nat>, cap: nat, room: nat, k: nat)
    requires k <= |sizes| == |now| && IsPartway(sizes, now, cap, room, 0, k)
    ensures IsPartway(sizes, now, cap, room, 0, |sizes|)
    decreases |sizes| - k
  {
    if k < |sizes| {
      PassGoesOn(sizes, now, cap, room, 0, k);
      assert now[k := now[k]] == now;
      PassStops(sizes, now, cap, room, k + 1);
    }
  }

  lemma NothingToDo(sizes: seq<nat>, cap: nat)
    ensures IsPartway(sizes, sizes, cap, 0, 0, |sizes|)
  {
    PassBegins(sizes, cap, 0);
    PassStops(sizes, sizes, cap, 0, 0);
  }

  lemma NoShare(sizes: seq<nat>, cap: nat, room: nat, k: nat, i: nat)
    requires k <= i < |sizes| && Left(sizes, cap, room, k) == 0
    ensures Share(sizes, cap, room, i) == 0
  {
    NothingLeft(sizes, cap, room, k, i);
  }

  // ---------- a whole poll

  /** What the queues have after a poll for `count` jobs: a pass in which each gives its
      fair share at most, and one in which each gives all it can. */
  function Polled(sizes: seq<nat>, count: nat): (rest: seq<nat>)
    requires sizes != []
    ensures |rest| == |sizes|
  {
    var share := FairShare(count, |sizes|);
    Rest(Rest(sizes, share, count), count, Left(sizes, share, count, |sizes|))
  }

  // ---------- what a poll takes in all

  function SumTo(sizes: seq<nat>, k: nat): nat
    requires k <= |sizes|
  {
    if k == 0 then 0 else SumTo(sizes, k - 1) + sizes[k - 1]
  }

  lemma {:induction false} PassTakesRoom(sizes: seq<nat>, cap: nat, room: nat, k: nat)
    requires k <= |sizes|
    ensures SumTo(sizes, k) - SumTo(Rest(sizes, cap, room), k) == room - Left(sizes, cap, room, k)
  {
    if k > 0 {
      PassTakesRoom(sizes, cap, room, k - 1);
      assert Rest(sizes, cap, room)[k - 1] == sizes[k - 1] - Share(sizes, cap, room, k - 1);
    }
  }

  lemma {:induction false} UncappedEmpties(sizes: seq<nat>, cap: nat, room: nat, k: nat)
    requires k <= |sizes| && room <= cap && 0 < Left(sizes, cap, room, k)
    ensures SumTo(Rest(sizes, cap, room), k) == 0
  {
    if k > 0 {
      UncappedEmpties(sizes, cap, room, k - 1);
      assert Rest(sizes, cap, room)[k - 1] == sizes[k - 1] - Share(sizes, cap, room, k - 1);
    }
  }

  /** A poll takes all there is, up to its count. */
  lemma PolledTakesAll(sizes: seq<nat>, count: nat)
    requires sizes != []
    ensures var n, share := |sizes|, FairShare(count, |sizes|);
            var middle, room := Rest(sizes, share, count), Left(sizes, share, count, n);
            && SumTo(sizes, n) - SumTo(Polled(sizes, count), n) == Least(count, SumTo(sizes, n))
            && count - Left(middle, count, room, n) == Least(count, SumTo(sizes, n))
  {
    var n, share := |sizes|, FairShare(count, |sizes|);
    var middle, room := Rest(sizes, share, count), Left(sizes, share, count, n);
    PassTakesRoom(sizes, share, count, n);
    PassTakesRoom(middle, count, room, n);
    if 0 < Left(middle, count, room, n) { UncappedEmpties(middle, count, room, n); }
  }

  lemma PollIsDone(sizes: seq<nat>, middle: seq<nat>, rest: seq<nat>, count: nat, between: nat, left: nat)
    requires sizes != [] && |sizes| == |middle| == |rest| && between <= count
    requires IsPartway(sizes, middle, FairShare(count, |sizes|), count, between, |sizes|)
    requires IsPartway(middle, rest, count, between, left, |sizes|)
    ensures rest == Polled(sizes, count) && count - left == Least(count, SumTo(sizes, |sizes|))
  {
    PartwayIs(sizes, middle, FairShare(count, |sizes|), count, between, |sizes|);
    PartwayIs(middle, rest, count, between, left, |sizes|);
    PolledTakesAll(sizes, count);
  }

  lemma {:induction false} RoomIsLeft(sizes: seq<nat>, share: nat, count: nat, k: nat)
    requires k <= |sizes|
    ensures count - k * share <= Left(sizes, share, count, k)
  {
    if k > 0 {
      RoomIsLeft(sizes, share, count, k - 1);
      assert k * share == (k - 1) * share + share;
    }
  }

  /** No queue is starved by those before it: queue `k` gives its fair share, or what is
      left of the count when all before it have given theirs, or all it has. */
  lemma EveryQueueGetsItsShare(sizes: seq<nat>, count: nat, k: nat)
    requires k < |sizes|
    ensures var share := FairShare(count, |sizes|);
            k * share < count ==> Least(sizes[k], Least(share, count - k * share)) <= sizes[k] - Polled(sizes, count)[k]
  {
    RoomIsLeft(sizes, FairShare(count, |sizes|), count, k);
  }

  /** What the first pass has left goes to the queues in their order: one that is not
      emptied leaves nothing to those behind it beyond their fair shares. */
  lemma LeftoversGoInOrder(sizes: seq<nat>, count: nat, i: nat, k: nat)
    requires i < k < |sizes| && 0 < Polled(sizes, count)[i]
    ensures sizes[k] - Polled(sizes, count)[k] <= FairShare(count, |sizes|)
  {
    var share := FairShare(count, |sizes|);
    var middle, room := Rest(sizes, share, count), Left(sizes, share, count, |sizes|);
    CapIsNoLimit(middle, count, room, i);
    NoShare(middle, count, room, i + 1, k);
    ShareIsCapped(sizes, share, count, k);
  }

  lemma ShareIsCapped(sizes: seq<nat>, cap: nat, room: nat, k: nat)
    requires k < |sizes|
    ensures Share(sizes, cap, room, k) <= cap
  {}

  lemma CapIsNoLimit(sizes: seq<nat>, cap: nat, room: nat, i: nat)
    requires i < |sizes| && room <= cap && 0 < Rest(sizes, cap, room)[i]
    ensures Left(sizes, cap, room, i + 1) == 0
  {}
}
