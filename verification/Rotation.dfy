/** Round robin over `n` places. */
module Rotation {

  /** The place that is `offset` places after `start`. */
  function Turn(start: nat, offset: nat, n: nat): nat
    requires start < n && offset < n
  {
    (start + offset) % n
  }

  lemma SmallMod(a: nat, n: nat)
    requires 0 < n && a < 2 * n
    ensures a % n == if a < n then a else a - n
  {}

  lemma TurnsDiffer(start: nat, n: nat, i: nat, k: nat)
    requires start < n && i < n && k < n && i != k
    ensures Turn(start, i, n) != Turn(start, k, n)
  {
    SmallMod(start + i, n);
    SmallMod(start + k, n);
  }

  lemma TurnReaches(start: nat, n: nat, i: nat) returns (offset: nat)
    requires start < n && i < n
    ensures offset < n && Turn(start, offset, n) == i
  {
    offset := if start <= i then i - start else i + n - start;
    SmallMod(start + offset, n);
  }

  /** Each place follows the one before it. */
  ghost predicate Rotates(places: seq<nat>, n: nat) {
    && 0 < n
    && (forall k :: 0 <= k < |places| ==> places[k] < n)
    && (forall j, k :: 0 <= j < k == j + 1 && k < |places| ==> places[k] == (places[j] + 1) % n)
  }

  lemma RotatesOn(places: seq<nat>, n: nat, next: nat)
    requires Rotates(places, n) && next < n
    requires places != [] ==> next == (places[|places| - 1] + 1) % n
    ensures Rotates(places + [next], n)
  {}

  lemma {:induction false} RotatesBy(places: seq<nat>, n: nat, a: nat, offset: nat)
    requires Rotates(places, n) && a + offset < |places| && offset < n
    ensures places[a + offset] == Turn(places[a], offset, n)
  {
    SmallMod(places[a] + offset, n);
    if offset > 0 {
      RotatesBy(places, n, a, offset - 1);
      SmallMod(places[a] + offset - 1, n);
      SmallMod(places[a + offset - 1] + 1, n);
    }
  }

  /** Any n places in a row contain every place. */
  lemma EveryPlaceHasItsTurn(places: seq<nat>, n: nat, a: nat, i: nat)
    requires Rotates(places, n) && a + n <= |places| && i < n
    ensures exists k :: a <= k < a + n && places[k] == i
  {
    var offset := TurnReaches(places[a], n, i);
    RotatesBy(places, n, a, offset);
    assert places[a + offset] == i;
  }
}
