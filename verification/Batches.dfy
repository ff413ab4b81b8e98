/** ORDER BY … LIMIT, as the reaper's queries take their batches. */
module Batches {
  import opened Common

  /** The smallest keys, in any order among equals, and all of them if there are few enough. */
  ghost predicate Picks(key: map<nat, int>, batch: seq<nat>, limit: nat) {
    && Distinct(batch) && |batch| <= limit
    && (forall id :: id in batch ==> id in key)
    && (forall id, x :: id in batch && x in key && x !in batch ==> key[id] <= key[x])
    && (|batch| < limit ==> forall x :: x in key ==> x in batch)
  }

  /** First by key, then by id. */
  predicate Comes(key: map<nat, int>, a: nat, b: nat)
    requires a in key && b in key
  {
    key[a] < key[b] || (key[a] == key[b] && a <= b)
  }

  /** The batch of a query that orders by key and id. */
  ghost predicate PicksInOrder(key: map<nat, int>, batch: seq<nat>, limit: nat) {
    && Picks(key, batch, limit)
    && (forall id, x :: id in batch && x in key && x !in batch ==> Comes(key, id, x))
  }

  method First(key: map<nat, int>) returns (first: nat)
    requires key != map[]
    ensures first in key && forall x :: x in key ==> Comes(key, first, x)
  {
    var rest := key.Keys;
    first :| first in rest;
    rest := rest - {first};
    while rest != {}
      invariant rest <= key.Keys && first in key
      invariant forall x :: x in key && x !in rest ==> Comes(key, first, x)
      decreases rest
    {
      var x :| x in rest;
      if Comes(key, x, first) {
        first := x;
      }
      rest := rest - {x};
    }
  }

  method Pick(key: map<nat, int>, limit: nat) returns (batch: seq<nat>)
    ensures PicksInOrder(key, batch, limit)
  {
    batch := [];
    var rest := key;
    while |batch| < limit && rest != map[]
      invariant Distinct(batch) && |batch| <= limit
      invariant forall x :: x in key <==> x in rest || x in batch
      invariant forall x :: x in rest ==> x !in batch && rest[x] == key[x]
      invariant forall id, x :: id in batch && x in rest ==> Comes(key, id, x)
      decreases limit - |batch|
    {
      var id := First(rest);
      batch := batch + [id];
      rest := rest - {id};
    }
  }

  /** A batch taken out of `b` leaves at most the rest of it. */
  lemma {:induction false} WithoutBatch(a: set<nat>, b: set<nat>, batch: seq<nat>)
    requires Distinct(batch) && a <= b && forall id :: id in batch ==> id in b && id !in a
    ensures |a| + |batch| <= |b|
    decreases batch
  {
    if batch == [] {
      SubsetSize(a, b);
    } else {
      var last := batch[|batch| - 1];
      assert last in batch;
      WithoutBatch(a, b - {last}, batch[..|batch| - 1]);
    }
  }

  /** A batch with room for all takes all. */
  lemma PicksAll(key: map<nat, int>, batch: seq<nat>, limit: nat)
    requires Picks(key, batch, limit) && |key.Keys| <= limit
    ensures forall x :: x in key ==> x in batch
  {
    forall x | x in key ensures x in batch {
      if x !in batch {
        WithoutBatch({x}, key.Keys, batch);
      }
    }
  }
}
