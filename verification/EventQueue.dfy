/**
  The priority queue of the scheduler and of the injector: pairs ordered by key, and
  by an insertion epoch among equal keys.

  The standard binary heap underneath is used here through its contract only, which
  module BinaryHeap proves: it holds a collection of items in no particular order and
  gives up the greatest one, which with the reversed order of the source is the one with
  the least key and epoch.
*/
module EventQueue {
  import opened Wrappers

  /** A time stamp in nanoseconds and the identifier of the origin. */
  datatype Key = Key(time: int, origin: nat)

  /**
    What a queue holds; a period makes an event recurring, a cancel key makes it cancellable.
    A readily built future is found in the injector queue only.
  */
  datatype Action =
    | Event(source: nat, arg: nat, period: Option<nat>, cancelKey: Option<nat>)
    | Query(source: nat, arg: nat)
    | Ready(arg: nat)

  datatype Item = Item(key: Key, epoch: nat, value: Action)

  predicate KeyLess(a: Key, b: Key) { a.time < b.time || (a.time == b.time && a.origin < b.origin) }

  predicate Less(a: Item, b: Item) { KeyLess(a.key, b.key) || (a.key == b.key && a.epoch < b.epoch) }

  ghost predicate Increasing(s: seq<Item>) {
    forall i, j {:trigger Less(s[i], s[j])} :: 0 <= i < j < |s| ==> Less(s[i], s[j])
  }

  /** `s` lists the items of `h`, each once, in some order. */
  ghost predicate Lists(s: seq<Item>, h: set<Item>) {
    && (forall x :: x in h <==> x in s)
    && (forall i, j :: 0 <= i < j < |s| ==> s[i] != s[j])
  }

  predicate SameEpoch(a: Item, b: Item) { a.epoch == b.epoch }

  /** No two items were inserted at the same epoch. */
  ghost predicate Distinct(h: set<Item>) {
    forall x, y {:trigger SameEpoch(x, y)} :: x in h && y in h && SameEpoch(x, y) ==> x == y
  }

  predicate IsLeast(m: Item, h: set<Item>) {
    m in h && forall y :: y in h && y != m ==> Less(m, y)
  }

  lemma {:induction false} LeastExists(h: set<Item>)
    requires h != {} && Distinct(h)
    ensures exists m :: IsLeast(m, h)
    decreases |h|
  {
    var x :| x in h;
    var rest := h - {x};
    assert h == rest + {x};
    if rest == {} {
      assert IsLeast(x, h);
    } else {
      LeastExists(rest);
      var m :| IsLeast(m, rest);
      assert !SameEpoch(m, x);
      assert Less(m, x) || Less(x, m);
      assert IsLeast(if Less(m, x) then m else x, h);
    }
  }

  class PriorityQueue {
    var heap: set<Item>
    var nextEpoch: nat

    ghost predicate Valid()
      reads this
    {
      Distinct(heap) && forall x :: x in heap ==> x.epoch < nextEpoch
    }

    constructor ()
      ensures Valid() && heap == {} && nextEpoch == 0
    {
      heap, nextEpoch := {}, 0;
    }

    method Insert(key: Key, value: Action)
      requires Valid()
      modifies this
      ensures Valid() && nextEpoch == old(nextEpoch) + 1
      ensures heap == old(heap) + {Item(key, old(nextEpoch), value)}
    {
      heap := heap + {Item(key, nextEpoch, value)};
      nextEpoch := nextEpoch + 1;
    }

    method Peek() returns (r: Option<Item>)
      requires Valid()
      ensures r.None? <==> heap == {}
      ensures r.Some? ==> IsLeast(r.value, heap)
    {
      if heap == {} { return None; }
      LeastExists(heap);
      var m :| m in heap && IsLeast(m, heap);
      r := Some(m);
    }

    method Pull() returns (r: Option<Item>)
      requires Valid()
      modifies this`heap
      ensures Valid()
      ensures r.None? <==> old(heap) == {}
      ensures r.None? ==> heap == old(heap)
      ensures r.Some? ==> IsLeast(r.value, old(heap)) && heap == old(heap) - {r.value}
    {
      r := Peek();
      if r.Some? { heap := heap - {r.value}; }
    }

    method Clear()
      modifies this
      ensures Valid() && heap == {} && nextEpoch == 0
    {
      heap, nextEpoch := {}, 0;
    }
  }
}
