/**
  Saving and restoring the scheduler queue: the pairs are listed in the order in which the
  heap stores them, without epochs, and inserted again in that order.
*/
module QueuePersistence {
  import opened EventQueue
  import BinaryHeap

  datatype Entry = Entry(key: Key, value: Action)

  function Strip(x: Item): Entry { Entry(x.key, x.value) }

  function StripAll(s: seq<Item>): seq<Entry> {
    if s == [] then [] else StripAll(s[..|s| - 1]) + [Strip(s[|s| - 1])]
  }

  /** The items that entries become when they are inserted into an empty queue. */
  function Restored(s: seq<Entry>): seq<Item> {
    seq(|s|, i requires 0 <= i < |s| => Item(s[i].key, i, s[i].value))
  }

  function Matches(h: set<Item>, e: Entry): set<Item> { set x | x in h && Strip(x) == e }

  /** How many items of `h` carry this key and value. */
  function Copies(h: set<Item>, e: Entry): nat { |Matches(h, e)| }

  method SaveQueue(q: PriorityQueue) returns (entries: seq<Entry>, ghost order: seq<Item>)
    ensures Lists(order, q.heap) && entries == StripAll(order)
    ensures forall e :: multiset(entries)[e] == Copies(q.heap, e)
  {
    var rest := q.heap;
    entries, order := [], [];
    while rest != {}
      invariant rest <= q.heap && Lists(order, q.heap - rest) && entries == StripAll(order)
      decreases rest
    {
      var x :| x in rest;
      rest := rest - {x};
      assert (order + [x])[..|order|] == order;
      entries, order := entries + [Strip(x)], order + [x];
    }
    assert q.heap - rest == q.heap;
    forall e ensures multiset(entries)[e] == Copies(q.heap, e) { CopiesListed(order, q.heap, e); }
  }

  method RestoreQueue(q: PriorityQueue, entries: seq<Entry>)
    modifies q
    ensures q.Valid() && q.nextEpoch == |entries| && Lists(Restored(entries), q.heap)
  {
    q.Clear();
    var i := 0;
    while i < |entries|
      invariant 0 <= i <= |entries| && q.Valid() && q.nextEpoch == i && Lists(Restored(entries[..i]), q.heap)
    {
      assert Restored(entries[..i + 1]) == Restored(entries[..i]) + [Item(entries[i].key, i, entries[i].value)];
      q.Insert(entries[i].key, entries[i].value);
      i := i + 1;
    }
    assert entries[..i] == entries;
  }

  lemma ListsFront(s: seq<Item>, h: set<Item>)
    requires Lists(s, h) && s != []
    ensures s[|s| - 1] in h && Lists(s[..|s| - 1], h - {s[|s| - 1]})
  {
    assert s == s[..|s| - 1] + [s[|s| - 1]];
  }

  lemma CopiesWithout(h: set<Item>, x: Item, e: Entry)
    requires x in h
    ensures Copies(h, e) == Copies(h - {x}, e) + if Strip(x) == e then 1 else 0
  {
    assert Matches(h - {x}, e) == Matches(h, e) - {x};
  }

  lemma {:induction false} CopiesListed(s: seq<Item>, h: set<Item>, e: Entry)
    requires Lists(s, h)
    ensures Copies(h, e) == multiset(StripAll(s))[e]
  {
    if s == [] {
      assert Matches(h, e) == {};
    } else {
      var x := s[|s| - 1];
      ListsFront(s, h);
      CopiesListed(s[..|s| - 1], h - {x}, e);
      CopiesWithout(h, x, e);
    }
  }

  lemma {:induction false} RestoredStripped(s: seq<Entry>)
    ensures StripAll(Restored(s)) == s
  {
    if s != [] {
      var last := |s| - 1;
      assert Restored(s)[..last] == Restored(s[..last]);
      RestoredStripped(s[..last]);
    }
  }

  // --- What is observed: the pairs that are pulled -----------------------------------------

  /** The items in the order in which they are pulled. */
  ghost predicate IsPullOrder(p: seq<Item>, h: set<Item>) { Lists(p, h) && Increasing(p) }

  /** Pulling until the queue is empty yields the pairs in that order. */
  method PullAll(q: PriorityQueue) returns (entries: seq<Entry>, ghost p: seq<Item>)
    requires q.Valid()
    modifies q`heap
    ensures q.heap == {} && IsPullOrder(p, old(q.heap)) && entries == StripAll(p)
  {
    entries, p := [], [];
    while q.heap != {}
      invariant q.Valid() && q.heap <= old(q.heap) && Lists(p, old(q.heap) - q.heap) && Increasing(p)
      invariant forall x, y {:trigger Less(x, y)} :: x in p && y in q.heap ==> Less(x, y)
      invariant entries == StripAll(p)
      decreases q.heap
    {
      var head := q.Pull();
      StripAllMore(p, head.value);
      entries, p := entries + [Strip(head.value)], p + [head.value];
    }
    assert old(q.heap) - q.heap == old(q.heap);
  }

  lemma {:induction false} StripAllMore(s: seq<Item>, x: Item)
    ensures StripAll(s + [x]) == StripAll(s) + [Strip(x)]
  {
    assert (s + [x])[..|s|] == s;
  }

  lemma {:induction false} StripAllAt(s: seq<Item>, i: nat)
    requires i < |s|
    ensures |StripAll(s)| == |s| && StripAll(s)[i] == Strip(s[i])
  {
    var last := |s| - 1;
    if i < last { StripAllAt(s[..last], i); } else if last > 0 { StripAllAt(s[..last], 0); }
  }

  lemma {:induction false} StripAllFront(x: Item, s: seq<Item>)
    ensures StripAll([x] + s) == [Strip(x)] + StripAll(s)
  {
    if s != [] {
      var last := |s| - 1;
      assert ([x] + s)[..|s|] == [x] + s[..last];
      StripAllFront(x, s[..last]);
    }
  }

  /** Items with equal keys carry equal values: their order does not show. */
  ghost predicate Unambiguous(h: set<Item>) {
    forall x, y :: x in h && y in h && x.key == y.key ==> x.value == y.value
  }

  /** The first item pulled; what is left is pulled in the order of the rest. */
  lemma {:induction false} PullOrderHead(p: seq<Item>, h: set<Item>)
    requires IsPullOrder(p, h) && h != {}
    ensures p != [] && IsLeast(p[0], h)
  {
    var x :| x in h;
    assert x in p;
    forall y | y in h && y != p[0] ensures Less(p[0], y) {
      var i :| 0 <= i < |p| && p[i] == y;
      assert Less(p[0], p[i]);
    }
  }

  lemma {:induction false} PullOrderTail(p: seq<Item>, h: set<Item>)
    requires IsPullOrder(p, h) && p != []
    ensures IsPullOrder(p[1..], h - {p[0]})
  {
    var t := p[1..];
    assert p == [p[0]] + t;
    forall i, j | 0 <= i < j < |t| ensures Less(t[i], t[j]) { assert Less(p[i + 1], p[j + 1]); }
  }

  lemma {:induction false} PullOrderFirst(p: seq<Item>, h: set<Item>)
    requires IsPullOrder(p, h) && h != {}
    ensures p != [] && IsLeast(p[0], h) && IsPullOrder(p[1..], h - {p[0]})
  {
    PullOrderHead(p, h);
    PullOrderTail(p, h);
  }

  lemma {:induction false} CopyExists(h: set<Item>, h': set<Item>, x: Item)
    requires x in h && Copies(h', Strip(x)) == Copies(h, Strip(x))
    ensures exists y :: y in h' && Strip(y) == Strip(x)
  {
    var e := Strip(x);
    assert x in Matches(h, e);
    assert |Matches(h', e)| != 0;
    var y :| y in Matches(h', e);
  }

  lemma {:induction false} NothingListed(p: seq<Item>, h: set<Item>)
    requires Lists(p, h)
    ensures p == [] <==> h == {}
  {
    if x :| x in h { assert x in p; }
    var inside := if |p| > 0 then p[0] in p else false;
  }

  /** The least items of two queues with the same pairs have the same key, and if it is unambiguous the same value. */
  lemma {:induction false} SameFirst(h: set<Item>, h': set<Item>, x: Item, x': Item)
    requires IsLeast(x, h) && IsLeast(x', h') && Unambiguous(h) && forall e :: Copies(h, e) == Copies(h', e)
    ensures Strip(x) == Strip(x')
  {
    CopyExists(h, h', x);
    var y' :| y' in h' && Strip(y') == Strip(x);
    CopyExists(h', h, x');
    var y :| y in h && Strip(y) == Strip(x');
    assert !KeyLess(y.key, x.key) && !KeyLess(y'.key, x'.key);
    assert x.key == x'.key;
  }

  lemma {:induction false} SamePulls(h: set<Item>, p: seq<Item>, h': set<Item>, p': seq<Item>)
    requires IsPullOrder(p, h) && IsPullOrder(p', h') && Unambiguous(h) && forall e :: Copies(h, e) == Copies(h', e)
    ensures StripAll(p) == StripAll(p')
    decreases |p|
  {
    if h == {} {
      if x' :| x' in h' { CopyExists(h', h, x'); }
      NothingListed(p, h);
      NothingListed(p', h');
    } else {
      PullOrderFirst(p, h);
      assert h' != {} by { CopyExists(h, h', p[0]); }
      PullOrderFirst(p', h');
      SameFirst(h, h', p[0], p'[0]);
      SameRest(h, p[0], h', p'[0]);
      SamePulls(h - {p[0]}, p[1..], h' - {p'[0]}, p'[1..]);
      StripAllFront(p[0], p[1..]);
      StripAllFront(p'[0], p'[1..]);
      assert p == [p[0]] + p[1..] && p' == [p'[0]] + p'[1..];
    }
  }

  /** A round trip preserves how often each pair occurs, and the order of pulls if equal keys carry equal values. */
  method SaveAndRestore(q: PriorityQueue)
    modifies q
    ensures q.Valid() && forall e :: Copies(q.heap, e) == Copies(old(q.heap), e)
    ensures Unambiguous(old(q.heap)) ==>
              forall p, p' :: IsPullOrder(p, old(q.heap)) && IsPullOrder(p', q.heap) ==> StripAll(p) == StripAll(p')
  {
    var entries, order := SaveQueue(q);
    ghost var h := q.heap;
    RestoreQueue(q, entries);
    forall e ensures Copies(q.heap, e) == Copies(h, e) {
      CopiesListed(order, h, e);
      CopiesListed(Restored(entries), q.heap, e);
      RestoredStripped(entries);
    }
    if Unambiguous(h) {
      forall p, p' | IsPullOrder(p, h) && IsPullOrder(p', q.heap) ensures StripAll(p) == StripAll(p') {
        SamePulls(h, p, q.heap, p');
      }
    }
  }

  // --- When the order is kept -----------------------------------------------------------------

  lemma {:induction false} PullOrderExists(h: set<Item>) returns (p: seq<Item>)
    requires Distinct(h)
    ensures IsPullOrder(p, h)
    decreases |h|
  {
    if h == {} {
      p := [];
    } else {
      LeastExists(h);
      var x :| IsLeast(x, h);
      var rest := PullOrderExists(h - {x});
      p := [x] + rest;
      forall i, j | 0 <= i < j < |p| ensures Less(p[i], p[j]) && p[i] != p[j] {
        assert p[j] == rest[j - 1] && rest[j - 1] in rest;
        if i > 0 { assert Less(rest[i - 1], rest[j - 1]); }
      }
      forall y ensures y in h <==> y in p { assert y in p <==> y == x || y in rest; }
    }
  }

  function ItemSet(s: seq<Item>): set<Item> { set x | x in s }

  /** Every listing of `h` restores a queue from which the same pairs are pulled in the same order. */
  ghost predicate AlwaysKept(h: set<Item>) {
    forall s, p, p' :: Lists(s, h) && IsPullOrder(p, h) && IsPullOrder(p', ItemSet(Restored(StripAll(s)))) ==>
        StripAll(p) == StripAll(p')
  }

  lemma {:induction false} RestoredLists(s: seq<Entry>)
    ensures Lists(Restored(s), ItemSet(Restored(s)))
  {
  }

  lemma {:induction false} RestoredCopies(s: seq<Item>, h: set<Item>)
    requires Lists(s, h)
    ensures forall e :: Copies(h, e) == Copies(ItemSet(Restored(StripAll(s))), e)
  {
    var r := Restored(StripAll(s));
    RestoredLists(StripAll(s));
    forall e ensures Copies(h, e) == Copies(ItemSet(r), e) {
      CopiesListed(s, h, e);
      CopiesListed(r, ItemSet(r), e);
      RestoredStripped(StripAll(s));
    }
  }

  lemma {:induction false} SameRest(h: set<Item>, x: Item, h': set<Item>, x': Item)
    requires x in h && x' in h' && Strip(x) == Strip(x') && forall e :: Copies(h, e) == Copies(h', e)
    ensures forall e :: Copies(h - {x}, e) == Copies(h' - {x'}, e)
  {
    forall e ensures Copies(h - {x}, e) == Copies(h' - {x'}, e) {
      CopiesWithout(h, x, e);
      CopiesWithout(h', x', e);
    }
  }

  lemma {:induction false} KeptIfUnambiguous(h: set<Item>)
    requires Unambiguous(h)
    ensures AlwaysKept(h)
  {
    forall s, p, p' | Lists(s, h) && IsPullOrder(p, h) && IsPullOrder(p', ItemSet(Restored(StripAll(s))))
      ensures StripAll(p) == StripAll(p')
    {
      RestoredCopies(s, h);
      SamePulls(h, p, ItemSet(Restored(StripAll(s))), p');
    }
  }

  /** In pull order, two items with equal keys and different values have two neighbours like that between them. */
  lemma {:induction false} Neighbours(p: seq<Item>, i: nat, j: nat) returns (k: nat)
    requires Increasing(p) && i < j < |p| && p[i].key == p[j].key && p[i].value != p[j].value
    ensures i <= k && k + 1 < |p| && p[k].key == p[k + 1].key && p[k].value != p[k + 1].value
    decreases j - i
  {
    if j == i + 1 {
      k := i;
    } else {
      assert Less(p[i], p[i + 1]) && Less(p[i + 1], p[j]);
      if p[i].value != p[i + 1].value {
        k := i;
      } else {
        k := Neighbours(p, i + 1, j);
      }
    }
  }

  /** A listing in order of keys is pulled again in its own order. */
  lemma {:induction false} RestoredInOrder(s: seq<Item>)
    requires forall i, j :: 0 <= i < j < |s| ==> !KeyLess(s[j].key, s[i].key)
    ensures IsPullOrder(Restored(StripAll(s)), ItemSet(Restored(StripAll(s))))
  {
    var r := Restored(StripAll(s));
    if s != [] { StripAllAt(s, 0); }
    forall i, j | 0 <= i < j < |r| ensures Less(r[i], r[j]) {
      StripAllAt(s, i);
      StripAllAt(s, j);
    }
  }

  /** The listing that exchanges two neighbours of the pull order with equal keys shows if their values differ. */
  lemma {:induction false} SwapShows(p: seq<Item>, h: set<Item>, k: nat) returns (s: seq<Item>)
    requires IsPullOrder(p, h) && k + 1 < |p| && p[k].key == p[k + 1].key && p[k].value != p[k + 1].value
    ensures s == p[k := p[k + 1]][k + 1 := p[k]] && Lists(s, h)
    ensures var p' := Restored(StripAll(s)); IsPullOrder(p', ItemSet(p')) && StripAll(p) != StripAll(p')
  {
    s := p[k := p[k + 1]][k + 1 := p[k]];
    BinaryHeap.SwapLists(p, h, k, k + 1);
    forall i, j | 0 <= i < j < |s| ensures !KeyLess(s[j].key, s[i].key) {
      assert s[i].key == p[i].key && s[j].key == p[j].key;
      assert Less(p[i], p[j]);
    }
    RestoredInOrder(s);
    RestoredStripped(StripAll(s));
    StripAllAt(s, k);
    StripAllAt(p, k);
    assert StripAll(s) != StripAll(p);
  }

  /** Two such neighbours from index `lo` on, if two items from there on have equal keys and different values. */
  lemma {:induction false} FindNeighbours(p: seq<Item>, h: set<Item>, lo: nat, x: Item, y: Item) returns (k: nat)
    requires IsPullOrder(p, h) && x in h && y in h && x.key == y.key && x.value != y.value
    requires forall i :: 0 <= i < lo && i < |p| ==> p[i] != x && p[i] != y
    ensures lo <= k && k + 1 < |p| && p[k].key == p[k + 1].key && p[k].value != p[k + 1].value
  {
    var a :| 0 <= a < |p| && p[a] == x;
    var b :| 0 <= b < |p| && p[b] == y;
    k := Neighbours(p, if a < b then a else b, if a < b then b else a);
  }

  /**
    A round trip keeps the order of the pairs pulled, whatever the listing, if and only if
    equal keys carry equal values.
  */
  lemma {:induction false} OrderKeptIffUnambiguous(h: set<Item>)
    requires Distinct(h)
    ensures AlwaysKept(h) <==> Unambiguous(h)
  {
    if Unambiguous(h) {
      KeptIfUnambiguous(h);
    } else {
      var x, y :| x in h && y in h && x.key == y.key && x.value != y.value;
      var p := PullOrderExists(h);
      var k := FindNeighbours(p, h, 0, x, y);
      var s := SwapShows(p, h, k);
    }
  }

  // --- The listings of a binary heap ---------------------------------------------------------------

  /** Every array in which a binary heap can store `h` restores a queue that is pulled in the same order. */
  ghost predicate KeptByHeaps(h: set<Item>) {
    forall s, p, p' ::
      BinaryHeap.IsHeapOf(s, h) && IsPullOrder(p, h) && IsPullOrder(p', ItemSet(Restored(StripAll(s)))) ==>
        StripAll(p) == StripAll(p')
  }

  /** All items but the first one to be pulled. */
  ghost function Rest(h: set<Item>): set<Item> { set x | x in h && !IsLeast(x, h) }

  lemma {:induction false} RestIsTail(h: set<Item>, x: Item)
    requires IsLeast(x, h)
    ensures Rest(h) == h - {x}
  {
  }

  /** The root of the array stays first. */
  lemma {:induction false} RootStaysFirst(s: seq<Item>, h: set<Item>)
    requires BinaryHeap.IsHeapOf(s, h) && s != []
    ensures IsLeast(s[0], h)
    ensures var r := Restored(StripAll(s)); r != [] && IsLeast(r[0], ItemSet(r)) && Strip(r[0]) == Strip(s[0])
  {
    BinaryHeap.PopTakesLeast(s, h);
    var r := Restored(StripAll(s));
    StripAllAt(s, 0);
    forall y | y in ItemSet(r) && y != r[0] ensures Less(r[0], y) {
      var i :| 0 <= i < |r| && r[i] == y;
      StripAllAt(s, i);
      BinaryHeap.RootIsLeast(s, i);
    }
  }

  lemma {:induction false} HeapKept(s: seq<Item>, h: set<Item>, p: seq<Item>, p': seq<Item>)
    requires BinaryHeap.IsHeapOf(s, h) && s != [] && Unambiguous(Rest(h))
    requires IsPullOrder(p, h) && IsPullOrder(p', ItemSet(Restored(StripAll(s))))
    ensures StripAll(p) == StripAll(p')
  {
    var r := Restored(StripAll(s));
    var h' := ItemSet(r);
    RootStaysFirst(s, h);
    RestIsTail(h, s[0]);
    assert r[0] in h';
    PullOrderFirst(p, h);
    PullOrderFirst(p', h');
    assert p[0] == s[0] && p'[0] == r[0];
    RestoredCopies(s, h);
    SameRest(h, s[0], h', r[0]);
    SamePulls(h - {s[0]}, p[1..], h' - {r[0]}, p'[1..]);
    StripAllFront(p[0], p[1..]);
    StripAllFront(p'[0], p'[1..]);
    assert p == [p[0]] + p[1..] && p' == [p'[0]] + p'[1..];
  }

  /** A pull order with two neighbours behind the first item exchanged is still a heap. */
  lemma {:induction false} SwapIsHeap(p: seq<Item>, h: set<Item>, k: nat, s: seq<Item>)
    requires IsPullOrder(p, h) && Distinct(h) && 1 <= k && k + 1 < |p|
    requires s == p[k := p[k + 1]][k + 1 := p[k]] && Lists(s, h)
    ensures BinaryHeap.IsHeapOf(s, h)
  {
    forall i: nat | 0 < i < |s| ensures BinaryHeap.NotAfter(s[BinaryHeap.Parent(i)], s[i]) {
      var j := BinaryHeap.Parent(i);
      var a := if j == k then k + 1 else if j == k + 1 then k else j;
      var b := if i == k then k + 1 else if i == k + 1 then k else i;
      assert s[j] == p[a] && s[i] == p[b] && a < b;
      assert Less(p[a], p[b]);
    }
  }

  /**
    For the arrays of binary heaps: the order of the pairs pulled is kept if and only if, apart
    from the first item, equal keys carry equal values.
  */
  lemma {:induction false} HeapOrderKeptIffRestUnambiguous(h: set<Item>)
    requires Distinct(h)
    ensures KeptByHeaps(h) <==> Unambiguous(Rest(h))
  {
    if Unambiguous(Rest(h)) {
      forall s, p, p' |
        BinaryHeap.IsHeapOf(s, h) && IsPullOrder(p, h) && IsPullOrder(p', ItemSet(Restored(StripAll(s))))
        ensures StripAll(p) == StripAll(p')
      {
        if s == [] { NothingKept(s, h, p, p'); } else { HeapKept(s, h, p, p'); }
      }
    } else {
      var x, y :| x in Rest(h) && y in Rest(h) && x.key == y.key && x.value != y.value;
      var p := PullOrderExists(h);
      PullOrderFirst(p, h);
      var k := FindNeighbours(p, h, 1, x, y);
      var s := SwapShows(p, h, k);
      SwapIsHeap(p, h, k, s);
    }
  }

  lemma {:induction false} NothingKept(s: seq<Item>, h: set<Item>, p: seq<Item>, p': seq<Item>)
    requires Lists(s, h) && s == [] && IsPullOrder(p, h) && IsPullOrder(p', ItemSet(Restored(StripAll(s))))
    ensures p == [] && p' == []
  {
    NothingListed(s, h);
    NothingListed(p, h);
    NothingListed(p', ItemSet(Restored(StripAll(s))));
  }

  // --- A heap for which it is not kept -----------------------------------------------------------

  /** The `n`-th of some queries that are scheduled with the same key, after one for an earlier time. */
  function Nth(k: Key, n: nat): Item { Item(if n == 0 then Key(k.time - 1, k.origin) else k, n, Query(0, n)) }

  function FivePushed(k: Key): seq<Item> {
    var two := BinaryHeap.Push(BinaryHeap.Push([], Nth(k, 0)), Nth(k, 1));
    BinaryHeap.Push(BinaryHeap.Push(BinaryHeap.Push(two, Nth(k, 2)), Nth(k, 3)), Nth(k, 4))
  }

  lemma {:induction false} PushedInOrder(a: seq<Item>, x: Item)
    requires |a| > 0 ==> !Less(x, a[BinaryHeap.Parent(|a|)])
    ensures BinaryHeap.Push(a, x) == a + [x]
  {
  }

  lemma {:induction false} FivePushedListed(k: Key)
    ensures FivePushed(k) == [Nth(k, 0), Nth(k, 1), Nth(k, 2), Nth(k, 3), Nth(k, 4)]
  {
    PushedInOrder([], Nth(k, 0));
    PushedInOrder([Nth(k, 0)], Nth(k, 1));
    PushedInOrder([Nth(k, 0), Nth(k, 1)], Nth(k, 2));
    PushedInOrder([Nth(k, 0), Nth(k, 1), Nth(k, 2)], Nth(k, 3));
    PushedInOrder([Nth(k, 0), Nth(k, 1), Nth(k, 2), Nth(k, 3)], Nth(k, 4));
  }

  /** After five pushes and the step for the earlier time the array is no longer in order of epochs. */
  lemma {:induction false} OnePopped(k: Key)
    ensures BinaryHeap.Pop(FivePushed(k)) == (Nth(k, 0), [Nth(k, 1), Nth(k, 3), Nth(k, 2), Nth(k, 4)])
  {
    FivePushedListed(k);
    var a := [Nth(k, 4), Nth(k, 1), Nth(k, 2), Nth(k, 3)];
    var b := [Nth(k, 1), Nth(k, 4), Nth(k, 2), Nth(k, 3)];
    var d := [Nth(k, 1), Nth(k, 3), Nth(k, 2), Nth(k, 4)];
    assert FivePushed(k)[..4][0 := FivePushed(k)[4]] == a;
    assert BinaryHeap.FirstChild(a, 0) == 1 && BinaryHeap.Swap(a, 0, 1) == b;
    assert BinaryHeap.FirstChild(b, 1) == 3 && BinaryHeap.Swap(b, 1, 3) == d;
    assert BinaryHeap.SiftToBottom(d, 3) == (d, 3);
    assert BinaryHeap.SiftToBottom(b, 1) == (d, 3);
    assert BinaryHeap.SiftToBottom(a, 0) == (d, 3);
    assert BinaryHeap.SiftUp(d, 3) == d;
  }

  /**
    Saving and restoring that queue swaps two queries: they were to be pulled in the order
    1, 2, 3, 4 and are pulled in the order 1, 3, 2, 4.
  */
  lemma {:induction false} RestoreSwaps(k: Key)
    ensures var left := BinaryHeap.Pop(FivePushed(k)).1;
            var p, p' := [Nth(k, 1), Nth(k, 2), Nth(k, 3), Nth(k, 4)], Restored(StripAll(left));
            && IsPullOrder(p, ItemSet(left)) && IsPullOrder(p', ItemSet(p'))
            && |p'| == 4 && Strip(p[1]) == Entry(k, Query(0, 2)) && Strip(p'[1]) == Entry(k, Query(0, 3))
  {
    OnePopped(k);
    var left := [Nth(k, 1), Nth(k, 3), Nth(k, 2), Nth(k, 4)];
    RestoredInOrder(left);
    StripAllAt(left, 1);
    var p := [Nth(k, 1), Nth(k, 2), Nth(k, 3), Nth(k, 4)];
    assert Lists(p, ItemSet(left)) by {
      assert left[0] == p[0] && left[1] == p[2] && left[2] == p[1] && left[3] == p[3];
    }
  }
}
