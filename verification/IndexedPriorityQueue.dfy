/**
  The indexed priority queue: a map from insertion keys to pairs, from which the pair
  with the least key, the earliest among equal keys, or any pair can be removed.
*/
module IndexedPriorityQueue {
  import opened IndexedHeap
  import opened Wrappers

  /** The unique index returned at insertion time. */
  datatype InsertKey = InsertKey(slabIdx: nat, epoch: nat)

  datatype Entry<V> = Entry(key: int, value: V)

  /** The pair that comes first: by key, then by insertion. */
  ghost predicate IsFirst<V>(k: InsertKey, m: map<InsertKey, Entry<V>>) {
    && k in m
    && forall k' :: k' in m && k' != k ==> m[k].key < m[k'].key || (m[k].key == m[k'].key && k.epoch < k'.epoch)
  }

  predicate SameEpoch(a: InsertKey, b: InsertKey) { a.epoch == b.epoch }

  ghost predicate UniqueEpochs<V>(m: map<InsertKey, Entry<V>>, next: nat) {
    && (forall k :: k in m ==> k.epoch < next)
    && (forall k, k' {:trigger SameEpoch(k, k')} :: k in m && k' in m && SameEpoch(k, k') ==> k == k')
  }

  ghost predicate NodeMapped<V>(h: seq<Item>, s: seq<Node<V>>, m: map<InsertKey, Entry<V>>, n: nat) {
    n < |s| && (s[n].HeapNode? && s[n].heapIdx < |h| ==>
      var x := h[s[n].heapIdx];
      InsertKey(n, x.epoch) in m && m[InsertKey(n, x.epoch)] == Entry(x.key, s[n].value))
  }

  ghost predicate KeyStored<V>(h: seq<Item>, s: seq<Node<V>>, k: InsertKey) {
    && k.slabIdx < |s| && s[k.slabIdx].HeapNode? && s[k.slabIdx].heapIdx < |h|
    && h[s[k.slabIdx].heapIdx].epoch == k.epoch
  }

  /** Heap and slab represent the map `m`. */
  ghost predicate Represents<V>(h: seq<Item>, s: seq<Node<V>>, m: map<InsertKey, Entry<V>>) {
    && Linked(h, s)
    && (forall n {:trigger NodeMapped(h, s, m, n)} :: 0 <= n < |s| ==> NodeMapped(h, s, m, n))
    && (forall k {:trigger KeyStored(h, s, k)} :: k in m ==> KeyStored(h, s, k))
  }

  lemma SameRepresents<V>(h: seq<Item>, s: seq<Node<V>>, h': seq<Item>, s': seq<Node<V>>, m: map<InsertKey, Entry<V>>)
    requires Represents(h, s, m) && SameItems(h, s, h', s') && Linked(h', s')
    ensures Represents(h', s', m)
  {
    forall n | 0 <= n < |s'|
      ensures NodeMapped(h', s', m, n)
    {
      assert NodeKept(h, s, h', s', n) && NodeMapped(h, s, m, n);
    }
    forall k | k in m ensures KeyStored(h', s', k) { assert KeyStored(h, s, k) && NodeKept(h, s, h', s', k.slabIdx); }
  }

  lemma FreedRepresents<V>(h: seq<Item>, s: seq<Node<V>>, h': seq<Item>, s': seq<Node<V>>, next: Option<nat>,
                           k: InsertKey, m: map<InsertKey, Entry<V>>)
    requires Represents(h, s, m) && Freed(h, s, h', s', k.slabIdx, next) && Linked(h', s') && k in m
    ensures Represents(h', s', m - {k})
  {
    forall n | 0 <= n < |s'| ensures NodeMapped(h', s', m - {k}, n) {
      if n != k.slabIdx { assert NodeKept(h, s, h', s', n) && NodeMapped(h, s, m, n); }
    }
    forall k' | k' in m - {k} ensures KeyStored(h', s', k') {
      assert KeyStored(h, s, k) && KeyStored(h, s, k');
      assert NodeKept(h, s, h', s', k'.slabIdx);
    }
  }

  predicate Differ(a: nat, b: nat) { a != b }

  function NextFree(free: seq<nat>, i: nat): Option<nat> {
    if i + 1 < |free| then Some(free[i + 1]) else None
  }

  ghost predicate FreeAt<V>(free: seq<nat>, s: seq<Node<V>>, i: nat) {
    i < |free| && free[i] < |s| && s[free[i]] == FreeNode(NextFree(free, i))
  }

  ghost predicate InList<V>(free: seq<nat>, s: seq<Node<V>>, n: nat) { n < |s| && (s[n].FreeNode? ==> n in free) }

  /** The free nodes in the order of the list that starts at `first`: all of them, each once. */
  ghost predicate FreeList<V>(free: seq<nat>, first: Option<nat>, s: seq<Node<V>>) {
    && first == (if free == [] then None else Some(free[0]))
    && (forall i {:trigger FreeAt(free, s, i)} :: 0 <= i < |free| ==> FreeAt(free, s, i))
    && (forall i, j {:trigger Differ(free[i], free[j])} :: 0 <= i < j < |free| ==> Differ(free[i], free[j]))
    && (forall n {:trigger InList(free, s, n)} :: 0 <= n < |s| ==> InList(free, s, n))
  }

  /** The list depends on the free nodes only. */
  lemma SameFreeList<V>(free: seq<nat>, first: Option<nat>, s: seq<Node<V>>, s': seq<Node<V>>)
    requires FreeList(free, first, s) && |s'| >= |s|
    requires forall n :: 0 <= n < |s| ==> if s[n].FreeNode? then s'[n] == s[n] else s'[n].HeapNode?
    requires forall n :: |s| <= n < |s'| ==> s'[n].HeapNode?
    ensures FreeList(free, first, s')
  {
    forall i | 0 <= i < |free| ensures FreeAt(free, s', i) { assert FreeAt(free, s, i); }
    forall n | 0 <= n < |s'| ensures InList(free, s', n) { if n < |s| { assert InList(free, s, n); } }
  }

  lemma FreedList<V>(free: seq<nat>, first: Option<nat>, h: seq<Item>, s: seq<Node<V>>, h': seq<Item>,
                     s': seq<Node<V>>, d: nat)
    requires FreeList(free, first, s) && d < |s| && s[d].HeapNode? && Freed(h, s, h', s', d, first)
    ensures FreeList([d] + free, Some(d), s')
  {
    var free' := [d] + free;
    forall i | 0 <= i < |free'| ensures FreeAt(free', s', i) {
      if i > 0 { assert FreeAt(free, s, i - 1) && NodeKept(h, s, h', s', free[i - 1]); }
    }
    forall i, j | 0 <= i < j < |free'| ensures Differ(free'[i], free'[j]) {
      if i == 0 { assert FreeAt(free, s, j - 1); } else { assert Differ(free[i - 1], free[j - 1]); }
    }
    forall n | 0 <= n < |s'| ensures InList(free', s', n) {
      if n != d { assert InList(free, s, n) && NodeKept(h, s, h', s', n); }
    }
  }

  lemma ReuseFreeList<V>(free: seq<nat>, first: Option<nat>, s: seq<Node<V>>, node: Node<V>)
    requires FreeList(free, first, s) && first.Some? && node.HeapNode?
    ensures first.value < |s| && s[first.value] == FreeNode(NextFree(free, 0))
    ensures FreeList(free[1..], NextFree(free, 0), s[first.value := node])
  {
    assert FreeAt(free, s, 0);
    var free', s' := free[1..], s[first.value := node];
    forall i | 0 <= i < |free'| ensures FreeAt(free', s', i) {
      assert FreeAt(free, s, i + 1) && Differ(free[0], free[i + 1]);
    }
    forall i, j | 0 <= i < j < |free'| ensures Differ(free'[i], free'[j]) { assert Differ(free[i + 1], free[j + 1]); }
    forall n | 0 <= n < |s'| ensures InList(free', s', n) {
      assert InList(free, s, n) && free == [free[0]] + free';
    }
  }

  /** A new item at the end of the heap, with a node that was free or comes at the end of the slab. */
  lemma NewItem<V>(h: seq<Item>, s: seq<Node<V>>, s': seq<Node<V>>, m: map<InsertKey, Entry<V>>, x: Item, v: V)
    requires Represents(h, s, m) && x.slabIdx < |s'| && |s| <= |s'|
    requires if x.slabIdx < |s| then s[x.slabIdx].FreeNode? && |s'| == |s| else |s'| == |s| + 1
    requires s'[x.slabIdx] == HeapNode(v, |h|) && forall n :: 0 <= n < |s| && n != x.slabIdx ==> s'[n] == s[n]
    ensures Represents(h + [x], s', m[InsertKey(x.slabIdx, x.epoch) := Entry(x.key, v)])
  {
    var h', m' := h + [x], m[InsertKey(x.slabIdx, x.epoch) := Entry(x.key, v)];
    forall i | 0 <= i < |h'| ensures ItemLinked(h', s', i) { if i < |h| { assert ItemLinked(h, s, i); } }
    forall n | 0 <= n < |s'| ensures NodeLinked(h', s', n) && NodeMapped(h', s', m', n) {
      if n != x.slabIdx { assert NodeLinked(h, s, n) && NodeMapped(h, s, m, n); }
    }
    forall k | k in m' ensures KeyStored(h', s', k) {
      if k in m { assert KeyStored(h, s, k); }
    }
  }

  lemma NewEpoch<V>(m: map<InsertKey, Entry<V>>, next: nat, k: InsertKey, e: Entry<V>)
    requires UniqueEpochs(m, next) && k.epoch == next
    ensures k !in m && UniqueEpochs(m[k := e], next + 1)
  {
  }

  /** What every item of the heap stands for. */
  lemma ItemMapped<V>(h: seq<Item>, s: seq<Node<V>>, m: map<InsertKey, Entry<V>>, i: nat)
    requires Represents(h, s, m) && i < |h|
    ensures ItemLinked(h, s, i)
    ensures var k := InsertKey(h[i].slabIdx, h[i].epoch); k in m && m[k] == Entry(h[i].key, s[h[i].slabIdx].value)
  {
    assert ItemLinked(h, s, i) && NodeMapped(h, s, m, h[i].slabIdx);
  }

  lemma RootIsFirst<V>(h: seq<Item>, s: seq<Node<V>>, m: map<InsertKey, Entry<V>>, next: nat)
    requires Represents(h, s, m) && Ordered(h) && UniqueEpochs(m, next) && |h| > 0
    ensures IsFirst(InsertKey(h[0].slabIdx, h[0].epoch), m)
  {
    ItemMapped(h, s, m, 0);
    var k := InsertKey(h[0].slabIdx, h[0].epoch);
    forall k' | k' in m && k' != k ensures m[k].key < m[k'].key || (m[k].key == m[k'].key && k.epoch < k'.epoch) {
      assert KeyStored(h, s, k') && NodeMapped(h, s, m, k'.slabIdx);
      RootIsLeast(h, s[k'.slabIdx].heapIdx);
      assert !SameEpoch(k, k');
    }
  }

  lemma NothingRepresented<V>(s: seq<Node<V>>, m: map<InsertKey, Entry<V>>)
    requires Represents([], s, m)
    ensures m == map[]
  {
    forall k ensures k !in m { var stored := KeyStored([], s, k); }
  }

  /** The test of `extract` finds exactly the keys of the queue. */
  lemma KeyTest<V>(h: seq<Item>, s: seq<Node<V>>, m: map<InsertKey, Entry<V>>, k: InsertKey)
    requires Represents(h, s, m)
    ensures k.slabIdx < |s| && s[k.slabIdx].HeapNode? ==>
              s[k.slabIdx].heapIdx < |h| && h[s[k.slabIdx].heapIdx].slabIdx == k.slabIdx
    ensures k in m <==> KeyStored(h, s, k)
    ensures k in m ==> m[k] == Entry(h[s[k.slabIdx].heapIdx].key, s[k.slabIdx].value)
  {
    if k in m { assert KeyStored(h, s, k); }
    if k.slabIdx < |s| { assert NodeLinked(h, s, k.slabIdx) && NodeMapped(h, s, m, k.slabIdx); }
  }

  /** The item at `i` and its node are removed: it was the last one, or the last one has to be sifted in its place. */
  lemma LastOrInner<V>(h: seq<Item>, s: seq<Node<V>>, i: nat, next: Option<nat>)
    requires Linked(h, s) && Ordered(h) && i < |h|
    ensures ItemLinked(h, s, i)
    ensures h[|h| - 1].slabIdx == h[i].slabIdx <==> i == |h| - 1
    ensures var d, last, h' := h[i].slabIdx, h[|h| - 1], h[..|h| - 1];
            var s' := s[d := FreeNode(next)];
            && (i == |h| - 1 ==> Linked(h', s') && Ordered(h') && Freed(h, s, h', s', d, next))
            && (i < |h| - 1 ==>
                  && CanPlace(h', s', last, i)
                  && Freed(h, s, h'[i := last], Relink(s', last.slabIdx, i), d, next)
                  && (if KeyLess(last, h[i]) then UpOrdered(h'[i := last], i) else DownOrdered(h'[i := last], i)))
  {
    if i == |h| - 1 {
      RemoveLast(h, s, next);
      RemoveLastOrder(h);
    } else {
      RemoveInner(h, s, i, next);
      ReplaceByLast(h, i);
    }
  }

  lemma Removed<V>(h: seq<Item>, s: seq<Node<V>>, h': seq<Item>, s': seq<Node<V>>, free: seq<nat>, next: Option<nat>,
                   k: InsertKey, m: map<InsertKey, Entry<V>>, epoch: nat)
    requires Represents(h, s, m) && FreeList(free, next, s) && UniqueEpochs(m, epoch) && k in m
    requires Linked(h', s') && Freed(h, s, h', s', k.slabIdx, next)
    ensures Represents(h', s', m - {k}) && FreeList([k.slabIdx] + free, Some(k.slabIdx), s') &&
              UniqueEpochs(m - {k}, epoch)
  {
    assert KeyStored(h, s, k);
    FreedList(free, next, h, s, h', s', k.slabIdx);
    FreedRepresents(h, s, h', s', next, k, m);
  }

  lemma Inserted<V>(h: seq<Item>, s: seq<Node<V>>, h': seq<Item>, s': seq<Node<V>>, free: seq<nat>,
                    first: Option<nat>, m: map<InsertKey, Entry<V>>)
    requires Represents(h, s, m) && FreeList(free, first, s) && SameItems(h, s, h', s') && Linked(h', s')
    ensures Represents(h', s', m) && FreeList(free, first, s')
  {
    SameRepresents(h, s, h', s', m);
    forall n | 0 <= n < |s| ensures if s[n].FreeNode? then s'[n] == s[n] else s'[n].HeapNode? {
      assert NodeKept(h, s, h', s', n);
    }
    SameFreeList(free, first, s, s');
  }

  class Queue<V> {
    var heap: seq<Item>
    var slab: seq<Node<V>>
    var firstFreeNode: Option<nat>
    var nextEpoch: nat
    /** The abstract state, and the free nodes in list order. */
    ghost var contents: map<InsertKey, Entry<V>>
    ghost var free: seq<nat>

    ghost predicate Valid()
      reads this
    {
      && Represents(heap, slab, contents) && Ordered(heap)
      && FreeList(free, firstFreeNode, slab)
      && UniqueEpochs(contents, nextEpoch)
    }

    constructor ()
      ensures Valid() && contents == map[]
    {
      heap, slab, firstFreeNode, nextEpoch := [], [], None, 0;
      contents, free := map[], [];
    }

    function Len(): nat
      reads this
    {
      |heap|
    }

    /** Takes a free node, or a new one, for the value of an item that will be put at the end of the heap. */
    method NewNode(value: V, ghost key: int, ghost epoch: nat) returns (idx: nat)
      requires Valid()
      modifies this`slab, this`firstFreeNode, this`free
      ensures idx < |slab| && slab[idx] == HeapNode(value, 0)
      ensures FreeList(free, firstFreeNode, slab[idx := HeapNode(value, |heap|)])
      ensures Represents(heap + [Item(key, epoch, idx)], slab[idx := HeapNode(value, |heap|)],
                         contents[InsertKey(idx, epoch) := Entry(key, value)])
    {
      ghost var node := HeapNode(value, |heap|);
      if firstFreeNode.Some? {
        idx := firstFreeNode.value;
        ReuseFreeList(free, firstFreeNode, slab, node);
        firstFreeNode := slab[idx].next;
        slab := slab[idx := HeapNode(value, 0)];
        free := free[1..];
        assert slab[idx := node] == old(slab)[idx := node];
      } else {
        idx := |slab|;
        SameFreeList(free, firstFreeNode, slab, slab + [node]);
        slab := slab + [HeapNode(value, 0)];
        assert slab[idx := node] == old(slab) + [node];
      }
      NewItem(heap, old(slab), slab[idx := node], contents, Item(key, epoch, idx), value);
    }

    /** The new pair gets a key that was never used before. */
    method Insert(key: int, value: V) returns (k: InsertKey)
      requires Valid()
      modifies this
      ensures Valid() && nextEpoch == old(nextEpoch) + 1
      ensures k.epoch == old(nextEpoch) && k !in old(contents)
      ensures contents == old(contents)[k := Entry(key, value)]
    {
      var epoch := nextEpoch;
      var slabIdx := NewNode(value, key, epoch);
      nextEpoch := nextEpoch + 1;
      var heapIdx := |heap|;
      var item := Item(key, epoch, slabIdx);
      k := InsertKey(slabIdx, epoch);
      AppendUp(heap, item);
      NewEpoch(contents, epoch, k, Entry(key, value));
      contents := contents[k := Entry(key, value)];
      heap := heap + [Item(key, epoch, 0)];
      ghost var h, s := old(heap) + [item], Relink(slab, slabIdx, heapIdx);
      assert heap[heapIdx := item] == h && s == slab[slabIdx := HeapNode(value, heapIdx)];
      SiftUp(item, heapIdx);
      Inserted(h, s, heap, slab, free, firstFreeNode, contents);
    }

    method Peek() returns (r: Option<Entry<V>>)
      requires Valid()
      ensures r.None? <==> contents == map[]
      ensures r.Some? ==> exists k :: IsFirst(k, contents) && r.value == contents[k]
    {
      if heap == [] {
        NothingRepresented(slab, contents);
        return None;
      }
      RootIsFirst(heap, slab, contents, nextEpoch);
      ItemMapped(heap, slab, contents, 0);
      r := Some(Entry(heap[0].key, slab[heap[0].slabIdx].value));
    }

    method PeekKey() returns (r: Option<int>)
      requires Valid()
      ensures r.None? <==> contents == map[]
      ensures r.Some? ==> exists k :: IsFirst(k, contents) && r.value == contents[k].key
    {
      if heap == [] {
        NothingRepresented(slab, contents);
        return None;
      }
      RootIsFirst(heap, slab, contents, nextEpoch);
      ItemMapped(heap, slab, contents, 0);
      r := Some(heap[0].key);
    }

    method Pull() returns (r: Option<Entry<V>>, ghost k: InsertKey)
      requires Valid()
      modifies this
      ensures Valid() && nextEpoch == old(nextEpoch)
      ensures r.None? <==> old(contents) == map[]
      ensures r.None? ==> contents == old(contents)
      ensures r.Some? ==> IsFirst(k, old(contents)) && r.value == old(contents)[k] && contents == old(contents) - {k}
    {
      k := InsertKey(0, 0);
      if heap == [] {
        NothingRepresented(slab, contents);
        return None, k;
      }
      var top := heap[0].slabIdx;
      k := InsertKey(top, heap[0].epoch);
      RootIsFirst(heap, slab, contents, nextEpoch);
      ItemMapped(heap, slab, contents, 0);
      r := Some(Entry(heap[0].key, slab[top].value));
      ghost var h, s, next := heap, slab, firstFreeNode;
      slab := slab[top := FreeNode(firstFreeNode)];
      firstFreeNode := Some(top);
      var last := heap[|heap| - 1];
      heap := heap[..|heap| - 1];
      LastOrInner(h, s, 0, next);
      if last.slabIdx != top {
        RootIsLeast(h, |h| - 1);
        ghost var h1, s1 := heap[0 := last], Relink(slab, last.slabIdx, 0);
        SiftDown(last, 0);
        FreedThenSame(h, s, h1, s1, heap, slab, top, next);
      }
      Removed(h, s, heap, slab, free, next, k, contents, nextEpoch);
      free := [top] + free;
      contents := contents - {k};
    }

    /** A key that is no longer, or never was, in the queue extracts nothing. */
    method Extract(k: InsertKey) returns (r: Option<Entry<V>>)
      requires Valid()
      modifies this
      ensures Valid() && nextEpoch == old(nextEpoch)
      ensures r == if k in old(contents) then Some(old(contents)[k]) else None
      ensures contents == old(contents) - {k}
      ensures r.None? ==> heap == old(heap) && slab == old(slab) && firstFreeNode == old(firstFreeNode)
    {
      KeyTest(heap, slab, contents, k);
      if k.slabIdx >= |slab| || slab[k.slabIdx].FreeNode? || heap[slab[k.slabIdx].heapIdx].epoch != k.epoch {
        return None;
      }
      var node := slab[k.slabIdx];
      ghost var h, s, next := heap, slab, firstFreeNode;
      slab := slab[k.slabIdx := FreeNode(firstFreeNode)];
      firstFreeNode := Some(k.slabIdx);
      var key := heap[node.heapIdx].key;
      var last := heap[|heap| - 1];
      heap := heap[..|heap| - 1];
      LastOrInner(h, s, node.heapIdx, next);
      if node.heapIdx < |heap| {
        ghost var h1, s1 := heap[node.heapIdx := last], Relink(slab, last.slabIdx, node.heapIdx);
        if KeyLess(last, heap[node.heapIdx]) {
          SiftUp(last, node.heapIdx);
        } else {
          SiftDown(last, node.heapIdx);
        }
        FreedThenSame(h, s, h1, s1, heap, slab, k.slabIdx, next);
      }
      Removed(h, s, heap, slab, free, next, k, contents, nextEpoch);
      free := [k.slabIdx] + free;
      contents := contents - {k};
      r := Some(Entry(key, node.value));
    }

    /** Moves an item up from the place kept for it while a parent has a larger key. */
    method SiftUp(item: Item, heapIdx: nat)
      requires CanPlace(heap, slab, item, heapIdx) && UpOrdered(heap[heapIdx := item], heapIdx)
      modifies this`heap, this`slab
      ensures Linked(heap, slab) && Ordered(heap)
      ensures SameItems(old(heap)[heapIdx := item], Relink(old(slab), item.slabIdx, heapIdx), heap, slab)
    {
      ghost var h0, s0 := heap[heapIdx := item], Relink(slab, item.slabIdx, heapIdx);
      SameIsSame(h0, s0);
      var child := heapIdx;
      while child != 0
        invariant Sifting(h0, s0, heap, slab, item, child) && UpOrdered(heap[child := item], child)
        decreases child
      {
        var parent := (child - 1) / 2;
        if LessEq(heap[parent], item) { break; }
        UpStep(heap[child := item], child);
        SiftOn(h0, s0, heap, slab, item, child, parent);
        slab := Relink(slab, heap[parent].slabIdx, child);
        heap := heap[child := heap[parent]];
        if LessEq(heap[parent], item) { break; }
        child := parent;
      }
      UpDone(heap[child := item], child);
      slab := Relink(slab, item.slabIdx, child);
      heap := heap[child := item];
    }

    /** Moves an item down from the place kept for it while a child has a smaller key. */
    method SiftDown(item: Item, heapIdx: nat)
      requires CanPlace(heap, slab, item, heapIdx) && DownOrdered(heap[heapIdx := item], heapIdx)
      modifies this`heap, this`slab
      ensures Linked(heap, slab) && Ordered(heap)
      ensures SameItems(old(heap)[heapIdx := item], Relink(old(slab), item.slabIdx, heapIdx), heap, slab)
    {
      ghost var h0, s0 := heap[heapIdx := item], Relink(slab, item.slabIdx, heapIdx);
      SameIsSame(h0, s0);
      var parent := heapIdx;
      var child := 2 * parent + 1;
      while child < |heap|
        invariant Sifting(h0, s0, heap, slab, item, parent) && DownOrdered(heap[parent := item], parent)
        invariant child == 2 * parent + 1
        decreases |heap| - parent
      {
        ChooseChild(heap[parent := item], parent);
        if child + 1 < |heap| && KeyLess(heap[child + 1], heap[child]) {
          child := child + 1;
        }
        if LessEq(item, heap[child]) { break; }
        DownStep(heap[parent := item], parent, child);
        SiftOn(h0, s0, heap, slab, item, parent, child);
        slab := Relink(slab, heap[child].slabIdx, parent);
        heap := heap[parent := heap[child]];
        parent := child;
        child := 2 * parent + 1;
      }
      DownDone(heap[parent := item], parent, child);
      slab := Relink(slab, item.slabIdx, parent);
      heap := heap[parent := item];
    }
  }
}
