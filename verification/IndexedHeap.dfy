/**
  The two vectors of the indexed priority queue: a binary heap of items ordered by key
  and epoch, and a slab whose nodes are free or point back into the heap.
*/
module IndexedHeap {
  import opened Wrappers

  /** A heap item: the unique key and the index of its slab node. */
  datatype Item = Item(key: int, epoch: nat, slabIdx: nat)

  datatype Node<V> = FreeNode(next: Option<nat>) | HeapNode(value: V, heapIdx: nat)

  predicate KeyLess(a: Item, b: Item) { a.key < b.key || (a.key == b.key && a.epoch < b.epoch) }

  predicate LessEq(a: Item, b: Item) { !KeyLess(b, a) }

  function Parent(i: nat): nat
    requires i > 0
  {
    (i - 1) / 2
  }

  // --- Order -----------------------------------------------------------------------------

  ghost predicate Ordered(h: seq<Item>) {
    forall i: nat {:trigger Parent(i)} :: 0 < i < |h| ==> LessEq(h[Parent(i)], h[i])
  }

  /** Only the item at `c` may be smaller than its parent. */
  ghost predicate UpOrdered(h: seq<Item>, c: nat) {
    forall i: nat {:trigger Parent(i)} :: 0 < i < |h| && i != c ==>
      && LessEq(h[Parent(i)], h[i])
      && (Parent(i) == c && c > 0 ==> LessEq(h[Parent(c)], h[i]))
  }

  /** Only the item at `p` may be larger than its children. */
  ghost predicate DownOrdered(h: seq<Item>, p: nat) {
    forall i: nat {:trigger Parent(i)} :: 0 < i < |h| ==>
      && (Parent(i) != p ==> LessEq(h[Parent(i)], h[i]))
      && (Parent(i) == p && p > 0 ==> LessEq(h[Parent(p)], h[i]))
  }

  function Swap(h: seq<Item>, i: nat, j: nat): seq<Item>
    requires i < |h| && j < |h|
  {
    h[i := h[j]][j := h[i]]
  }

  lemma UpStep(h: seq<Item>, c: nat)
    requires 0 < c < |h| && UpOrdered(h, c) && KeyLess(h[c], h[Parent(c)])
    ensures UpOrdered(Swap(h, c, Parent(c)), Parent(c))
  {
    var p, h' := Parent(c), Swap(h, c, Parent(c));
    forall i: nat | 0 < i < |h'| && i != p
      ensures LessEq(h'[Parent(i)], h'[i]) && (Parent(i) == p && p > 0 ==> LessEq(h'[Parent(p)], h'[i]))
    {
      if p > 0 { assert LessEq(h[Parent(p)], h[p]); }
      if i != c { assert LessEq(h[Parent(i)], h[i]); }
    }
  }

  lemma UpDone(h: seq<Item>, c: nat)
    requires c < |h| && UpOrdered(h, c) && (c > 0 ==> LessEq(h[Parent(c)], h[c]))
    ensures Ordered(h)
  {
  }

  /** The child that `sift_down` looks at. */
  predicate IsLeastChild(h: seq<Item>, p: nat, c: nat) {
    && 0 < c < |h| && Parent(c) == p
    && forall i: nat {:trigger Parent(i)} :: 0 < i < |h| && Parent(i) == p ==> LessEq(h[c], h[i])
  }

  lemma DownStep(h: seq<Item>, p: nat, c: nat)
    requires p < |h| && DownOrdered(h, p) && IsLeastChild(h, p, c) && KeyLess(h[c], h[p])
    ensures DownOrdered(Swap(h, p, c), c)
  {
    var h' := Swap(h, p, c);
    forall i: nat | 0 < i < |h'|
      ensures Parent(i) != c ==> LessEq(h'[Parent(i)], h'[i])
      ensures Parent(i) == c && c > 0 ==> LessEq(h'[Parent(c)], h'[i])
    {
      if p > 0 { assert Parent(c) == p && Parent(p) != p; }
      assert Parent(i) != p ==> LessEq(h[Parent(i)], h[i]);
    }
  }

  lemma ChooseChild(h: seq<Item>, p: nat)
    requires 2 * p + 1 < |h|
    ensures IsLeastChild(h, p, if 2 * p + 2 < |h| && KeyLess(h[2 * p + 2], h[2 * p + 1]) then 2 * p + 2 else 2 * p + 1)
  {
    forall i: nat | 0 < i < |h| && Parent(i) == p ensures i == 2 * p + 1 || i == 2 * p + 2 { }
  }

  lemma DownDone(h: seq<Item>, p: nat, c: nat)
    requires p < |h| && DownOrdered(h, p)
    requires 2 * p + 1 >= |h| || (IsLeastChild(h, p, c) && LessEq(h[p], h[c]))
    ensures Ordered(h)
  {
    forall i: nat | 0 < i < |h| ensures LessEq(h[Parent(i)], h[i]) {
      if Parent(i) == p { assert i >= 2 * p + 1; }
    }
  }

  /** The root of an ordered heap is its least item. */
  lemma {:induction false} RootIsLeast(h: seq<Item>, i: nat)
    requires Ordered(h) && i < |h|
    ensures LessEq(h[0], h[i])
    decreases i
  {
    if i > 0 {
      RootIsLeast(h, Parent(i));
      assert LessEq(h[Parent(i)], h[i]);
    }
  }

  /** A new item at the end may only be too small. */
  lemma AppendUp(h: seq<Item>, x: Item)
    requires Ordered(h)
    ensures UpOrdered(h + [x], |h|)
  {
    forall i: nat | 0 < i < |h + [x]| && i != |h|
      ensures LessEq((h + [x])[Parent(i)], (h + [x])[i]) && Parent(i) != |h|
    {
      assert LessEq(h[Parent(i)], h[i]);
    }
  }

  /** The last item put in the place of another one is too small or too large there, not both. */
  lemma ReplaceByLast(h: seq<Item>, d: nat)
    requires Ordered(h) && d < |h| - 1
    ensures var last, h' := h[|h| - 1], h[..|h| - 1][d := h[|h| - 1]];
            if KeyLess(last, h[d]) then UpOrdered(h', d) else DownOrdered(h', d)
  {
    var last, h' := h[|h| - 1], h[..|h| - 1][d := h[|h| - 1]];
    forall i: nat | 0 < i < |h'|
      ensures KeyLess(last, h[d]) && i != d ==>
                LessEq(h'[Parent(i)], h'[i]) && (Parent(i) == d && d > 0 ==> LessEq(h'[Parent(d)], h'[i]))
      ensures !KeyLess(last, h[d]) ==>
                && (Parent(i) != d ==> LessEq(h'[Parent(i)], h'[i]))
                && (Parent(i) == d && d > 0 ==> LessEq(h'[Parent(d)], h'[i]))
    {
      assert LessEq(h[Parent(i)], h[i]);
      if d > 0 { assert LessEq(h[Parent(d)], h[d]); }
    }
  }

  // --- Cross-indices -----------------------------------------------------------------------

  ghost predicate ItemLinked<V>(h: seq<Item>, s: seq<Node<V>>, i: nat) {
    i < |h| && h[i].slabIdx < |s| && s[h[i].slabIdx].HeapNode? && s[h[i].slabIdx].heapIdx == i
  }

  ghost predicate NodeLinked<V>(h: seq<Item>, s: seq<Node<V>>, n: nat) {
    n < |s| && (s[n].HeapNode? ==> s[n].heapIdx < |h| && h[s[n].heapIdx].slabIdx == n)
  }

  /** Heap items and heap nodes point at each other. */
  ghost predicate Linked<V>(h: seq<Item>, s: seq<Node<V>>) {
    && (forall i {:trigger ItemLinked(h, s, i)} :: 0 <= i < |h| ==> ItemLinked(h, s, i))
    && (forall n {:trigger NodeLinked(h, s, n)} :: 0 <= n < |s| ==> NodeLinked(h, s, n))
  }

  function Relink<V>(s: seq<Node<V>>, n: nat, i: nat): seq<Node<V>>
    requires n < |s| && s[n].HeapNode?
  {
    s[n := s[n].(heapIdx := i)]
  }

  /** A node keeps its value and its item, wherever the item has moved in the heap. */
  ghost predicate NodeKept<V>(h: seq<Item>, s: seq<Node<V>>, h': seq<Item>, s': seq<Node<V>>, n: nat) {
    && n < |s| && n < |s'|
    && if s[n].FreeNode? then s'[n] == s[n]
       else
         && s'[n].HeapNode? && s'[n].value == s[n].value
         && s[n].heapIdx < |h| && s'[n].heapIdx < |h'| && h'[s'[n].heapIdx] == h[s[n].heapIdx]
  }

  /** All nodes are kept. */
  ghost predicate SameItems<V>(h: seq<Item>, s: seq<Node<V>>, h': seq<Item>, s': seq<Node<V>>) {
    && |h'| == |h| && |s'| == |s|
    && forall n {:trigger NodeKept(h, s, h', s', n)} :: 0 <= n < |s| ==> NodeKept(h, s, h', s', n)
  }

  /** All nodes but `d` are kept; node `d` is free. */
  ghost predicate Freed<V>(h: seq<Item>, s: seq<Node<V>>, h': seq<Item>, s': seq<Node<V>>, d: nat, next: Option<nat>) {
    && d < |s| == |s'| && s'[d] == FreeNode(next)
    && forall n {:trigger NodeKept(h, s, h', s', n)} :: 0 <= n < |s| && n != d ==> NodeKept(h, s, h', s', n)
  }

  lemma SameIsSame<V>(h: seq<Item>, s: seq<Node<V>>)
    requires Linked(h, s)
    ensures SameItems(h, s, h, s)
  {
    forall n | 0 <= n < |s| ensures NodeKept(h, s, h, s, n) { assert NodeLinked(h, s, n); }
  }

  lemma SwapLinked<V>(h: seq<Item>, s: seq<Node<V>>, i: nat, j: nat)
    requires Linked(h, s) && i < |h| && j < |h| && i != j
    ensures ItemLinked(h, s, i) && ItemLinked(h, s, j) && h[i].slabIdx != h[j].slabIdx
    ensures var s' := Relink(Relink(s, h[j].slabIdx, i), h[i].slabIdx, j);
            Linked(Swap(h, i, j), s') && SameItems(h, s, Swap(h, i, j), s')
  {
    assert ItemLinked(h, s, i) && ItemLinked(h, s, j);
    var h', s' := Swap(h, i, j), Relink(Relink(s, h[j].slabIdx, i), h[i].slabIdx, j);
    forall k | 0 <= k < |h'| ensures ItemLinked(h', s', k) { assert ItemLinked(h, s, k); }
    forall n | 0 <= n < |s'| ensures NodeLinked(h', s', n) && NodeKept(h, s, h', s', n) { assert NodeLinked(h, s, n); }
  }

  lemma SameItemsTrans<V>(h: seq<Item>, s: seq<Node<V>>, h1: seq<Item>, s1: seq<Node<V>>, h2: seq<Item>,
                          s2: seq<Node<V>>)
    requires SameItems(h, s, h1, s1) && SameItems(h1, s1, h2, s2)
    ensures SameItems(h, s, h2, s2)
  {
    forall n | 0 <= n < |s|
      ensures NodeKept(h, s, h2, s2, n)
    {
      assert NodeKept(h, s, h1, s1, n) && NodeKept(h1, s1, h2, s2, n);
    }
  }

  lemma FreedThenSame<V>(h: seq<Item>, s: seq<Node<V>>, h1: seq<Item>, s1: seq<Node<V>>, h2: seq<Item>,
                         s2: seq<Node<V>>, d: nat, next: Option<nat>)
    requires Freed(h, s, h1, s1, d, next) && SameItems(h1, s1, h2, s2)
    ensures Freed(h, s, h2, s2, d, next)
  {
    assert NodeKept(h1, s1, h2, s2, d);
    forall n | 0 <= n < |s| && n != d ensures NodeKept(h, s, h2, s2, n) {
      assert NodeKept(h, s, h1, s1, n) && NodeKept(h1, s1, h2, s2, n);
    }
  }

  lemma RemoveLast<V>(h: seq<Item>, s: seq<Node<V>>, next: Option<nat>)
    requires Linked(h, s) && |h| > 0
    ensures ItemLinked(h, s, |h| - 1)
    ensures var d, h' := h[|h| - 1].slabIdx, h[..|h| - 1];
            Linked(h', s[d := FreeNode(next)]) && Freed(h, s, h', s[d := FreeNode(next)], d, next)
  {
    var last := |h| - 1;
    assert ItemLinked(h, s, last);
    var d := h[last].slabIdx;
    var h', s' := h[..last], s[d := FreeNode(next)];
    forall k | 0 <= k < |h'| ensures ItemLinked(h', s', k) { assert ItemLinked(h, s, k); }
    forall n | 0 <= n < |s'|
      ensures NodeLinked(h', s', n) && (n != d ==> NodeKept(h, s, h', s', n))
    {
      assert NodeLinked(h, s, n);
    }
  }

  lemma RemoveInner<V>(h: seq<Item>, s: seq<Node<V>>, i: nat, next: Option<nat>)
    requires Linked(h, s) && i < |h| - 1
    ensures ItemLinked(h, s, i) && ItemLinked(h, s, |h| - 1) && h[|h| - 1].slabIdx != h[i].slabIdx
    ensures var last, d := h[|h| - 1], h[i].slabIdx;
            var h', s' := h[..|h| - 1][i := last], Relink(s[d := FreeNode(next)], last.slabIdx, i);
            Linked(h', s') && Freed(h, s, h', s', d, next)
  {
    assert ItemLinked(h, s, i) && ItemLinked(h, s, |h| - 1);
    var last, d := h[|h| - 1], h[i].slabIdx;
    var h', s' := h[..|h| - 1][i := last], Relink(s[d := FreeNode(next)], last.slabIdx, i);
    forall k | 0 <= k < |h'| ensures ItemLinked(h', s', k) { assert ItemLinked(h, s, k); }
    forall n | 0 <= n < |s'|
      ensures NodeLinked(h', s', n) && (n != d ==> NodeKept(h, s, h', s', n))
    {
      assert NodeLinked(h, s, n);
    }
  }

  lemma RemoveLastOrder(h: seq<Item>)
    requires Ordered(h) && |h| > 0
    ensures Ordered(h[..|h| - 1])
  {
    forall i: nat | 0 < i < |h| - 1 ensures LessEq(h[..|h| - 1][Parent(i)], h[..|h| - 1][i]) {
      assert LessEq(h[Parent(i)], h[i]);
    }
  }

  /** The vectors once `item` is put at `i`. */
  ghost predicate CanPlace<V>(h: seq<Item>, s: seq<Node<V>>, item: Item, i: nat) {
    && i < |h| && item.slabIdx < |s| && s[item.slabIdx].HeapNode?
    && Linked(h[i := item], Relink(s, item.slabIdx, i))
  }

  /** Moving the item at `j` to the place `i` kept for `item` amounts to a swap. */
  lemma MoveToHole<V>(h: seq<Item>, s: seq<Node<V>>, item: Item, i: nat, j: nat)
    requires CanPlace(h, s, item, i) && j < |h| && j != i
    ensures h[j].slabIdx < |s| && s[h[j].slabIdx].HeapNode? && h[j].slabIdx != item.slabIdx
    ensures var h', s' := h[i := h[j]], Relink(s, h[j].slabIdx, i);
            && CanPlace(h', s', item, j) && h'[j := item] == Swap(h[i := item], i, j)
            && SameItems(h[i := item], Relink(s, item.slabIdx, i), h'[j := item], Relink(s', item.slabIdx, j))
  {
    var hi, si := h[i := item], Relink(s, item.slabIdx, i);
    assert hi[j] == h[j] && hi[i] == item;
    SwapLinked(hi, si, i, j);
    assert ItemLinked(hi, si, j);
    var h', s' := h[i := h[j]], Relink(s, h[j].slabIdx, i);
    assert h'[j := item] == Swap(hi, i, j);
    assert Relink(s', item.slabIdx, j) == Relink(Relink(si, hi[j].slabIdx, i), hi[i].slabIdx, j);
  }

  /** The state of a sift: `item` will be put at `i`, and all that happened since is a permutation of the heap. */
  ghost predicate Sifting<V>(h0: seq<Item>, s0: seq<Node<V>>, h: seq<Item>, s: seq<Node<V>>, item: Item, i: nat) {
    && CanPlace(h, s, item, i) && Linked(h0, s0)
    && SameItems(h0, s0, h[i := item], Relink(s, item.slabIdx, i))
  }

  lemma SiftOn<V>(h0: seq<Item>, s0: seq<Node<V>>, h: seq<Item>, s: seq<Node<V>>, item: Item, i: nat, j: nat)
    requires Sifting(h0, s0, h, s, item, i) && j < |h| && j != i
    ensures h[j].slabIdx < |s| && s[h[j].slabIdx].HeapNode?
    ensures var h', s' := h[i := h[j]], Relink(s, h[j].slabIdx, i);
            Sifting(h0, s0, h', s', item, j) && h'[j := item] == Swap(h[i := item], i, j)
  {
    MoveToHole(h, s, item, i, j);
    var h', s' := h[i := h[j]], Relink(s, h[j].slabIdx, i);
    SameItemsTrans(h0, s0, h[i := item], Relink(s, item.slabIdx, i), h'[j := item], Relink(s', item.slabIdx, j));
  }
}
