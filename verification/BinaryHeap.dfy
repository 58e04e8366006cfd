/**
  The array inside the priority queue: the binary heap of the standard library, whose root
  is the item that comes first.  A push sifts the new item up; a pop moves the last item
  to the root, sifts it down to the bottom along the lesser children, and then up again.
*/
module BinaryHeap {
  import opened EventQueue

  function Parent(i: nat): nat
    requires i > 0
  {
    (i - 1) / 2
  }

  function Swap(a: seq<Item>, i: nat, j: nat): seq<Item>
    requires i < |a| && j < |a|
  {
    a[i := a[j]][j := a[i]]
  }

  function SiftUp(a: seq<Item>, i: nat): seq<Item>
    requires i < |a|
    decreases i
  {
    if i == 0 || !Less(a[i], a[Parent(i)]) then a else SiftUp(Swap(a, i, Parent(i)), Parent(i))
  }

  function Push(a: seq<Item>, x: Item): seq<Item> { SiftUp(a + [x], |a|) }

  /** The child that comes first. */
  function FirstChild(a: seq<Item>, p: nat): (c: nat)
    requires 2 * p + 1 < |a|
    ensures p < c < |a| && Parent(c) == p
  {
    if 2 * p + 2 < |a| && Less(a[2 * p + 2], a[2 * p + 1]) then 2 * p + 2 else 2 * p + 1
  }

  function SiftToBottom(a: seq<Item>, p: nat): (r: (seq<Item>, nat))
    requires p < |a|
    ensures |r.0| == |a| && r.1 < |a|
    decreases |a| - p
  {
    if 2 * p + 1 >= |a| then (a, p)
    else SiftToBottom(Swap(a, p, FirstChild(a, p)), FirstChild(a, p))
  }

  function Pop(a: seq<Item>): (r: (Item, seq<Item>))
    requires a != []
  {
    var n := |a| - 1;
    if n == 0 then (a[0], [])
    else
      var (b, i) := SiftToBottom(a[..n][0 := a[n]], 0);
      (a[0], SiftUp(b, i))
  }

  // --- Contents --------------------------------------------------------------------------

  lemma {:induction false} SwapLists(a: seq<Item>, h: set<Item>, i: nat, j: nat)
    requires Lists(a, h) && i < |a| && j < |a|
    ensures Lists(Swap(a, i, j), h)
  {
    var b := Swap(a, i, j);
    forall x ensures x in h <==> x in b {
      if x in a {
        var k :| 0 <= k < |a| && a[k] == x;
        assert b[if k == i then j else if k == j then i else k] == x;
      }
    }
  }

  lemma {:induction false} SiftUpLists(a: seq<Item>, h: set<Item>, i: nat)
    requires Lists(a, h) && i < |a|
    ensures Lists(SiftUp(a, i), h)
    decreases i
  {
    if i > 0 && Less(a[i], a[Parent(i)]) {
      SwapLists(a, h, i, Parent(i));
      SiftUpLists(Swap(a, i, Parent(i)), h, Parent(i));
    }
  }

  lemma {:induction false} SiftToBottomLists(a: seq<Item>, h: set<Item>, p: nat)
    requires Lists(a, h) && p < |a|
    ensures Lists(SiftToBottom(a, p).0, h)
    decreases |a| - p
  {
    if 2 * p + 1 < |a| {
      SwapLists(a, h, p, FirstChild(a, p));
      SiftToBottomLists(Swap(a, p, FirstChild(a, p)), h, FirstChild(a, p));
    }
  }

  // --- Order -----------------------------------------------------------------------------

  predicate NotAfter(x: Item, y: Item) { !Less(y, x) }

  ghost predicate Ordered(a: seq<Item>) {
    forall i: nat {:trigger Parent(i)} :: 0 < i < |a| ==> NotAfter(a[Parent(i)], a[i])
  }

  /** All but the item at `p` are in order. */
  ghost predicate OrderedBut(a: seq<Item>, p: nat) {
    forall i: nat {:trigger Parent(i)} :: 0 < i < |a| ==>
      && (i != p && Parent(i) != p ==> NotAfter(a[Parent(i)], a[i]))
      && (Parent(i) == p && p > 0 ==> NotAfter(a[Parent(p)], a[i]))
  }

  /** Moreover, the item at `p` does not come after its children. */
  ghost predicate OrderedBelow(a: seq<Item>, p: nat) {
    OrderedBut(a, p) && forall i: nat {:trigger Parent(i)} :: 0 < i < |a| && Parent(i) == p ==> NotAfter(a[p], a[i])
  }

  lemma {:induction false} UpStep(a: seq<Item>, c: nat)
    requires 0 < c < |a| && OrderedBelow(a, c) && Less(a[c], a[Parent(c)])
    ensures OrderedBelow(Swap(a, c, Parent(c)), Parent(c))
  {
    var p, b := Parent(c), Swap(a, c, Parent(c));
    forall i: nat | 0 < i < |b|
      ensures i != p && Parent(i) != p ==> NotAfter(b[Parent(i)], b[i])
      ensures Parent(i) == p && p > 0 ==> NotAfter(b[Parent(p)], b[i])
      ensures Parent(i) == p ==> NotAfter(b[p], b[i])
    {
      if p > 0 { assert NotAfter(a[Parent(p)], a[p]); }
      assert i != c && Parent(i) != c ==> NotAfter(a[Parent(i)], a[i]);
    }
  }

  lemma {:induction false} SiftUpOrders(a: seq<Item>, i: nat)
    requires i < |a| && OrderedBelow(a, i)
    ensures Ordered(SiftUp(a, i))
    decreases i
  {
    if i > 0 && Less(a[i], a[Parent(i)]) {
      UpStep(a, i);
      SiftUpOrders(Swap(a, i, Parent(i)), Parent(i));
    }
  }

  lemma {:induction false} DownStep(a: seq<Item>, p: nat)
    requires 2 * p + 1 < |a| && OrderedBut(a, p)
    ensures OrderedBut(Swap(a, p, FirstChild(a, p)), FirstChild(a, p))
  {
    var c := FirstChild(a, p);
    var b := Swap(a, p, c);
    forall i: nat | 0 < i < |b|
      ensures i != c && Parent(i) != c ==> NotAfter(b[Parent(i)], b[i])
      ensures Parent(i) == c && c > 0 ==> NotAfter(b[Parent(c)], b[i])
    {
      assert Parent(i) == p ==> i == 2 * p + 1 || i == 2 * p + 2;
      assert Parent(c) == p;
      assert i != p && Parent(i) != p ==> NotAfter(a[Parent(i)], a[i]);
    }
  }

  lemma {:induction false} SiftToBottomOrders(a: seq<Item>, p: nat)
    requires p < |a| && OrderedBut(a, p)
    ensures OrderedBelow(SiftToBottom(a, p).0, SiftToBottom(a, p).1)
    decreases |a| - p
  {
    if 2 * p + 1 < |a| {
      DownStep(a, p);
      SiftToBottomOrders(Swap(a, p, FirstChild(a, p)), FirstChild(a, p));
    } else {
      forall i: nat | 0 < i < |a| ensures Parent(i) != p { }
    }
  }

  lemma {:induction false} RootIsLeast(a: seq<Item>, i: nat)
    requires Ordered(a) && i < |a|
    ensures NotAfter(a[0], a[i])
    decreases i
  {
    if i > 0 {
      RootIsLeast(a, Parent(i));
      assert NotAfter(a[Parent(i)], a[i]);
    }
  }

  // --- The heap implements the priority queue ----------------------------------------------

  ghost predicate IsHeapOf(a: seq<Item>, h: set<Item>) { Lists(a, h) && Ordered(a) && Distinct(h) }

  lemma {:induction false} PushInserts(a: seq<Item>, h: set<Item>, x: Item)
    requires IsHeapOf(a, h) && x !in h && Distinct(h + {x})
    ensures IsHeapOf(Push(a, x), h + {x})
  {
    var b := a + [x];
    assert Lists(b, h + {x});
    forall i: nat | 0 < i < |b| ensures i != |a| ==> NotAfter(b[Parent(i)], b[i]) {
      if i < |a| { assert NotAfter(a[Parent(i)], a[i]); }
    }
    SiftUpLists(b, h + {x}, |a|);
    SiftUpOrders(b, |a|);
  }

  lemma {:induction false} PopTakesLeast(a: seq<Item>, h: set<Item>)
    requires IsHeapOf(a, h) && a != []
    ensures IsLeast(Pop(a).0, h) && IsHeapOf(Pop(a).1, h - {Pop(a).0})
  {
    forall y | y in h && y != a[0] ensures Less(a[0], y) {
      var i :| 0 <= i < |a| && a[i] == y;
      RootIsLeast(a, i);
      assert !SameEpoch(a[0], y);
    }
    var n := |a| - 1;
    if n > 0 {
      var b := a[..n][0 := a[n]];
      RootReplaced(a, h);
      SiftToBottomLists(b, h - {a[0]}, 0);
      SiftToBottomOrders(b, 0);
      var (d, i) := SiftToBottom(b, 0);
      SiftUpLists(d, h - {a[0]}, i);
      SiftUpOrders(d, i);
    }
  }

  lemma {:induction false} RootReplaced(a: seq<Item>, h: set<Item>)
    requires IsHeapOf(a, h) && |a| > 1
    ensures var b := a[..|a| - 1][0 := a[|a| - 1]]; Lists(b, h - {a[0]}) && OrderedBut(b, 0)
  {
    var n := |a| - 1;
    var b := a[..n][0 := a[n]];
    forall x ensures x in h - {a[0]} <==> x in b {
      if x in h && x != a[0] {
        var k :| 0 <= k < |a| && a[k] == x;
        assert b[if k == n then 0 else k] == x;
      }
    }
    forall i: nat | 0 < i < n
      ensures Parent(i) != 0 ==> NotAfter(b[Parent(i)], b[i])
    {
      assert NotAfter(a[Parent(i)], a[i]);
    }
  }
}
