/**
  The sequential future that a step spawns for one origin: it polls its futures one
  after the other, each only once all earlier ones are ready.

  A future is described by the number of polls that it will still answer with
  "pending"; polling a completed sequential future, or an empty one, is a panic.
*/
module SeqFutures {

  function Sum(s: seq<nat>): nat { if s == [] then 0 else s[0] + Sum(s[1..]) }

  lemma {:induction false} SumOfZeros(s: seq<nat>)
    requires forall i :: 0 <= i < |s| ==> s[i] == 0
    ensures Sum(s) == 0
  {
    if s != [] { SumOfZeros(s[1..]); }
  }

  lemma {:induction false} SumAfterPoll(s: seq<nat>, i: nat)
    requires i < |s| && s[i] > 0
    ensures Sum(s[i := s[i] - 1]) == Sum(s) - 1
  {
    var s' := s[i := s[i] - 1];
    if i == 0 {
      assert s'[1..] == s[1..];
    } else {
      assert s'[1..] == s[1..][i - 1 := s[i] - 1];
      SumAfterPoll(s[1..], i - 1);
    }
  }

  class SeqFuture {
    var inner: seq<nat>
    var idx: nat

    constructor ()
      ensures inner == [] && idx == 0
    {
      inner, idx := [], 0;
    }

    /** The futures before `idx` are ready. */
    ghost predicate Valid()
      reads this
    {
      idx <= |inner| && forall i :: 0 <= i < idx ==> inner[i] == 0
    }

    method Push(f: nat)
      requires Valid()
      modifies this`inner
      ensures Valid() && inner == old(inner) + [f]
    {
      inner := inner + [f];
    }

    /** Ready futures are passed; the first pending one is polled once and nothing after it is touched. */
    method Poll() returns (ready: bool)
      requires Valid() && idx < |inner|
      modifies this
      ensures Valid() && |inner| == |old(inner)| && old(idx) <= idx
      ensures ready <==> idx == |inner|
      ensures ready <==> Sum(old(inner)) == 0
      ensures ready ==> inner == old(inner)
      ensures !ready ==> old(inner)[idx] > 0 && inner == old(inner)[idx := old(inner)[idx] - 1]
      ensures !ready ==> forall i :: 0 <= i < idx ==> old(inner)[i] == 0
    {
      while inner[idx] == 0
        invariant inner == old(inner) && old(idx) <= idx < |inner| && Valid()
        decreases |inner| - idx
      {
        idx := idx + 1;
        if idx == |inner| {
          SumOfZeros(inner);
          return true;
        }
      }
      SumAfterPoll(inner, idx);
      inner := inner[idx := inner[idx] - 1];
      ready := false;
    }

    /** It takes one poll more than the pending answers of all futures together. */
    method Drive() returns (polls: nat)
      requires Valid() && idx < |inner|
      modifies this
      ensures Valid() && idx == |inner| && polls == Sum(old(inner)) + 1
    {
      polls := 0;
      var ready := false;
      while !ready
        invariant Valid() && |inner| == |old(inner)| && (ready <==> idx == |inner|)
        invariant if ready then polls == Sum(old(inner)) + 1 else polls + Sum(inner) == Sum(old(inner))
        decreases !ready, Sum(inner)
      {
        ghost var was := inner;
        ready := Poll();
        if !ready { SumAfterPoll(was, idx); }
        polls := polls + 1;
      }
    }
  }
}
