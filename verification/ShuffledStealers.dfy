/**
  The order in which a worker tries to steal from the others: a bit field of candidate
  workers, rotated so that a randomly chosen candidate comes first.
*/
module ShuffledStealers {
  import opened Arithmetic
  import opened Words
  import FindBit
  import opened Wrappers

  const USIZE_BITS: nat := 64

  // --- Specification ---------------------------------------------------------------------

  predicate IsSet(x: nat, i: nat) { Shr(x, i) % 2 == 1 }

  /** The set bits from `lo` up to `hi`, in increasing order. */
  function Indices(x: nat, lo: nat, hi: nat): seq<nat>
    decreases hi - lo
  {
    if lo >= hi then [] else (if IsSet(x, lo) then [lo] else []) + Indices(x, lo + 1, hi)
  }

  lemma {:induction false} IndicesExact(x: nat, lo: nat, hi: nat)
    ensures forall i: nat :: i in Indices(x, lo, hi) <==> lo <= i < hi && IsSet(x, i)
    ensures forall j, k :: 0 <= j < k < |Indices(x, lo, hi)| ==> Indices(x, lo, hi)[j] < Indices(x, lo, hi)[k]
    decreases hi - lo
  {
    if lo < hi {
      IndicesExact(x, lo + 1, hi);
      var rest := Indices(x, lo + 1, hi);
      var head := if IsSet(x, lo) then [lo] else [];
      assert Indices(x, lo, hi) == head + rest;
      forall i: nat ensures i in Indices(x, lo, hi) <==> lo <= i < hi && IsSet(x, i) {
        assert i in Indices(x, lo, hi) <==> i in head || i in rest;
      }
      forall k | 0 <= k < |rest| ensures lo < rest[k] { assert rest[k] in rest; }
    }
  }

  /** The workers that the low `k` bits of a rotated field stand for, if its first bit stands for `base`. */
  function Order(x: nat, k: nat, base: nat, n: nat): seq<nat>
    requires n > 0
    decreases k
  {
    if k == 0 then [] else (if x % 2 == 1 then [Rem(base, n)] else []) + Order(x / 2, k - 1, base + 1, n)
  }

  // --- Rotation -----------------------------------------------------------------------------

  /** `x | y` */
  function Or(x: nat, y: nat): nat
    decreases x + y
  {
    if x == 0 then y else if y == 0 then x else (if x % 2 == 1 || y % 2 == 1 then 1 else 0) + 2 * Or(x / 2, y / 2)
  }

  /** `x << n` */
  function Shl(x: nat, n: nat): nat { if n == 0 then x else 2 * Shl(x, n - 1) }

  lemma {:induction false} OrBits(x: nat, y: nat)
    ensures Or(x, y) == (if x % 2 == 1 || y % 2 == 1 then 1 else 0) + 2 * Or(x / 2, y / 2)
  {
  }

  lemma {:induction false} OrIsJoin(m: nat, x: nat, y: nat)
    requires x < Pow2(m)
    ensures Or(x, Shl(y, m)) == Join(m, x, y)
  {
    if m > 0 {
      OrIsJoin(m - 1, x / 2, y);
      OrBits(x, Shl(y, m));
    }
  }

  lemma {:induction false} ShrShrinks(x: nat, n: nat, m: nat)
    requires m <= n && x < Pow2(n)
    ensures Shr(x, m) < Pow2(n - m)
  {
    if m > 0 { ShrShrinks(x / 2, n - 1, m - 1); }
  }

  lemma {:induction false} OrderJoin(m: nat, x: nat, y: nat, k: nat, base: nat, n: nat)
    requires n > 0
    ensures Order(Join(m, x, y), m + k, base, n) == Order(x, m, base, n) + Order(y, k, base + m, n)
  {
    if m > 0 { OrderJoin(m - 1, x / 2, y, k, base + 1, n); }
  }

  lemma {:induction false} OrderLow(x: nat, m: nat, base: nat, n: nat)
    requires n > 0
    ensures Order(Low(x, m), m, base, n) == Order(x, m, base, n)
  {
    if m > 0 { OrderLow(x / 2, m - 1, base + 1, n); }
  }

  lemma {:induction false} OrderWraps(x: nat, k: nat, base: nat, n: nat)
    requires n > 0
    ensures Order(x, k, base + n, n) == Order(x, k, base, n)
  {
    if k > 0 { OrderWraps(x / 2, k - 1, base + 1, n); }
  }

  lemma {:induction false} ShrStep(x: nat, i: nat)
    ensures Shr(x, i + 1) == Shr(x, i) / 2
  {
    if i > 0 { ShrStep(x / 2, i - 1); }
  }

  lemma {:induction false} OrderIsIndices(x: nat, lo: nat, hi: nat, n: nat)
    requires lo <= hi <= n && n > 0
    ensures Order(Shr(x, lo), hi - lo, lo, n) == Indices(x, lo, hi)
    decreases hi - lo
  {
    if lo < hi {
      ShrStep(x, lo);
      OrderIsIndices(x, lo + 1, hi, n);
    }
  }

  /** The rotated field lists the candidates from `first` on, and then those before it. */
  lemma {:induction false} RotationOrder(x: nat, first: nat, n: nat)
    requires first < n
    ensures Order(Join(n - first, Shr(x, first), Low(x, first)), n, first, n) ==
              Indices(x, first, n) + Indices(x, 0, first)
  {
    OrderJoin(n - first, Shr(x, first), Low(x, first), first, first, n);
    OrderIsIndices(x, first, n, n);
    OrderWraps(Low(x, first), first, 0, n);
    OrderLow(x, first, 0, n);
    OrderIsIndices(x, 0, first, n);
  }

  // --- Iteration ----------------------------------------------------------------------------

  function TrailingZeros(x: nat): nat
    requires x > 0
  {
    if x % 2 == 1 then 0 else 1 + TrailingZeros(x / 2)
  }

  lemma {:induction false} SkipZeros(x: nat, k: nat, base: nat, n: nat)
    requires 0 < x < Pow2(k) && n > 0
    ensures var s := TrailingZeros(x);
            && s < k && Shr(x, s) % 2 == 1 && Shr(x, s) < Pow2(k - s)
            && Order(x, k, base, n) == Order(Shr(x, s), k - s, base + s, n)
  {
    if x % 2 == 0 { SkipZeros(x / 2, k - 1, base + 1, n); }
  }

  lemma {:induction false} Exhausted(k: nat, base: nat, n: nat)
    requires n > 0
    ensures Order(0, k, base, n) == []
  {
    if k > 0 { Exhausted(k - 1, base + 1, n); }
  }

  /** Without its lowest bit the field lists all but the first candidate. */
  lemma {:induction false} LowestRemoved(x: nat, k: nat, base: nat, n: nat)
    requires x % 2 == 1 && x < Pow2(k) && base < n
    ensures Order(x, k, base, n) == [base] + Order(x - 1, k, base, n)
  {
    assert (x - 1) / 2 == x / 2;
  }

  method FirstCandidate(field: nat, n: nat, rand: nat -> nat) returns (first: nat)
    requires 0 < n <= USIZE_BITS && 0 < field < Pow2(n) && forall c :: c > 0 ==> rand(c) < c
    ensures first < n && IsSet(field, first)
  {
    Pow2Grows(n, USIZE_BITS);
    WordSize();
    HasBit(field, USIZE_BITS, n);
    CountFits(field);
    first := FindBit.FindBit(6, field, (c: nat) => rand(c) + 1);
    FirstIsSet(field, n, first, rand);
  }

  /**
    `rand` draws a number below its argument; the field is rotated so that the candidate of
    that rank becomes the lowest bit.
  */
  method Rotate(field: nat, n: nat, rand: nat -> nat) returns (first: nat, rotated: nat)
    requires 0 < n <= USIZE_BITS && field < Pow2(n) && forall c :: c > 0 ==> rand(c) < c
    ensures first < n && (field > 0 ==> IsSet(field, first))
    ensures rotated < Pow2(n) && (rotated > 0 ==> rotated % 2 == 1)
    ensures Order(rotated, n, first, n) == Indices(field, first, n) + Indices(field, 0, first)
  {
    first, rotated := 0, field;
    if field != 0 {
      first := FirstCandidate(field, n, rand);
      if first != 0 {
        var lowerBits := And(field, Pow2(first) - 1);
        AndOnes(field, first);
        ShrShrinks(field, n, first);
        OrIsJoin(n - first, Shr(field, first), lowerBits);
        rotated := Or(Shr(field, first), Shl(lowerBits, n - first));
      }
    }
    RotatedField(field, first, n, rotated);
  }

  class Stealers {
    const count: nat
    var candidates: nat
    var nextCandidate: nat
    /** The number of bits of `candidates` that are in use. */
    ghost var bits: nat

    ghost predicate Valid()
      reads this
    {
      && 0 < count && bits <= count && nextCandidate < count && candidates < Pow2(bits)
      && (candidates > 0 ==> candidates % 2 == 1)
    }

    /** The workers still to be tried, in order. */
    ghost function Remaining(): seq<nat>
      requires count > 0
      reads this
    {
      Order(candidates, bits, nextCandidate, count)
    }

    /** The candidate drawn comes first, the others follow cyclically. */
    constructor (field: nat, n: nat, rand: nat -> nat)
      requires 0 < n <= USIZE_BITS && field < Pow2(n) && forall c :: c > 0 ==> rand(c) < c
      ensures Valid() && count == n
      ensures exists first :: 0 <= first < n && (field > 0 ==> IsSet(field, first)) &&
                Remaining() == Indices(field, first, n) + Indices(field, 0, first)
    {
      var first, rotated := Rotate(field, n, rand);
      count, candidates, nextCandidate := n, rotated, first;
      bits := n;
    }

    /** Yields the first of the remaining workers. */
    method Next() returns (r: Option<nat>)
      requires Valid()
      modifies this
      ensures Valid()
      ensures r == if old(Remaining()) == [] then None else Some(old(Remaining())[0])
      ensures Remaining() == if old(Remaining()) == [] then [] else old(Remaining())[1..]
    {
      if candidates == 0 {
        Exhausted(bits, nextCandidate, count);
        return None;
      }
      var current := nextCandidate;
      LowestRemoved(candidates, bits, current, count);
      candidates := candidates - candidates % 2;
      if candidates != 0 {
        SkipZeros(candidates, bits, nextCandidate, count);
        var shift := TrailingZeros(candidates);
        candidates := Shr(candidates, shift);
        bits := bits - shift;
        nextCandidate := nextCandidate + shift;
        if nextCandidate >= count {
          OrderWraps(candidates, bits, nextCandidate - count, count);
          nextCandidate := nextCandidate - count;
        }
      } else {
        Exhausted(bits, nextCandidate, count);
      }
      r := Some(current);
    }
  }

  /** The bit found is one of the candidates. */
  lemma FirstIsSet(field: nat, n: nat, first: nat, rand: nat -> nat)
    requires 0 < n <= USIZE_BITS && 0 < field < Pow2(n) && forall c :: c > 0 ==> rand(c) < c
    requires |FindBit.Bits(field, USIZE_BITS)| == USIZE_BITS
    requires FindBit.Located(FindBit.Bits(field, USIZE_BITS), rand(FindBit.CountOnes(field, USIZE_BITS)) + 1, first)
    ensures first < n && IsSet(field, first)
  {
    HasBit(field, USIZE_BITS, n);
    BitAt(field, USIZE_BITS, first);
    if first >= n { ShrSmall(field, n, first); }
  }

  lemma {:induction false} ShrSmall(x: nat, n: nat, i: nat)
    requires x < Pow2(n) && n <= i
    ensures Shr(x, i) == 0
  {
    if i > 0 { if n > 0 { ShrSmall(x / 2, n - 1, i - 1); } else { ShrSmall(x / 2, 0, i - 1); } }
  }

  lemma {:induction false} BitAt(x: nat, n: nat, i: nat)
    requires i < n
    ensures |FindBit.Bits(x, n)| == n && FindBit.Bits(x, n)[i] == Shr(x, i) % 2
  {
    if i > 0 {
      BitAt(x / 2, n - 1, i - 1);
    } else if n > 1 {
      BitAt(x / 2, n - 1, 0);
    }
  }

  lemma {:induction false} PrefixGrows(f: seq<nat>, j: nat, k: nat)
    requires j <= k <= |f|
    ensures FindBit.Prefix(f, j) <= FindBit.Prefix(f, k)
    decreases k
  {
    if j < k { PrefixGrows(f, j, k - 1); }
  }

  lemma {:induction false} WordSize()
    ensures Pow2(6) == USIZE_BITS
  {
    assert Pow2(1) == 2 && Pow2(2) == 4 && Pow2(3) == 8 && Pow2(4) == 16 && Pow2(5) == 32;
  }

  lemma {:induction false} CountFits(x: nat)
    requires x < Pow2(USIZE_BITS)
    ensures FindBit.CountOnes(x, USIZE_BITS) < Pow2(USIZE_BITS)
  {
    FindBit.BitsPacked(x, USIZE_BITS);
    WordSize();
    FindBit.CountBelowSignBit(FindBit.Bits(x, USIZE_BITS), 6);
    Pow2Grows(USIZE_BITS - 1, USIZE_BITS);
  }

  /** A non-zero word has a set bit. */
  lemma HasBit(x: nat, n: nat, m: nat)
    requires 0 < x < Pow2(m) && 0 < m <= n
    ensures |FindBit.Bits(x, n)| == n && FindBit.CountOnes(x, n) > 0
  {
    var s := TrailingZeros(x);
    SkipZeros(x, m, 0, 1);
    BitAt(x, n, s);
    PrefixGrows(FindBit.Bits(x, n), s + 1, n);
  }

  /** With the first candidate at the lowest bit the field lists them cyclically. */
  lemma RotatedField(field: nat, first: nat, n: nat, rotated: nat)
    requires first < n && field < Pow2(n) && (field > 0 ==> IsSet(field, first))
    requires rotated == if first == 0 then field else Join(n - first, Shr(field, first), Low(field, first))
    ensures rotated < Pow2(n) && (rotated > 0 ==> rotated % 2 == 1)
    ensures Order(rotated, n, first, n) == Indices(field, first, n) + Indices(field, 0, first)
  {
    if first == 0 {
      OrderIsIndices(field, 0, n, n);
    } else {
      RotationOrder(field, first, n);
      ShrShrinks(field, n, first);
      JoinBound(n - first, Shr(field, first), first, Low(field, first));
      LowBound(field, first);
      if field == 0 { ShrSmall(0, 0, first); }
    }
  }

  lemma {:induction false} LowBound(x: nat, m: nat)
    ensures Low(x, m) < Pow2(m) && (x == 0 ==> Low(x, m) == 0)
  {
    if m > 0 { LowBound(x / 2, m - 1); }
  }

  lemma {:induction false} JoinBound(m: nat, x: nat, k: nat, y: nat)
    ensures y < Pow2(k) ==> Join(m, x, y) < Pow2(m + k)
    ensures m > 0 ==> Join(m, x, y) % 2 == x % 2
    ensures x == 0 && y == 0 ==> Join(m, x, y) == 0
  {
    if m > 0 { JoinBound(m - 1, x / 2, k, y); }
  }
}
