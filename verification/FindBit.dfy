/**
  Position of the n-th set bit of a word of 2^P bits: a tree of adders in masked fields,
  then a binary search down the tree.
*/
module FindBit {
  import opened Arithmetic
  import opened Words

  // --- Sums of fields ----------------------------------------------------------------------

  function Add(f: seq<nat>, g: seq<nat>): seq<nat>
    requires |f| == |g|
  {
    seq(|f|, i requires 0 <= i < |f| => f[i] + g[i])
  }

  lemma {:induction false} PackSum(f: seq<nat>, g: seq<nat>, w: nat)
    requires |f| == |g| && Fit(Add(f, g), Pow2(w))
    ensures Pack(f, w) + Pack(g, w) == Pack(Add(f, g), w)
  {
    if f != [] {
      var h := Add(f, g);
      assert h[0] == f[0] + g[0] && h[1..] == Add(f[1..], g[1..]);
      PackSum(f[1..], g[1..], w);
      JoinValue(w, f[0], Pack(f[1..], w));
      JoinValue(w, g[0], Pack(g[1..], w));
      JoinValue(w, h[0], Pack(h[1..], w));
      assert Pow2(w) * (Pack(f[1..], w) + Pack(g[1..], w)) == Pow2(w) * Pack(f[1..], w) + Pow2(w) * Pack(g[1..], w);
    }
  }

  lemma {:induction false} JoinZero(w: nat)
    ensures Join(w, 0, 0) == 0
  {
    if w > 0 { JoinZero(w - 1); }
  }

  lemma {:induction false} PackPadded(f: seq<nat>, w: nat)
    ensures Pack(f + [0], w) == Pack(f, w)
  {
    if f == [] {
      JoinZero(w);
      assert ([] + [0])[1..] == [];
      assert Pack([0], w) == Join(w, 0, Pack([0][1..], w));
    } else {
      assert (f + [0])[1..] == f[1..] + [0];
      PackPadded(f[1..], w);
    }
  }

  /** The fields moved down by one place. */
  function Next(f: seq<nat>): seq<nat>
    requires f != []
  {
    f[1..] + [0]
  }

  lemma {:induction false} ShrIsNext(f: seq<nat>, w: nat)
    requires f != []
    ensures Shr(Pack(f, w), w) == Pack(Next(f), w)
  {
    ShrJoin(w, f[0], Pack(f[1..], w));
    PackPadded(f[1..], w);
  }

  lemma {:induction false} PairSumAt(f: seq<nat>, n: nat, i: nat)
    requires |f| == 2 * n && i < n
    ensures |PairSums(f)| == n && PairSums(f)[i] == f[2 * i] + f[2 * i + 1]
  {
    var g := f[2..];
    assert PairSums(f) == [f[0] + f[1]] + PairSums(g);
    if i > 0 { PairSumAt(g, n - 1, i - 1); } else if n > 1 { PairSumAt(g, n - 1, 0); }
  }

  lemma {:induction false} EvenAt(f: seq<nat>, n: nat, i: nat)
    requires |f| == 2 * n && i < n
    ensures |Evens(f)| == n && Evens(f)[i] == f[2 * i]
  {
    var g := f[2..];
    assert Evens(f) == [f[0]] + Evens(g);
    if i > 0 { EvenAt(g, n - 1, i - 1); } else if n > 1 { EvenAt(g, n - 1, 0); }
  }

  lemma {:induction false} PairSumsAt(f: seq<nat>, n: nat, i: nat)
    requires |f| == 2 * n && i < n
    ensures |PairSums(f)| == |Evens(f)| == n && PairSums(f)[i] == f[2 * i] + f[2 * i + 1] && Evens(f)[i] == f[2 * i]
  {
    PairSumAt(f, n, i);
    EvenAt(f, n, i);
  }

  lemma {:induction false} PairSumsLength(f: seq<nat>, n: nat)
    requires |f| == 2 * n
    ensures |PairSums(f)| == |Evens(f)| == n
  {
    if n > 0 { PairSumsAt(f, n, 0); }
  }

  /** Adding even and odd fields. */
  lemma {:induction false} EvensAndOdds(f: seq<nat>, n: nat)
    requires |f| == 2 * n && n > 0
    ensures |Evens(f)| == |Evens(Next(f))| == n && Add(Evens(f), Evens(Next(f))) == PairSums(f)
    ensures Evens(Add(f, Next(f))) == PairSums(f)
  {
    PairSumsLength(f, n);
    PairSumsLength(Next(f), n);
    PairSumsLength(Add(f, Next(f)), n);
    forall i | 0 <= i < n
      ensures Evens(f)[i] + Evens(Next(f))[i] == PairSums(f)[i] == Evens(Add(f, Next(f)))[i]
    {
      PairSumsAt(f, n, i);
      PairSumsAt(Next(f), n, i);
      PairSumsAt(Add(f, Next(f)), n, i);
    }
  }

  /** Each operand is masked before the addition. */
  lemma {:induction false} MaskThenAdd(f: seq<nat>, w: nat, n: nat)
    requires |f| == 2 * n && n > 0 && Fit(f, Pow2(w)) && Fit(PairSums(f), Pow2(2 * w))
    ensures And(Pack(f, w), Mask(w, n)) + And(Shr(Pack(f, w), w), Mask(w, n)) == Pack(PairSums(f), 2 * w)
  {
    ShrIsNext(f, w);
    AndMask(f, w, n);
    AndMask(Next(f), w, n);
    EvensAndOdds(f, n);
    PackSum(Evens(f), Evens(Next(f)), 2 * w);
  }

  /** The mask may come after the addition if sums of neighbours fit into a field. */
  lemma {:induction false} AddThenMask(f: seq<nat>, w: nat, n: nat)
    requires |f| == 2 * n && n > 0 && Fit(Add(f, Next(f)), Pow2(w))
    ensures And(Pack(f, w) + Shr(Pack(f, w), w), Mask(w, n)) == Pack(PairSums(f), 2 * w)
  {
    ShrIsNext(f, w);
    PackSum(f, Next(f), w);
    AndMask(Add(f, Next(f)), w, n);
    EvensAndOdds(f, n);
  }

  lemma {:induction false} PairOfBits(a: nat, b: nat, x: nat, y: nat, z: nat)
    requires a < 2 && b < 2 && x == y + z
    ensures Join(2, Join(1, a, b), x) == Join(2, a + b, y) + Join(2, b, z)
  {
    assert Pow2(1) == 2 && Pow2(2) == 4;
    JoinValue(1, a, b);
    JoinValue(2, Join(1, a, b), x);
    JoinValue(2, a + b, y);
    JoinValue(2, b, z);
  }

  /** Single bits: subtracting the odd bits turns each pair of bits into its sum. */
  lemma {:induction false} SubtractOdds(f: seq<nat>, n: nat)
    requires |f| == 2 * n && Fit(f, 2)
    ensures Pack(f, 1) == Pack(PairSums(f), 2) + Pack(Evens(Shifted(f)), 2)
  {
    if n > 0 {
      SubtractOdds(f[2..], n - 1);
      PackPair(f, 1);
      var s, o := PairSums(f), Evens(Shifted(f));
      assert s[0] == f[0] + f[1] && s[1..] == PairSums(f[2..]);
      assert Shifted(f)[2..] == Shifted(f[2..]);
      assert o[0] == f[1] && o[1..] == Evens(Shifted(f[2..]));
      PairOfBits(f[0], f[1], Pack(f[2..], 1), Pack(s[1..], 2), Pack(o[1..], 2));
    }
  }

  function Shifted(f: seq<nat>): seq<nat> { if f == [] then [] else f[1..] + [0] }

  lemma {:induction false} FirstLevel(f: seq<nat>, n: nat)
    requires |f| == 2 * n && n > 0 && Fit(f, 2)
    ensures And(Shr(Pack(f, 1), 1), Mask(1, n)) <= Pack(f, 1)
    ensures Pack(f, 1) - And(Shr(Pack(f, 1), 1), Mask(1, n)) == Pack(PairSums(f), 2)
  {
    ShrIsNext(f, 1);
    assert Pow2(1) == 2 && Shifted(f) == Next(f);
    AndMask(Next(f), 1, n);
    SubtractOdds(f, n);
  }

  // --- Levels of the tree -------------------------------------------------------------------

  /** The bits of a word, lowest first. */
  function Bits(x: nat, n: nat): seq<nat> { if n == 0 then [] else [x % 2] + Bits(x / 2, n - 1) }

  lemma {:induction false} BitsPacked(x: nat, n: nat)
    requires x < Pow2(n)
    ensures |Bits(x, n)| == n && Fit(Bits(x, n), 2) && Pack(Bits(x, n), 1) == x
  {
    if n > 0 {
      BitsPacked(x / 2, n - 1);
      assert Bits(x, n)[1..] == Bits(x / 2, n - 1);
      assert Join(1, x % 2, x / 2) == (x % 2) % 2 + 2 * Join(0, (x % 2) / 2, x / 2);
    }
  }

  /** The numbers of set bits in groups of 2^p. */
  function Level(b: seq<nat>, p: nat): seq<nat> { if p == 0 then b else PairSums(Level(b, p - 1)) }

  lemma {:induction false} LevelShape(b: seq<nat>, p: nat, top: nat)
    requires |b| == Pow2(top) && Fit(b, 2) && p <= top
    ensures |Level(b, p)| == Pow2(top - p) && Fit(Level(b, p), Pow2(p) + 1)
  {
    if p > 0 {
      LevelShape(b, p - 1, top);
      var f, n := Level(b, p - 1), Pow2(top - p);
      assert |f| == 2 * n;
      PairSumsLength(f, n);
      forall i | 0 <= i < n ensures Level(b, p)[i] < Pow2(p) + 1 { PairSumsAt(f, n, i); }
    }
  }

  lemma {:induction false} DoubleExceeds(n: nat)
    requires n >= 3
    ensures 2 * n < Pow2(n)
  {
    if n == 3 { assert Pow2(1) == 2 && Pow2(2) == 4 && Pow2(3) == 8; } else { DoubleExceeds(n - 1); }
  }

  /** Numbers up to 2^p fit into 2^p bits, and from p = 2 on so do their pairwise sums. */
  lemma {:induction false} FieldsFit(p: nat)
    ensures Pow2(p) < Pow2(Pow2(p)) && (p >= 2 ==> 2 * Pow2(p) < Pow2(Pow2(p)))
  {
    Pow2Exceeds(Pow2(p));
    if p >= 2 {
      Pow2Grows(2, p);
      assert Pow2(1) == 2 && Pow2(2) == 4;
      DoubleExceeds(Pow2(p));
    }
  }

  lemma {:induction false} Pow2Sum(m: nat, n: nat)
    ensures Pow2(m + n) == Pow2(m) * Pow2(n)
  {
    if m > 0 { Pow2Sum(m - 1, n); }
  }

  // --- Masks --------------------------------------------------------------------------------

  lemma {:induction false} Geometric(a: nat, m: nat, r: nat)
    requires m * (1 + a) == r - 1
    ensures (a - 1 + (a * a) * m) * (1 + a) == (a * a) * r - 1
  {
    var b := a * a;
    assert (a - 1) * (1 + a) == b - 1;
    assert (b * m) * (1 + a) == b * (m * (1 + a));
    assert b * (r - 1) == b * r - b;
    assert (a - 1 + b * m) * (1 + a) == (a - 1) * (1 + a) + (b * m) * (1 + a);
  }

  /** The number of bits of `n` pairs of fields. */
  function Width(w: nat, n: nat): nat { if n == 0 then 0 else w + w + Width(w, n - 1) }

  lemma {:induction false} MaskTimes(w: nat, n: nat)
    ensures Mask(w, n) * (1 + Pow2(w)) == Pow2(Width(w, n)) - 1
  {
    if n > 0 {
      var m, k := Mask(w, n - 1), Width(w, n - 1);
      MaskTimes(w, n - 1);
      Pow2Grows(w, w + w);
      JoinValue(w + w, Ones(w), m);
      Pow2Sum(w, w);
      Pow2Sum(w + w, k);
      Geometric(Pow2(w), m, Pow2(k));
    }
  }

  lemma {:induction false} WidthDoubles(w: nat, n: nat)
    ensures Width(w, n + n) == Width(w, n) + Width(w, n)
  {
    if n > 0 {
      WidthDoubles(w, n - 1);
      assert Width(w, n + n) == w + w + Width(w, n + n - 1);
    }
  }

  lemma {:induction false} WidthOfWord(p: nat, q: nat)
    ensures Width(Pow2(p), Pow2(q)) == Pow2(p + 1 + q)
  {
    if q == 0 {
      assert Width(Pow2(p), 1) == Pow2(p) + Pow2(p) + Width(Pow2(p), 0);
    } else {
      WidthOfWord(p, q - 1);
      WidthDoubles(Pow2(p), Pow2(q - 1));
    }
  }

  /** `!0 / (1 + (1 << (1 << p)))` is the mask of alternating fields of width 2^p. */
  lemma {:induction false} MaskIsQuotient(p: nat, top: nat)
    requires p < top
    ensures (Pow2(Pow2(top)) - 1) / (1 + Pow2(Pow2(p))) == Mask(Pow2(p), Pow2(top - 1 - p))
  {
    var w, n := Pow2(p), Pow2(top - 1 - p);
    MaskTimes(w, n);
    WidthOfWord(p, top - 1 - p);
    DivModUnique(Pow2(Pow2(top)) - 1, 1 + Pow2(w), Mask(w, n), 0);
  }

  method SumMasks(top: nat) returns (m: seq<nat>)
    ensures AreMasks(m, top)
  {
    m := [];
    while |m| != top
      invariant |m| <= top && forall p :: 0 <= p < |m| ==> m[p] == Mask(Pow2(p), Pow2(top - 1 - p))
      decreases top - |m|
    {
      var p := |m|;
      MaskIsQuotient(p, top);
      m := m + [(Pow2(Pow2(top)) - 1) / (1 + Pow2(Pow2(p)))];
    }
  }

  // --- The comparison -----------------------------------------------------------------------

  /** `x as isize`, for words of `w` bits. */
  function Signed(x: nat, w: nat): int
    requires w > 0
  {
    if x < Pow2(w - 1) then x else x - Pow2(w)
  }

  /** The difference of two signed words, with wrap-around. */
  function WrappingSub(x: nat, y: nat, w: nat): nat
    requires w > 0
  {
    (Signed(x, w) - Signed(y, w)) % Pow2(w)
  }

  /** The mask `(x as isize - y as isize) >> (isize::BITS - 1)`, which is all ones or zero. */
  predicate CmpMask(x: nat, y: nat, w: nat)
    requires w > 0
  {
    Signed(WrappingSub(x, y, w), w) < 0
  }

  lemma {:induction false} CmpMaskExact(x: nat, y: nat, w: nat)
    requires w > 0 && x < Pow2(w - 1) && y < Pow2(w)
    ensures CmpMask(x, y, w) <==> x < y <= x + Pow2(w - 1)
  {
    var d := Signed(x, w) - Signed(y, w);
    var m := Pow2(w);
    DivModUnique(d, m, if d < 0 then -1 else 0, if d < 0 then d + m else d);
  }

  // --- Search -------------------------------------------------------------------------------

  /** Sum of the first `k` elements. */
  function Prefix(f: seq<nat>, k: nat): nat
    requires k <= |f|
  {
    if k == 0 then 0 else Prefix(f, k - 1) + f[k - 1]
  }

  lemma {:induction false} PrefixOfPairs(f: seq<nat>, n: nat, k: nat)
    requires |f| == 2 * n && k <= n && |PairSums(f)| == n
    ensures Prefix(PairSums(f), k) == Prefix(f, 2 * k)
  {
    if k > 0 {
      PrefixOfPairs(f, n, k - 1);
      PairSumAt(f, n, k - 1);
      PrefixTwice(f, 2 * (k - 1));
    }
  }

  lemma {:induction false} PrefixTwice(f: seq<nat>, i: nat)
    requires i + 2 <= |f|
    ensures Prefix(f, i + 2) == Prefix(f, i) + (f[i] + f[i + 1])
  {
    assert Prefix(f, i + 1) == Prefix(f, i) + f[i];
  }

  /** The root of the tree counts all bits. */
  lemma {:induction false} LevelPrefix(b: seq<nat>, p: nat, top: nat)
    requires |b| == Pow2(top) && Fit(b, 2) && p <= top
    ensures |Level(b, p)| == Pow2(top - p) && Prefix(Level(b, p), Pow2(top - p)) == Prefix(b, |b|)
  {
    LevelShape(b, p, top);
    if p > 0 {
      LevelPrefix(b, p - 1, top);
      PrefixOfPairs(Level(b, p - 1), Pow2(top - p), Pow2(top - p));
    }
  }

  /** A group of bits counted by one sub-sum. */
  lemma {:induction false} GroupPrefix(b: seq<nat>, p: nat, top: nat, k: nat)
    requires |b| == Pow2(top) && Fit(b, 2) && p <= top && k <= Pow2(top - p)
    ensures |Level(b, p)| == Pow2(top - p) && k * Pow2(p) <= |b| && Prefix(Level(b, p), k) == Prefix(b, k * Pow2(p))
  {
    LevelShape(b, p, top);
    if p > 0 {
      GroupPrefix(b, p - 1, top, 2 * k);
      PrefixOfPairs(Level(b, p - 1), Pow2(top - p), k);
      Halves(k, Pow2(p - 1));
    }
  }

  lemma {:induction false} LowerHalf(b: seq<nat>, top: nat)
    requires |b| == Pow2(top) && Fit(b, 2) && top > 0
    ensures |Level(b, top - 1)| == 2 && Level(b, top - 1)[0] == Half(b)
  {
    GroupPrefix(b, top - 1, top, 1);
    var f := Level(b, top - 1);
    assert Pow2(0) == 1 && Pow2(1) == 2 && Prefix(f, 1) == Prefix(f, 0) + f[0];
  }

  /** The lowest group grows with the level. */
  lemma {:induction false} LowestGroups(b: seq<nat>, p: nat, q: nat, top: nat)
    requires |b| == Pow2(top) && Fit(b, 2) && p <= q <= top
    ensures |Level(b, p)| > 0 && |Level(b, q)| > 0 && Level(b, p)[0] <= Level(b, q)[0]
    decreases q - p
  {
    LevelShape(b, p, top);
    LevelShape(b, q, top);
    if p < q {
      LowestGroups(b, p + 1, q, top);
      PairSumAt(Level(b, p), Pow2(top - p - 1), 0);
    }
  }

  /** The number of set bits in the lower half of a word. */
  function Half(b: seq<nat>): nat { Prefix(b, |b| / 2) }

  /** The least number whose sign bit is set. */
  function SignBit(b: seq<nat>): nat { if b == [] then 0 else Pow2(|b| - 1) }

  /** A rank for which the first comparison, through the sign bit of a difference, gives the wrong answer. */
  predicate IsHuge(b: seq<nat>, rank: nat) { rank > SignBit(b) + Half(b) }

  /** Where the search stands: in group `j` of level `p`, with `rank` left of `rank0`. */
  ghost predicate Searching(b: seq<nat>, p: nat, top: nat, j: nat, rank: nat, rank0: nat) {
    var f := Level(b, p);
    && j < |f|
    && (rank0 == 0 ==> rank == 0 && j == 0)
    && (1 <= rank0 <= Prefix(b, |b|) ==> 1 <= rank <= f[j] && Prefix(f, j) + rank == rank0)
    && (Prefix(b, |b|) < rank0 && !IsHuge(b, rank0) ==>
          j == |f| - 1 && rank > f[j] && if p < top then rank <= SignBit(b) else rank == rank0)
    && (Prefix(b, |b|) < rank0 && IsHuge(b, rank0) ==> j == 0 && rank == rank0)
  }

  /** Whether the bit is taken to lie in the upper half of a group whose lower half has `lower` set bits. */
  predicate GoesUp(b: seq<nat>, lower: nat, rank: nat) { lower < rank <= SignBit(b) + lower }

  lemma {:induction false} SearchDown(b: seq<nat>, p: nat, top: nat, j: nat, rank: nat, rank0: nat)
    requires |b| == Pow2(top) && Fit(b, 2) && p < top && top >= 2 && Searching(b, p + 1, top, j, rank, rank0)
    ensures var f := Level(b, p);
            2 * j + 1 < |f| &&
            if GoesUp(b, f[2 * j], rank)
            then Searching(b, p, top, 2 * j + 1, rank - f[2 * j], rank0)
            else Searching(b, p, top, 2 * j, rank, rank0)
  {
    LevelShape(b, p, top);
    LevelShape(b, p + 1, top);
    var f, n := Level(b, p), Pow2(top - p - 1);
    PairSumAt(f, n, j);
    PrefixOfPairs(f, n, j);
    assert Prefix(f, 2 * j + 1) == Prefix(f, 2 * j) + f[2 * j];
    CountBelowSignBit(b, top);
    LevelBelowSignBit(b, p + 1, top, j);
    LowestGroups(b, p, top - 1, top);
    LowerHalf(b, top);
  }

  lemma {:induction false} WordBelowSignBit(b: seq<nat>, top: nat)
    requires |b| == Pow2(top) && top >= 2
    ensures |b| < SignBit(b) && Pow2(|b|) == 2 * SignBit(b)
  {
    Pow2Grows(2, top);
    assert Pow2(1) == 2 && Pow2(2) == 4;
    DoubleExceeds(|b|);
  }

  lemma {:induction false} LevelBelowSignBit(b: seq<nat>, p: nat, top: nat, j: nat)
    requires |b| == Pow2(top) && Fit(b, 2) && p <= top && top >= 2 && j < |Level(b, p)|
    ensures Level(b, p)[j] < SignBit(b)
  {
    LevelShape(b, p, top);
    Pow2Grows(p, top);
    WordBelowSignBit(b, top);
  }

  lemma {:induction false} CountBelowSignBit(b: seq<nat>, top: nat)
    requires |b| == Pow2(top) && Fit(b, 2) && top >= 2
    ensures Half(b) <= Prefix(b, |b|) < SignBit(b)
  {
    SumOfAll(b, top);
    LevelBelowSignBit(b, top, top, 0);
    LowestGroups(b, top - 1, top, top);
    LowerHalf(b, top);
  }

  /** The sub-sums of level `p`, packed in a word. */
  function Sums(b: seq<nat>, p: nat): nat { Pack(Level(b, p), Pow2(p)) }

  lemma {:induction false} SumsOfPairs(b: seq<nat>, top: nat)
    requires top >= 2 && |b| == Pow2(top) && Fit(b, 2)
    ensures var m := And(Shr(Pack(b, 1), 1), Mask(1, Pow2(top - 1))); m <= Pack(b, 1) && Pack(b, 1) - m == Sums(b, 1)
  {
    assert Pow2(1) == 2 && Level(b, 1) == PairSums(Level(b, 0)) && Level(b, 0) == b;
    FirstLevel(b, Pow2(top - 1));
  }

  lemma {:induction false} SumsOfFours(b: seq<nat>, top: nat)
    requires top >= 2 && |b| == Pow2(top) && Fit(b, 2)
    ensures And(Sums(b, 1), Mask(2, Pow2(top - 2))) + And(Shr(Sums(b, 1), 2), Mask(2, Pow2(top - 2))) == Sums(b, 2)
  {
    assert Pow2(1) == 2 && Pow2(2) == 4 && Pow2(3) == 8 && Pow2(4) == 16;
    LevelShape(b, 1, top);
    LevelShape(b, 2, top);
    assert Level(b, 2) == PairSums(Level(b, 1));
    MaskThenAdd(Level(b, 1), 2, Pow2(top - 2));
  }

  lemma {:induction false} SumsAbove(b: seq<nat>, p: nat, top: nat)
    requires 2 <= p < top && |b| == Pow2(top) && Fit(b, 2)
    ensures And(Sums(b, p) + Shr(Sums(b, p), Pow2(p)), Mask(Pow2(p), Pow2(top - 1 - p))) == Sums(b, p + 1)
  {
    LevelShape(b, p, top);
    FieldsFit(p);
    AddThenMask(Level(b, p), Pow2(p), Pow2(top - 1 - p));
    assert Level(b, p + 1) == PairSums(Level(b, p));
  }

  lemma {:induction false} SumOfAll(b: seq<nat>, top: nat)
    requires |b| == Pow2(top) && Fit(b, 2)
    ensures Level(b, top) == [Prefix(b, |b|)] && Sums(b, top) == Prefix(b, |b|)
  {
    LevelShape(b, top, top);
    LevelPrefix(b, top, top);
    FieldsFit(top);
    var f := Level(b, top);
    assert Pow2(0) == 1 && Prefix(f, 1) == Prefix(f, 0) + f[0];
    assert f == [f[0]] && Pack(f[1..], Pow2(top)) == 0;
    JoinValue(Pow2(top), f[0], 0);
  }

  lemma {:induction false} SubSum(b: seq<nat>, p: nat, top: nat, j: nat)
    requires |b| == Pow2(top) && Fit(b, 2) && p <= top && j < |Level(b, p)|
    ensures And(Shr(Sums(b, p), j * Pow2(p)), Pow2(Pow2(p)) - 1) == Level(b, p)[j]
  {
    LevelShape(b, p, top);
    FieldsFit(p);
    FieldAt(Level(b, p), Pow2(p), j);
  }

  /** The number of set bits in the lower half of the current group, looked up in the sums of level `p`. */
  function LowerSum(sum: nat, p: nat, shift: nat): nat { And(Shr(sum, shift), Pow2(Pow2(p)) - 1) }

  /** The search stands at the position `shift`, the first one of its group. */
  ghost predicate At(b: seq<nat>, p: nat, top: nat, j: nat, shift: nat, rank: nat, rank0: nat) {
    shift == j * Pow2(p) && rank <= rank0 && Searching(b, p, top, j, rank, rank0)
  }

  /** One level down. */
  lemma {:induction false} SearchStep(b: seq<nat>, p: nat, top: nat, j: nat, shift: nat, rank: nat, rank0: nat)
    requires |b| == Pow2(top) && Fit(b, 2) && p < top && top >= 2 && rank0 < Pow2(Pow2(top))
    requires At(b, p + 1, top, j, shift, rank, rank0)
    ensures var lower := LowerSum(Sums(b, p), p, shift);
            if CmpMask(lower, rank, Pow2(top))
            then lower <= rank && At(b, p, top, 2 * j + 1, shift + Pow2(p), rank - lower, rank0)
            else At(b, p, top, 2 * j, shift, rank, rank0)
  {
    SearchDown(b, p, top, j, rank, rank0);
    Halves(j, Pow2(p));
    SubSum(b, p, top, 2 * j);
    LevelBelowSignBit(b, p, top, 2 * j);
    CmpMaskExact(Level(b, p)[2 * j], rank, Pow2(top));
  }

  /** Position of the bit of the given rank, counted from one, for every rank that a word can hold. */
  ghost predicate Located(b: seq<nat>, rank: nat, pos: nat) {
    && pos < |b|
    && (rank == 0 ==> pos == 0)
    && (1 <= rank <= Prefix(b, |b|) ==> b[pos] == 1 && Prefix(b, pos) == rank - 1)
    && (rank > Prefix(b, |b|) ==> pos == if IsHuge(b, rank) then 0 else |b| - 1)
  }

  lemma {:induction false} Found(b: seq<nat>, j: nat, top: nat, shift: nat, rank: nat, rank0: nat)
    requires Fit(b, 2) && At(b, 0, top, j, shift, rank, rank0)
    ensures Located(b, rank0, shift)
  {
    assert Pow2(0) == 1 && Level(b, 0) == b;
  }

  /** The three lowest levels: single bits, pairs and groups of four. */
  method LowSums(top: nat, value: nat, m: seq<nat>) returns (pairs: nat, fours: nat)
    requires top >= 2 && value < Pow2(Pow2(top))
    requires |m| == top && m[0] == Mask(1, Pow2(top - 1)) && m[1] == Mask(2, Pow2(top - 2))
    ensures var b := Bits(value, Pow2(top)); value == Sums(b, 0) && pairs == Sums(b, 1) && fours == Sums(b, 2)
  {
    ghost var b := Bits(value, Pow2(top));
    BitsPacked(value, Pow2(top));
    assert Pow2(0) == 1 && Level(b, 0) == b;
    SumsOfPairs(b, top);
    SumsOfFours(b, top);
    pairs := value - And(Shr(value, 1), m[0]);
    fours := And(pairs, m[1]) + And(Shr(pairs, 2), m[1]);
  }

  ghost predicate AreMasks(m: seq<nat>, top: nat) {
    |m| == top && forall p :: 0 <= p < top ==> m[p] == Mask(Pow2(p), Pow2(top - 1 - p))
  }

  ghost predicate AreSums(sum: seq<nat>, b: seq<nat>, p: nat) {
    |sum| == p + 1 && forall q :: 0 <= q <= p ==> sum[q] == Sums(b, q)
  }

  lemma {:induction false} OneMoreSum(sum: seq<nat>, b: seq<nat>, p: nat, top: nat, x: nat)
    requires 2 <= p < top && |b| == Pow2(top) && Fit(b, 2) && AreSums(sum, b, p)
    requires x == And(sum[p] + Shr(sum[p], Pow2(p)), Mask(Pow2(p), Pow2(top - 1 - p)))
    ensures AreSums(sum + [x], b, p + 1)
  {
    SumsAbove(b, p, top);
  }

  /** The tree of adders: level by level, the sub-sums of all groups. */
  method SubSums(top: nat, value: nat) returns (sum: seq<nat>)
    requires top >= 2 && value < Pow2(Pow2(top))
    ensures AreSums(sum, Bits(value, Pow2(top)), top)
  {
    ghost var b := Bits(value, Pow2(top));
    BitsPacked(value, Pow2(top));
    var m := SumMasks(top);
    sum := ThreeSums(top, value, m);
    for p := 2 to top
      invariant AreSums(sum, b, p)
    {
      var x := And(sum[p] + Shr(sum[p], Pow2(p)), m[p]);
      OneMoreSum(sum, b, p, top, x);
      sum := sum + [x];
    }
  }

  method ThreeSums(top: nat, value: nat, m: seq<nat>) returns (sum: seq<nat>)
    requires top >= 2 && value < Pow2(Pow2(top)) && AreMasks(m, top)
    ensures AreSums(sum, Bits(value, Pow2(top)), 2)
  {
    assert m[0] == Mask(Pow2(0), Pow2(top - 1)) && Pow2(0) == 1;
    assert m[1] == Mask(Pow2(1), Pow2(top - 2)) && Pow2(1) == 2;
    var pairs, fours := LowSums(top, value, m);
    sum := [value, pairs, fours];
  }

  lemma {:induction false} Halves(j: nat, w: nat)
    ensures j * (2 * w) == (2 * j) * w && (2 * j + 1) * w == (2 * j) * w + w
  {
  }

  /** One round of the search: the bit lies in the lower or in the upper half of the group. */
  method Descend(top: nat, p: nat, sum: nat, shift: nat, rank: nat, ghost b: seq<nat>, ghost j: nat, ghost rank0: nat)
    returns (rank': nat, shift': nat, ghost j': nat)
    requires |b| == Pow2(top) && Fit(b, 2) && p < top && top >= 2 && rank0 < Pow2(Pow2(top)) && sum == Sums(b, p)
    requires At(b, p + 1, top, j, shift, rank, rank0)
    ensures At(b, p, top, j', shift', rank', rank0)
  {
    SearchStep(b, p, top, j, shift, rank, rank0);
    rank', shift', j' := rank, shift, 2 * j;
    var lowerSum := LowerSum(sum, p, shift);
    if CmpMask(lowerSum, rank, Pow2(top)) {
      rank', shift', j' := rank - lowerSum, shift + Pow2(p), 2 * j + 1;
    }
  }

  /** Binary search down the tree. */
  method Search(top: nat, sum: seq<nat>, rank0: nat, ghost b: seq<nat>) returns (pos: nat)
    requires top >= 2 && |b| == Pow2(top) && Fit(b, 2) && AreSums(sum, b, top) && rank0 < Pow2(Pow2(top))
    ensures Located(b, rank0, pos)
  {
    SearchFrom(b, top, rank0);
    var rank: nat, shift: nat, p: nat := rank0, 0, top;
    ghost var j: nat := 0;
    while p > 0
      invariant p <= top && At(b, p, top, j, shift, rank, rank0)
    {
      p := p - 1;
      rank, shift, j := Descend(top, p, sum[p], shift, rank, b, j, rank0);
    }
    Found(b, j, top, shift, rank, rank0);
    pos := shift;
  }

  function CountOnes(value: nat, n: nat): nat { Prefix(Bits(value, n), |Bits(value, n)|) }

  lemma {:induction false} SearchFrom(b: seq<nat>, top: nat, rank0: nat)
    requires |b| == Pow2(top) && Fit(b, 2)
    ensures At(b, top, top, 0, 0, rank0, rank0)
  {
    SumOfAll(b, top);
    assert Prefix(Level(b, top), 0) == 0;
  }

  /**
    The rank may depend on the number of set bits.  For a rank above that number, the highest
    position is returned exactly if the rank is not huge.
  */
  method FindBit(top: nat, value: nat, rankFn: nat -> nat) returns (pos: nat)
    requires top >= 2 && value < Pow2(Pow2(top)) && rankFn(CountOnes(value, Pow2(top))) < Pow2(Pow2(top))
    ensures |Bits(value, Pow2(top))| == Pow2(top)
    ensures Located(Bits(value, Pow2(top)), rankFn(CountOnes(value, Pow2(top))), pos)
    ensures var b, rank := Bits(value, Pow2(top)), rankFn(CountOnes(value, Pow2(top)));
            rank > CountOnes(value, Pow2(top)) ==>
              (pos == Pow2(top) - 1 <==> rank <= Pow2(Pow2(top) - 1) + Prefix(b, Pow2(top) / 2))
  {
    ghost var b := Bits(value, Pow2(top));
    BitsPacked(value, Pow2(top));
    SumOfAll(b, top);
    var sum := SubSums(top, value);
    var rank := rankFn(sum[top]);
    pos := Search(top, sum, rank, b);
    WordBelowSignBit(b, top);
    Pow2Grows(2, top);
  }

  // --- Ranks above the number of set bits ------------------------------------------------------

  /** With the largest rank of all, the lowest position is returned instead. */
  lemma {:induction false} LargestRank(b: seq<nat>, top: nat, pos: nat)
    requires top >= 2 && |b| == Pow2(top) && Fit(b, 2) && Located(b, Pow2(|b|) - 1, pos)
    ensures Prefix(b, |b|) < Pow2(|b|) - 1 && pos == 0 != |b| - 1
  {
    CountBelowSignBit(b, top);
    WordBelowSignBit(b, top);
    LowerHalf(b, top);
    LevelShape(b, top - 1, top);
  }
}
