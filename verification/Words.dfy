/**
  Words as natural numbers, and the operations on them bit by bit: shifts, conjunction,
  and words put together from fields of equal width.
*/
module Words {

  function Pow2(n: nat): (r: nat)
    ensures r > 0
  {
    if n == 0 then 1 else 2 * Pow2(n - 1)
  }

  /** `x >> n` */
  function Shr(x: nat, n: nat): nat { if n == 0 then x else Shr(x / 2, n - 1) }

  /** The low `n` bits. */
  function Low(x: nat, n: nat): nat { if n == 0 then 0 else x % 2 + 2 * Low(x / 2, n - 1) }

  /** `x & y` */
  function And(x: nat, y: nat): nat { if x == 0 || y == 0 then 0 else BothOdd(x, y) + 2 * And(x / 2, y / 2) }

  function BothOdd(x: nat, y: nat): nat { if x % 2 == 1 && y % 2 == 1 then 1 else 0 }

  /** The low `n` bits of `lo`, and above them `hi`. */
  function Join(n: nat, lo: nat, hi: nat): nat { if n == 0 then hi else lo % 2 + 2 * Join(n - 1, lo / 2, hi) }

  lemma {:induction false} Pow2Exceeds(n: nat)
    ensures n < Pow2(n)
  {
    if n > 0 { Pow2Exceeds(n - 1); }
  }

  lemma {:induction false} Pow2Grows(m: nat, n: nat)
    requires m <= n
    ensures Pow2(m) <= Pow2(n)
    decreases n
  {
    if m < n { Pow2Grows(m, n - 1); }
  }

  lemma {:induction false} ShrTwice(x: nat, m: nat, n: nat)
    ensures Shr(Shr(x, m), n) == Shr(x, m + n)
  {
    if m > 0 { ShrTwice(x / 2, m - 1, n); }
  }

  lemma {:induction false} LowFits(x: nat, n: nat)
    requires x < Pow2(n)
    ensures Low(x, n) == x
  {
    if n > 0 { LowFits(x / 2, n - 1); }
  }

  lemma {:induction false} ShrJoin(n: nat, lo: nat, hi: nat)
    ensures Shr(Join(n, lo, hi), n) == hi && Low(Join(n, lo, hi), n) == Low(lo, n)
  {
    if n > 0 { ShrJoin(n - 1, lo / 2, hi); }
  }

  lemma {:induction false} JoinAssociates(m: nat, n: nat, x: nat, y: nat, z: nat)
    ensures Join(m, x, Join(n, y, z)) == Join(m + n, Join(m, x, y), z)
  {
    if m > 0 { JoinAssociates(m - 1, n, x / 2, y, z); }
  }

  lemma Doubled(p: nat, x: nat)
    ensures 2 * (p * x) == (2 * p) * x
  {
  }

  lemma {:induction false} JoinValue(n: nat, lo: nat, hi: nat)
    requires lo < Pow2(n)
    ensures Join(n, lo, hi) == lo + Pow2(n) * hi
  {
    if n > 0 {
      JoinValue(n - 1, lo / 2, hi);
      Doubled(Pow2(n - 1), hi);
    }
  }

  lemma {:induction false} AndBits(x: nat, y: nat)
    ensures And(x, y) == BothOdd(x, y) + 2 * And(x / 2, y / 2)
    ensures And(x, y) % 2 == BothOdd(x, y) && And(x, y) / 2 == And(x / 2, y / 2)
  {
  }

  lemma {:induction false} AndDouble(i: nat, x: nat, j: nat, y: nat)
    requires i < 2 && j < 2
    ensures And(i + 2 * x, j + 2 * y) == BothOdd(i, j) + 2 * And(x, y)
  {
    assert (i + 2 * x) % 2 == i && (i + 2 * x) / 2 == x && (j + 2 * y) % 2 == j && (j + 2 * y) / 2 == y;
    AndBits(i + 2 * x, j + 2 * y);
  }

  lemma {:induction false} AndJoin(n: nat, a: nat, b: nat, x: nat, y: nat)
    ensures And(Join(n, a, x), Join(n, b, y)) == Join(n, And(a, b), And(x, y))
  {
    if n > 0 {
      AndJoin(n - 1, a / 2, b / 2, x, y);
      AndDouble(a % 2, Join(n - 1, a / 2, x), b % 2, Join(n - 1, b / 2, y));
      AndBits(a, b);
    }
  }

  /** A word of `n` ones. */
  function Ones(n: nat): nat { Pow2(n) - 1 }

  lemma {:induction false} AndOnes(x: nat, n: nat)
    ensures And(x, Ones(n)) == Low(x, n)
  {
    if n > 0 {
      AndOnes(x / 2, n - 1);
      AndBits(x, Ones(n));
      assert Ones(n) % 2 == 1 && Ones(n) / 2 == Ones(n - 1);
    }
  }

  // --- Fields -------------------------------------------------------------------------

  /** Fields of width `w`, the first one in the lowest bits. */
  function Pack(f: seq<nat>, w: nat): nat { if f == [] then 0 else Join(w, f[0], Pack(f[1..], w)) }

  ghost predicate Fit(f: seq<nat>, limit: nat) { forall i :: 0 <= i < |f| ==> f[i] < limit }

  function Evens(f: seq<nat>): seq<nat> { if |f| < 2 then [] else [f[0]] + Evens(f[2..]) }

  function PairSums(f: seq<nat>): seq<nat> { if |f| < 2 then [] else [f[0] + f[1]] + PairSums(f[2..]) }

  /** The mask that keeps every other field of width `w`, over `n` pairs of fields. */
  function Mask(w: nat, n: nat): nat { if n == 0 then 0 else Join(2 * w, Ones(w), Mask(w, n - 1)) }

  lemma {:induction false} ShrPack(f: seq<nat>, w: nat, k: nat)
    requires k <= |f|
    ensures Shr(Pack(f, w), k * w) == Pack(f[k..], w)
  {
    if k > 0 {
      ShrJoin(w, f[0], Pack(f[1..], w));
      ShrPack(f[1..], w, k - 1);
      ShrTwice(Pack(f, w), w, (k - 1) * w);
      assert w + (k - 1) * w == k * w;
      assert f[1..][k - 1..] == f[k..];
    } else {
      assert f[0..] == f;
    }
  }

  lemma {:induction false} FieldAt(f: seq<nat>, w: nat, k: nat)
    requires k < |f| && f[k] < Pow2(w)
    ensures And(Shr(Pack(f, w), k * w), Ones(w)) == f[k]
  {
    ShrPack(f, w, k);
    AndOnes(Pack(f[k..], w), w);
    ShrJoin(w, f[k], Pack(f[k..][1..], w));
    LowFits(f[k], w);
  }

  /** Two adjacent fields make one of twice the width. */
  lemma {:induction false} PackPair(f: seq<nat>, w: nat)
    requires |f| >= 2
    ensures Pack(f, w) == Join(2 * w, Join(w, f[0], f[1]), Pack(f[2..], w))
  {
    assert f[1..][1..] == f[2..] && w + w == 2 * w;
    assert Pack(f[1..], w) == Join(w, f[1], Pack(f[2..], w));
    JoinAssociates(w, w, f[0], f[1], Pack(f[2..], w));
  }

  lemma {:induction false} AndMask(f: seq<nat>, w: nat, n: nat)
    requires |f| == 2 * n && Fit(f, Pow2(w))
    ensures And(Pack(f, w), Mask(w, n)) == Pack(Evens(f), 2 * w)
  {
    if n > 0 {
      PackPair(f, w);
      AndMask(f[2..], w, n - 1);
      AndJoin(2 * w, Join(w, f[0], f[1]), Ones(w), Pack(f[2..], w), Mask(w, n - 1));
      AndOnes(Join(w, f[0], f[1]), w);
      ShrJoin(w, f[0], f[1]);
      LowFits(f[0], w);
    }
  }
}
