/**
  Positions of the bounded queue: a sequence count, a one-bit flag and a buffer
  index, packed in one word whose low part is twice the next power of two of the
  capacity.
*/
module QueueGeometry {
  import opened Arithmetic

  /** `flag` is the closed-channel mask, the smallest power of two that holds every index. */
  datatype Geometry = Geometry(cap: nat, flag: nat)

  predicate IsPowerOfTwo(n: nat) {
    n == 1 || (n > 1 && n % 2 == 0 && IsPowerOfTwo(n / 2))
  }

  predicate Valid(g: Geometry) {
    1 <= g.cap <= g.flag
  }

  /** `usize::next_power_of_two`. */
  function NextPowerOfTwo(n: nat): (p: nat)
    requires n >= 1
    ensures n <= p < 2 * n && IsPowerOfTwo(p)
  {
    if n == 1 then 1
    else
      var h := NextPowerOfTwo((n + 1) / 2);
      assert h == 1 || h % 2 == 0;
      assert 2 * h / 2 == h && 2 * h % 2 == 0;
      2 * h
  }

  lemma {:induction false} NextPowerIsLeast(n: nat, q: nat)
    requires 1 <= n <= q && IsPowerOfTwo(q)
    ensures NextPowerOfTwo(n) <= q
  {
    if n > 1 {
      NextPowerIsLeast((n + 1) / 2, q / 2);
    }
  }

  function NewGeometry(capacity: nat): (g: Geometry)
    requires capacity >= 1
    ensures Valid(g) && g.flag < 2 * g.cap && IsPowerOfTwo(g.flag)
  {
    Geometry(capacity, NextPowerOfTwo(capacity))
  }

  // --- The source's bit operations on words -------------------------------

  function Modulus(g: Geometry): nat { 2 * g.flag }

  function RightMask(g: Geometry): int { Modulus(g) - 1 }

  function AndRightMask(g: Geometry, x: nat): nat
    requires Valid(g)
  {
    Rem(x, Modulus(g))
  }

  predicate HasFlag(g: Geometry, x: nat)
    requires Valid(g)
  {
    Quot(x, g.flag) % 2 == 1
  }

  function OrFlag(g: Geometry, x: nat): nat
    requires Valid(g)
  {
    if HasFlag(g, x) then x else x + g.flag
  }

  function NextPos(g: Geometry, x: nat): nat
    requires Valid(g)
  {
    if AndRightMask(g, x + 1) < g.cap then x + 1
    else x - AndRightMask(g, x) + Modulus(g)
  }

  // --- Positions by rank ----------------------------------------------------

  /** The buffer index of the n-th reservation. */
  function Ix(g: Geometry, n: nat): (i: nat)
    requires Valid(g)
    ensures i < g.cap
  {
    if n < g.cap then n else Ix(g, n - g.cap)
  }

  /** The position word of the n-th reservation. */
  function Pos(g: Geometry, n: nat): nat
    requires Valid(g)
  {
    if n < g.cap then n else Pos(g, n - g.cap) + Modulus(g)
  }

  lemma {:induction false} PosIndex(g: Geometry, n: nat)
    requires Valid(g)
    ensures AndRightMask(g, Pos(g, n)) == Ix(g, n)
  {
    if n >= g.cap { PosIndex(g, n - g.cap); }
  }

  /** Reservations go round the buffer: index and lap are remainder and quotient. */
  lemma {:induction false} IxIsRemainder(g: Geometry, n: nat)
    requires Valid(g)
    ensures Ix(g, n) == n % g.cap && Pos(g, n) == n % g.cap + (n / g.cap) * Modulus(g)
  {
    RemIsMod(n, g.cap);
    IxIsRem(g, n);
  }

  lemma {:induction false} IxIsRem(g: Geometry, n: nat)
    requires Valid(g)
    ensures Ix(g, n) == Rem(n, g.cap) && Pos(g, n) == Rem(n, g.cap) + Quot(n, g.cap) * Modulus(g)
  {
    if n >= g.cap {
      IxIsRem(g, n - g.cap);
      assert (Quot(n - g.cap, g.cap) + 1) * Modulus(g) == Quot(n - g.cap, g.cap) * Modulus(g) + Modulus(g);
    }
  }

  /** A position never carries the flag; setting it is then an addition. */
  lemma {:induction false} PosFlag(g: Geometry, n: nat)
    requires Valid(g)
    ensures !HasFlag(g, Pos(g, n)) && HasFlag(g, Pos(g, n) + g.flag)
    ensures OrFlag(g, Pos(g, n)) == Pos(g, n) + g.flag == OrFlag(g, Pos(g, n) + g.flag)
  {
    if n >= g.cap { PosFlag(g, n - g.cap); }
  }

  lemma {:induction false} NextPosIsNext(g: Geometry, n: nat)
    requires Valid(g)
    ensures NextPos(g, Pos(g, n)) == Pos(g, n + 1)
  {
    if n >= g.cap { NextPosIsNext(g, n - g.cap); }
  }

  lemma {:induction false} PosIncreases(g: Geometry, m: nat, n: nat)
    requires Valid(g) && m < n
    ensures Pos(g, m) < Pos(g, n)
    ensures m + g.cap <= n ==> Pos(g, m) + Modulus(g) <= Pos(g, n)
    decreases n
  {
    if m >= g.cap { PosIncreases(g, m - g.cap, n - g.cap); }
    else if n >= g.cap && m < n - g.cap { PosIncreases(g, m, n - g.cap); }
  }

  /** Ranks that share a slot are a whole number of rounds apart. */
  lemma {:induction false} IxDistinct(g: Geometry, m: nat, n: nat)
    requires Valid(g) && m < n < m + g.cap
    ensures Ix(g, m) != Ix(g, n)
    decreases n
  {
    if m >= g.cap { IxDistinct(g, m - g.cap, n - g.cap); }
  }

  // --- Length ---------------------------------------------------------------

  /** `Queue::len`: the flag is masked out and a differing sequence count adds one round. */
  function Len(g: Geometry, enqueue: nat, dequeue: nat): int
    requires Valid(g)
  {
    var enqueueIdx := Rem(enqueue, g.flag);
    var dequeueIdx := Rem(dequeue, g.flag);
    var carry := enqueue - AndRightMask(g, enqueue) != dequeue - AndRightMask(g, dequeue);
    enqueueIdx + (if carry then g.cap else 0) - dequeueIdx
  }

  function WithFlag(g: Geometry, x: nat, closed: bool): nat { if closed then x + g.flag else x }

  /** The three parts of an enqueue position, closed or not. */
  lemma {:induction false} PosParts(g: Geometry, n: nat, closed: bool)
    requires Valid(g)
    ensures var x := WithFlag(g, Pos(g, n), closed);
            Rem(x, g.flag) == Ix(g, n) && x - AndRightMask(g, x) == Pos(g, n) - Ix(g, n)
  {
    if n >= g.cap { PosParts(g, n - g.cap, closed); }
  }

  lemma {:induction false} RoundStarts(g: Geometry, d: nat, e: nat)
    requires Valid(g) && d <= e <= d + g.cap
    ensures Ix(g, e) - Ix(g, d) + (if Pos(g, e) - Ix(g, e) != Pos(g, d) - Ix(g, d) then g.cap else 0) == e - d
  {
    if d >= g.cap { RoundStarts(g, d - g.cap, e - g.cap); }
  }

  /** For every capacity, and whether or not the queue is closed, the length is exact. */
  lemma LenIsExact(g: Geometry, d: nat, e: nat, closed: bool)
    requires Valid(g) && d <= e <= d + g.cap
    ensures Len(g, WithFlag(g, Pos(g, e), closed), Pos(g, d)) == e - d
  {
    PosParts(g, e, closed);
    PosParts(g, d, false);
    RoundStarts(g, d, e);
  }
}
