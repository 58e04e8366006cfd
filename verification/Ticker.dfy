/**
  The periodic ticker: ticks at `reference + k * period`, with a reference that is
  replaced by the latest tick at every call.

  Times and durations are exact numbers of nanoseconds; a `Duration` is split into
  seconds below 2^64 and a sub-second part, as `duration_from_nanos_u128` does.
*/
module Ticker {
  import opened Arithmetic
  import opened Wrappers

  const NANOS_PER_SEC: nat := 1_000_000_000
  const SECS_LIMIT: nat := 0x1_0000_0000_0000_0000

  datatype Duration = Duration(secs: nat, nanos: nat) {
    predicate Valid() { secs < SECS_LIMIT && nanos < NANOS_PER_SEC }

    function AsNanos(): nat { secs * NANOS_PER_SEC + nanos }
  }

  /** Any number of nanoseconds that does not exceed some duration is a duration. */
  method FromNanos(n: nat, ghost bound: Duration) returns (d: Duration)
    requires bound.Valid() && n <= bound.AsNanos()
    ensures d.Valid() && d.AsNanos() == n
  {
    d := Duration(n / NANOS_PER_SEC, n % NANOS_PER_SEC);
  }

  /** The grid of all ticks through `origin`. */
  ghost predicate OnGrid(origin: int, period: nat, t: int) { exists k: int :: t == origin + k * period }

  ghost predicate IsNextTick(origin: int, period: nat, time: int, tick: int) {
    tick > time && OnGrid(origin, period, tick) && forall t :: t > time && OnGrid(origin, period, t) ==> tick <= t
  }

  lemma Multiples(a: int, b: int, p: nat)
    ensures (a + b) * p == a * p + b * p && (a - b) * p == a * p - b * p
  {
  }

  /** Any point of the grid may serve as its origin. */
  lemma SameGrid(origin: int, period: nat, o': int, t: int)
    requires OnGrid(origin, period, o')
    ensures OnGrid(origin, period, t) <==> OnGrid(o', period, t)
  {
    var j: int :| o' == origin + j * period;
    if OnGrid(origin, period, t) {
      var k: int :| t == origin + k * period;
      Multiples(k, j, period);
      assert t == o' + (k - j) * period;
    }
    if OnGrid(o', period, t) {
      var k: int :| t == o' + k * period;
      Multiples(j, k, period);
      assert t == origin + (j + k) * period;
    }
  }

  /** A grid point in the period that starts after `time` is the least one after `time`. */
  lemma NextOnGrid(origin: int, period: nat, time: int, k: int)
    requires period > 0 && origin + k * period > time >= origin + k * period - period
    ensures IsNextTick(origin, period, time, origin + k * period)
  {
    var tick := origin + k * period;
    forall t | t > time && OnGrid(origin, period, t) ensures tick <= t {
      var j: int :| t == origin + j * period;
      if j < k {
        MulMonotone(1, k - j, period);
        Multiples(k, j, period);
        assert false;
      } else {
        MulMonotone(0, j - k, period);
        Multiples(j, k, period);
      }
    }
  }

  lemma DivMod(x: nat, p: nat)
    requires p > 0
    ensures x == (x / p) * p + x % p && 0 <= x % p < p
  {
  }

  /** Both computations after the reference, the short one only within the first period. */
  lemma AfterReference(r: int, p: nat, time: int)
    requires p > 0 && time >= r
    ensures IsNextTick(r, p, time, time + (p - (time - r) % p))
    ensures time - r < p ==> IsNextTick(r, p, time, r + p)
  {
    var q, m := (time - r) / p, (time - r) % p;
    DivMod(time - r, p);
    Multiples(q, 1, p);
    NextOnGrid(r, p, time, q + 1);
    if time - r < p { NextOnGrid(r, p, time, 1); }
  }

  lemma BeforeReference(r: int, p: nat, time: int)
    requires p > 0 && time < r
    ensures var m := (r - time) % p; IsNextTick(r, p, time, time + if m == 0 then p else m)
  {
    var q, m := (r - time) / p, (r - time) % p;
    DivMod(r - time, p);
    Multiples(0, q, p);
    Multiples(1, q, p);
    NextOnGrid(r, p, time, if m == 0 then 1 - q else 0 - q);
  }

  lemma SameNext(origin: int, o': int, period: nat, time: int, tick: int)
    requires OnGrid(origin, period, o') && IsNextTick(o', period, time, tick)
    ensures IsNextTick(origin, period, time, tick)
  {
    forall t ensures OnGrid(origin, period, t) <==> OnGrid(o', period, t) { SameGrid(origin, period, o', t); }
  }

  class PeriodicTicker {
    const period: Duration
    var reference: Option<int>

    /** A ticker whose reference is set by the first call. */
    constructor (p: Duration)
      requires p.Valid() && p.AsNanos() > 0
      ensures period == p && reference == None
    {
      period, reference := p, None;
    }

    constructor AnchoredAt(p: Duration, r: int)
      requires p.Valid() && p.AsNanos() > 0
      ensures period == p && reference == Some(r)
    {
      period, reference := p, Some(r);
    }

    predicate Valid() { period.Valid() && period.AsNanos() > 0 }

    /** The reference that a call at `time` starts from. */
    function Anchor(time: int): int
      reads this
    {
      if reference.Some? then reference.value else time
    }

    method NextTick(time: int) returns (tick: int)
      requires Valid()
      modifies this`reference
      ensures IsNextTick(old(Anchor(time)), period.AsNanos(), time, tick)
      ensures reference == Some(tick)
    {
      if reference.None? { reference := Some(time); }
      var r := reference.value;
      var p := period.AsNanos();
      if time >= r {
        var elapsed := time - r;
        AfterReference(r, p, time);
        if elapsed < p {
          tick := r + p;
        } else {
          var toNext := FromNanos(p - elapsed % p, period);
          tick := time + toNext.AsNanos();
        }
      } else {
        var gap := r - time;
        var dist := gap % p;
        BeforeReference(r, p, time);
        if dist == 0 {
          tick := time + p;
        } else {
          var toNext := FromNanos(dist, period);
          tick := time + toNext.AsNanos();
        }
      }
      reference := Some(tick);
    }

    /**
      Whatever the calls, forward or backward in time, every tick is the next one of the
      grid through the first reference.
    */
    method Ticks(times: seq<int>) returns (ticks: seq<int>)
      requires Valid() && |times| > 0
      modifies this`reference
      ensures |ticks| == |times|
      ensures forall i :: 0 <= i < |times| ==> IsNextTick(old(Anchor(times[0])), period.AsNanos(), times[i], ticks[i])
      ensures reference == Some(ticks[|times| - 1])
    {
      ghost var origin, p := Anchor(times[0]), period.AsNanos();
      var first := NextTick(times[0]);
      ticks := [first];
      while |ticks| < |times|
        invariant 1 <= |ticks| <= |times|
        invariant reference == Some(ticks[|ticks| - 1]) && OnGrid(origin, p, ticks[|ticks| - 1])
        invariant forall i :: 0 <= i < |ticks| ==> IsNextTick(origin, p, times[i], ticks[i])
      {
        ghost var o' := reference.value;
        var tick := NextTick(times[|ticks|]);
        SameNext(origin, o', p, times[|ticks|], tick);
        ticks := ticks + [tick];
      }
    }
  }
}
