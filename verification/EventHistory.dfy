/**
  What becomes of the items of the scheduler queue: which futures were handed to the
  executor, when an occurrence counts as spawned, and where queued items come from.
*/
module EventHistory {
  import opened EventQueue
  import opened SchedulerStep
  import opened Wrappers

  // --- What is promised to the items in the queue -------------------------------------------

  /** Item `x` was spawned by the scheduler at its own time. */
  ghost predicate Logged(log: seq<Future>, x: Item) {
    exists i :: 0 <= i < |log| && !log[i].injected && log[i].time == x.key.time && x in log[i].items
  }

  /** An item with this key and value, whatever its epoch, was spawned at the time of its key. */
  ghost predicate LoggedAt(log: seq<Future>, key: Key, value: Action) {
    exists x: Item :: x.key == key && x.value == value && Logged(log, x)
  }

  /** What follows a recurring item one period later. */
  predicate IsRenewal(y: Item, x: Item) {
    Recurs(x.value) && y.value == x.value && y.key == Key(x.key.time + x.value.period.value, x.key.origin)
  }

  /**
    An action need not happen at `t` if it is cancelled; in a simulation that was `timely`
    when it began, only if the cancellation did not come after `t`.
  */
  predicate Excused(a: Action, t: int, since: map<nat, int>, timely: bool) {
    Cancelled(a, since.Keys) && (timely ==> since[a.cancelKey.value] <= t)
  }

  /** Flags that are set stay as they are. */
  ghost predicate Keeps(m: map<nat, int>, m': map<nat, int>) {
    m.Keys <= m'.Keys && forall k :: k in m ==> m'[k] == m[k]
  }

  /** No item of `h` is forgotten on the way to `h'`. */
  ghost predicate Advanced(h: set<Item>, log: seq<Future>, h': set<Item>, log': seq<Future>, since: map<nat, int>,
                           timely: bool)
  {
    && log <= log'
    && forall x :: x in h ==>
         || x in h'
         || Excused(x.value, x.key.time, since, timely)
         || (Logged(log', x) && (Recurs(x.value) ==> exists y :: y in h' && IsRenewal(y, x)))
  }

  /** The key of the `k`-th occurrence of a recurring item. */
  function Occurrence(x: Item, k: nat): Key
    requires Recurs(x.value)
  {
    Key(x.key.time + k * x.value.period.value, x.key.origin)
  }

  ghost predicate Queued(h: set<Item>, key: Key, value: Action) {
    exists y: Item :: y in h && y.key == key && y.value == value
  }

  /** All occurrences before the `k`-th were spawned; that one is queued or was cancelled in time. */
  ghost predicate AtOccurrence(x: Item, k: nat, h: set<Item>, log: seq<Future>, since: map<nat, int>, timely: bool)
    requires Recurs(x.value)
  {
    && (Queued(h, Occurrence(x, k), x.value) || Excused(x.value, Occurrence(x, k).time, since, timely))
    && (forall j: nat {:trigger Occurrence(x, j)} :: j < k ==> LoggedAt(log, Occurrence(x, j), x.value))
  }

  /** What has become of an item that was queued. */
  ghost predicate Followed(x: Item, h: set<Item>, log: seq<Future>, since: map<nat, int>, timely: bool) {
    if Recurs(x.value) then exists k: nat :: AtOccurrence(x, k, h, log, since, timely)
    else x in h || Logged(log, x) || Excused(x.value, x.key.time, since, timely)
  }

  lemma LogGrows(log: seq<Future>, log': seq<Future>, x: Item)
    requires log <= log' && Logged(log, x)
    ensures Logged(log', x)
  {
    var i :| 0 <= i < |log| && !log[i].injected && log[i].time == x.key.time && x in log[i].items;
    assert log'[i] == log[i];
  }

  lemma LoggedAtGrows(log: seq<Future>, log': seq<Future>, key: Key, value: Action)
    requires log <= log' && LoggedAt(log, key, value)
    ensures LoggedAt(log', key, value)
  {
    var x: Item :| x.key == key && x.value == value && Logged(log, x);
    LogGrows(log, log', x);
  }

  lemma OccurrenceAdvances(x: Item, k: nat, h: set<Item>, log: seq<Future>, since: map<nat, int>,
                           h': set<Item>, log': seq<Future>, since': map<nat, int>, timely: bool)
    requires Recurs(x.value) && AtOccurrence(x, k, h, log, since, timely)
    requires Advanced(h, log, h', log', since', timely) && Keeps(since, since')
    ensures AtOccurrence(x, k, h', log', since', timely) || AtOccurrence(x, k + 1, h', log', since', timely)
  {
    forall j: nat | j < k ensures LoggedAt(log', Occurrence(x, j), x.value) {
      LoggedAtGrows(log, log', Occurrence(x, j), x.value);
    }
    if Queued(h, Occurrence(x, k), x.value) {
      var y :| y in h && y.key == Occurrence(x, k) && y.value == x.value;
      if y !in h' && !Excused(y.value, y.key.time, since', timely) {
        var z :| z in h' && IsRenewal(z, y);
        assert z.key == Occurrence(x, k + 1);
        assert LoggedAt(log', Occurrence(x, k), x.value);
      }
    }
  }

  lemma FollowedAdvances(x: Item, h: set<Item>, log: seq<Future>, since: map<nat, int>,
                         h': set<Item>, log': seq<Future>, since': map<nat, int>, timely: bool)
    requires Followed(x, h, log, since, timely)
    requires Advanced(h, log, h', log', since', timely) && Keeps(since, since')
    ensures Followed(x, h', log', since', timely)
  {
    if Recurs(x.value) {
      var k: nat :| AtOccurrence(x, k, h, log, since, timely);
      OccurrenceAdvances(x, k, h, log, since, h', log', since', timely);
    } else if Logged(log, x) {
      LogGrows(log, log', x);
    }
  }

  lemma FollowedFromStart(x: Item, h: set<Item>, log: seq<Future>, since: map<nat, int>, timely: bool)
    requires x in h
    ensures Followed(x, h, log, since, timely)
  {
    if Recurs(x.value) {
      assert x.key == Occurrence(x, 0);
      assert AtOccurrence(x, 0, h, log, since, timely);
    }
  }

  ghost predicate AllFollowed(h0: set<Item>, h: set<Item>, log: seq<Future>, since: map<nat, int>, timely: bool) {
    forall x :: x in h0 ==> Followed(x, h, log, since, timely)
  }

  lemma AllFromStart(h: set<Item>, log: seq<Future>, since: map<nat, int>, timely: bool)
    ensures AllFollowed(h, h, log, since, timely)
  {
    forall x | x in h ensures Followed(x, h, log, since, timely) { FollowedFromStart(x, h, log, since, timely); }
  }

  lemma AllAdvance(h0: set<Item>, h: set<Item>, log: seq<Future>, since: map<nat, int>,
                   h': set<Item>, log': seq<Future>, since': map<nat, int>, timely: bool)
    requires AllFollowed(h0, h, log, since, timely)
    requires Advanced(h, log, h', log', since', timely) && Keeps(since, since')
    ensures AllFollowed(h0, h', log', since', timely)
  {
    forall x | x in h0 ensures Followed(x, h', log', since', timely) {
      FollowedAdvances(x, h, log, since, h', log', since', timely);
    }
  }

  /** Every occurrence up to the target was spawned at its own time, unless it was cancelled by then. */
  ghost predicate Honoured(x: Item, log: seq<Future>, since: map<nat, int>, target: int, timely: bool) {
    if Recurs(x.value) then
      forall k: nat {:trigger Occurrence(x, k)} :: Occurrence(x, k).time <= target ==>
        LoggedAt(log, Occurrence(x, k), x.value) || Excused(x.value, Occurrence(x, k).time, since, timely)
    else
      x.key.time <= target ==> Logged(log, x) || Excused(x.value, x.key.time, since, timely)
  }

  lemma OccurrencesIncrease(x: Item, j: nat, k: nat)
    requires Recurs(x.value) && j <= k
    ensures Occurrence(x, j).time <= Occurrence(x, k).time
  {
    assert (k - j) * x.value.period.value >= 0;
  }

  lemma FollowedMeansHonoured(x: Item, h: set<Item>, log: seq<Future>, since: map<nat, int>, target: int, timely: bool)
    requires Followed(x, h, log, since, timely) && forall y :: y in h ==> y.key.time > target
    ensures Honoured(x, log, since, target, timely)
  {
    if Recurs(x.value) {
      var k: nat :| AtOccurrence(x, k, h, log, since, timely);
      forall j: nat | Occurrence(x, j).time <= target
        ensures LoggedAt(log, Occurrence(x, j), x.value) || Excused(x.value, Occurrence(x, j).time, since, timely)
      {
        if j >= k { OccurrencesIncrease(x, k, j); }
      }
    }
  }

  lemma AllHonoured(h0: set<Item>, h: set<Item>, log: seq<Future>, since: map<nat, int>, target: int, timely: bool)
    requires AllFollowed(h0, h, log, since, timely)
    requires forall y :: y in h ==> y.key.time > target
    ensures forall x :: x in h0 ==> Honoured(x, log, since, target, timely)
  {
    forall x | x in h0 ensures Honoured(x, log, since, target, timely) {
      FollowedMeansHonoured(x, h, log, since, target, timely);
    }
  }

  lemma StillHonoured(h0: set<Item>, log: seq<Future>, since: map<nat, int>, since': map<nat, int>, target: int,
                      timely: bool)
    requires Keeps(since, since') && forall x :: x in h0 ==> Honoured(x, log, since, target, timely)
    ensures forall x :: x in h0 ==> Honoured(x, log, since', target, timely)
  {
  }

  // --- One step keeps the promise ---------------------------------------------------------------

  /** A renewal has a parent among the items taken, and an epoch of its own. */
  lemma {:induction false} RenewalOrigin(s: seq<Item>, e: nat, y: Item)
    requires y in Renewals(s, e)
    ensures e <= y.epoch < e + Recurring(s) && exists x :: x in s && IsRenewal(y, x)
  {
    var last := |s| - 1;
    if y in Renewals(s[..last], e) {
      RenewalOrigin(s[..last], e, y);
    } else {
      assert s[last] in s && IsRenewal(y, s[last]);
    }
  }

  lemma {:induction false} RenewalQueued(s: seq<Item>, e: nat, x: Item)
    requires x in s && Recurs(x.value)
    ensures exists y :: y in Renewals(s, e) && IsRenewal(y, x)
  {
    var last := |s| - 1;
    if x == s[last] {
      assert IsRenewal(Renewal(x, e + Recurring(s[..last])), x);
    } else {
      RenewalQueued(s[..last], e, x);
    }
  }

  lemma {:induction false} GroupOf(groups: seq<seq<Item>>, x: Item) returns (g: nat)
    requires x in Flatten(groups)
    ensures g < |groups| && x in groups[g]
  {
    var last := |groups| - 1;
    if x in groups[last] {
      g := last;
    } else {
      g := GroupOf(groups[..last], x);
    }
  }

  lemma TakenIsLogged(log: seq<Future>, time: int, groups: seq<seq<Item>>, x: Item)
    requires x in Flatten(groups) && x.key.time == time
    ensures Logged(log + Futures(time, false, groups), x)
  {
    var g := GroupOf(groups, x);
    assert (log + Futures(time, false, groups))[|log| + g] == Future(time, false, groups[g]);
  }

  /**
    Exactly the items `s`, all of them live items of the step, leave `h` for the executor, in
    order; what else leaves was cancelled; exactly the renewals of `s` are new.
  */
  ghost predicate StepExact(h: set<Item>, e: nat, h': set<Item>, e': nat, time: int, c: set<nat>, c': set<nat>,
                            s: seq<Item>)
  {
    && Increasing(s)
    && (forall x :: x in s ==> x in h && x !in h' && x.key.time == time && !Cancelled(x.value, c))
    && (forall x :: x in h && x !in h' ==> x in s || Cancelled(x.value, c'))
    && h' - h == Renewals(s, e)
    && e' == e + Recurring(s)
  }

  /** The items spawned at `time` are live items of `h`, in order. */
  ghost predicate SpawnedFrom(h: set<Item>, c: set<nat>, time: int, s: seq<Item>) {
    Increasing(s) && forall x :: x in s ==> x in h && x.key.time == time && !Cancelled(x.value, c)
  }

  lemma SpawnedPart(h: set<Item>, h': set<Item>, c: set<nat>, c': set<nat>, time: int, s: seq<Item>, rest: seq<Item>)
    requires SpawnedFrom(h, c, time, s + rest) && h <= h' && c' <= c
    ensures SpawnedFrom(h', c', time, s)
  {
    forall i, j | 0 <= i < j < |s| ensures Less(s[i], s[j]) { assert Less((s + rest)[i], (s + rest)[j]); }
    forall x | x in s ensures x in h' && x.key.time == time && !Cancelled(x.value, c') { assert x in s + rest; }
  }

  /** Evicting cancelled items and then taking the live ones is such a step. */
  lemma EvictThenTake(h0: set<Item>, h: set<Item>, e: nat, h': set<Item>, e': nat, time: int,
                      c: set<nat>, c1: set<nat>, c': set<nat>, s: seq<Item>)
    requires h <= h0 && (forall x :: x in h0 && x !in h ==> Cancelled(x.value, c1))
    requires forall x :: x in h0 ==> x.epoch < e
    requires c1 <= c' && Taken(h, e, h', e', time, c, c', s)
    ensures StepExact(h0, e, h', e', time, c, c', s)
  {
    forall x | x in h' - h0 ensures x in Renewals(s, e) { }
    forall y | y in Renewals(s, e) ensures y in h' - h0 { RenewalOrigin(s, e, y); }
    forall x | x in s ensures x in h0 && x !in h' { }
  }

  /** If what was not spawned is excused, nothing is forgotten. */
  lemma StepAdvances(h: set<Item>, e: nat, h': set<Item>, e': nat, time: int, c: set<nat>, since: map<nat, int>,
                     log: seq<Future>, groups: seq<seq<Item>>, timely: bool)
    requires StepExact(h, e, h', e', time, c, since.Keys, Flatten(groups))
    requires forall x :: x in h && x !in h' && x !in Flatten(groups) ==> Excused(x.value, x.key.time, since, timely)
    ensures Advanced(h, log, h', log + Futures(time, false, groups), since, timely)
  {
    var s := Flatten(groups);
    forall x | x in s
      ensures Logged(log + Futures(time, false, groups), x)
      ensures Recurs(x.value) ==> exists y :: y in h' && IsRenewal(y, x)
    {
      TakenIsLogged(log, time, groups, x);
      if Recurs(x.value) { RenewalQueued(s, e, x); }
    }
  }

  /** What is evicted was cancelled no later than its own time, if all flags and the queue are timely. */
  lemma EvictedExcused(x: Item, now: int, m: map<nat, int>, m1: map<nat, int>, time: int, m': map<nat, int>,
                       timely: bool)
    requires timely ==> forall k :: k in m ==> m[k] <= now
    requires Flagged(m, m1, now) && Flagged(m1, m', time)
    requires timely ==> now < time
    requires (Cancelled(x.value, m1.Keys) && (timely ==> x.key.time >= now)) ||
               (Cancelled(x.value, m'.Keys) && x.key.time == time)
    ensures Excused(x.value, x.key.time, m', timely)
  {
  }

  /** Only cancelled items were evicted. */
  lemma NoStep(h: set<Item>, e: nat, h': set<Item>, now: int, m: map<nat, int>, m': map<nat, int>, log: seq<Future>,
               timely: bool)
    requires h' <= h && (forall x :: x in h && x !in h' ==> Cancelled(x.value, m'.Keys)) && Flagged(m, m', now)
    requires timely ==> (forall x :: x in h ==> x.key.time > now) && forall k :: k in m ==> m[k] <= now
    ensures StepExact(h, e, h', e, now, m.Keys, m'.Keys, [])
    ensures Advanced(h, log, h', log, m', timely)
  {
    assert h' - h == {};
    forall x | x in h && x !in h' ensures Excused(x.value, x.key.time, m', timely) {
      EvictedExcused(x, now, m, m', now + 1, m', timely);
    }
  }

  lemma GoodStep(h: set<Item>, h1: set<Item>, e: nat, h': set<Item>, e': nat, now: int, time: int, m: map<nat, int>,
                 m1: map<nat, int>, m': map<nat, int>, log: seq<Future>, groups: seq<seq<Item>>, timely: bool)
    requires h1 <= h && (forall x :: x in h && x !in h1 ==> Cancelled(x.value, m1.Keys)) &&
               (forall x :: x in h ==> x.epoch < e)
    requires Flagged(m, m1, now) && Flagged(m1, m', time)
    requires timely ==> (forall x :: x in h ==> x.key.time > now) && (forall k :: k in m ==> m[k] <= now) && now < time
    requires Taken(h1, e, h', e', time, m.Keys, m'.Keys, Flatten(groups))
    ensures StepExact(h, e, h', e', time, m.Keys, m'.Keys, Flatten(groups))
    ensures SpawnedFrom(h, m.Keys, time, Flatten(groups))
    ensures Advanced(h, log, h', log + Futures(time, false, groups), m', timely)
  {
    EvictThenTake(h, h1, e, h', e', time, m.Keys, m1.Keys, m'.Keys, Flatten(groups));
    forall x | x in h && x !in h' && x !in Flatten(groups) ensures Excused(x.value, x.key.time, m', timely) {
      EvictedExcused(x, now, m, m1, time, m', timely);
    }
    StepAdvances(h, e, h', e', time, m.Keys, m', log, groups, timely);
  }

  lemma FailedStep(h: set<Item>, h1: set<Item>, e: nat, h': set<Item>, lost: Item, e': nat, time: int, c: set<nat>,
                   c': set<nat>, s: seq<Item>, pending: seq<Item>)
    requires h1 <= h && Taken(h1, e, h' + {lost}, e', time, c, c', s + pending)
    ensures SpawnedFrom(h, c, time, s)
    ensures forall x :: x in s + pending ==> x in h && x !in h'
    ensures forall x :: x in h' && x !in h ==> x in Renewals(s + pending, e)
  {
    SpawnedPart(h1, h, c, c, time, s, pending);
  }

  lemma AdvancedMore(h: set<Item>, h0: set<Item>, log: seq<Future>, h1: set<Item>, log1: seq<Future>, m1: map<nat, int>,
                     h2: set<Item>, log2: seq<Future>, m2: map<nat, int>, timely: bool)
    requires h <= h0 && Advanced(h0, log, h1, log1, m1, timely) && h1 <= h2 && log1 <= log2 && Keeps(m1, m2)
    ensures Advanced(h, log, h2, log2, m2, timely)
  {
    forall x | x in h && x !in h2 && !Excused(x.value, x.key.time, m2, timely) ensures Logged(log2, x) {
      assert !Excused(x.value, x.key.time, m1, timely);
      LogGrows(log1, log2, x);
    }
  }

  // --- When there is a step ------------------------------------------------------------------

  predicate IsCancellable(a: Action) { a.Event? && a.cancelKey.Some? }

  /** Item `x` is not cancelled under the flags `c`, and lies at or before `t`. */
  predicate IsLiveBy(x: Item, c: set<nat>, t: int) { !Cancelled(x.value, c) && x.key.time <= t }

  /** No live item of `h` lies at or before `t`. */
  ghost predicate LiveAfter(h: set<Item>, c: set<nat>, t: int) {
    forall x {:trigger IsLiveBy(x, c, t)} :: x in h ==> !IsLiveBy(x, c, t)
  }

  /**
    Item `x` is within the bound and sure to be live at its time: it is not yet cancelled or,
    if others hold keys, not cancellable.
  */
  predicate IsFirm(x: Item, bound: Option<int>, c: set<nat>, isShared: bool) {
    Within(x.key.time, bound) && if isShared then !IsCancellable(x.value) else !Cancelled(x.value, c)
  }

  ghost predicate HasFirm(h: set<Item>, bound: Option<int>, c: set<nat>, isShared: bool) {
    exists x {:trigger IsFirm(x, bound, c, isShared)} :: x in h && IsFirm(x, bound, c, isShared)
  }

  predicate IsAt(x: Item, t: int) { x.key.time == t }

  ghost predicate HasTime(h: set<Item>, t: int) { exists x {:trigger IsAt(x, t)} :: x in h && IsAt(x, t) }

  /**
    How the time `t` of a step is chosen from the tick and the items of `h`: there is one if
    there is a tick or a sure item within the bound.  If nobody else cancels, there is none
    otherwise, it is that of an item unless there is a tick, and it is later than `now` exactly
    if all live items are.
  */
  ghost predicate Chosen(h: set<Item>, c: set<nat>, isShared: bool, bound: Option<int>, tick: Option<int>, now: int,
                         t: Option<int>)
  {
    && (t.None? ==> tick.None? && !HasFirm(h, bound, c, isShared))
    && (t.Some? && !isShared ==>
          && (tick.Some? || (HasFirm(h, bound, c, isShared) && HasTime(h, t.value)))
          && (t.value > now <==> LiveAfter(h, c, now)))
  }

  lemma NoneFirm(h: set<Item>, h1: set<Item>, bound: Option<int>, c: set<nat>, c1: set<nat>, isShared: bool)
    requires h1 <= h && (forall x :: x in h && x !in h1 ==> Cancelled(x.value, c1)) && (!isShared ==> c1 == c)
    requires forall x :: x in h1 ==> !Within(x.key.time, bound)
    ensures !HasFirm(h, bound, c, isShared)
  {
  }

  /** The next key is that of a live item, and all live ones come later, if nobody else cancels. */
  lemma NextLive(h: set<Item>, h1: set<Item>, k: Key, bound: Option<int>, c: set<nat>, now: int)
    requires h1 <= h && (forall x :: x in h && x !in h1 ==> Cancelled(x.value, c)) && Starts(h1, Some(k), bound, c)
    ensures HasFirm(h, bound, c, false) && HasTime(h, k.time) && (k.time > now <==> LiveAfter(h, c, now))
  {
    var m :| IsLeast(m, h1) && m.key == k && Within(m.key.time, bound) && !Cancelled(m.value, c);
    assert IsFirm(m, bound, c, false) && IsAt(m, k.time);
    if k.time <= now { assert IsLiveBy(m, c, now); }
  }

  /** The earlier one of the next live key and the tick. */
  lemma ChooseTime(h: set<Item>, h1: set<Item>, c: set<nat>, c1: set<nat>, isShared: bool, bound: Option<int>,
                   tick: Option<int>, now: int, k: Option<Key>, t: Option<int>)
    requires h1 <= h && (forall x :: x in h && x !in h1 ==> Cancelled(x.value, c1)) && Starts(h1, k, bound, c)
    requires (!isShared ==> c1 == c) && (tick.Some? ==> tick.value > now && Within(tick.value, bound))
    requires t == if k.None? || (tick.Some? && tick.value <= k.value.time) then tick else Some(k.value.time)
    ensures Chosen(h, c, isShared, bound, tick, now, t)
  {
    if k.None? { NoneFirm(h, h1, bound, c, c1, isShared); }
    if k.Some? && !isShared { NextLive(h, h1, k.value, bound, c, now); }
  }

  /** Other threads have only added items before. */
  lemma ChosenBefore(h: set<Item>, h0: set<Item>, c: set<nat>, c0: set<nat>, isShared: bool, bound: Option<int>,
                     tick: Option<int>, now: int, t: Option<int>)
    requires Chosen(h0, c0, isShared, bound, tick, now, t) && h <= h0 && (!isShared ==> h == h0 && c == c0)
    ensures Chosen(h, c, isShared, bound, tick, now, t)
  {
    if isShared && HasFirm(h, bound, c, true) {
      var x :| x in h && IsFirm(x, bound, c, true);
      assert IsFirm(x, bound, c0, true);
    }
  }

  // --- Injected items ------------------------------------------------------------------------

  /** Item `x` was handed to the executor by the injector, in a future from index `n` on. */
  ghost predicate Spawned(log: seq<Future>, n: nat, x: Item) {
    exists i :: n <= i < |log| && log[i].injected && x in log[i].items
  }

  ghost predicate AllSpawned(h: set<Item>, log: seq<Future>, n: nat) { forall x :: x in h ==> Spawned(log, n, x) }

  lemma SpawnedGrows(h: set<Item>, log: seq<Future>, n: nat, log': seq<Future>, n': nat)
    requires AllSpawned(h, log, n) && log <= log' && n' <= n
    ensures AllSpawned(h, log', n')
  {
    forall x | x in h ensures Spawned(log', n', x) {
      var i :| n <= i < |log| && log[i].injected && x in log[i].items;
      assert log'[i] == log[i];
    }
  }

  lemma NoneSpawned(h: set<Item>, log: seq<Future>, n: nat)
    requires h != {} && n >= |log|
    ensures !AllSpawned(h, log, n)
  {
    var x :| x in h;
    assert !Spawned(log, n, x);
  }

  lemma {:induction false} FuturesTimes(log: seq<Future>, time: int, injected: bool, groups: seq<seq<Item>>)
    ensures forall i :: |log| <= i < |log + Futures(time, injected, groups)| ==>
              (log + Futures(time, injected, groups))[i].time == time
  {
  }

  lemma InjectedSpawned(h: set<Item>, log: seq<Future>, time: int, groups: seq<seq<Item>>, x: Item)
    requires Drained(h, {}, Flatten(groups)) && x in h
    ensures Spawned(log + Futures(time, true, groups), |log|, x)
  {
    var g := GroupOf(groups, x);
    assert (log + Futures(time, true, groups))[|log| + g] == Future(time, true, groups[g]);
  }

  // --- Whole runs ----------------------------------------------------------------------------

  /** All items that the scheduler has spawned, in order. */
  function Dispatched(log: seq<Future>): seq<Item> {
    if log == [] then []
    else Dispatched(log[..|log| - 1]) + if log[|log| - 1].injected then [] else log[|log| - 1].items
  }

  lemma {:induction false} DispatchedOne(log: seq<Future>, f: Future)
    ensures Dispatched(log + [f]) == Dispatched(log) + if f.injected then [] else f.items
  {
    assert (log + [f])[..|log|] == log;
  }

  lemma {:induction false} Associative<T>(a: seq<T>, b: seq<T>, c: seq<T>)
    ensures (a + b) + c == a + (b + c)
  {
  }

  lemma {:induction false} DispatchedMore(log: seq<Future>, time: int, injected: bool, groups: seq<seq<Item>>)
    ensures Dispatched(log + Futures(time, injected, groups)) ==
              Dispatched(log) + if injected then [] else Flatten(groups)
  {
    if groups == [] {
      assert log + Futures(time, injected, groups) == log;
    } else {
      var n := |groups| - 1;
      var front, f := Futures(time, injected, groups[..n]), Future(time, injected, groups[n]);
      DispatchedMore(log, time, injected, groups[..n]);
      FuturesMore(time, injected, groups[..n], groups[n]);
      assert groups == groups[..n] + [groups[n]];
      Associative(log, front, [f]);
      DispatchedOne(log + front, f);
      if !injected { Associative(Dispatched(log), Flatten(groups[..n]), groups[n]); }
    }
  }

  predicate Differ(a: Item, b: Item) { a != b }

  ghost predicate NoRepeats(d: seq<Item>) {
    forall i, j {:trigger Differ(d[i], d[j])} :: 0 <= i < j < |d| ==> Differ(d[i], d[j])
  }

  /** An item was admitted by scheduling, or renews one that has left the queue. */
  ghost predicate Genuine(x: Item, past: set<Item>, admitted: set<Item>) {
    x in admitted || exists y :: y in past && IsRenewal(x, y)
  }

  /**
    The queue `h`, the items `past` that have left it and those `d` that were spawned: nothing is
    spawned twice, nothing comes back, and nothing comes from nowhere.
  */
  ghost predicate Traced(h: set<Item>, d: seq<Item>, past: set<Item>, admitted: set<Item>, next: nat) {
    && NoRepeats(d) && (forall x :: x in d ==> x in past)
    && (forall x :: x in past ==> x !in h && x.epoch < next) && (forall x :: x in admitted ==> x.epoch < next)
    && (forall x :: x in h || x in past ==> Genuine(x, past, admitted))
  }

  lemma NoRepeatsMore(d: seq<Item>, s: seq<Item>)
    requires NoRepeats(d) && Increasing(s) && forall x :: x in s ==> x !in d
    ensures NoRepeats(d + s)
  {
    forall i, j | 0 <= i < j < |d + s| ensures Differ((d + s)[i], (d + s)[j]) {
      if j < |d| {
        assert Differ(d[i], d[j]);
      } else if i < |d| {
        assert (d + s)[j] in s && (d + s)[i] in d;
      } else {
        assert Less(s[i - |d|], s[j - |d|]);
      }
    }
  }

  /** A step takes `s` and spawns a first part of it. */
  lemma TracedStep(h: set<Item>, d: seq<Item>, past: set<Item>, admitted: set<Item>, e: nat,
                   h': set<Item>, e': nat, s: seq<Item>, n: nat)
    requires Traced(h, d, past, admitted, e) && (forall x :: x in h ==> x.epoch < e)
    requires Increasing(s) && (forall x :: x in s ==> x in h && x !in h') && n <= |s|
    requires (forall x :: x in h' && x !in h ==> x in Renewals(s, e)) && e' == e + Recurring(s)
    ensures Traced(h', d + s[..n], past + (h - h'), admitted, e')
  {
    var past', d' := past + (h - h'), d + s[..n];
    assert Increasing(s[..n]) by {
      forall i, j | 0 <= i < j < n ensures Less(s[..n][i], s[..n][j]) { assert Less(s[i], s[j]); }
    }
    forall x | x in s[..n] ensures x in h && x !in d && x in past' { assert x in s; }
    NoRepeatsMore(d, s[..n]);
    forall x | x in past' ensures x !in h' && x.epoch < e' {
      if x in h' && x !in h { RenewalOrigin(s, e, x); }
    }
    forall x | x in h' || x in past' ensures Genuine(x, past', admitted) {
      if x in h || x in past {
        assert Genuine(x, past, admitted);
      } else {
        RenewalOrigin(s, e, x);
        var y :| y in s && IsRenewal(x, y);
        assert y in past';
      }
    }
  }

  lemma TracedGood(h: set<Item>, d: seq<Item>, past: set<Item>, admitted: set<Item>, e: nat, h': set<Item>, e': nat,
                   time: int, c: set<nat>, c': set<nat>, s: seq<Item>)
    requires Traced(h, d, past, admitted, e) && (forall x :: x in h ==> x.epoch < e)
    requires StepExact(h, e, h', e', time, c, c', s)
    ensures Traced(h', d + s, past + (h - h'), admitted, e')
  {
    forall x | x in h' && x !in h ensures x in Renewals(s, e) { assert x in h' - h; }
    TracedStep(h, d, past, admitted, e, h', e', s, |s|);
    assert s[..|s|] == s;
  }

  lemma TracedFailed(h: set<Item>, d: seq<Item>, past: set<Item>, admitted: set<Item>, e: nat, h1: set<Item>,
                     h': set<Item>, lost: Item, e': nat, time: int, c: set<nat>, c': set<nat>, s: seq<Item>,
                     pending: seq<Item>)
    requires Traced(h, d, past, admitted, e) && (forall x :: x in h ==> x.epoch < e)
    requires h1 <= h && Taken(h1, e, h' + {lost}, e', time, c, c', s + pending)
    ensures SpawnedFrom(h, c, time, s)
    ensures Traced(h', d + s, past + (h - h'), admitted, e')
  {
    FailedStep(h, h1, e, h', lost, e', time, c, c', s, pending);
    TracedStep(h, d, past, admitted, e, h', e', s + pending, |s|);
    assert (s + pending)[..|s|] == s;
  }

  /** What the scheduler has spawned is traced, whether or not the step fails on an item that is lost. */
  lemma TracedSpawn(h: set<Item>, log: seq<Future>, past: set<Item>, admitted: set<Item>, e: nat, h1: set<Item>,
                    h': set<Item>, lost: Item, e': nat, time: int, c: set<nat>, c': set<nat>,
                    groups: seq<seq<Item>>, pending: seq<Item>, ok: bool)
    requires Traced(h, Dispatched(log), past, admitted, e) && (forall x :: x in h ==> x.epoch < e)
    requires ok ==> StepExact(h, e, h', e', time, c, c', Flatten(groups)) && SpawnedFrom(h, c, time, Flatten(groups))
    requires !ok ==> h1 <= h && Taken(h1, e, h' + {lost}, e', time, c, c', Flatten(groups) + pending)
    ensures SpawnedFrom(h, c, time, Flatten(groups))
    ensures Traced(h', Dispatched(log + Futures(time, false, groups)), past + (h - h'), admitted, e')
  {
    DispatchedMore(log, time, false, groups);
    if ok {
      TracedGood(h, Dispatched(log), past, admitted, e, h', e', time, c, c', Flatten(groups));
    } else {
      TracedFailed(h, Dispatched(log), past, admitted, e, h1, h', lost, e', time, c, c', Flatten(groups), pending);
    }
  }

  lemma TracedAdmission(h: set<Item>, d: seq<Item>, past: set<Item>, admitted: set<Item>, e: nat, x: Item)
    requires Traced(h, d, past, admitted, e) && x.epoch == e
    ensures Traced(h + {x}, d, past, admitted + {x}, e + 1)
  {
    forall y | y in h + {x} || y in past ensures Genuine(y, past, admitted + {x}) {
      if y != x { assert Genuine(y, past, admitted); }
    }
  }

  /** From index `n` on the futures follow in order of time, after `lo` and up to `hi`. */
  ghost predicate Chronological(log: seq<Future>, n: nat, lo: int, hi: int) {
    && (forall i :: n <= i < |log| ==> lo < log[i].time <= hi)
    && (forall i, j :: n <= i < j < |log| ==> log[i].time <= log[j].time)
  }

  lemma LaterFutures(log: seq<Future>, n: nat, lo: int, hi: int, log': seq<Future>, hi': int)
    requires Chronological(log, n, lo, hi) && log <= log' && lo <= hi < hi' && n <= |log|
    requires forall i :: |log| <= i < |log'| ==> log'[i].time == hi'
    ensures Chronological(log', n, lo, hi')
  {
    forall i | n <= i < |log'| ensures lo < log'[i].time <= hi' { if i < |log| { assert log'[i] == log[i]; } }
    forall i, j | n <= i < j < |log'| ensures log'[i].time <= log'[j].time {
      if i < |log| { assert log'[i] == log[i]; }
      if j < |log| { assert log'[j] == log[j]; }
    }
  }

  // --- One step among other threads ------------------------------------------------------------

  /** What a step reads and writes: queue, flags, spawned futures, time, and the items admitted so far. */
  datatype View = View(heap: set<Item>, since: map<nat, int>, log: seq<Future>, time: int, admitted: set<Item>)

  /** Other threads add later items only. */
  ghost predicate Grown(h: set<Item>, h': set<Item>, time: int) {
    h <= h' && forall x :: x in h' && x !in h ==> x.key.time > time
  }

  /** Every queued item lies strictly in the future, and no flag was set later than now. */
  ghost predicate IsTimely(v: View) {
    (forall x :: x in v.heap ==> x.key.time > v.time) && (forall k :: k in v.since ==> v.since[k] <= v.time)
  }

  lemma StaysTimely(v: View, w: View)
    requires w.time == v.time && Grown(v.heap, w.heap, v.time) && Flagged(v.since, w.since, v.time)
    ensures IsTimely(v) ==> IsTimely(w)
  {
  }

  /** Other threads add later items and cancel some. */
  ghost predicate Meddled(v: View, w: View) {
    && w.log == v.log && w.time == v.time && Grown(v.heap, w.heap, v.time) && Flagged(v.since, w.since, v.time)
    && v.admitted <= w.admitted && w.heap - v.heap <= w.admitted - v.admitted
  }

  /**
    From `v` to `w` the scheduler spawned the items `s` at the time of `w`: live items, in order,
    that were queued in `v` or admitted since; if all went well, nothing queued was forgotten.
  */
  ghost predicate HasStepped(v: View, w: View, s: seq<Item>, timely: bool, ok: bool) {
    && Keeps(v.since, w.since) && v.log <= w.log && v.admitted <= w.admitted
    && Dispatched(w.log) == Dispatched(v.log) + s
    && SpawnedFrom(v.heap + (w.admitted - v.admitted), v.since.Keys, w.time, s)
    && (forall i :: |v.log| <= i < |w.log| ==> w.log[i].time == w.time)
    && (ok ==> Advanced(v.heap, v.log, w.heap, w.log, w.since, timely))
  }

  lemma NotStepped(v: View, timely: bool)
    ensures HasStepped(v, v, [], timely, false)
  {
  }

  /** Under the lock, after other threads have acted. */
  lemma SteppedAfter(u: View, v: View, w: View, groups: seq<seq<Item>>, timely: bool, ok: bool)
    requires Meddled(u, v) && Keeps(v.since, w.since) && w.admitted == v.admitted
    requires w.log == v.log + Futures(w.time, false, groups)
    requires SpawnedFrom(v.heap, v.since.Keys, w.time, Flatten(groups))
    requires ok ==> Advanced(v.heap, v.log, w.heap, w.log, w.since, timely)
    ensures HasStepped(u, w, Flatten(groups), timely, ok)
  {
    var s := Flatten(groups);
    FuturesTimes(v.log, w.time, false, groups);
    DispatchedMore(v.log, w.time, false, groups);
    assert s + [] == s && v.heap <= u.heap + (w.admitted - u.admitted);
    SpawnedPart(v.heap, u.heap + (w.admitted - u.admitted), v.since.Keys, u.since.Keys, w.time, s, []);
    if ok { AdvancedMore(u.heap, v.heap, v.log, w.heap, w.log, w.since, w.heap, w.log, w.since, timely); }
  }

  /** Afterwards injected items are spawned at the same time, and other threads act. */
  ghost predicate Finished(v: View, w: View) {
    && w.time == v.time && Grown(v.heap, w.heap, v.time) && Flagged(v.since, w.since, v.time)
    && v.admitted <= w.admitted && v.log <= w.log && Dispatched(w.log) == Dispatched(v.log)
    && (forall i :: |v.log| <= i < |w.log| ==> w.log[i].time == w.time)
  }

  lemma SteppedBefore(u: View, v: View, w: View, s: seq<Item>, timely: bool, ok: bool)
    requires HasStepped(u, v, s, timely, true) && Finished(v, w)
    ensures HasStepped(u, w, s, timely, ok)
  {
    assert s + [] == s;
    SpawnedPart(u.heap + (v.admitted - u.admitted), u.heap + (w.admitted - u.admitted),
                u.since.Keys, u.since.Keys, w.time, s, []);
    AdvancedMore(u.heap, u.heap, u.log, v.heap, v.log, v.since, w.heap, w.log, w.since, timely);
    forall i | |u.log| <= i < |w.log| ensures w.log[i].time == w.time {
      if i < |v.log| { assert w.log[i] == v.log[i]; }
    }
  }
}
