/**
  One step of the scheduler: the helpers that `step_to_next` runs under the lock of the
  scheduler queue and under that of the injector queue.

  Cancellation flags are atomic booleans that any thread may set at any moment, also
  while the lock is held, so every look at a flag comes after an arbitrary growth of
  the set of cancelled keys.
*/
module SchedulerStep {
  import opened EventQueue
  import opened Wrappers

  datatype Error =
    | InvalidSource(id: nat)
    | Halted
    | Terminated
    | OutOfSync
    | ExecutorFailed
    | InvalidDeadline(time: int)

  datatype Result<T> = Ok(value: T) | Err(error: Error)

  /**
    A sequential future handed to the executor: the time of the step, whether it comes from
    the injector, and the items it polls in order.
  */
  datatype Future = Future(time: int, injected: bool, items: seq<Item>)

  /** Flags are only ever added, each with the simulation time at which it was set. */
  ghost predicate Flagged(m: map<nat, int>, m': map<nat, int>, now: int) {
    && m.Keys <= m'.Keys
    && (forall k :: k in m ==> m'[k] == m[k])
    && (forall k :: k in m' && k !in m ==> m'[k] == now)
  }

  class CancelFlags {
    /** Whether other threads hold keys. */
    const isShared: bool
    /** The keys whose flag is set, and since when. */
    var since: map<nat, int>

    constructor (shared: bool)
      ensures since == map[] && isShared == shared
    {
      since, isShared := map[], shared;
    }

    /** Other threads cancel any events. */
    method Others(now: int)
      modifies this
      ensures Flagged(old(since), since, now)
      ensures !isShared ==> since == old(since)
    {
      if !isShared { return; }
      var more: set<nat> := *;
      since := map k | k in since.Keys + more :: if k in since then since[k] else now;
    }
  }

  /** `completed` counts the spawned futures, in order, that have been run to completion. */
  class Executor {
    var spawned: seq<Future>
    var completed: nat

    constructor ()
      ensures spawned == [] && completed == 0
    {
      spawned, completed := [], 0;
    }

    method SpawnAndForget(f: Future)
      modifies this`spawned
      ensures spawned == old(spawned) + [f]
    {
      spawned := spawned + [f];
    }

    /** Runs all spawned futures. */
    method Run()
      modifies this`completed
      ensures completed == |spawned|
    {
      completed := |spawned|;
    }
  }

  // --- Specification -----------------------------------------------------------------

  predicate Cancelled(a: Action, flags: set<nat>) {
    a.Event? && a.cancelKey.Some? && a.cancelKey.value in flags
  }

  /** The event or query source of the item is registered. */
  predicate Known(a: Action, registry: set<nat>) { a.Ready? || a.source in registry }

  ghost predicate AllKnown(h: set<Item>, registry: set<nat>) { forall x :: x in h ==> Known(x.value, registry) }

  predicate Recurs(a: Action) { a.Event? && a.period.Some? }

  /** Scheduling rejects null periods. */
  predicate ProperPeriods(h: set<Item>) {
    forall x :: x in h && Recurs(x.value) ==> x.value.period.value > 0
  }

  /** The item that follows a recurring one. */
  function Renewal(x: Item, epoch: nat): Item
    requires Recurs(x.value)
  {
    Item(Key(x.key.time + x.value.period.value, x.key.origin), epoch, x.value)
  }

  function Recurring(s: seq<Item>): nat {
    if s == [] then 0 else Recurring(s[..|s| - 1]) + if Recurs(s[|s| - 1].value) then 1 else 0
  }

  /** Each recurring item is inserted once more, in the order of `s`, from epoch `e` on. */
  function Renewals(s: seq<Item>, e: nat): set<Item> {
    if s == [] then {}
    else
      var x, rest := s[|s| - 1], s[..|s| - 1];
      Renewals(rest, e) + if Recurs(x.value) then {Renewal(x, e + Recurring(rest))} else {}
  }

  function Flatten(groups: seq<seq<Item>>): seq<Item> {
    if groups == [] then [] else Flatten(groups[..|groups| - 1]) + groups[|groups| - 1]
  }

  ghost predicate SameOrigin(g: seq<Item>, origin: nat) { forall i :: 0 <= i < |g| ==> g[i].key.origin == origin }

  /** A group is a non-empty sequence of items with one origin. */
  ghost predicate IsGroup(g: seq<Item>) { g != [] && SameOrigin(g, g[0].key.origin) }

  predicate Before(g: seq<Item>, g': seq<Item>) { g != [] && g' != [] && g[0].key.origin < g'[0].key.origin }

  /** One non-empty future per origin, origins in increasing order. */
  ghost predicate Grouped(groups: seq<seq<Item>>) {
    && (forall i :: 0 <= i < |groups| ==> IsGroup(groups[i]))
    && (forall i, j {:trigger Before(groups[i], groups[j])} :: 0 <= i < j < |groups| ==> Before(groups[i], groups[j]))
  }

  /** All groups so far come from origins below `origin`. */
  ghost predicate AllBelow(groups: seq<seq<Item>>, origin: nat) {
    forall i :: 0 <= i < |groups| ==> groups[i] != [] && groups[i][0].key.origin < origin
  }

  function Futures(time: int, injected: bool, groups: seq<seq<Item>>): seq<Future> {
    seq(|groups|, i requires 0 <= i < |groups| => Future(time, injected, groups[i]))
  }

  /**
    The items `s` have been taken from a queue `h` at `time`: what is gone was spawned or
    cancelled, what is new renews what was spawned.
  */
  ghost predicate Taken(h: set<Item>, e: nat, h': set<Item>, e': nat, time: int, c: set<nat>, c': set<nat>,
                        s: seq<Item>)
  {
    && Increasing(s)
    && (forall x :: x in s ==> x in h && x !in h' && x.key.time == time && !Cancelled(x.value, c))
    && (forall x :: x in h && x !in h' ==> x.key.time == time && (x in s || Cancelled(x.value, c')))
    && (forall x :: x in h' && x !in h ==> x in Renewals(s, e))
    && Renewals(s, e) <= h'
    && e' == e + Recurring(s)
  }

  // --- Finding the next live key ----------------------------------------------------------

  predicate Within(time: int, bound: Option<int>) { bound.None? || time <= bound.value }

  /** The queue starts with a live item with key `k`. */
  ghost predicate Starts(h: set<Item>, k: Option<Key>, bound: Option<int>, c: set<nat>) {
    if k.None? then
      forall x :: x in h ==> !Within(x.key.time, bound)
    else
      exists m :: IsLeast(m, h) && m.key == k.value && Within(m.key.time, bound) && !Cancelled(m.value, c)
  }

  method PeekNextKey(q: PriorityQueue, flags: CancelFlags, bound: Option<int>, now: int) returns (r: Option<Key>)
    requires q.Valid()
    modifies q`heap, flags
    ensures q.Valid() && Flagged(old(flags.since), flags.since, now)
    ensures q.heap <= old(q.heap)
    ensures forall x :: x in old(q.heap) && x !in q.heap ==>
              Within(x.key.time, bound) && Cancelled(x.value, flags.since.Keys)
    ensures Starts(q.heap, r, bound, old(flags.since.Keys))
    ensures !flags.isShared ==> flags.since == old(flags.since)
  {
    while true
      invariant q.Valid() && q.heap <= old(q.heap) && Flagged(old(flags.since), flags.since, now)
      invariant !flags.isShared ==> flags.since == old(flags.since)
      invariant forall x :: x in old(q.heap) && x !in q.heap ==>
                  Within(x.key.time, bound) && Cancelled(x.value, flags.since.Keys)
      decreases q.heap
    {
      var head := q.Peek();
      if head.None? || !Within(head.value.key.time, bound) {
        return None;
      }
      flags.Others(now);
      if Cancelled(head.value.value, flags.since.Keys) {
        var _ := q.Pull();
      } else {
        assert IsLeast(head.value, q.heap);
        return Some(head.value.key);
      }
    }
  }

  // --- Spawning the items of one step ------------------------------------------------------

  /** The loop invariant: `s` has been taken, and what is left comes later. */
  ghost predicate Taking(h: set<Item>, e: nat, h': set<Item>, e': nat, time: int, c: set<nat>, c': set<nat>,
                         s: seq<Item>)
  {
    && Taken(h, e, h', e', time, c, c', s)
    && ProperPeriods(h')
    && (forall x :: x in h' ==> x.key.time >= time)
    && (forall x, y {:trigger Less(x, y)} :: x in s && y in h' ==> Less(x, y))
    && (forall x :: x in Renewals(s, e) ==> x.key.time > time)
  }

  lemma NothingTaken(h: set<Item>, e: nat, time: int, c: set<nat>)
    requires ProperPeriods(h) && forall x :: x in h ==> x.key.time >= time
    ensures Taking(h, e, h, e, time, c, c, [])
  {
  }

  /** The queue after its head `x` was pulled and, if it recurs, inserted again. */
  function AfterPull(h: set<Item>, e: nat, x: Item): set<Item> {
    h - {x} + if Recurs(x.value) then {Renewal(x, e)} else {}
  }

  lemma RenewalsOfMore(s: seq<Item>, e: nat, x: Item)
    ensures Recurring(s + [x]) == Recurring(s) + if Recurs(x.value) then 1 else 0
    ensures Renewals(s + [x], e) == Renewals(s, e) + if Recurs(x.value) then {Renewal(x, e + Recurring(s))} else {}
  {
    assert (s + [x])[..|s|] == s;
  }

  lemma TakeOrder(s: seq<Item>, h: set<Item>, e: nat, x: Item, time: int)
    requires Increasing(s) && IsLeast(x, h) && ProperPeriods(h) && x.key.time == time
    requires forall y :: y in s ==> y.key.time == time
    requires forall a, b {:trigger Less(a, b)} :: a in s && b in h ==> Less(a, b)
    ensures Increasing(s + [x])
    ensures forall a, b {:trigger Less(a, b)} :: a in s + [x] && b in AfterPull(h, e, x) ==> Less(a, b)
  {
  }

  lemma TakeContents(h: set<Item>, e: nat, h': set<Item>, e': nat, time: int, c: set<nat>, c': set<nat>,
                     s: seq<Item>, x: Item)
    requires Taken(h, e, h', e', time, c, c', s) && (forall y :: y in h ==> y.epoch < e) && Increasing(s + [x])
    requires x in h && x in h' && x !in Renewals(s, e) && x.key.time == time && !Cancelled(x.value, c)
    ensures Taken(h, e, AfterPull(h', e', x), e' + (if Recurs(x.value) then 1 else 0), time, c, c', s + [x])
  {
    RenewalsOfMore(s, e, x);
  }

  lemma TakeOne(h: set<Item>, e: nat, h': set<Item>, e': nat, time: int, c: set<nat>, c': set<nat>, s: seq<Item>,
                x: Item)
    requires Taking(h, e, h', e', time, c, c', s) && (forall y :: y in h ==> y.epoch < e)
    requires IsLeast(x, h') && x.key.time == time && !Cancelled(x.value, c)
    ensures Taking(h, e, AfterPull(h', e', x), e' + (if Recurs(x.value) then 1 else 0), time, c, c', s + [x])
  {
    TakeOrder(s, h', e', x, time);
    TakeContents(h, e, h', e', time, c, c', s, x);
    RenewalsOfMore(s, e, x);
  }

  /** Cancelled items of the step are dropped. */
  lemma Evict(h: set<Item>, e: nat, h': set<Item>, h'': set<Item>, e': nat, time: int, c: set<nat>, c': set<nat>,
              c'': set<nat>, s: seq<Item>)
    requires Taking(h, e, h', e', time, c, c', s) && c' <= c'' && h'' <= h'
    requires forall x :: x in h' && x !in h'' ==> x.key.time <= time && Cancelled(x.value, c'')
    ensures Taking(h, e, h'', e', time, c, c'', s)
  {
  }

  /** Pulls the head and inserts it again if it recurs; an item of an unknown source is lost. */
  method PullNext(q: PriorityQueue, registry: set<nat>) returns (r: Result<Item>, ghost x: Item)
    requires q.Valid() && q.heap != {}
    modifies q
    ensures q.Valid() && IsLeast(x, old(q.heap))
    ensures r == if Known(x.value, registry) then Ok(x) else Err(InvalidSource(x.value.source))
    ensures r.Ok? ==> q.heap == AfterPull(old(q.heap), old(q.nextEpoch), x)
    ensures r.Ok? ==> q.nextEpoch == old(q.nextEpoch) + if Recurs(x.value) then 1 else 0
    ensures r.Err? ==> q.heap == old(q.heap) - {x} && q.nextEpoch == old(q.nextEpoch)
  {
    var head := q.Pull();
    var item := head.value;
    x := item;
    if !Known(item.value, registry) {
      return Err(InvalidSource(item.value.source)), x;
    }
    if item.value.Event? && item.value.period.Some? {
      q.Insert(Key(item.key.time + item.value.period.value, item.key.origin), item.value);
    }
    r := Ok(item);
  }

  lemma FlattenMore(groups: seq<seq<Item>>, g: seq<Item>)
    ensures Flatten(groups + [g]) == Flatten(groups) + g
  {
    assert (groups + [g])[..|groups|] == groups;
  }

  lemma FuturesMore(time: int, injected: bool, groups: seq<seq<Item>>, g: seq<Item>)
    ensures Futures(time, injected, groups + [g]) == Futures(time, injected, groups) + [Future(time, injected, g)]
  {
  }

  lemma GroupedMore(groups: seq<seq<Item>>, g: seq<Item>, origin: nat)
    requires Grouped(groups) && g != [] && SameOrigin(g, origin) && AllBelow(groups, origin)
    ensures Grouped(groups + [g])
    ensures forall o :: o > origin ==> AllBelow(groups + [g], o)
  {
  }

  /** The futures of `groups`, one per origin, have been spawned after `before`. */
  ghost predicate HasSpawned(spawned: seq<Future>, before: seq<Future>, time: int, injected: bool,
                             groups: seq<seq<Item>>)
  {
    Grouped(groups) && spawned == before + Futures(time, injected, groups)
  }

  method SpawnGroup(ex: Executor, time: int, injected: bool, g: seq<Item>, ghost before: seq<Future>,
                    ghost groups: seq<seq<Item>>, ghost origin: nat)
    requires HasSpawned(ex.spawned, before, time, injected, groups)
    requires g != [] && SameOrigin(g, origin) && AllBelow(groups, origin)
    modifies ex`spawned
    ensures HasSpawned(ex.spawned, before, time, injected, groups + [g]) && Flatten(groups + [g]) == Flatten(groups) + g
    ensures forall o :: o > origin ==> AllBelow(groups + [g], o)
  {
    ex.SpawnAndForget(Future(time, injected, g));
    FlattenMore(groups, g);
    FuturesMore(time, injected, groups, g);
    GroupedMore(groups, g, origin);
  }

  /** What may be said when the step fails: item `x` of an unknown source was pulled and lost. */
  ghost predicate Failed(r: Error, x: Item, registry: set<nat>, h: set<Item>, time: int) {
    !Known(x.value, registry) && r == InvalidSource(x.value.source) && x !in h && x.key.time == time
  }

  /** Takes the head, then looks for the next live key of the step; `c0` are the flags set when it began. */
  method TakeNext(q: PriorityQueue, flags: CancelFlags, registry: set<nat>, nextKey: Key,
                  ghost h0: set<Item>, ghost e0: nat, ghost c0: set<nat>, ghost s: seq<Item>)
    returns (r: Result<Item>, key: Option<Key>, ghost x: Item)
    requires q.Valid() && c0 <= flags.since.Keys && (forall y :: y in h0 ==> y.epoch < e0)
    requires Taking(h0, e0, q.heap, q.nextEpoch, nextKey.time, c0, flags.since.Keys, s)
    requires Starts(q.heap, Some(nextKey), Some(nextKey.time), c0)
    modifies q, flags
    ensures q.Valid() && Flagged(old(flags.since), flags.since, nextKey.time) && x.key == nextKey
    ensures r.Ok? ==> r.value == x && Taking(h0, e0, q.heap, q.nextEpoch, nextKey.time, c0, flags.since.Keys, s + [x])
    ensures r.Ok? ==> Starts(q.heap, key, Some(nextKey.time), c0)
    ensures r.Ok? && key.Some? ==> key.value == nextKey || KeyLess(nextKey, key.value)
    ensures r.Ok? ==> |Due(q.heap, nextKey.time)| < |Due(old(q.heap), nextKey.time)|
    ensures r.Err? ==> Failed(r.error, x, registry, q.heap, nextKey.time)
    ensures r.Err? ==> Taking(h0, e0, q.heap + {x}, q.nextEpoch, nextKey.time, c0, flags.since.Keys, s)
  {
    ghost var h1, e1 := q.heap, q.nextEpoch;
    r, x := PullNext(q, registry);
    key := None;
    if r.Err? {
      assert q.heap + {x} == h1;
      return;
    }
    TakeOne(h0, e0, h1, e1, nextKey.time, c0, flags.since.Keys, s, x);
    key := LookOn(q, flags, nextKey, h0, e0, c0, s + [x], h1, e1, x);
  }

  /** Looks for the next live key of the step after the head `x` of `h1` was taken. */
  method LookOn(q: PriorityQueue, flags: CancelFlags, nextKey: Key, ghost h0: set<Item>, ghost e0: nat,
                ghost c0: set<nat>, ghost s: seq<Item>, ghost h1: set<Item>, ghost e1: nat, ghost x: Item)
    returns (key: Option<Key>)
    requires q.Valid() && c0 <= flags.since.Keys && q.heap == AfterPull(h1, e1, x)
    requires IsLeast(x, h1) && x.key == nextKey && ProperPeriods(h1)
    requires Taking(h0, e0, q.heap, q.nextEpoch, nextKey.time, c0, flags.since.Keys, s)
    modifies q`heap, flags
    ensures q.Valid() && Flagged(old(flags.since), flags.since, nextKey.time)
    ensures Taking(h0, e0, q.heap, q.nextEpoch, nextKey.time, c0, flags.since.Keys, s)
    ensures Starts(q.heap, key, Some(nextKey.time), c0)
    ensures key.Some? ==> key.value == nextKey || KeyLess(nextKey, key.value)
    ensures |Due(q.heap, nextKey.time)| < |Due(h1, nextKey.time)|
  {
    ghost var h2, c2 := q.heap, flags.since.Keys;
    key := PeekNextKey(q, flags, Some(nextKey.time), nextKey.time);
    Evict(h0, e0, h2, q.heap, q.nextEpoch, nextKey.time, c0, c2, flags.since.Keys, s);
    DueShrinks(h1, e1, x, q.heap, nextKey.time);
    StartsLater(h1, e1, x, q.heap, key, Some(nextKey.time), c2);
  }

  lemma StartsLater(h: set<Item>, e: nat, x: Item, h': set<Item>, key: Option<Key>, bound: Option<int>, c: set<nat>)
    requires IsLeast(x, h) && ProperPeriods(h) && h' <= AfterPull(h, e, x) && Starts(h', key, bound, c)
    ensures key.Some? ==> key.value == x.key || KeyLess(x.key, key.value)
  {
    if key.Some? {
      var m :| IsLeast(m, h') && m.key == key.value;
      assert m in AfterPull(h, e, x);
    }
  }

  lemma GroupMore(s: seq<Item>, group: seq<Item>, x: Item, origin: nat)
    requires SameOrigin(group, origin) && x.key.origin == origin
    ensures SameOrigin(group + [x], origin) && s + group + [x] == s + (group + [x])
  {
  }

  /** Merges all live items with the key of the head in one sequence. */
  method TakeGroup(q: PriorityQueue, flags: CancelFlags, registry: set<nat>, nextKey: Key,
                   ghost h0: set<Item>, ghost e0: nat, ghost c0: set<nat>, ghost s0: seq<Item>)
    returns (r: Result<seq<Item>>, key: Option<Key>, ghost taken: seq<Item>, ghost x: Item)
    requires q.Valid() && c0 <= flags.since.Keys && (forall y :: y in h0 ==> y.epoch < e0)
    requires Taking(h0, e0, q.heap, q.nextEpoch, nextKey.time, c0, flags.since.Keys, s0)
    requires Starts(q.heap, Some(nextKey), Some(nextKey.time), c0)
    modifies q, flags
    ensures q.Valid() && Flagged(old(flags.since), flags.since, nextKey.time) && SameOrigin(taken, nextKey.origin)
    ensures r.Ok? ==> r.value == taken && taken != []
    ensures r.Ok? ==> Taking(h0, e0, q.heap, q.nextEpoch, nextKey.time, c0, flags.since.Keys, s0 + taken)
    ensures r.Ok? ==> Starts(q.heap, key, Some(nextKey.time), c0)
    ensures r.Ok? && key.Some? ==> KeyLess(nextKey, key.value)
    ensures r.Ok? ==> |Due(q.heap, nextKey.time)| < |Due(old(q.heap), nextKey.time)|
    ensures r.Err? ==> Failed(r.error, x, registry, q.heap, nextKey.time)
    ensures r.Err? ==> Taking(h0, e0, q.heap + {x}, q.nextEpoch, nextKey.time, c0, flags.since.Keys, s0 + taken)
  {
    key, taken := Some(nextKey), [];
    x := Item(nextKey, 0, Query(0, 0));
    var group: seq<Item> := [];
    ghost var s := s0;
    while key == Some(nextKey)
      invariant q.Valid() && Flagged(old(flags.since), flags.since, nextKey.time) &&
                  SameOrigin(group, nextKey.origin) && s == s0 + group
      invariant Taking(h0, e0, q.heap, q.nextEpoch, nextKey.time, c0, flags.since.Keys, s)
      invariant Starts(q.heap, key, Some(nextKey.time), c0)
      invariant key.Some? ==> key.value == nextKey || KeyLess(nextKey, key.value)
      invariant if group == [] then key == Some(nextKey) && q.heap == old(q.heap)
                else |Due(q.heap, nextKey.time)| < |Due(old(q.heap), nextKey.time)|
      decreases |Due(q.heap, nextKey.time)|
    {
      var item;
      item, key, x := TakeNext(q, flags, registry, nextKey, h0, e0, c0, s);
      if item.Err? {
        return Err(item.error), None, group, x;
      }
      GroupMore(s0, group, x, nextKey.origin);
      s := s + [x];
      group := group + [item.value];
    }
    return Ok(group), key, group, x;
  }

  /** The loop of the step over the origins, from the first key on. */
  method SpawnGroups(q: PriorityQueue, flags: CancelFlags, ex: Executor, registry: set<nat>, nextKey: Key,
                     ghost h0: set<Item>, ghost e0: nat, ghost c0: set<nat>)
    returns (r: Result<bool>, ghost groups: seq<seq<Item>>, ghost pending: seq<Item>, ghost lost: Item)
    requires q.Valid() && c0 <= flags.since.Keys && (forall y :: y in h0 ==> y.epoch < e0)
    requires Taking(h0, e0, q.heap, q.nextEpoch, nextKey.time, c0, flags.since.Keys, [])
    requires Starts(q.heap, Some(nextKey), Some(nextKey.time), c0)
    modifies q, flags, ex`spawned
    ensures q.Valid() && Flagged(old(flags.since), flags.since, nextKey.time)
    ensures HasSpawned(ex.spawned, old(ex.spawned), nextKey.time, false, groups)
    ensures r.Ok? ==> r.value && groups != [] && Starts(q.heap, None, Some(nextKey.time), c0)
    ensures r.Ok? ==> Taking(h0, e0, q.heap, q.nextEpoch, nextKey.time, c0, flags.since.Keys, Flatten(groups))
    ensures r.Err? ==> Failed(r.error, lost, registry, q.heap, nextKey.time)
    ensures r.Err? ==> Taking(h0, e0, q.heap + {lost}, q.nextEpoch, nextKey.time, c0, flags.since.Keys,
              Flatten(groups) + pending)
  {
    groups, pending := [], [];
    lost := Item(nextKey, 0, Query(0, 0));
    assert Futures(nextKey.time, false, groups) == [];
    var key := Some(nextKey);
    ghost var s: seq<Item> := [];
    while key.Some?
      invariant q.Valid() && Flagged(old(flags.since), flags.since, nextKey.time) && s == Flatten(groups)
      invariant HasSpawned(ex.spawned, old(ex.spawned), nextKey.time, false, groups)
      invariant Taking(h0, e0, q.heap, q.nextEpoch, nextKey.time, c0, flags.since.Keys, s)
      invariant Starts(q.heap, key, Some(nextKey.time), c0)
      invariant key.Some? ==> key.value.time == nextKey.time && AllBelow(groups, key.value.origin)
      invariant key.None? ==> groups != []
      decreases |Due(q.heap, nextKey.time)|
    {
      ghost var origin := key.value.origin;
      ghost var taken;
      var eventSeq;
      eventSeq, key, taken, lost := TakeGroup(q, flags, registry, key.value, h0, e0, c0, s);
      if eventSeq.Err? {
        return Err(eventSeq.error), groups, taken, lost;
      }
      SpawnGroup(ex, nextKey.time, false, eventSeq.value, old(ex.spawned), groups, origin);
      groups, s := groups + [taken], s + taken;
    }
    r := Ok(true);
  }

  /**
    Spawns the live items of the step, one future per origin.  `c0` are the flags that
    were set when the next key was looked up.
  */
  method HandleSchedulerStep(q: PriorityQueue, flags: CancelFlags, ex: Executor, registry: set<nat>,
                             nextKey: Option<Key>, time: int, ghost bound: Option<int>, ghost c0: set<nat>)
    returns (r: Result<bool>, ghost groups: seq<seq<Item>>, ghost pending: seq<Item>, ghost lost: Item)
    requires q.Valid() && ProperPeriods(q.heap) && c0 <= flags.since.Keys
    requires Starts(q.heap, nextKey, bound, c0) && Within(time, bound)
    requires nextKey.Some? ==> time <= nextKey.value.time
    modifies q, flags, ex`spawned
    ensures q.Valid() && ProperPeriods(q.heap) && Flagged(old(flags.since), flags.since, time)
    ensures HasSpawned(ex.spawned, old(ex.spawned), time, false, groups)
    ensures r.Ok? ==> (r.value <==> groups != []) && (!r.value ==> ex.spawned == old(ex.spawned))
    ensures r.Ok? ==> Taken(old(q.heap), old(q.nextEpoch), q.heap, q.nextEpoch, time, c0, flags.since.Keys,
              Flatten(groups))
    ensures r.Ok? ==> forall x :: x in q.heap ==> x.key.time > time
    ensures r.Err? ==> Failed(r.error, lost, registry, q.heap, time)
    ensures r.Err? ==>
              Taken(old(q.heap), old(q.nextEpoch), q.heap + {lost}, q.nextEpoch, time, c0, flags.since.Keys,
                  Flatten(groups) + pending)
    ensures AllKnown(old(q.heap), registry) ==> r.Ok? && AllKnown(q.heap, registry)
  {
    if nextKey.None? || nextKey.value.time != time {
      return Ok(false), [], [], Item(Key(0, 0), 0, Query(0, 0));
    }
    ghost var h, e := q.heap, q.nextEpoch;
    NothingTaken(h, e, time, c0);
    Evict(h, e, h, h, e, time, c0, c0, flags.since.Keys, []);
    r, groups, pending, lost := SpawnGroups(q, flags, ex, registry, nextKey.value, h, e, c0);
    ghost var s := Flatten(groups) + if r.Ok? then [] else pending;
    ghost var rest := if r.Ok? then q.heap else q.heap + {lost};
    assert r.Ok? ==> s == Flatten(groups);
    TakenKnown(h, e, rest, q.nextEpoch, time, c0, flags.since.Keys, s, registry);
  }

  lemma {:induction false} RenewalsKnown(s: seq<Item>, e: nat, registry: set<nat>)
    requires forall x :: x in s ==> Known(x.value, registry)
    ensures AllKnown(Renewals(s, e), registry)
  {
    if s != [] { RenewalsKnown(s[..|s| - 1], e, registry); }
  }

  /** A step leaves no item of an unknown source if it finds none. */
  lemma TakenKnown(h: set<Item>, e: nat, h': set<Item>, e': nat, time: int, c: set<nat>, c': set<nat>, s: seq<Item>,
                   registry: set<nat>)
    requires Taken(h, e, h', e', time, c, c', s)
    ensures AllKnown(h, registry) ==> AllKnown(h', registry)
  {
    if AllKnown(h, registry) { RenewalsKnown(s, e, registry); }
  }

  /** The items of the current step that are still queued. */
  function Due(h: set<Item>, time: int): set<Item> { set x | x in h && x.key.time <= time }

  lemma DueShrinks(h: set<Item>, e: nat, x: Item, h': set<Item>, time: int)
    requires IsLeast(x, h) && x.key.time == time && h' <= AfterPull(h, e, x) && ProperPeriods(h)
    ensures |Due(h', time)| < |Due(h, time)|
  {
    assert Due(h', time) <= Due(h, time) - {x};
    Smaller(Due(h', time), Due(h, time) - {x});
  }

  lemma {:induction false} Smaller(a: set<Item>, b: set<Item>)
    requires a <= b
    ensures |a| <= |b|
    decreases |a|
  {
    if a != {} {
      var x :| x in a;
      Smaller(a - {x}, b - {x});
    }
  }

  // --- The injector queue --------------------------------------------------------------------

  /** `s` is what has been pulled from `h` down to `h'`, in order. */
  ghost predicate Drained(h: set<Item>, h': set<Item>, s: seq<Item>) {
    && Increasing(s) && h' <= h
    && (forall x :: x in h <==> x in s || x in h')
    && (forall x, y {:trigger Less(x, y)} :: x in s && y in h' ==> Less(x, y))
    && (forall x :: x in s ==> x !in h')
  }

  lemma DrainOne(h: set<Item>, h': set<Item>, s: seq<Item>, x: Item)
    requires Drained(h, h', s) && IsLeast(x, h')
    ensures Drained(h, h' - {x}, s + [x])
  {
  }

  /** The keys of the injector queue are origins; the time component is not used. */
  ghost predicate OriginKeys(h: set<Item>) { forall x :: x in h ==> x.key.time == 0 }

  method PullInjected(q: PriorityQueue, registry: set<nat>, ghost h: set<Item>,
                      ghost s: seq<Item>) returns (r: Result<Item>, ghost x: Item)
    requires q.Valid() && q.heap != {} && Drained(h, q.heap, s)
    modifies q
    ensures q.Valid() && IsLeast(x, old(q.heap)) && q.heap == old(q.heap) - {x}
    ensures r.Ok? ==> r.value == x && Drained(h, q.heap, s + [x])
    ensures r.Err? ==> Failed(r.error, x, registry, q.heap, x.key.time) && Drained(h, q.heap + {x}, s)
  {
    ghost var h1 := q.heap;
    var next := q.Pull();
    var item := next.value;
    x := item;
    if !Known(item.value, registry) {
      assert q.heap + {x} == h1;
      return Err(InvalidSource(item.value.source)), x;
    }
    DrainOne(h, h1, s, x);
    r := Ok(item);
  }

  lemma HeadIsFirst(h: set<Item>, head: Item, x: Item)
    requires IsLeast(x, h) && OriginKeys(h)
    ensures forall y :: y in h ==> y.key.origin >= x.key.origin
    ensures IsLeast(head, h) ==> head == x
  {
  }

  /** All injected items are spawned, whether or not a cancellation was requested. */
  method HandleInjectorStep(q: PriorityQueue, ex: Executor, registry: set<nat>, time: int)
    returns (r: Result<bool>, ghost groups: seq<seq<Item>>, ghost pending: seq<Item>, ghost lost: Item)
    requires q.Valid() && OriginKeys(q.heap)
    modifies q, ex`spawned
    ensures q.Valid() && q.heap <= old(q.heap) && HasSpawned(ex.spawned, old(ex.spawned), time, true, groups)
    ensures r == Ok(false) ==> ex.spawned == old(ex.spawned)
    ensures r.Ok? ==> (r.value <==> old(q.heap) != {}) && q.heap == {} && Drained(old(q.heap), {}, Flatten(groups))
    ensures r.Err? ==> Failed(r.error, lost, registry, q.heap, 0)
    ensures r.Err? ==> Drained(old(q.heap), q.heap + {lost}, Flatten(groups) + pending)
    ensures AllKnown(old(q.heap), registry) ==> r.Ok?
  {
    groups, pending := [], [];
    lost := Item(Key(0, 0), 0, Query(0, 0));
    assert Futures(time, true, groups) == [];
    var head := q.Peek();
    if head.None? { return Ok(false), groups, pending, lost; }
    var originId := head.value.key.origin;
    var eventSeq: seq<Item> := [];
    ghost var s: seq<Item> := [];
    while q.heap != {}
      invariant q.Valid() && HasSpawned(ex.spawned, old(ex.spawned), time, true, groups)
      invariant Drained(old(q.heap), q.heap, s) && s == Flatten(groups) + eventSeq
      invariant SameOrigin(eventSeq, originId) && AllBelow(groups, originId)
      invariant OriginKeys(q.heap) && forall x :: x in q.heap ==> x.key.origin >= originId
      invariant eventSeq == [] ==> IsLeast(head.value, q.heap) && originId == head.value.key.origin
      decreases q.heap
    {
      var item;
      ghost var h1 := q.heap;
      item, lost := PullInjected(q, registry, old(q.heap), s);
      HeadIsFirst(h1, head.value, lost);
      if item.Err? {
        return Err(item.error), groups, eventSeq, lost;
      }
      s := s + [lost];
      if item.value.key.origin != originId {
        SpawnGroup(ex, time, true, eventSeq, old(ex.spawned), groups, originId);
        groups, eventSeq, originId := groups + [eventSeq], [], item.value.key.origin;
      }
      GroupMore(Flatten(groups), eventSeq, item.value, originId);
      eventSeq := eventSeq + [item.value];
    }
    assert eventSeq != [];
    SpawnGroup(ex, time, true, eventSeq, old(ex.spawned), groups, originId);
    groups := groups + [eventSeq];
    r := Ok(true);
  }
}
