/**
  Simulation stepping: `step_to_next`, `step_until` and the scheduling of events.

  Unless the simulation runs alone, other threads, and the models while the executor
  runs, act at every point where no lock is held: they schedule and inject items, cancel
  events and request a halt.  The requests that reach the scheduler just before
  `step_until` writes the final time without a lock are an argument of their own.
  The ticker is any object that returns a time strictly after its argument, and whose
  answers may change after each call; the executor is any terminating run that may fail;
  the clock may report a lag.
*/
module Simulation {
  import opened EventQueue
  import opened SchedulerStep
  import opened EventHistory
  import opened Wrappers

  datatype SchedulingError = InvalidScheduledTime | NullRepetitionPeriod

  datatype Scheduled = Accepted | Rejected(why: SchedulingError)

  /** A call of the scheduler. */
  datatype Request = Request(deadline: int, action: Action, origin: nat)

  /** How the time cell was written: by a step under the lock, or at the end of `step_until` without it. */
  datatype TimeWrite = Stepped(time: int) | Jumped(time: int)

  function TimeAfter(start: int, writes: seq<TimeWrite>): int {
    if writes == [] then start else writes[|writes| - 1].time
  }

  // --- Scheduling ------------------------------------------------------------------------------

  predicate HasNullPeriod(a: Action) { Recurs(a) && a.period.value == 0 }

  predicate IsAccepted(q: Request, now: int) { !HasNullPeriod(q.action) && now < q.deadline }

  predicate Fulfils(x: Item, q: Request) { x.key == Key(q.deadline, q.origin) && x.value == q.action }

  /** A request accepted at `now` that a jump to `target` leaves in the past. */
  predicate IsOvertaken(q: Request, now: int, target: int) { IsAccepted(q, now) && q.deadline <= target }

  /** The items that a sequence of requests adds at time `now`, from epoch `e` on. */
  function Additions(requests: seq<Request>, now: int, e: nat): (r: (set<Item>, nat)) {
    if requests == [] then ({}, e)
    else
      var (h, e') := Additions(requests[..|requests| - 1], now, e);
      var q := requests[|requests| - 1];
      if IsAccepted(q, now) then (h + {Item(Key(q.deadline, q.origin), e', q.action)}, e' + 1) else (h, e')
  }

  /** Exactly the accepted requests add an item each. */
  lemma {:induction false} AdditionsFulfil(requests: seq<Request>, now: int, e: nat)
    ensures forall x :: x in Additions(requests, now, e).0 ==>
              exists q :: q in requests && IsAccepted(q, now) && Fulfils(x, q)
    ensures forall q :: q in requests && IsAccepted(q, now) ==>
              exists x :: x in Additions(requests, now, e).0 && Fulfils(x, q)
  {
    if requests != [] {
      var n := |requests| - 1;
      AdditionsFulfil(requests[..n], now, e);
      var h, e' := Additions(requests[..n], now, e).0, Additions(requests[..n], now, e).1;
      var q := requests[n];
      assert requests == requests[..n] + [q];
      if IsAccepted(q, now) {
        var y := Item(Key(q.deadline, q.origin), e', q.action);
        assert Fulfils(y, q) && y in Additions(requests, now, e).0;
      }
      forall p | p in requests && IsAccepted(p, now)
        ensures exists x :: x in Additions(requests, now, e).0 && Fulfils(x, p)
      {
        if p in requests[..n] {
          var x :| x in h && Fulfils(x, p);
          assert x in Additions(requests, now, e).0;
        }
      }
      forall x | x in Additions(requests, now, e).0
        ensures exists p :: p in requests && IsAccepted(p, now) && Fulfils(x, p)
      {
        if x in h {
          var p :| p in requests[..n] && IsAccepted(p, now) && Fulfils(x, p);
          assert p in requests;
        }
      }
    }
  }

  /** Items with new epochs were not admitted before. */
  lemma NewlyAdmitted(h0: set<Item>, a0: set<Item>, h: set<Item>, a: set<Item>, h': set<Item>, e: nat)
    requires a0 <= a && h - h0 <= a - a0
    requires (forall x :: x in a0 ==> x.epoch < e) && (forall x :: x in h' - h ==> x.epoch >= e)
    ensures a0 <= a + (h' - h) && h' - h0 <= a + (h' - h) - a0
  {
    forall x | x in h' - h0 ensures x in a + (h' - h) - a0 { assert x in h - h0 || x in h' - h; }
  }

  /**
    The queue `h` after a jump from `before` to `target`: what lies at or before the target was
    requested in the window and overtaken, and whatever was overtaken lies there.
  */
  ghost predicate LeftBehind(h: set<Item>, window: seq<Request>, before: int, target: int) {
    && (forall x :: x in h && x.key.time <= target ==>
        exists q :: q in window && IsOvertaken(q, before, target) && Fulfils(x, q))
    && (forall q :: q in window && IsOvertaken(q, before, target) ==> exists x :: x in h && Fulfils(x, q))
  }

  lemma WindowLeaves(h: set<Item>, window: seq<Request>, before: int, e: nat, target: int, h': set<Item>)
    requires forall x :: x in h ==> x.key.time > target
    requires Grown(h + Additions(window, before, e).0, h', target)
    ensures LeftBehind(h', window, before, target)
  {
    AdditionsFulfil(window, before, e);
    var a := Additions(window, before, e).0;
    forall x | x in h' && x.key.time <= target
      ensures exists q :: q in window && IsOvertaken(q, before, target) && Fulfils(x, q)
    {
      assert x in a;
      var q :| q in window && IsAccepted(q, before) && Fulfils(x, q);
      assert IsOvertaken(q, before, target);
    }
    forall q | q in window && IsOvertaken(q, before, target) ensures exists x :: x in h' && Fulfils(x, q) {
      var x :| x in a && Fulfils(x, q);
      assert x in h';
    }
  }

  /** After the writes `w` that end at the target: a step leaves nothing behind, a jump exactly what it overtakes. */
  ghost predicate Arrived(h: set<Item>, start: int, w: seq<TimeWrite>, window: seq<Request>, target: int) {
    && w != [] && w[|w| - 1].time == target
    && if w[|w| - 1].Stepped? then forall x :: x in h ==> x.key.time > target
       else LeftBehind(h, window, TimeAfter(start, w[..|w| - 1]), target)
  }

  /** Nothing at or before the target is left after a jump if and only if no request was overtaken by it. */
  lemma NothingLeftIff(h: set<Item>, window: seq<Request>, before: int, target: int)
    requires LeftBehind(h, window, before, target)
    ensures (forall x :: x in h ==> x.key.time > target) <==>
              (forall q :: q in window ==> !IsOvertaken(q, before, target))
  {
    if q :| q in window && IsOvertaken(q, before, target) {
      var x :| x in h && Fulfils(x, q);
      assert x.key.time <= target;
    }
  }

  lemma ArrivedIff(h: set<Item>, start: int, w: seq<TimeWrite>, window: seq<Request>, target: int)
    requires Arrived(h, start, w, window, target)
    ensures (forall x :: x in h ==> x.key.time > target) <==>
              w[|w| - 1].Stepped? ||
              forall q :: q in window ==> !IsOvertaken(q, TimeAfter(start, w[..|w| - 1]), target)
  {
    if w[|w| - 1].Jumped? { NothingLeftIff(h, window, TimeAfter(start, w[..|w| - 1]), target); }
  }

  /**
    The items `i0` injected before the steps that the writes `w` record after `w0`: the first
    step spawns them, in a future from index `n` on; until then they stay in the queue `i`.
  */
  ghost predicate Serving(w0: seq<TimeWrite>, w: seq<TimeWrite>, i0: set<Item>, i: set<Item>, log: seq<Future>,
                          n: nat)
  {
    && w0 <= w && (forall k :: |w0| <= k < |w| ==> w[k].Stepped?)
    && if w == w0 then i0 <= i else AllSpawned(i0, log, n)
  }

  /** The same at the end: if the unlocked write comes first, the items are still queued. */
  ghost predicate Served(w0: seq<TimeWrite>, w: seq<TimeWrite>, i0: set<Item>, i: set<Item>, log: seq<Future>,
                         n: nat)
  {
    && w0 < w && (forall k :: |w0| <= k < |w| - 1 ==> w[k].Stepped?)
    && if w[|w0|].Stepped? then AllSpawned(i0, log, n) else i0 <= i
  }

  lemma ServingStep(w0: seq<TimeWrite>, w: seq<TimeWrite>, i0: set<Item>, i: set<Item>, log: seq<Future>, n: nat,
                    w': seq<TimeWrite>, i': set<Item>, log': seq<Future>)
    requires Serving(w0, w, i0, i, log, n) && log <= log' && n <= |log|
    requires (w' == w && i <= i') || (exists t :: w' == w + [Stepped(t)] && AllSpawned(i, log', |log|))
    ensures Serving(w0, w', i0, i', log', n)
  {
    if w != w0 { SpawnedGrows(i0, log, n, log', n); }
    if w' != w { SpawnedGrows(i, log', |log|, log', n); }
  }

  class Simulation {
    const queue: PriorityQueue
    const injector: PriorityQueue
    const flags: CancelFlags
    const executor: Executor
    const registry: set<nat>
    const hasTicker: bool
    /** No other thread acts, beside the requests of a window, no clock lags and no executor fails. */
    const alone: bool
    const start: int
    var time: int
    /** The ticker would answer with the time after this many instants, and one more. */
    var ahead: int -> nat
    var isHalted: bool
    var isTerminated: bool
    /** The time for which the clock was last waited for. */
    var synced: int
    /** History: the writes of the time, the items that scheduling has admitted, and those that have left the queue. */
    ghost var writes: seq<TimeWrite>
    ghost var admitted: set<Item>
    ghost var past: set<Item>

    /** Beside the queues: nothing was spawned twice, and all items were admitted or renew admitted ones. */
    ghost predicate Valid()
      reads this, queue, injector, executor
    {
      && queue != injector && queue.Valid() && injector.Valid()
      && ProperPeriods(queue.heap) && OriginKeys(injector.heap)
      && time == TimeAfter(start, writes)
      && (flags.isShared <==> !alone)
      && Traced(queue.heap, Dispatched(executor.spawned), past, admitted, queue.nextEpoch)
    }

    /** Every queued item lies strictly in the future. */
    ghost predicate Ordered()
      reads this, queue
    {
      forall x :: x in queue.heap ==> x.key.time > time
    }

    /** And no flag was set later than now. */
    ghost predicate Timely()
      reads this, queue, flags, executor
    {
      IsTimely(Look())
    }

    ghost function Look(): View
      reads this, queue, flags, executor
    {
      View(queue.heap, flags.since, executor.spawned, time, admitted)
    }

    /** The next tick. */
    function Upcoming(): int
      reads this
    {
      time + 1 + ahead(time)
    }

    /** Nobody acts, no flag stops the simulation and all sources are registered. */
    ghost predicate IsSmooth()
      reads this, queue, injector
    {
      && alone && !isHalted && !isTerminated
      && AllKnown(queue.heap, registry) && AllKnown(injector.heap, registry)
    }

    /** All spawned futures have been run. */
    predicate IsSettled()
      reads executor
    {
      executor.completed == |executor.spawned|
    }

    /** Why a step may fail: a source is unknown, the simulation was halted, or it is terminated. */
    predicate IsCause(error: Error, wasHalted: bool)
      reads this
    {
      match error
      case InvalidSource(id) => id !in registry
      case Halted => wasHalted
      case InvalidDeadline(_) => false
      case _ => isTerminated
    }

    /** There is a tick or a sure event within the bound. */
    ghost predicate MustStep(bound: Option<int>)
      reads this, queue, flags
    {
      || (hasTicker && Within(Upcoming(), bound))
      || HasFirm(queue.heap, bound, flags.since.Keys, !alone)
    }

    constructor (begin: int, sources: set<nat>, ticks: bool, isAlone: bool)
      ensures Valid() && Timely() && time == begin && queue.heap == {} && injector.heap == {} && executor.spawned == []
      ensures IsSettled() && !isHalted && !isTerminated && hasTicker == ticks && alone == isAlone && writes == []
      ensures start == begin && registry == sources
      ensures fresh(queue) && fresh(injector) && fresh(flags) && fresh(executor)
    {
      queue := new PriorityQueue();
      injector := new PriorityQueue();
      flags := new CancelFlags(!isAlone);
      executor := new Executor();
      registry, hasTicker, alone, start := sources, ticks, isAlone, begin;
      time, synced, isHalted, isTerminated, ahead := begin, begin, false, false, _ => 0;
      writes, admitted, past := [], {}, {};
    }

    /** Scheduling, under the lock: only into the strict future, never with a null period. */
    method ScheduleFrom(deadline: int, action: Action, origin: nat) returns (r: Scheduled)
      requires Valid()
      modifies queue, this`admitted
      ensures Valid()
      ensures r == Rejected(NullRepetitionPeriod) <==> HasNullPeriod(action)
      ensures r == Accepted <==> IsAccepted(Request(deadline, action, origin), time)
      ensures r == Accepted ==>
                queue.heap == old(queue.heap) + {Item(Key(deadline, origin), old(queue.nextEpoch), action)}
      ensures r == Accepted ==> queue.nextEpoch == old(queue.nextEpoch) + 1
      ensures r != Accepted ==> queue.heap == old(queue.heap) && queue.nextEpoch == old(queue.nextEpoch)
      ensures admitted == old(admitted) + (queue.heap - old(queue.heap))
    {
      if action.Event? && action.period.Some? && action.period.value == 0 {
        return Rejected(NullRepetitionPeriod);
      }
      if time >= deadline {
        return Rejected(InvalidScheduledTime);
      }
      ghost var x := Item(Key(deadline, origin), queue.nextEpoch, action);
      TracedAdmission(queue.heap, Dispatched(executor.spawned), past, admitted, queue.nextEpoch, x);
      admitted := admitted + {Item(Key(deadline, origin), queue.nextEpoch, action)};
      queue.Insert(Key(deadline, origin), action);
      r := Accepted;
    }

    /** Injection, under the lock of the injector queue. */
    method Inject(action: Action, origin: nat)
      requires Valid()
      modifies injector
      ensures Valid() && injector.heap == old(injector.heap) + {Item(Key(0, origin), old(injector.nextEpoch), action)}
    {
      injector.Insert(Key(0, origin), action);
    }

    /** A sequence of requests by other threads. */
    method Serve(requests: seq<Request>)
      requires Valid()
      modifies queue, this`admitted
      ensures Valid() && Grown(old(queue.heap), queue.heap, time)
      ensures queue.heap == old(queue.heap) + Additions(requests, time, old(queue.nextEpoch)).0
      ensures old(admitted) <= admitted && queue.heap - old(queue.heap) <= admitted - old(admitted)
    {
      var i := 0;
      while i < |requests|
        invariant 0 <= i <= |requests| && Valid() && Grown(old(queue.heap), queue.heap, time)
        invariant queue.heap == old(queue.heap) + Additions(requests[..i], time, old(queue.nextEpoch)).0
        invariant queue.nextEpoch == Additions(requests[..i], time, old(queue.nextEpoch)).1 >= old(queue.nextEpoch)
        invariant old(admitted) <= admitted && queue.heap - old(queue.heap) <= admitted - old(admitted)
        invariant forall x :: x in old(admitted) ==> x.epoch < old(queue.nextEpoch)
      {
        assert requests[..i + 1][..i] == requests[..i];
        ghost var h, e, a := queue.heap, queue.nextEpoch, admitted;
        var _ := ScheduleFrom(requests[i].deadline, requests[i].action, requests[i].origin);
        NewlyAdmitted(old(queue.heap), old(admitted), h, a, queue.heap, e);
        i := i + 1;
      }
      assert requests[..i] == requests;
    }

    /** Other threads inject items, cancel events and raise flags. */
    method Meddle()
      requires Valid()
      modifies injector, flags, this`isHalted, this`isTerminated
      ensures Valid() && Flagged(old(flags.since), flags.since, time) && old(injector.heap) <= injector.heap
      ensures alone ==> isHalted == old(isHalted) && isTerminated == old(isTerminated)
      ensures alone ==> flags.since == old(flags.since) && injector.heap == old(injector.heap)
    {
      if alone { return; }
      var injected: nat :| true;
      for i := 0 to injected
        invariant Valid() && old(injector.heap) <= injector.heap && flags.since == old(flags.since)
      {
        var action: Action, origin: nat :| true;
        Inject(action, origin);
      }
      flags.Others(time);
      isHalted, isTerminated := *, *;
    }

    /** Other threads and running models act while no lock is held. */
    method Others()
      requires Valid()
      modifies queue, injector, flags, this`isHalted, this`isTerminated, this`admitted
      ensures Valid() && Meddled(old(Look()), Look()) && old(injector.heap) <= injector.heap
      ensures alone ==> queue.heap == old(queue.heap) && flags.since == old(flags.since)
      ensures alone ==> isHalted == old(isHalted) && isTerminated == old(isTerminated)
      ensures alone ==> injector.heap == old(injector.heap)
    {
      if !alone {
        var requests: seq<Request> :| true;
        Serve(requests);
      }
      Meddle();
    }

    /** The executor runs the spawned futures to completion or fails; models may schedule meanwhile. */
    method RunExecutor() returns (r: Result<bool>)
      requires Valid()
      modifies queue, injector, flags, executor`completed, this`isHalted, this`isTerminated, this`admitted
      ensures Valid() && Meddled(old(Look()), Look())
      ensures if r.Ok? then IsSettled() else isTerminated
      ensures old(IsSmooth()) ==> r.Ok? && IsSmooth()
      ensures r.Err? ==> IsCause(r.error, false)
    {
      if isTerminated { return Err(Terminated); }
      Others();
      var fails: bool := *;
      if fails && !alone {
        isTerminated := true;
        return Err(ExecutorFailed);
      }
      executor.Run();
      r := Ok(true);
    }

    /** Asks the ticker, if there is one, which may answer differently from then on. */
    method NextTick(bound: Option<int>) returns (tick: Option<int>)
      requires Valid()
      modifies this`ahead
      ensures Valid()
      ensures tick == if hasTicker && Within(old(Upcoming()), bound) then Some(old(Upcoming())) else None
    {
      tick := None;
      if hasTicker {
        if Within(Upcoming(), bound) { tick := Some(Upcoming()); }
        ahead := *;
      }
    }

    /** Waits for the clock, which may lag too much. */
    method Synchronize() returns (r: Result<bool>)
      requires Valid()
      modifies queue, injector, flags, this`isHalted, this`isTerminated, this`synced, this`admitted
      ensures Valid() && Meddled(old(Look()), Look()) && old(injector.heap) <= injector.heap
      ensures alone ==> r.Ok? && isHalted == old(isHalted) && isTerminated == old(isTerminated)
      ensures alone ==> queue.heap == old(queue.heap) && injector.heap == old(injector.heap)
      ensures r.Err? ==> r.error == OutOfSync && isTerminated
      ensures r.Ok? ==> synced == time
    {
      Others();
      var lags: bool := *;
      if lags && !alone {
        isTerminated := true;
        return Err(OutOfSync);
      }
      synced := time;
      r := Ok(true);
    }

    /** Chooses the time of the next step: the earlier one of the next live key and the tick. */
    method FindStep(bound: Option<int>, tick: Option<int>) returns (nextKey: Option<Key>, t: Option<int>)
      requires queue.Valid() && (flags.isShared <==> !alone)
      requires tick.Some? ==> tick.value > time && Within(tick.value, bound)
      modifies queue`heap, flags
      ensures queue.Valid() && Flagged(old(flags.since), flags.since, time) && queue.heap <= old(queue.heap)
      ensures forall x :: x in old(queue.heap) && x !in queue.heap ==>
                Within(x.key.time, bound) && Cancelled(x.value, flags.since.Keys)
      ensures Starts(queue.heap, nextKey, bound, old(flags.since.Keys))
      ensures t == if nextKey.None? || (tick.Some? && tick.value <= nextKey.value.time) then tick
                   else Some(nextKey.value.time)
      ensures Chosen(old(queue.heap), old(flags.since.Keys), !alone, bound, tick, time, t)
    {
      nextKey := PeekNextKey(queue, flags, bound, time);
      t := if nextKey.None? || (tick.Some? && tick.value <= nextKey.value.time) then tick else Some(nextKey.value.time);
      ChooseTime(old(queue.heap), queue.heap, old(flags.since.Keys), flags.since.Keys, !alone, bound, tick, time,
                 nextKey, t);
    }

    /**
      What `step_to_next` does under the lock of the scheduler queue: the time moves to the next
      live key or tick, and exactly the live items of that time are spawned.
    */
    method LockedStep(bound: Option<int>, tick: Option<int>)
      returns (r: Result<bool>, t: Option<int>, ghost groups: seq<seq<Item>>)
      requires Valid()
      requires tick.Some? ==> tick.value > time && Within(tick.value, bound)
      modifies queue, flags, executor`spawned, this`time, this`writes, this`past
      ensures Valid() && Keeps(old(flags.since), flags.since)
      ensures HasSpawned(executor.spawned, old(executor.spawned), time, false, groups)
      ensures SpawnedFrom(old(queue.heap), old(flags.since.Keys), time, Flatten(groups))
      ensures t.None? ==> tick.None? && r == Ok(false) && time == old(time) && writes == old(writes) && groups == []
      ensures t.None? ==> forall x :: x in queue.heap ==> !Within(x.key.time, bound)
      ensures t.Some? ==> t == Some(time) && Within(time, bound) && writes == old(writes) + [Stepped(time)]
      ensures t.Some? && t != tick ==>
                (tick.Some? ==> time < tick.value) && exists x :: x in old(queue.heap) && x.key.time == time
      ensures Chosen(old(queue.heap), old(flags.since.Keys), !alone, bound, tick, old(time), t)
      ensures old(Ordered()) && t.Some? ==> time > old(time)
      ensures r.Ok? && t.Some? ==> Ordered()
      ensures r.Ok? && old(Timely()) ==> Timely()
      ensures old(Timely()) ==> forall k :: k in flags.since ==> flags.since[k] <= time
      ensures r.Ok? ==> StepExact(old(queue.heap), old(queue.nextEpoch), queue.heap, queue.nextEpoch, time,
                                  old(flags.since.Keys), flags.since.Keys, Flatten(groups))
      ensures r.Ok? ==> Advanced(old(queue.heap), old(executor.spawned), queue.heap, executor.spawned, flags.since,
                old(Timely()))
      ensures tick.None? && (forall x :: x in old(queue.heap) ==> !Within(x.key.time, bound)) ==>
                t.None? && queue.heap == old(queue.heap)
      ensures AllKnown(old(queue.heap), registry) ==> r.Ok? && AllKnown(queue.heap, registry)
      ensures r.Err? ==> r.error.InvalidSource? && r.error.id !in registry
      ensures r == Ok(false) ==> executor.spawned == old(executor.spawned)
    {
      ghost var h0, m0, now, timely := queue.heap, flags.since, time, Timely();
      var nextKey;
      nextKey, t := FindStep(bound, tick);
      if t.None? {
        SkipStep(h0, m0, timely);
        return Ok(false), t, [];
      }
      r, groups := WriteAndSpawn(nextKey, t.value, bound, h0, now, m0, timely);
    }

    /** Nothing is due: only cancelled items have left the queue `h0`. */
    ghost method SkipStep(h0: set<Item>, m0: map<nat, int>, timely: bool)
      requires queue != injector && queue.Valid() && injector.Valid() && OriginKeys(injector.heap)
      requires ProperPeriods(h0) && (flags.isShared <==> !alone) && time == TimeAfter(start, writes)
      requires Traced(h0, Dispatched(executor.spawned), past, admitted, queue.nextEpoch)
      requires queue.heap <= h0 && (forall x :: x in h0 && x !in queue.heap ==> Cancelled(x.value, flags.since.Keys))
      requires Flagged(m0, flags.since, time) && forall x :: x in h0 ==> x.epoch < queue.nextEpoch
      requires timely ==> (forall x :: x in h0 ==> x.key.time > time) && forall k :: k in m0 ==> m0[k] <= time
      modifies this`past
      ensures Valid() && HasSpawned(executor.spawned, executor.spawned, time, false, [])
      ensures SpawnedFrom(h0, m0.Keys, time, Flatten([]))
      ensures StepExact(h0, queue.nextEpoch, queue.heap, queue.nextEpoch, time, m0.Keys, flags.since.Keys, Flatten([]))
      ensures Advanced(h0, executor.spawned, queue.heap, executor.spawned, flags.since, timely)
    {
      var e, log := queue.nextEpoch, executor.spawned;
      NoStep(h0, e, queue.heap, time, m0, flags.since, log, timely);
      TracedStep(h0, Dispatched(log), past, admitted, e, queue.heap, e, [], 0);
      assert Futures(time, false, []) == [];
      past := past + (h0 - queue.heap);
    }

    /** Writes the time of the step and spawns its items; `h0` and `m0` are queue and flags when the lock was taken. */
    method WriteAndSpawn(nextKey: Option<Key>, step: int, ghost bound: Option<int>,
                         ghost h0: set<Item>, ghost now: int, ghost m0: map<nat, int>, ghost timely: bool)
      returns (r: Result<bool>, ghost groups: seq<seq<Item>>)
      requires queue != injector && queue.Valid() && injector.Valid() && OriginKeys(injector.heap)
      requires ProperPeriods(queue.heap) && (flags.isShared <==> !alone)
      requires Traced(h0, Dispatched(executor.spawned), past, admitted, queue.nextEpoch)
      requires queue.heap <= h0 && (forall x :: x in h0 && x !in queue.heap ==> Cancelled(x.value, flags.since.Keys))
      requires forall x :: x in h0 ==> x.epoch < queue.nextEpoch
      requires Flagged(m0, flags.since, now) && Starts(queue.heap, nextKey, bound, m0.Keys) && Within(step, bound)
      requires nextKey.Some? ==> step <= nextKey.value.time
      requires timely ==> now < step && forall x :: x in h0 ==> x.key.time > now
      requires timely ==> forall k :: k in m0 ==> m0[k] <= now
      modifies queue, flags, executor`spawned, this`time, this`writes, this`past
      ensures Valid() && Flagged(old(flags.since), flags.since, step)
      ensures time == step && writes == old(writes) + [Stepped(step)]
      ensures HasSpawned(executor.spawned, old(executor.spawned), step, false, groups)
      ensures SpawnedFrom(h0, m0.Keys, step, Flatten(groups))
      ensures r.Ok? ==> Ordered()
      ensures r.Ok? ==> StepExact(h0, old(queue.nextEpoch), queue.heap, queue.nextEpoch, step, m0.Keys,
                flags.since.Keys, Flatten(groups))
      ensures r.Ok? ==> Advanced(h0, old(executor.spawned), queue.heap, executor.spawned, flags.since, timely)
      ensures AllKnown(old(queue.heap), registry) ==> r.Ok? && AllKnown(queue.heap, registry)
      ensures r.Err? ==> r.error.InvalidSource? && r.error.id !in registry
      ensures r == Ok(false) ==> executor.spawned == old(executor.spawned)
    {
      ghost var h1, e0, m1, log := queue.heap, queue.nextEpoch, flags.since, executor.spawned;
      time := step;
      writes := writes + [Stepped(step)];
      ghost var pending, lost;
      r, groups, pending, lost := HandleSchedulerStep(queue, flags, executor, registry, nextKey, step, bound, m0.Keys);
      if r.Ok? {
        GoodStep(h0, h1, e0, queue.heap, queue.nextEpoch, now, step, m0, m1, flags.since, log, groups, timely);
      }
      TracedSpawn(h0, log, past, admitted, e0, h1, queue.heap, lost, queue.nextEpoch, step, m0.Keys, flags.since.Keys,
                  groups, pending, r.Ok?);
      past := past + (h0 - queue.heap);
    }

    /** What `step_to_next` does once the scheduler lock is released: injected items, clock, executor. */
    method FinishStep(hasEvents: bool) returns (r: Result<bool>)
      requires Valid()
      modifies queue, injector, flags, executor, this`isHalted, this`isTerminated, this`synced, this`admitted
      ensures Valid() && Finished(old(Look()), Look())
      ensures r.Ok? ==> AllSpawned(old(injector.heap), executor.spawned, |old(executor.spawned)|)
      ensures old(IsSmooth()) ==> r.Ok? && IsSmooth()
      ensures r.Ok? && (hasEvents || old(IsSettled())) ==> IsSettled()
      ensures r.Ok? ==> synced == time
      ensures r.Err? ==> IsCause(r.error, false)
    {
      Others();
      var hasInjected := SpawnInjected();
      if hasInjected.Err? { return Err(hasInjected.error); }
      var inSync := Synchronize();
      if inSync.Err? { return Err(inSync.error); }
      if hasEvents || hasInjected.value {
        var run := RunExecutor();
        if run.Err? { return Err(run.error); }
      }
      r := Ok(true);
    }

    /** Under the lock of the injector queue. */
    method SpawnInjected() returns (r: Result<bool>)
      requires Valid()
      modifies injector, executor`spawned
      ensures Valid()
      ensures old(executor.spawned) <= executor.spawned &&
                Dispatched(executor.spawned) == Dispatched(old(executor.spawned))
      ensures forall i :: |old(executor.spawned)| <= i < |executor.spawned| ==> executor.spawned[i].time == time
      ensures r.Ok? ==> AllSpawned(old(injector.heap), executor.spawned, |old(executor.spawned)|)
      ensures AllKnown(old(injector.heap), registry) ==> r.Ok? && injector.heap == {}
      ensures r.Err? ==> r.error.InvalidSource? && r.error.id !in registry
      ensures r == Ok(false) ==> executor.spawned == old(executor.spawned)
    {
      ghost var h, log := injector.heap, executor.spawned;
      ghost var groups, pending, lost;
      r, groups, pending, lost := HandleInjectorStep(injector, executor, registry, time);
      DispatchedMore(log, time, true, groups);
      FuturesTimes(log, time, true, groups);
      if r.Ok? {
        forall x | x in h ensures Spawned(executor.spawned, |log|, x) { InjectedSpawned(h, log, time, groups, x); }
      }
    }

    /** What `step_to_next` does from taking the scheduler lock to releasing it, preceded by other threads. */
    method BeginStep(bound: Option<int>, tick: Option<int>)
      returns (r: Result<bool>, t: Option<int>, ghost s: seq<Item>)
      requires Valid()
      requires tick.Some? ==> tick.value > time && Within(tick.value, bound)
      modifies this, queue, injector, flags, executor`spawned
      ensures Valid() && HasStepped(old(Look()), Look(), s, old(Timely()), r.Ok?) && old(injector.heap) <= injector.heap
      ensures Chosen(old(queue.heap), old(flags.since.Keys), !alone, bound, tick, old(time), t)
      ensures alone ==> isHalted == old(isHalted) && isTerminated == old(isTerminated)
      ensures t.None? ==> r.Ok? && time == old(time) && writes == old(writes)
      ensures t.None? ==> executor.spawned == old(executor.spawned)
      ensures t.None? ==> forall x :: x in queue.heap ==> !Within(x.key.time, bound)
      ensures t.Some? ==> t == Some(time) && Within(time, bound) && writes == old(writes) + [Stepped(time)]
      ensures old(Ordered()) && t.Some? ==> time > old(time)
      ensures r.Ok? && t.Some? ==> Ordered()
      ensures r.Ok? && old(Timely()) ==> Timely()
      ensures old(IsSmooth()) ==> r.Ok? && IsSmooth()
      ensures r == Ok(false) ==> executor.spawned == old(executor.spawned)
      ensures r.Err? ==> r.error.InvalidSource? && r.error.id !in registry
    {
      ghost var u, timely := Look(), Timely();
      Others();
      ghost var v := Look();
      StaysTimely(u, v);
      ghost var groups;
      r, t, groups := LockedStep(bound, tick);
      s := Flatten(groups);
      SteppedAfter(u, v, Look(), groups, timely, r.Ok?);
      ChosenBefore(u.heap, v.heap, u.since.Keys, v.since.Keys, !alone, bound, tick, u.time, t);
    }

    /**
      One step.  `s` are the items that the scheduler spawns in it: live items of the new time, in
      order, that were queued before or admitted meanwhile.
    */
    method StepToNext(bound: Option<int>) returns (r: Result<Option<int>>, ghost s: seq<Item>)
      requires Valid()
      modifies this, queue, injector, flags, executor
      ensures Valid() && HasStepped(old(Look()), Look(), s, old(Timely()), r.Ok?)
      ensures old(Ordered()) ==> time > old(time) || (time == old(time) && executor.spawned == old(executor.spawned))
      ensures r == Ok(None) ==> writes == old(writes) && forall x :: x in queue.heap ==> !Within(x.key.time, bound)
      ensures r == Ok(None) ==> old(injector.heap) <= injector.heap && executor.spawned == old(executor.spawned)
      ensures r == Ok(None) ==> !old(MustStep(bound))
      ensures writes == old(writes) || writes == old(writes) + [Stepped(time)]
      ensures !old(isHalted) && !old(isTerminated) && old(MustStep(bound)) ==> writes != old(writes)
      ensures alone && !old(isHalted) && !old(isTerminated) && !old(MustStep(bound)) ==>
                r == Ok(None) && !isHalted && !isTerminated
      ensures alone && writes != old(writes) ==>
                && old(MustStep(bound)) && (!hasTicker ==> HasTime(old(queue.heap), time))
                && (time > old(time) <==> LiveAfter(old(queue.heap), old(flags.since.Keys), old(time)))
      ensures r.Ok? && r.value.Some? ==>
                time == r.value.value && Within(time, bound) && writes == old(writes) + [Stepped(time)] && Ordered()
      ensures r.Ok? && r.value.Some? && old(Ordered()) ==> time > old(time)
      ensures r.Ok? && old(Timely()) ==> Timely()
      ensures r.Ok? && r.value.Some? ==> AllSpawned(old(injector.heap), executor.spawned, |old(executor.spawned)|)
      ensures old(IsSmooth()) ==> r.Ok? && IsSmooth()
      ensures r.Ok? && old(IsSettled()) ==> IsSettled()
      ensures r.Ok? && r.value.Some? ==> synced == time
      ensures r.Err? ==> IsCause(r.error, old(isHalted))
      ensures old(isHalted || isTerminated) ==>
                && r == Err(if old(isHalted) then Halted else Terminated) && Look() == old(Look())
                && !isHalted && isTerminated == old(isTerminated)
    {
      s := [];
      if isHalted || isTerminated {
        r := Err(if isHalted then Halted else Terminated);
        isHalted := false;
        NotStepped(Look(), old(Timely()));
      } else {
        r, s := Advance(bound);
      }
    }

    /** The step itself, unless it is stopped by a flag. */
    method Advance(bound: Option<int>) returns (r: Result<Option<int>>, ghost s: seq<Item>)
      requires Valid() && !isHalted && !isTerminated
      modifies this, queue, injector, flags, executor
      ensures Valid() && HasStepped(old(Look()), Look(), s, old(Timely()), r.Ok?)
      ensures r == Ok(None) ==> writes == old(writes) && forall x :: x in queue.heap ==> !Within(x.key.time, bound)
      ensures r == Ok(None) ==> old(injector.heap) <= injector.heap && executor.spawned == old(executor.spawned)
      ensures writes == if r == Ok(None) then old(writes) else old(writes) + [Stepped(time)]
      ensures r == Ok(None) ==> time == old(time) && !old(MustStep(bound)) && (alone ==> !isHalted && !isTerminated)
      ensures alone && r != Ok(None) ==>
                && old(MustStep(bound)) && (!hasTicker ==> HasTime(old(queue.heap), time))
                && (time > old(time) <==> LiveAfter(old(queue.heap), old(flags.since.Keys), old(time)))
      ensures r.Ok? && r.value.Some? ==> time == r.value.value && Within(time, bound) && Ordered()
      ensures r != Ok(None) && old(Ordered()) ==> time > old(time)
      ensures r.Ok? && old(Timely()) ==> Timely()
      ensures r.Ok? && r.value.Some? ==> AllSpawned(old(injector.heap), executor.spawned, |old(executor.spawned)|)
      ensures old(IsSmooth()) ==> r.Ok? && IsSmooth()
      ensures r.Ok? && old(IsSettled()) ==> IsSettled()
      ensures r.Ok? && r.value.Some? ==> synced == time
      ensures r.Err? ==> IsCause(r.error, false)
    {
      var tick := NextTick(bound);
      var hasEvents, t;
      hasEvents, t, s := BeginStep(bound, tick);
      if hasEvents.Err? {
        r := Err(hasEvents.error);
      } else if t.None? {
        r := Ok(None);
      } else {
        var finished := EndStep(hasEvents.value, old(Look()), s, old(Timely()));
        r := if finished.Ok? then Ok(t) else Err(finished.error);
      }
    }

    /** What follows the locked part of the step that began in the state `u`. */
    method EndStep(hasEvents: bool, ghost u: View, ghost s: seq<Item>, ghost timely: bool) returns (r: Result<bool>)
      requires Valid() && HasStepped(u, Look(), s, timely, true)
      modifies queue, injector, flags, executor, this`isHalted, this`isTerminated, this`synced, this`admitted
      ensures Valid() && HasStepped(u, Look(), s, timely, r.Ok?)
      ensures (old(Ordered()) ==> Ordered()) && (old(Timely()) ==> Timely())
      ensures r.Ok? ==> AllSpawned(old(injector.heap), executor.spawned, |u.log|)
      ensures old(IsSmooth()) ==> r.Ok? && IsSmooth()
      ensures r.Ok? && (hasEvents || old(IsSettled())) ==> IsSettled()
      ensures r.Ok? ==> synced == time
      ensures r.Err? ==> IsCause(r.error, false)
    {
      ghost var v := Look();
      r := FinishStep(hasEvents);
      SteppedBefore(u, v, Look(), s, timely, r.Ok?);
      StaysTimely(v, Look());
      if r.Ok? { SpawnedGrows(old(injector.heap), executor.spawned, |v.log|, executor.spawned, |u.log|); }
    }

    /**
      The unlocked write at the end of `step_until`.  `window` is what reaches the scheduler
      between the last look at the queue and the write.
    */
    method Jump(target: int, window: seq<Request>) returns (r: Result<bool>)
      requires Valid() && forall x :: x in queue.heap ==> x.key.time > target
      modifies this, queue, injector, flags
      ensures Valid() && Keeps(old(flags.since), flags.since)
      ensures time == target && writes == old(writes) + [Jumped(target)]
      ensures LeftBehind(queue.heap, window, old(time), target)
      ensures old(injector.heap) <= injector.heap
      ensures alone ==> r.Ok? && isHalted == old(isHalted) && isTerminated == old(isTerminated)
      ensures r.Err? ==> IsCause(r.error, false)
      ensures r.Ok? ==> synced == target
    {
      ghost var h, e := queue.heap, queue.nextEpoch;
      Serve(window);
      Meddle();
      time := target;
      writes := writes + [Jumped(target)];
      r := Synchronize();
      WindowLeaves(h, window, old(time), e, target, queue.heap);
    }

    /**
      Steps until nothing is left at or before the target, then writes the target unless a step
      has reached it.
    */
    method StepUntilUnchecked(target: int, window: seq<Request>) returns (r: Result<bool>)
      requires Valid()
      modifies this, queue, injector, flags, executor
      ensures Valid() && old(executor.spawned) <= executor.spawned && old(writes) <= writes
      ensures old(Ordered()) && old(time) <= target ==> time >= old(time)
      ensures old(Timely()) && old(time) <= target ==>
                Chronological(executor.spawned, |old(executor.spawned)|, old(time), time)
      ensures r.Ok? ==> time == target && |writes| > |old(writes)| && Arrived(queue.heap, start, writes, window, target)
      ensures r.Ok? && writes[|writes| - 1].Jumped? && old(Ordered()) ==>
                old(time) <= TimeAfter(start, writes[..|writes| - 1])
      ensures r.Ok? ==>
                forall x :: x in old(queue.heap) ==> Honoured(x, executor.spawned, flags.since, target, old(Timely()))
      ensures r.Ok? ==> Served(old(writes), writes, old(injector.heap), injector.heap, executor.spawned,
                               |old(executor.spawned)|)
      ensures r.Ok? && old(MustStep(Some(target))) ==> writes[|old(writes)|].Stepped?
      ensures r.Ok? && alone && !old(MustStep(Some(target))) ==>
                writes == old(writes) + [Jumped(target)] && executor.spawned == old(executor.spawned)
      ensures old(IsQuiet(target)) ==>
                r.Ok? && writes == old(writes) + [Jumped(target)] && !isHalted && !isTerminated
      ensures old(IsSmooth()) ==> r.Ok? && !isHalted && !isTerminated
      ensures r.Ok? && old(IsSettled()) ==> IsSettled()
      ensures r.Ok? ==> synced == target
      ensures r.Err? ==> IsCause(r.error, true)
      ensures old(isHalted || isTerminated) ==>
                r == Err(if old(isHalted) then Halted else Terminated) && Look() == old(Look()) && !isHalted
    {
      ghost var h0, timely := queue.heap, Timely();
      var last := StepWhileDue(target);
      if last.Ok? { AllHonoured(h0, queue.heap, executor.spawned, flags.since, target, timely); }
      if last == Ok(None) {
        ghost var m1 := flags.since;
        r := Jump(target, window);
        StillHonoured(h0, executor.spawned, m1, flags.since, target, timely);
      } else {
        r := if last.Ok? then Ok(true) else Err(last.error);
      }
    }

    /** The loop of `step_until`, up to the target or to a step that finds nothing. */
    method StepWhileDue(target: int) returns (r: Result<Option<int>>)
      requires Valid()
      modifies this, queue, injector, flags, executor
      ensures Valid() && old(executor.spawned) <= executor.spawned && old(writes) <= writes
      ensures old(Ordered()) ==> time >= old(time)
      ensures old(Timely()) ==> Chronological(executor.spawned, |old(executor.spawned)|, old(time), time)
      ensures r.Ok? && r.value.Some? ==>
                r.value.value == time == target && writes != old(writes) && writes[|writes| - 1] == Stepped(target)
      ensures r == Ok(None) && old(time) <= target ==> time <= target
      ensures r.Ok? ==> forall x :: x in queue.heap ==> x.key.time > target
      ensures r.Ok? ==> AllFollowed(old(queue.heap), queue.heap, executor.spawned, flags.since, old(Timely()))
      ensures r.Ok? ==> Serving(old(writes), writes, old(injector.heap), injector.heap, executor.spawned,
                                |old(executor.spawned)|)
      ensures r.Ok? && old(MustStep(Some(target))) ==> writes != old(writes)
      ensures r.Ok? && alone && !old(MustStep(Some(target))) ==>
                r == Ok(None) && writes == old(writes) && executor.spawned == old(executor.spawned)
      ensures old(IsQuiet(target)) ==> r == Ok(None) && writes == old(writes) && !isHalted && !isTerminated
      ensures old(IsSmooth()) ==> r.Ok? && IsSmooth()
      ensures r.Ok? && old(IsSettled()) ==> IsSettled()
      ensures r.Ok? && r.value.Some? ==> synced == time
      ensures r.Err? ==> IsCause(r.error, true)
      ensures old(isHalted || isTerminated) ==>
                r == Err(if old(isHalted) then Halted else Terminated) && Look() == old(Look()) && !isHalted
    {
      ghost var h0, timely, first := queue.heap, Timely(), true;
      ghost var n, t0, w0, i0 := |executor.spawned|, time, writes, injector.heap;
      ghost var quiet, must := IsQuiet(target), MustStep(Some(target));
      AllFromStart(h0, executor.spawned, flags.since, timely);
      while true
        invariant Valid() && old(executor.spawned) <= executor.spawned && w0 <= writes
        invariant AllFollowed(h0, queue.heap, executor.spawned, flags.since, timely)
        invariant Serving(w0, writes, i0, injector.heap, executor.spawned, n)
        invariant old(Ordered()) ==> Ordered() && time >= t0
        invariant timely ==> Timely() && Chronological(executor.spawned, n, t0, time)
        invariant first ==> writes == w0 && time == t0 && executor.spawned == old(executor.spawned)
        invariant first ==> (quiet ==> IsQuiet(target)) && (must <==> MustStep(Some(target)))
        invariant (old(IsSmooth()) ==> IsSmooth()) && (old(IsSettled()) ==> IsSettled())
        invariant first ==> Look() == old(Look()) && isHalted == old(isHalted) && isTerminated == old(isTerminated)
        invariant !first ==> !old(isHalted) && !old(isTerminated)
        invariant !first ==> Ordered() && time <= target && !quiet && (alone ==> must) && writes != w0
        decreases first, target - time
      {
        r := StepOn(target, h0, timely, n, t0, w0, i0);
        if r.Err? || r.value.None? || r.value.value == target { return; }
        first := false;
      }
    }

    /** Nobody acts and nothing is due. */
    ghost predicate IsQuiet(target: int)
      reads this, queue, flags
    {
      alone && !isHalted && !isTerminated && !MustStep(Some(target))
    }

    /** A step that keeps following the items `h0` and the order of the futures since index `n`. */
    method StepOn(target: int, ghost h0: set<Item>, ghost timely: bool, ghost n: nat, ghost t0: int,
                  ghost w0: seq<TimeWrite>, ghost i0: set<Item>)
      returns (r: Result<Option<int>>)
      requires Serving(w0, writes, i0, injector.heap, executor.spawned, n)
      requires Valid() && AllFollowed(h0, queue.heap, executor.spawned, flags.since, timely) && n <= |executor.spawned|
      requires timely ==> Timely() && t0 <= time && Chronological(executor.spawned, n, t0, time)
      modifies this, queue, injector, flags, executor
      ensures Valid() && old(executor.spawned) <= executor.spawned && old(writes) <= writes
      ensures r.Ok? ==> AllFollowed(h0, queue.heap, executor.spawned, flags.since, timely)
      ensures timely ==> Chronological(executor.spawned, n, t0, time) && (r.Ok? ==> Timely())
      ensures old(Ordered()) ==> time >= old(time)
      ensures r == Ok(None) ==> writes == old(writes) && time == old(time)
      ensures r == Ok(None) ==> forall x :: x in queue.heap ==> x.key.time > target
      ensures r.Ok? && r.value.Some? ==>
                time == r.value.value <= target && writes == old(writes) + [Stepped(time)] && Ordered()
      ensures r.Ok? && r.value.Some? && old(Ordered()) ==> time > old(time)
      ensures r.Ok? ==> Serving(w0, writes, i0, injector.heap, executor.spawned, n)
      ensures r == Ok(None) ==> !old(MustStep(Some(target))) && executor.spawned == old(executor.spawned)
      ensures alone && r.Ok? && !old(MustStep(Some(target))) ==> r == Ok(None)
      ensures old(IsQuiet(target)) ==> r == Ok(None) && !isHalted && !isTerminated
      ensures old(IsSmooth()) ==> r.Ok? && IsSmooth()
      ensures r.Ok? && old(IsSettled()) ==> IsSettled()
      ensures r.Ok? && r.value.Some? ==> synced == time
      ensures r.Err? ==> IsCause(r.error, old(isHalted))
      ensures old(isHalted || isTerminated) ==>
                r == Err(if old(isHalted) then Halted else Terminated) && Look() == old(Look()) && !isHalted
    {
      ghost var h, log, m, now := queue.heap, executor.spawned, flags.since, time;
      ghost var s;
      r, s := StepToNext(Some(target));
      if timely && executor.spawned != log {
        LaterFutures(log, n, t0, now, executor.spawned, time);
      }
      if r.Ok? {
        AllAdvance(h0, h, log, m, queue.heap, executor.spawned, flags.since, timely);
        ServingStep(w0, old(writes), i0, old(injector.heap), log, n, writes, injector.heap, executor.spawned);
      }
    }

    /**
      On Ok the time is the target, and nothing at or before it is left if a step reached it or no
      request of the window was overtaken (`NothingLeftIff`).
    */
    method StepUntil(target: int, window: seq<Request>) returns (r: Result<bool>)
      requires Valid()
      modifies this, queue, injector, flags, executor
      ensures Valid() && old(executor.spawned) <= executor.spawned && old(writes) <= writes
      ensures target < old(time) ==>
                && r == Err(InvalidDeadline(target)) && time == old(time)
                && queue.heap == old(queue.heap) && executor.spawned == old(executor.spawned)
      ensures old(Ordered()) ==> time >= old(time)
      ensures old(Timely()) ==> Chronological(executor.spawned, |old(executor.spawned)|, old(time), time)
      ensures r.Ok? ==> time == target && |writes| > |old(writes)| && Arrived(queue.heap, start, writes, window, target)
      ensures r.Ok? ==>
                (Ordered() <==>
                 || writes[|writes| - 1].Stepped?
                 || forall q :: q in window ==> !IsOvertaken(q, TimeAfter(start, writes[..|writes| - 1]), target))
      ensures r.Ok? && writes[|writes| - 1].Jumped? && old(Ordered()) ==>
                old(time) <= TimeAfter(start, writes[..|writes| - 1])
      ensures r.Ok? ==>
                forall x :: x in old(queue.heap) ==> Honoured(x, executor.spawned, flags.since, target, old(Timely()))
      ensures r.Ok? ==> Served(old(writes), writes, old(injector.heap), injector.heap, executor.spawned,
                               |old(executor.spawned)|)
      ensures r.Ok? && old(MustStep(Some(target))) ==>
                AllSpawned(old(injector.heap), executor.spawned, |old(executor.spawned)|)
      ensures r.Ok? && alone && !old(MustStep(Some(target))) ==>
                old(injector.heap) <= injector.heap && executor.spawned == old(executor.spawned)
      ensures r.Ok? && alone && old(injector.heap) != {} ==>
                (AllSpawned(old(injector.heap), executor.spawned, |old(executor.spawned)|) <==>
                 old(MustStep(Some(target))))
      ensures target >= old(time) && old(IsQuiet(target)) ==>
                r.Ok? && writes == old(writes) + [Jumped(target)] && !isHalted && !isTerminated
      ensures target >= old(time) && old(IsSmooth()) ==> r.Ok? && !isHalted && !isTerminated
      ensures target >= old(time) && r.Err? ==> IsCause(r.error, true)
      ensures r.Ok? && old(IsSettled()) ==> IsSettled()
      ensures r.Ok? ==> synced == target
      ensures target >= old(time) && old(isHalted || isTerminated) ==>
                r == Err(if old(isHalted) then Halted else Terminated) && Look() == old(Look()) && !isHalted
    {
      if target < time {
        return Err(InvalidDeadline(target));
      }
      r := StepUntilUnchecked(target, window);
      if r.Ok? && old(injector.heap) != {} { NoneSpawned(old(injector.heap), executor.spawned, |executor.spawned|); }
      if r.Ok? { ArrivedIff(queue.heap, start, writes, window, target); }
    }
  }

  /**
    The race: with nothing queued at time 0, an event for time 5 that is accepted just before
    the write of time 10 is still queued when `step_until` has returned Ok at time 10.
  */
  method OvertakenEvent() returns (sim: Simulation, r: Result<bool>)
    ensures fresh(sim) && fresh(sim.queue) && fresh(sim.injector) && fresh(sim.flags) && fresh(sim.executor)
    ensures sim.Valid() && sim.alone && !sim.hasTicker && !sim.isHalted && !sim.isTerminated
    ensures r.Ok? && sim.time == 10 && !sim.Ordered()
    ensures exists x :: x in sim.queue.heap && x.key == Key(5, 0) && x.value == Query(0, 0)
    ensures forall x :: x in sim.queue.heap && x.key.time <= 10 ==> x.key.time == 5
  {
    sim := new Simulation(0, {0}, false, true);
    var q := Request(5, Query(0, 0), 0);
    assert IsOvertaken(q, 0, 10);
    r := sim.StepUntil(10, [q]);
    assert sim.writes[..|sim.writes| - 1] == [];
    assert q in [q];
    var x :| x in sim.queue.heap && Fulfils(x, q);
  }

  /** The next step then takes the time back from 10 to 5. */
  method TimeGoesBack() returns (sim: Simulation, before: int)
    ensures before == 10 && sim.time == 5
  {
    var r;
    ghost var s;
    sim, r := OvertakenEvent();
    before := sim.time;
    ghost var h, c := sim.queue.heap, sim.flags.since.Keys;
    ghost var x :| x in h && x.key == Key(5, 0) && x.value == Query(0, 0);
    assert IsFirm(x, None, c, false) && IsLiveBy(x, c, 10);
    var next;
    next, s := sim.StepToNext(None);
    ghost var y :| y in h && IsAt(y, sim.time);
  }

  /** An event injected before `step_until` is not processed by it if no step is due. */
  method WaitingInjection() returns (sim: Simulation, r: Result<bool>)
    ensures r.Ok? && sim.time == 10 && sim.executor.spawned == []
    ensures exists x :: x in sim.injector.heap && x.value == Query(0, 0)
  {
    sim := new Simulation(0, {0}, false, true);
    sim.Inject(Query(0, 0), 0);
    ghost var x :| x in sim.injector.heap && x.value == Query(0, 0);
    r := sim.StepUntil(10, []);
    assert x in sim.injector.heap;
  }
}
