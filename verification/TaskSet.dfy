/**
  A set of sub-tasks with a lock-free stack of the scheduled ones: a Treiber stack
  linked through indices, whose head also carries the number of tasks still to be
  scheduled before the parent task is notified.

  Every load, store, swap and compare-exchange is one step; an index out of the
  task vector raises `fault`.
*/
module TaskSet {

  /** The `next` field of a task, or the index part of the head. */
  datatype Link = Sleeping | Empty | At(index: nat)

  /** The head word: index of the last scheduled task, and countdown. */
  datatype Head = Head(link: Link, countdown: nat)

  /** A call of `wake_by_ref` on a task. */
  datatype Wake =
    | Looking(task: nat, next: Link)
    | Linking(task: nat, head: Head)
    | Pushing(task: nat, head: Head)
    | Relinking(task: nat, head: Head)
    | Notifying(task: nat)

  predicate Holds(w: Wake) { w.Pushing? || w.Relinking? }

  /**
    An iterator over the tasks that were taken from the stack.  `chain` is history:
    the tasks still to be visited.  The drop handler reads and clears the link of a
    task in two steps.
  */
  datatype Iter =
    | Iterating(next: Link, chain: seq<nat>)
    | Dropping(next: Link, chain: seq<nat>)
    | Clearing(next: Link, chain: seq<nat>, read: Link)

  /** A call of `take_scheduled`, with the head it has read. */
  datatype Take = Taking(count: nat, head: Head)

  /** History: where a task currently is. */
  datatype Place = Asleep | InStack | InIter(iter: nat) | HeldBy(wake: nat)

  datatype State = State(
    next: seq<Link>,
    head: Head,
    active: nat,
    wakes: map<nat, Wake>,
    takes: map<nat, Take>,
    iters: map<nat, Iter>,
    fault: bool,
    // History: the tasks in the stack from the top; the place of each task; how
    // often each task was scheduled, yielded by an iterator and discarded; the
    // notification count requested by the last take and the pushes since.
    stack: seq<nat>,
    place: seq<Place>,
    scheduled: seq<nat>,
    yielded: seq<nat>,
    discarded: seq<nat>,
    armed: nat,
    pushes: nat)

  predicate Sizes(s: State) {
    |s.next| == |s.place| == |s.scheduled| == |s.yielded| == |s.discarded|
  }

  predicate Init(s: State) {
    && (forall i :: 0 <= i < |s.next| ==> s.next[i] == Sleeping)
    && s.head == Head(Empty, 0) && s.active == |s.next|
    && s.wakes == map[] && s.takes == map[] && s.iters == map[] && !s.fault
    && s.stack == [] && |s.place| == |s.scheduled| == |s.yielded| == |s.discarded| == |s.next|
    && (forall i :: 0 <= i < |s.next| ==> s.place[i] == Asleep && s.scheduled[i] == s.yielded[i] == s.discarded[i] == 0)
    && s.armed == 0 && s.pushes == 0
  }

  // --- wake_by_ref -----------------------------------------------------------

  function SetWake(s: State, k: nat, w: Wake): State { s.(wakes := s.wakes[k := w]) }

  function EndWake(s: State, k: nat): State { s.(wakes := s.wakes - {k}) }

  /** A sleeping task is linked to the head just read; otherwise the wake-up is confirmed. */
  function Look(s: State, k: nat, w: Wake, weak: bool): State
    requires w.Looking? && w.task < |s.next|
  {
    if w.next == Sleeping then SetWake(s, k, Linking(w.task, s.head))
    else if s.next[w.task] == w.next && !weak then EndWake(s, k)
    else SetWake(s, k, Looking(w.task, s.next[w.task]))
  }

  function DoLink(s: State, k: nat, w: Wake, weak: bool): State
    requires w.Linking? && w.task < |s.next| == |s.place| == |s.scheduled|
  {
    var i := w.task;
    if s.next[i] == Sleeping && !weak then
      SetWake(s, k, Pushing(i, w.head)).(
        next := s.next[i := w.head.link],
        place := s.place[i := HeldBy(k)],
        scheduled := s.scheduled[i := s.scheduled[i] + 1])
    else SetWake(s, k, Looking(i, s.next[i]))
  }

  function Decrement(n: nat): nat { if n == 0 then 0 else n - 1 }

  function Push(s: State, k: nat, w: Wake, weak: bool): State
    requires w.Pushing? && w.task < |s.place|
  {
    var i := w.task;
    if s.head == w.head && !weak then
      var s' := s.(
        head := Head(At(i), Decrement(w.head.countdown)),
        stack := [i] + s.stack,
        place := s.place[i := InStack],
        pushes := s.pushes + 1);
      if w.head.countdown == 1 then SetWake(s', k, Notifying(i)) else EndWake(s', k)
    else SetWake(s, k, Relinking(i, s.head))
  }

  function Relink(s: State, k: nat, w: Wake): State
    requires w.Relinking? && w.task < |s.next|
  {
    SetWake(s, k, Pushing(w.task, w.head)).(next := s.next[w.task := w.head.link])
  }

  // --- take_scheduled ---------------------------------------------------------

  function TakeCas(s: State, k: nat, t: Take, weak: bool): State {
    if s.head != t.head || weak then s.(takes := s.takes[k := Taking(t.count, s.head)])
    else if t.head.link == Empty then
      s.(takes := s.takes - {k}, head := Head(Empty, t.count), armed := t.count, pushes := 0)
    else
      s.(takes := s.takes - {k}, head := Head(Empty, 0), armed := 0, pushes := 0,
         iters := s.iters[k := Iterating(t.head.link, s.stack)],
         stack := [],
         place := Moved(s.place, s.stack, InIter(k)))
  }

  /** Every task of `tasks` is now at `p`. */
  function Moved(place: seq<Place>, tasks: seq<nat>, p: Place): (place': seq<Place>)
    ensures |place'| == |place|
    ensures forall i :: 0 <= i < |place| ==> place'[i] == if i in tasks then p else place[i]
  {
    seq(|place|, i requires 0 <= i < |place| => if i in tasks then p else place[i])
  }

  function Tail(chain: seq<nat>): seq<nat> { if chain == [] then [] else chain[1..] }

  // --- Iterator -----------------------------------------------------------------

  /** Task `i` leaves iterator `k`, which goes on as `it`. */
  function Consumed(s: State, k: nat, i: nat, it: Iter, isYielded: bool): State
    requires Sizes(s) && i < |s.next|
  {
    s.(iters := s.iters[k := it],
       next := s.next[i := Sleeping],
       place := s.place[i := Asleep],
       yielded := if isYielded then s.yielded[i := s.yielded[i] + 1] else s.yielded,
       discarded := if isYielded then s.discarded else s.discarded[i := s.discarded[i] + 1])
  }

  /** `TaskIterator::next`: the task found is put to sleep, and yielded only if it is active. */
  function Advance(s: State, k: nat, it: Iter): State
    requires Sizes(s) && it.Iterating? && it.next.At?
  {
    var i := it.next.index;
    if i < |s.next| then Consumed(s, k, i, Iterating(s.next[i], Tail(it.chain)), i < s.active)
    else s.(fault := true)
  }

  function DropRead(s: State, k: nat, it: Iter): State
    requires it.Dropping? && it.next.At?
  {
    if it.next.index < |s.next|
    then s.(iters := s.iters[k := Clearing(it.next, it.chain, s.next[it.next.index])])
    else s.(fault := true)
  }

  function DropClear(s: State, k: nat, it: Iter): State
    requires Sizes(s) && it.Clearing? && it.next.At?
  {
    var i := it.next.index;
    if i < |s.next| then Consumed(s, k, i, Dropping(it.read, Tail(it.chain)), false)
    else s.(fault := true)
  }

  /** `resize`: new tasks are asleep; existing ones are kept even if they become inactive. */
  function Resize(s: State, len: nat): State {
    var more := if len > |s.next| then len - |s.next| else 0;
    s.(active := len,
       next := s.next + seq(more, _ => Sleeping),
       place := s.place + seq(more, _ => Asleep),
       scheduled := s.scheduled + seq(more, _ => 0),
       yielded := s.yielded + seq(more, _ => 0),
       discarded := s.discarded + seq(more, _ => 0))
  }

  // --- Step relation --------------------------------------------------------------

  datatype Step =
    | SWakeBegin(k: nat, task: nat)
    | SWake(k: nat, weak: bool)
    | STakeBegin(k: nat, count: nat)
    | STake(k: nat, weak: bool)
    | SAdvance(k: nat)
    | SDrop(k: nat)
    | SDropRead(k: nat)
    | SDropClear(k: nat)
    | SIterEnd(k: nat)
    | SResize(len: nat)

  predicate NextStep(s: State, s': State, step: Step)
    requires Sizes(s)
  {
    match step
    case SWakeBegin(k, i) => k !in s.wakes && i < |s.next| && s' == SetWake(s, k, Looking(i, s.next[i]))
    case SWake(k, weak) =>
      k in s.wakes && s.wakes[k].task < |s.next| && var w := s.wakes[k];
      (match w
       case Looking(_, _) => s' == Look(s, k, w, weak)
       case Linking(_, _) => s' == DoLink(s, k, w, weak)
       case Pushing(_, _) => s' == Push(s, k, w, weak)
       case Relinking(_, _) => s' == Relink(s, k, w)
       case Notifying(_) => s' == EndWake(s, k))
    case STakeBegin(k, n) => k !in s.takes && k !in s.iters && s' == s.(takes := s.takes[k := Taking(n, s.head)])
    case STake(k, weak) => k in s.takes && s' == TakeCas(s, k, s.takes[k], weak)
    case SAdvance(k) =>
      k in s.iters && var it := s.iters[k];
      it.Iterating? && it.next.At? && s' == Advance(s, k, it)
    case SDrop(k) =>
      k in s.iters && var it := s.iters[k];
      it.Iterating? && s' == s.(iters := s.iters[k := Dropping(it.next, it.chain)])
    case SDropRead(k) =>
      k in s.iters && var it := s.iters[k];
      it.Dropping? && it.next.At? && s' == DropRead(s, k, it)
    case SDropClear(k) =>
      k in s.iters && var it := s.iters[k];
      it.Clearing? && it.next.At? && s' == DropClear(s, k, it)
    case SIterEnd(k) =>
      k in s.iters && s.iters[k].Dropping? && s.iters[k].next == Empty && s' == s.(iters := s.iters - {k})
    case SResize(len) => s.takes == map[] && s.iters == map[] && s' == Resize(s, len)
  }

  /** `run[i + 1]` follows from `run[i]` by `steps[i]`. */
  ghost predicate IsRun(run: seq<State>, steps: seq<Step>) {
    && |run| == |steps| + 1 && Init(run[0])
    && forall i {:trigger steps[i]} :: 0 <= i < |steps| ==> Sizes(run[i]) && NextStep(run[i], run[i + 1], steps[i])
  }

  // --- Invariant ---------------------------------------------------------------

  function LinkAt(chain: seq<nat>, j: nat): Link { if j < |chain| then At(chain[j]) else Empty }

  /** Following the links from `start` visits `chain` and ends with Empty. */
  ghost predicate Chain(next: seq<Link>, start: Link, chain: seq<nat>) {
    && start == LinkAt(chain, 0)
    && (forall j :: 0 <= j < |chain| ==> chain[j] < |next| && next[chain[j]] == LinkAt(chain, j + 1))
    && (forall j, k :: 0 <= j < k < |chain| ==> chain[j] != chain[k])
  }

  ghost predicate AllAt(place: seq<Place>, tasks: seq<nat>, p: Place) {
    forall i :: i in tasks ==> i < |place| && place[i] == p
  }

  ghost predicate StackOk(s: State) {
    Chain(s.next, s.head.link, s.stack) && AllAt(s.place, s.stack, InStack)
  }

  ghost predicate IterOk(s: State, k: nat, it: Iter) {
    && Chain(s.next, it.next, it.chain) && AllAt(s.place, it.chain, InIter(k))
    && (it.Clearing? ==> |it.chain| > 0 && it.read == LinkAt(it.chain, 1))
  }

  predicate WakeOk(s: State, k: nat, w: Wake)
    requires Sizes(s)
  {
    && w.task < |s.next|
    && (Holds(w) ==> s.place[w.task] == HeldBy(k))
    && (w.Pushing? ==> s.next[w.task] == w.head.link)
    && (w.Linking? || Holds(w) ==> w.head.link != Sleeping)
  }

  ghost predicate PlaceOk(s: State, i: nat)
    requires Sizes(s) && i < |s.next|
  {
    && (s.next[i] == Sleeping <==> s.place[i] == Asleep)
    && (s.place[i] == InStack ==> i in s.stack)
    && (s.place[i].InIter? ==> s.place[i].iter in s.iters && i in s.iters[s.place[i].iter].chain)
    && (s.place[i].HeldBy? ==>
          s.place[i].wake in s.wakes && var w := s.wakes[s.place[i].wake]; Holds(w) && w.task == i)
    && s.scheduled[i] == s.yielded[i] + s.discarded[i] + (if s.place[i] == Asleep then 0 else 1)
  }

  predicate CountdownOk(s: State) {
    s.head.countdown == if s.pushes < s.armed then s.armed - s.pushes else 0
  }

  ghost predicate Inv(s: State) {
    && Sizes(s) && !s.fault
    && StackOk(s)
    && (forall k :: k in s.iters ==> IterOk(s, k, s.iters[k]))
    && (forall k :: k in s.wakes ==> WakeOk(s, k, s.wakes[k]))
    && (forall k :: k in s.takes ==> k !in s.iters)
    && (forall i :: 0 <= i < |s.next| ==> PlaceOk(s, i))
    && CountdownOk(s)
  }

  // --- Chains -------------------------------------------------------------------

  lemma ChainFramed(next: seq<Link>, i: nat, l: Link, start: Link, chain: seq<nat>)
    requires Chain(next, start, chain) && i < |next| && i !in chain
    ensures Chain(next[i := l], start, chain)
  {
  }

  lemma ChainPush(next: seq<Link>, i: nat, start: Link, chain: seq<nat>)
    requires Chain(next, start, chain) && i < |next| && i !in chain && next[i] == start
    ensures Chain(next, At(i), [i] + chain)
  {
    var c := [i] + chain;
    forall j | 0 <= j < |c| ensures c[j] < |next| && next[c[j]] == LinkAt(c, j + 1) {
      if j > 0 { assert c[j] == chain[j - 1]; }
    }
  }

  /** Taking the first task of a chain and putting it to sleep leaves the rest. */
  lemma ChainPop(next: seq<Link>, start: Link, chain: seq<nat>)
    requires Chain(next, start, chain) && start.At?
    ensures |chain| > 0 && start.index == chain[0] && start.index < |next|
    ensures next[start.index] == LinkAt(chain, 1)
    ensures Chain(next[start.index := Sleeping], next[start.index], chain[1..])
    ensures forall i :: i in chain <==> i == start.index || i in chain[1..]
    ensures start.index !in chain[1..]
  {
    var c := chain[1..];
    assert forall j :: 0 <= j < |c| ==> c[j] == chain[j + 1];
    assert chain == [chain[0]] + c;
  }

  // --- Preservation -------------------------------------------------------------

  lemma InitHolds(s: State)
    requires Init(s)
    ensures Inv(s)
  {
  }

  /** Only the call `k` moves, and it does not let go of the task it holds. */
  lemma WakeMoves(s: State, k: nat, w: Wake)
    requires Inv(s) && WakeOk(s, k, w)
    requires k in s.wakes && Holds(s.wakes[k]) ==> Holds(w) && w.task == s.wakes[k].task
    ensures Inv(SetWake(s, k, w))
  {
    var s' := SetWake(s, k, w);
    forall i | 0 <= i < |s'.next| ensures PlaceOk(s', i) { assert PlaceOk(s, i); }
  }

  lemma WakeEnds(s: State, k: nat)
    requires Inv(s) && k in s.wakes && !Holds(s.wakes[k])
    ensures Inv(EndWake(s, k))
  {
    var s' := EndWake(s, k);
    forall i | 0 <= i < |s'.next| ensures PlaceOk(s', i) { assert PlaceOk(s, i); }
  }

  lemma LookKeeps(s: State, k: nat, weak: bool)
    requires Inv(s) && k in s.wakes && s.wakes[k].Looking? && WakeOk(s, k, s.wakes[k])
    ensures Inv(Look(s, k, s.wakes[k], weak))
  {
    var i := s.wakes[k].task;
    WakeEnds(s, k);
    WakeMoves(s, k, Linking(i, s.head));
    WakeMoves(s, k, Looking(i, s.next[i]));
  }

  lemma LinkKeeps(s: State, k: nat)
    requires Inv(s) && k in s.wakes && s.wakes[k].Linking? && WakeOk(s, k, s.wakes[k])
    requires s.next[s.wakes[k].task] == Sleeping
    ensures Inv(DoLink(s, k, s.wakes[k], false))
  {
    var w := s.wakes[k];
    var i := w.task;
    var s' := DoLink(s, k, w, false);
    assert PlaceOk(s, i);
    ChainFramed(s.next, i, w.head.link, s.head.link, s.stack);
    forall j | j in s.iters ensures IterOk(s', j, s'.iters[j]) {
      assert IterOk(s, j, s.iters[j]);
      ChainFramed(s.next, i, w.head.link, s.iters[j].next, s.iters[j].chain);
    }
    forall j | j in s'.wakes ensures WakeOk(s', j, s'.wakes[j]) {
      if j != k { assert WakeOk(s, j, s.wakes[j]); }
    }
    forall j | 0 <= j < |s'.next| ensures PlaceOk(s', j) { assert PlaceOk(s, j); }
  }

  lemma PushPlaces(s: State, k: nat)
    requires Inv(s) && k in s.wakes && s.wakes[k].Pushing? && WakeOk(s, k, s.wakes[k]) && s.head == s.wakes[k].head
    ensures var s' := Push(s, k, s.wakes[k], false);
            (forall j :: 0 <= j < |s'.next| ==> PlaceOk(s', j)) && s.wakes[k].task !in s.stack
  {
    var s' := Push(s, k, s.wakes[k], false);
    assert PlaceOk(s, s.wakes[k].task);
    forall j | 0 <= j < |s'.next| ensures PlaceOk(s', j) { assert PlaceOk(s, j); }
  }

  lemma PushIters(s: State, k: nat)
    requires Inv(s) && k in s.wakes && s.wakes[k].Pushing? && WakeOk(s, k, s.wakes[k]) && s.head == s.wakes[k].head
    ensures var s' := Push(s, k, s.wakes[k], false);
            Sizes(s') && forall j :: j in s'.iters ==> IterOk(s', j, s'.iters[j])
  {
    var s' := Push(s, k, s.wakes[k], false);
    forall j | j in s.iters ensures IterOk(s', j, s'.iters[j]) { assert IterOk(s, j, s.iters[j]); }
  }

  lemma PushWakes(s: State, k: nat)
    requires Inv(s) && k in s.wakes && s.wakes[k].Pushing? && WakeOk(s, k, s.wakes[k]) && s.head == s.wakes[k].head
    ensures var s' := Push(s, k, s.wakes[k], false);
            Sizes(s') && forall j :: j in s'.wakes ==> WakeOk(s', j, s'.wakes[j])
  {
    var s' := Push(s, k, s.wakes[k], false);
    forall j | j in s'.wakes ensures WakeOk(s', j, s'.wakes[j]) {
      if j != k { assert WakeOk(s, j, s.wakes[j]); }
    }
  }

  lemma PushKeeps(s: State, k: nat)
    requires Inv(s) && k in s.wakes && s.wakes[k].Pushing? && WakeOk(s, k, s.wakes[k]) && s.head == s.wakes[k].head
    ensures Inv(Push(s, k, s.wakes[k], false))
  {
    var w := s.wakes[k];
    var s' := Push(s, k, w, false);
    PushPlaces(s, k);
    ChainPush(s.next, w.task, s.head.link, s.stack);
    PushIters(s, k);
    PushWakes(s, k);
  }

  lemma RelinkKeeps(s: State, k: nat)
    requires Inv(s) && k in s.wakes && s.wakes[k].Relinking? && WakeOk(s, k, s.wakes[k])
    ensures Inv(Relink(s, k, s.wakes[k]))
  {
    var w := s.wakes[k];
    var i := w.task;
    var s' := Relink(s, k, w);
    ChainFramed(s.next, i, w.head.link, s.head.link, s.stack);
    forall j | j in s.iters ensures IterOk(s', j, s'.iters[j]) {
      assert IterOk(s, j, s.iters[j]);
      ChainFramed(s.next, i, w.head.link, s.iters[j].next, s.iters[j].chain);
    }
    forall j | j in s'.wakes ensures WakeOk(s', j, s'.wakes[j]) {
      if j != k { assert WakeOk(s, j, s.wakes[j]); }
    }
    forall j | 0 <= j < |s'.next| ensures PlaceOk(s', j) { assert PlaceOk(s, j); }
  }

  lemma WakeStepKeeps(s: State, s': State, k: nat, weak: bool)
    requires Inv(s) && NextStep(s, s', SWake(k, weak))
    ensures Inv(s')
  {
    var w := s.wakes[k];
    assert WakeOk(s, k, w);
    match w
    case Looking(_, _) => LookKeeps(s, k, weak);
    case Linking(i, h) =>
      if s.next[i] == Sleeping && !weak { LinkKeeps(s, k); } else { WakeMoves(s, k, Looking(i, s.next[i])); }
    case Pushing(i, h) =>
      if s.head == h && !weak { PushKeeps(s, k); } else { WakeMoves(s, k, Relinking(i, s.head)); }
    case Relinking(_, _) => RelinkKeeps(s, k);
    case Notifying(_) => WakeEnds(s, k);
  }

  lemma TakeMoves(s: State, k: nat, t: Take)
    requires Inv(s) && k !in s.iters
    ensures Inv(s.(takes := s.takes[k := t]))
  {
    var s' := s.(takes := s.takes[k := t]);
    forall i | 0 <= i < |s'.next| ensures PlaceOk(s', i) { assert PlaceOk(s, i); }
  }

  lemma TakeNoneKeeps(s: State, k: nat)
    requires Inv(s) && k in s.takes && s.head == s.takes[k].head && s.head.link == Empty
    ensures Inv(TakeCas(s, k, s.takes[k], false))
  {
    var s' := TakeCas(s, k, s.takes[k], false);
    forall i | 0 <= i < |s'.next| ensures PlaceOk(s', i) { assert PlaceOk(s, i); }
  }

  lemma TakeSomeKeeps(s: State, k: nat)
    requires Inv(s) && k in s.takes && s.head == s.takes[k].head && s.head.link != Empty
    ensures Inv(TakeCas(s, k, s.takes[k], false))
  {
    var s' := TakeCas(s, k, s.takes[k], false);
    forall j | j in s'.iters ensures IterOk(s', j, s'.iters[j]) {
      if j != k { assert IterOk(s, j, s.iters[j]); }
    }
    forall j | j in s'.wakes ensures WakeOk(s', j, s'.wakes[j]) { assert WakeOk(s, j, s.wakes[j]); }
    forall i | 0 <= i < |s'.next| ensures PlaceOk(s', i) { assert PlaceOk(s, i); }
  }

  lemma TakeStepKeeps(s: State, s': State, k: nat, weak: bool)
    requires Inv(s) && NextStep(s, s', STake(k, weak))
    ensures Inv(s')
  {
    var t := s.takes[k];
    if s.head != t.head || weak { TakeMoves(s, k, Taking(t.count, s.head)); }
    else if t.head.link == Empty { TakeNoneKeeps(s, k); }
    else { TakeSomeKeeps(s, k); }
  }

  lemma ConsumePlaces(s: State, k: nat, i: nat, it: Iter, isYielded: bool)
    requires Inv(s) && k in s.iters && s.iters[k].next == At(i) && i < |s.next|
    requires it.chain == Tail(s.iters[k].chain)
    ensures var s' := Consumed(s, k, i, it, isYielded); forall j :: 0 <= j < |s'.next| ==> PlaceOk(s', j)
    ensures s.place[i] == InIter(k)
  {
    var s' := Consumed(s, k, i, it, isYielded);
    assert IterOk(s, k, s.iters[k]);
    ChainPop(s.next, s.iters[k].next, s.iters[k].chain);
    forall j | 0 <= j < |s'.next| ensures PlaceOk(s', j) { assert PlaceOk(s, j); }
  }

  lemma ConsumeIters(s: State, k: nat, i: nat, it: Iter, isYielded: bool)
    requires Inv(s) && k in s.iters && s.iters[k].next == At(i) && i < |s.next| && s.place[i] == InIter(k)
    requires it == Iterating(s.next[i], Tail(s.iters[k].chain)) || it == Dropping(s.next[i], Tail(s.iters[k].chain))
    ensures var s' := Consumed(s, k, i, it, isYielded); forall j :: j in s'.iters ==> IterOk(s', j, s'.iters[j])
  {
    var s' := Consumed(s, k, i, it, isYielded);
    forall j | j in s'.iters ensures IterOk(s', j, s'.iters[j]) {
      assert IterOk(s, j, s.iters[j]);
      if j != k {
        ChainFramed(s.next, i, Sleeping, s.iters[j].next, s.iters[j].chain);
      } else {
        ChainPop(s.next, s.iters[k].next, s.iters[k].chain);
      }
    }
  }

  lemma ConsumeKeeps(s: State, k: nat, i: nat, it: Iter, isYielded: bool)
    requires Inv(s) && k in s.iters && s.iters[k].next == At(i) && i < |s.next|
    requires it == Iterating(s.next[i], Tail(s.iters[k].chain)) || it == Dropping(s.next[i], Tail(s.iters[k].chain))
    ensures Inv(Consumed(s, k, i, it, isYielded))
  {
    var s' := Consumed(s, k, i, it, isYielded);
    ConsumePlaces(s, k, i, it, isYielded);
    ConsumeIters(s, k, i, it, isYielded);
    ChainFramed(s.next, i, Sleeping, s.head.link, s.stack);
    forall j | j in s'.wakes ensures WakeOk(s', j, s'.wakes[j]) { assert WakeOk(s, j, s.wakes[j]); }
  }

  lemma IterMoves(s: State, k: nat, it: Iter)
    requires Inv(s) && k in s.iters && IterOk(s, k, it) && it.chain == s.iters[k].chain
    ensures Inv(s.(iters := s.iters[k := it]))
  {
    var s' := s.(iters := s.iters[k := it]);
    forall j | j in s'.iters ensures IterOk(s', j, s'.iters[j]) {
      if j != k { assert IterOk(s, j, s.iters[j]); }
    }
    forall i | 0 <= i < |s'.next| ensures PlaceOk(s', i) { assert PlaceOk(s, i); }
  }

  lemma IterEnds(s: State, k: nat)
    requires Inv(s) && k in s.iters && s.iters[k].next == Empty
    ensures Inv(s.(iters := s.iters - {k}))
  {
    var s' := s.(iters := s.iters - {k});
    assert IterOk(s, k, s.iters[k]);
    forall i | 0 <= i < |s'.next| ensures PlaceOk(s', i) { assert PlaceOk(s, i); }
  }

  /** The task an iterator is about to visit exists, and its link leads to the rest. */
  lemma VisitsATask(s: State, k: nat)
    requires Inv(s) && k in s.iters && s.iters[k].next.At?
    ensures IterOk(s, k, s.iters[k])
    ensures s.iters[k].next.index < |s.next| && s.next[s.iters[k].next.index] == LinkAt(s.iters[k].chain, 1)
    ensures |s.iters[k].chain| > 0
  {
    assert IterOk(s, k, s.iters[k]);
    ChainPop(s.next, s.iters[k].next, s.iters[k].chain);
  }

  lemma AdvanceKeeps(s: State, s': State, k: nat)
    requires Inv(s) && NextStep(s, s', SAdvance(k))
    ensures Inv(s')
  {
    VisitsATask(s, k);
    var i := s.iters[k].next.index;
    ConsumeKeeps(s, k, i, Iterating(s.next[i], Tail(s.iters[k].chain)), i < s.active);
  }

  lemma DropClearKeeps(s: State, s': State, k: nat)
    requires Inv(s) && NextStep(s, s', SDropClear(k))
    ensures Inv(s')
  {
    VisitsATask(s, k);
    var i := s.iters[k].next.index;
    ConsumeKeeps(s, k, i, Dropping(s.next[i], Tail(s.iters[k].chain)), false);
  }

  lemma DropReadKeeps(s: State, s': State, k: nat)
    requires Inv(s) && NextStep(s, s', SDropRead(k))
    ensures Inv(s')
  {
    VisitsATask(s, k);
    var it := s.iters[k];
    IterMoves(s, k, Clearing(it.next, it.chain, s.next[it.next.index]));
  }

  lemma DropKeeps(s: State, s': State, k: nat)
    requires Inv(s) && NextStep(s, s', SDrop(k))
    ensures Inv(s')
  {
    assert IterOk(s, k, s.iters[k]);
    IterMoves(s, k, Dropping(s.iters[k].next, s.iters[k].chain));
  }

  lemma ResizeKeeps(s: State, len: nat)
    requires Inv(s) && s.iters == map[]
    ensures Inv(Resize(s, len))
  {
    var s' := Resize(s, len);
    forall j | j in s'.wakes ensures WakeOk(s', j, s'.wakes[j]) { assert WakeOk(s, j, s.wakes[j]); }
    forall i | 0 <= i < |s'.next| ensures PlaceOk(s', i) {
      if i < |s.next| { assert PlaceOk(s, i); }
    }
  }

  lemma StepKeeps(s: State, s': State, step: Step)
    requires Inv(s) && NextStep(s, s', step)
    ensures Inv(s')
  {
    match step
    case SWakeBegin(k, i) => WakeMoves(s, k, Looking(i, s.next[i]));
    case SWake(k, weak) => WakeStepKeeps(s, s', k, weak);
    case STakeBegin(k, n) => TakeMoves(s, k, Taking(n, s.head));
    case STake(k, weak) => TakeStepKeeps(s, s', k, weak);
    case SAdvance(k) => AdvanceKeeps(s, s', k);
    case SDrop(k) => DropKeeps(s, s', k);
    case SDropRead(k) => DropReadKeeps(s, s', k);
    case SDropClear(k) => DropClearKeeps(s, s', k);
    case SIterEnd(k) => IterEnds(s, k);
    case SResize(len) => ResizeKeeps(s, len);
  }

  lemma {:induction false} RunKeeps(run: seq<State>, steps: seq<Step>, i: nat)
    requires IsRun(run, steps) && i < |run|
    ensures Inv(run[i])
  {
    if i == 0 {
      InitHolds(run[0]);
    } else {
      RunKeeps(run, steps, i - 1);
      StepKeeps(run[i - 1], run[i], steps[i - 1]);
    }
  }

  // --- Theorems over whole runs ---------------------------------------------------

  ghost predicate IsHeld(s: State, i: nat, k: nat) {
    k in s.wakes && Holds(s.wakes[k]) && s.wakes[k].task == i
  }

  ghost predicate IsTaken(s: State, i: nat, k: nat) {
    k in s.iters && i in s.iters[k].chain
  }

  /**
    A task that is not asleep is in the stack, in the chain of one iterator or held
    by one call of `wake_by_ref`, and in one of these only; a sleeping task is in none.
  */
  ghost predicate InOnePlace(s: State, i: nat)
    requires i < |s.next|
  {
    && (s.next[i] == Sleeping <==> i !in s.stack && (forall k :: !IsTaken(s, i, k)) && (forall k :: !IsHeld(s, i, k)))
    && (i in s.stack ==> (forall k :: !IsTaken(s, i, k)) && (forall k :: !IsHeld(s, i, k)))
    && (forall j, k :: IsTaken(s, i, j) && IsTaken(s, i, k) ==> j == k)
    && (forall j, k :: IsHeld(s, i, j) && IsHeld(s, i, k) ==> j == k)
    && (forall j, k :: !(IsTaken(s, i, j) && IsHeld(s, i, k)))
  }

  lemma PlaceIsUnique(s: State, i: nat)
    requires Inv(s) && i < |s.next|
    ensures InOnePlace(s, i)
  {
    assert PlaceOk(s, i);
    forall k | IsTaken(s, i, k) ensures s.place[i] == InIter(k) { assert IterOk(s, k, s.iters[k]); }
    forall k | IsHeld(s, i, k) ensures s.place[i] == HeldBy(k) { assert WakeOk(s, k, s.wakes[k]); }
    if s.place[i].InIter? { assert IsTaken(s, i, s.place[i].iter); }
    if s.place[i].HeldBy? { assert IsHeld(s, i, s.place[i].wake); }
  }

  /**
    In every reachable state the stack and every live iterator are acyclic chains
    ended by Empty, no index is out of range, every task is in one place, and each
    scheduling of a task has been, or remains to be, yielded or discarded exactly once.
  */
  lemma TaskSetSafety(run: seq<State>, steps: seq<Step>, n: nat)
    requires IsRun(run, steps) && n < |run|
    ensures var s := run[n];
            && !s.fault && |s.scheduled| == |s.yielded| == |s.discarded| == |s.next|
            && Chain(s.next, s.head.link, s.stack)
            && (forall k :: k in s.iters ==> Chain(s.next, s.iters[k].next, s.iters[k].chain))
            && (forall i :: 0 <= i < |s.next| ==> InOnePlace(s, i))
            && (forall i :: 0 <= i < |s.next| ==>
                s.scheduled[i] == s.yielded[i] + s.discarded[i] + if s.next[i] == Sleeping then 0 else 1)
  {
    RunKeeps(run, steps, n);
    var s := run[n];
    forall k | k in s.iters
      ensures Chain(s.next, s.iters[k].next, s.iters[k].chain)
    {
      assert IterOk(s, k, s.iters[k]);
    }
    forall i | 0 <= i < |s.next|
      ensures InOnePlace(s, i)
      ensures s.scheduled[i] == s.yielded[i] + s.discarded[i] + if s.next[i] == Sleeping then 0 else 1
    {
      PlaceIsUnique(s, i);
      assert PlaceOk(s, i);
    }
  }

  /** A compare-exchange of `wake_by_ref` that moves the head. */
  predicate Pushes(s: State, step: Step) {
    step.SWake? && !step.weak && step.k in s.wakes && s.wakes[step.k].Pushing? && s.wakes[step.k].head == s.head
  }

  /** A compare-exchange of `take_scheduled` that succeeds. */
  predicate Takes(s: State, step: Step) {
    step.STake? && !step.weak && step.k in s.takes && s.takes[step.k].head == s.head
  }

  /** The number of pushes among the steps from `a` to `b`. */
  ghost function PushCount(run: seq<State>, steps: seq<Step>, a: nat, b: nat): nat
    requires a <= b <= |steps| < |run|
    decreases b
  {
    if a == b then 0 else PushCount(run, steps, a, b - 1) + if Pushes(run[b - 1], steps[b - 1]) then 1 else 0
  }

  /** Between two takes, the history counts the pushes. */
  predicate Counted(s: State, s': State, step: Step) {
    s'.armed == s.armed && s'.pushes == s.pushes + if Pushes(s, step) then 1 else 0
  }

  lemma StepCounts(s: State, s': State, step: Step)
    requires Sizes(s) && NextStep(s, s', step) && !Takes(s, step)
    ensures Counted(s, s', step)
  {
    match step
    case SWakeBegin(k, i) =>
    case SWake(k, weak) =>
      match s.wakes[k] {
        case Looking(_, _) =>
        case Linking(_, _) =>
        case Pushing(_, _) =>
        case Relinking(_, _) =>
        case Notifying(_) =>
      }
    case STakeBegin(k, n) =>
    case STake(k, weak) =>
    case _ =>
  }

  lemma TakeArms(s: State, s': State, step: Step)
    requires Sizes(s) && NextStep(s, s', step) && Takes(s, step) && s.head.link == Empty
    ensures s'.armed == s.takes[step.k].count && s'.pushes == 0
  {
  }

  lemma {:induction false} CountsSince(run: seq<State>, steps: seq<Step>, a: nat, j: nat)
    requires a <= j <= |steps| < |run| && run[a].pushes == 0
    requires forall m {:trigger steps[m]} :: a <= m < j ==> Counted(run[m], run[m + 1], steps[m])
    ensures run[j].armed == run[a].armed && run[j].pushes == PushCount(run, steps, a, j)
    decreases j
  {
    if a < j {
      CountsSince(run, steps, a, j - 1);
      assert Counted(run[j - 1], run[j], steps[j - 1]);
    }
  }

  lemma CountdownSince(run: seq<State>, steps: seq<Step>, t: nat, j: nat, n: nat)
    requires IsRun(run, steps) && t < j <= |steps|
    requires Takes(run[t], steps[t]) && run[t].head.link == Empty && run[t].takes[steps[t].k].count == n
    requires forall m :: t < m < j ==> !Takes(run[m], steps[m])
    ensures run[j].armed == n && run[j].pushes == PushCount(run, steps, t + 1, j)
  {
    TakeArms(run[t], run[t + 1], steps[t]);
    forall m | t + 1 <= m < j ensures Counted(run[m], run[m + 1], steps[m]) {
      StepCounts(run[m], run[m + 1], steps[m]);
    }
    CountsSince(run, steps, t + 1, j);
  }

  /**
    After a take that found nothing and requested `n` notifications, and until the
    next take, the task whose push is the n-th one goes on to notify the parent,
    and no other does.
  */
  lemma NotifiesAtNthPush(run: seq<State>, steps: seq<Step>, t: nat, j: nat, n: nat)
    requires IsRun(run, steps) && t < j < |steps|
    requires Takes(run[t], steps[t]) && run[t].head.link == Empty && run[t].takes[steps[t].k].count == n
    requires forall m :: t < m < j ==> !Takes(run[m], steps[m])
    requires Pushes(run[j], steps[j])
    ensures var k := steps[j].k;
            (k in run[j + 1].wakes && run[j + 1].wakes[k].Notifying?) <==> PushCount(run, steps, t + 1, j) + 1 == n
  {
    RunKeeps(run, steps, j);
    CountdownSince(run, steps, t, j, n);
    assert NextStep(run[j], run[j + 1], steps[j]);
  }

  lemma WakeLands(s: State, s': State, k: nat, weak: bool)
    requires Inv(s) && NextStep(s, s', SWake(k, weak)) && !s.wakes[k].Notifying?
    requires k !in s'.wakes || s'.wakes[k].Notifying?
    ensures s'.next == s.next && s.next[s.wakes[k].task] != Sleeping
  {
    assert WakeOk(s, k, s.wakes[k]);
    match s.wakes[k]
    case Looking(_, _) =>
    case Linking(_, _) =>
    case Pushing(_, _) =>
    case Relinking(_, _) =>
  }

  lemma AwakeIsScheduled(s: State, i: nat)
    requires Inv(s) && i < |s.next| && s.next[i] != Sleeping
    ensures s.yielded[i] + s.discarded[i] < s.scheduled[i]
  {
    assert PlaceOk(s, i);
  }

  /** A completed wake-up leaves its task awake: scheduled more often than yielded or discarded. */
  lemma WakeIsNotLost(run: seq<State>, steps: seq<Step>, j: nat, k: nat)
    requires IsRun(run, steps) && j < |steps| && steps[j].SWake? && steps[j].k == k
    requires k in run[j].wakes && !run[j].wakes[k].Notifying?
    requires k !in run[j + 1].wakes || run[j + 1].wakes[k].Notifying?
    ensures var i := run[j].wakes[k].task;
            && Sizes(run[j + 1]) && i < |run[j + 1].next|
            && run[j + 1].next[i] != Sleeping
            && run[j + 1].yielded[i] + run[j + 1].discarded[i] < run[j + 1].scheduled[i]
  {
    var i := run[j].wakes[k].task;
    RunKeeps(run, steps, j);
    RunKeeps(run, steps, j + 1);
    WakeLands(run[j], run[j + 1], k, steps[j].weak);
    AwakeIsScheduled(run[j + 1], i);
  }

  // --- What iterators yield -----------------------------------------------------------------------

  /** Iterator `k` has visited its next task, which is asleep again: yielded if it is active, discarded if not. */
  ghost predicate Visited(s: State, s': State, k: nat) {
    && Sizes(s) && Sizes(s') && |s'.next| == |s.next| && k in s.iters && k in s'.iters
    && s.iters[k].next.At? && s.iters[k].next.index < |s.next|
    && var i := s.iters[k].next.index;
    && s'.iters[k].Iterating? && s.iters[k].chain == [i] + s'.iters[k].chain
    && s'.next == s.next[i := Sleeping] && s'.scheduled == s.scheduled && s'.active == s.active
    && s'.yielded == (if i < s.active then s.yielded[i := s.yielded[i] + 1] else s.yielded)
    && s'.discarded == (if i < s.active then s.discarded else s.discarded[i := s.discarded[i] + 1])
  }

  lemma AdvanceVisits(s: State, s': State, k: nat)
    requires Inv(s) && NextStep(s, s', SAdvance(k))
    ensures Visited(s, s', k)
  {
    VisitsATask(s, k);
    var c := s.iters[k].chain;
    assert c == [c[0]] + c[1..];
  }

  /** In every run a step of an iterator visits a task in this way. */
  lemma AdvanceYields(run: seq<State>, steps: seq<Step>, n: nat, k: nat)
    requires IsRun(run, steps) && n < |steps| && steps[n] == SAdvance(k)
    ensures Visited(run[n], run[n + 1], k)
  {
    RunKeeps(run, steps, n);
    AdvanceVisits(run[n], run[n + 1], k);
  }

  /** Neither the drop of an iterator nor a change of size. */
  predicate IsPlain(step: Step) { !step.SDrop? && !step.SResize? }

  /** All tasks are active, iterators are not being dropped, and nothing was discarded. */
  ghost predicate IsUndiminished(s: State) {
    && Sizes(s) && s.active == |s.next| && (forall k :: k in s.iters ==> s.iters[k].Iterating?)
    && (forall i :: 0 <= i < |s.discarded| ==> s.discarded[i] == 0)
  }

  /** Wake-ups leave iterators and what they have yielded alone. */
  predicate SameYields(s: State, s': State) {
    Sizes(s') && |s'.next| == |s.next| && s'.active == s.active && s'.iters == s.iters && s'.discarded == s.discarded
  }

  lemma LookFrame(s: State, k: nat, weak: bool)
    requires Sizes(s) && k in s.wakes && s.wakes[k].task < |s.next|
    ensures s.wakes[k].Looking? ==> SameYields(s, Look(s, k, s.wakes[k], weak))
    ensures s.wakes[k].Linking? ==> SameYields(s, DoLink(s, k, s.wakes[k], weak))
  {
  }

  lemma PushFrame(s: State, k: nat, weak: bool)
    requires Sizes(s) && k in s.wakes && s.wakes[k].task < |s.next|
    ensures s.wakes[k].Pushing? ==> SameYields(s, Push(s, k, s.wakes[k], weak))
    ensures s.wakes[k].Relinking? ==> SameYields(s, Relink(s, k, s.wakes[k]))
  {
  }

  lemma WakeUndiminished(s: State, s': State, step: Step)
    requires IsUndiminished(s) && NextStep(s, s', step) && (step.SWakeBegin? || step.SWake?)
    ensures IsUndiminished(s')
  {
    if step.SWake? {
      LookFrame(s, step.k, step.weak);
      PushFrame(s, step.k, step.weak);
    }
    assert SameYields(s, s');
  }

  lemma AdvanceUndiminished(s: State, s': State, k: nat)
    requires Inv(s) && IsUndiminished(s) && NextStep(s, s', SAdvance(k))
    ensures IsUndiminished(s')
  {
    AdvanceVisits(s, s', k);
  }

  lemma StepUndiminished(s: State, s': State, step: Step)
    requires Inv(s) && IsUndiminished(s) && NextStep(s, s', step) && IsPlain(step)
    ensures IsUndiminished(s')
  {
    if step.SAdvance? {
      AdvanceUndiminished(s, s', step.k);
    } else if step.SWakeBegin? || step.SWake? {
      WakeUndiminished(s, s', step);
    }
  }

  lemma {:induction false} RunUndiminished(run: seq<State>, steps: seq<Step>, n: nat)
    requires IsRun(run, steps) && n < |run| && forall m :: 0 <= m < n ==> IsPlain(steps[m])
    ensures IsUndiminished(run[n])
  {
    if n > 0 {
      RunUndiminished(run, steps, n - 1);
      RunKeeps(run, steps, n - 1);
      StepUndiminished(run[n - 1], run[n], steps[n - 1]);
    }
  }

  /** Without drops and resizes, a sleeping task was yielded exactly as often as it was scheduled. */
  lemma SleepingWasYielded(run: seq<State>, steps: seq<Step>, n: nat, i: nat)
    requires IsRun(run, steps) && n < |run| && (forall m :: 0 <= m < n ==> IsPlain(steps[m])) && i < |run[n].next|
    ensures Sizes(run[n])
    ensures run[n].scheduled[i] == run[n].yielded[i] + if run[n].next[i] == Sleeping then 0 else 1
  {
    RunUndiminished(run, steps, n);
    RunKeeps(run, steps, n);
    assert PlaceOk(run[n], i);
  }

  // --- Calls that nobody disturbs -------------------------------------------------------------------

  /** A take gets exactly the tasks of the stack, in order; from an empty stack it gets none, and arms the countdown. */
  lemma TakeGetsStack(s: State, k: nat, count: nat) returns (s1: State, s2: State)
    requires Inv(s) && k !in s.takes && k !in s.iters
    ensures NextStep(s, s1, STakeBegin(k, count)) && Sizes(s1) && NextStep(s1, s2, STake(k, false))
    ensures k !in s2.takes && s2.stack == []
    ensures s.stack != [] ==> s2.iters == s.iters[k := Iterating(At(s.stack[0]), s.stack)] && s2.head == Head(Empty, 0)
    ensures s.stack == [] ==> s2.iters == s.iters && s2.head == Head(Empty, count)
  {
    s1 := s.(takes := s.takes[k := Taking(count, s.head)]);
    s2 := TakeCas(s1, k, s1.takes[k], false);
  }

  /** `s'` is reached from `s` by advancing iterator `k` until nothing is left. */
  ghost predicate Exhausts(s: State, s': State, k: nat, n: nat)
    requires Sizes(s)
    decreases n
  {
    if n == 0 then s' == s && k in s.iters && s.iters[k] == Iterating(Empty, [])
    else
      exists t {:trigger Exhausts(t, s', k, n - 1)} ::
        Sizes(t) && NextStep(s, t, SAdvance(k)) && Exhausts(t, s', k, n - 1)
  }

  /** All tasks of `chain` were visited: the active ones yielded once more, the others discarded. */
  ghost predicate AllVisited(s: State, s': State, chain: seq<nat>) {
    && Sizes(s) && Sizes(s') && |s'.next| == |s.next|
    && forall i :: 0 <= i < |s.next| ==>
         && s'.yielded[i] == s.yielded[i] + (if i in chain && i < s.active then 1 else 0)
         && s'.discarded[i] == s.discarded[i] + (if i in chain && i >= s.active then 1 else 0)
         && s'.next[i] == if i in chain then Sleeping else s.next[i]
  }

  lemma VisitThenAll(s: State, t: State, s': State, k: nat)
    requires Visited(s, t, k) && AllVisited(t, s', t.iters[k].chain) && s.iters[k].next.index !in t.iters[k].chain
    ensures AllVisited(s, s', s.iters[k].chain)
  {
    var c, d := s.iters[k].chain, t.iters[k].chain;
    forall i | 0 <= i < |s.next| ensures i in c <==> i == s.iters[k].next.index || i in d { }
  }

  /** An iterator visits all its tasks. */
  lemma {:induction false} IteratorYieldsAll(s: State, k: nat) returns (s': State)
    requires Inv(s) && k in s.iters && s.iters[k].Iterating?
    ensures Exhausts(s, s', k, |s.iters[k].chain|) && AllVisited(s, s', s.iters[k].chain)
    decreases |s.iters[k].chain|
  {
    var it := s.iters[k];
    assert IterOk(s, k, it);
    if it.chain == [] {
      s' := s;
    } else {
      var t := Advance(s, k, it);
      VisitsATask(s, k);
      ChainPop(s.next, it.next, it.chain);
      AdvanceVisits(s, t, k);
      AdvanceKeeps(s, t, k);
      s' := IteratorYieldsAll(t, k);
      VisitThenAll(s, t, s', k);
      assert Exhausts(t, s', k, |it.chain| - 1);
    }
  }

  /** A wake-up of a sleeping task puts it on top of the stack. */
  lemma WakeSchedules(s: State, k: nat, i: nat) returns (s1: State, s2: State, s3: State, s4: State)
    requires Inv(s) && k !in s.wakes && i < |s.next| && s.next[i] == Sleeping
    ensures NextStep(s, s1, SWakeBegin(k, i)) && Sizes(s1) && NextStep(s1, s2, SWake(k, false))
    ensures Sizes(s2) && NextStep(s2, s3, SWake(k, false)) && Sizes(s3) && NextStep(s3, s4, SWake(k, false))
    ensures s4.stack == [i] + s.stack && s4.scheduled == s.scheduled[i := s.scheduled[i] + 1]
    ensures (k in s4.wakes <==> s.head.countdown == 1) && (k in s4.wakes ==> s4.wakes[k] == Notifying(i))
  {
    s1 := SetWake(s, k, Looking(i, s.next[i]));
    s2 := Look(s1, k, s1.wakes[k], false);
    s3 := DoLink(s2, k, s2.wakes[k], false);
    s4 := Push(s3, k, s3.wakes[k], false);
  }

  /** A wake-up of a task that is awake changes nothing. */
  lemma WakeConfirms(s: State, k: nat, i: nat) returns (s1: State)
    requires Inv(s) && k !in s.wakes && i < |s.next| && s.next[i] != Sleeping
    ensures NextStep(s, s1, SWakeBegin(k, i)) && Sizes(s1) && NextStep(s1, s, SWake(k, false))
  {
    s1 := SetWake(s, k, Looking(i, s.next[i]));
    assert EndWake(s1, k).wakes == s.wakes;
  }
}
