/**
  The bounded multiple-producer single-consumer queue: stamps, a shared enqueue
  position with a closed flag, and recyclable message boxes.

  Every load, store and compare-exchange on a shared word is one step.  The
  source's `unreachable!`, its debug assertions and its bounds checks raise
  `fault`; the invariant says that no interleaving reaches one.
*/
module MpscQueue {
  import opened QueueGeometry

  type Msg = nat

  datatype Box = Populated(msg: Msg) | Vacated | Absent

  /**
    A push in progress.  `turn` and `full` are history: the number of successful
    reservations when `pos` was read (or the rank of the reservation itself), and
    whether every slot was held when the stamp was read.
  */
  datatype Push =
    | Checking(msg: Msg, pos: nat, turn: nat)
    | Comparing(msg: Msg, pos: nat, stamp: nat, turn: nat, full: bool)
    | Writing(msg: Msg, pos: nat, stamp: nat, turn: nat)
    | Stamping(msg: Msg, pos: nat, stamp: nat, turn: nat)

  /** A push that has reserved a slot and not stamped it yet. */
  predicate Holds(p: Push) { p.Writing? || p.Stamping? }

  /** The consumer: between calls, inside `pop`, or holding a message borrow. */
  datatype Pop =
    | Resting
    | Taking(stamp: nat)
    | Probing
    | Borrowing(index: nat, stamp: nat)
    | Releasing(index: nat, stamp: nat)

  datatype State = State(
    g: Geometry,
    enqueue: nat,
    dequeue: nat,
    stamps: seq<nat>,
    boxes: seq<Box>,
    pushes: map<nat, Push>,
    pop: Pop,
    fault: bool,
    // History: messages in the order of successful reservations, messages
    // popped, whether `close` was called, and which push still has to stamp
    // the slot of which reservation.
    log: seq<Msg>,
    popped: seq<Msg>,
    closed: bool,
    owner: map<nat, nat>)

  predicate Init(s: State) {
    && s.g.cap >= 1 && s.g == NewGeometry(s.g.cap)
    && s.enqueue == 0 && s.dequeue == 0
    && |s.stamps| == |s.boxes| == s.g.cap
    && (forall i :: 0 <= i < s.g.cap ==> s.stamps[i] == i)
    && (forall i :: 0 <= i < s.g.cap ==> s.boxes[i] == Vacated)
    && s.pushes == map[] && s.pop == Resting && !s.fault
    && s.log == [] && s.popped == [] && !s.closed && s.owner == map[]
  }

  /** Slots handed back to the producers: all popped ones but the borrowed one. */
  function Released(s: State): int {
    |s.popped| - (if s.pop.Borrowing? || s.pop.Releasing? then 1 else 0)
  }

  predicate IsFull(s: State) { |s.log| == Released(s) + s.g.cap }

  function Fault(s: State): State { s.(fault := true) }

  /** A debug assertion. */
  function Checked(s: State, holds: bool): State { if holds then s else Fault(s) }

  function SetPush(s: State, k: nat, p: Push): State { s.(pushes := s.pushes[k := p]) }

  function EndPush(s: State, k: nat): State { s.(pushes := s.pushes - {k}) }

  // --- Producer steps -------------------------------------------------------

  function PushBegin(s: State, k: nat, msg: Msg): State {
    SetPush(s, k, Checking(msg, s.enqueue, |s.log|))
  }

  function Reload(s: State, k: nat, msg: Msg): State {
    SetPush(s, k, Checking(msg, s.enqueue, |s.log|))
  }

  /** Either report a closed queue or load the stamp of the slot at index `i`. */
  function PushCheck(s: State, k: nat, p: Push, closed: bool, i: nat): State
    requires p.Checking?
  {
    if closed then EndPush(s, k)
    else if i < |s.stamps| then SetPush(s, k, Comparing(p.msg, p.pos, s.stamps[i], p.turn, IsFull(s)))
    else Fault(s)
  }

  /** The compare-exchange succeeds: the slot is reserved. */
  function Reserve(s: State, k: nat, p: Push, next: nat): State
    requires p.Comparing?
  {
    SetPush(s, k, Writing(p.msg, p.pos, p.stamp, |s.log|)).(
      enqueue := next,
      log := s.log + [p.msg],
      owner := s.owner[|s.log| := k])
  }

  /** Compare the stamp with the position; `weak` makes the compare-exchange fail spuriously. */
  function PushCompare(s: State, k: nat, p: Push, weak: bool): State
    requires Valid(s.g) && p.Comparing?
  {
    if p.stamp == p.pos == s.enqueue && !weak then Reserve(s, k, p, NextPos(s.g, p.pos))
    else if p.stamp < p.pos then EndPush(s, k)
    else Reload(s, k, p.msg)
  }

  function PushWrite(s: State, k: nat, p: Push, i: nat): State
    requires p.Writing?
  {
    if i < |s.boxes| && s.boxes[i] == Vacated then
      SetPush(s, k, Stamping(p.msg, p.pos, p.stamp, p.turn)).(boxes := s.boxes[i := Populated(p.msg)])
    else Fault(s)
  }

  function PushStamp(s: State, k: nat, p: Push, i: nat): State
    requires p.Stamping?
  {
    if i < |s.stamps| then EndPush(s, k).(stamps := s.stamps[i := p.stamp + 1], owner := s.owner - {p.turn})
    else Fault(s)
  }

  // --- Consumer steps ---------------------------------------------------------

  function PopLoad(s: State, i: nat): State {
    if i >= |s.stamps| then Fault(s)
    else if s.stamps[i] != s.dequeue then s.(pop := Taking(s.stamps[i]))
    else s.(pop := Probing)
  }

  function PopTake(s: State, i: nat, next: nat): State
    requires Valid(s.g) && s.pop.Taking?
  {
    if i < |s.boxes| && s.boxes[i].Populated? && s.pop.stamp == s.dequeue + 1 then
      s.(dequeue := next,
         popped := s.popped + [s.boxes[i].msg],
         boxes := s.boxes[i := Absent],
         pop := Borrowing(i, s.pop.stamp + RightMask(s.g)))
    else Fault(s)
  }

  /** Whether a pop that found no message reports a closed queue. */
  predicate ProbeSaysClosed(s: State)
    requires Valid(s.g)
  {
    s.enqueue == OrFlag(s.g, s.dequeue)
  }

  function DropVacate(s: State): State
    requires s.pop.Borrowing?
  {
    if s.pop.index < |s.boxes| then
      s.(boxes := s.boxes[s.pop.index := Vacated], pop := Releasing(s.pop.index, s.pop.stamp))
    else Fault(s)
  }

  function DropRelease(s: State): State
    requires s.pop.Releasing?
  {
    if s.pop.index < |s.stamps| then
      s.(stamps := s.stamps[s.pop.index := s.pop.stamp], pop := Resting)
    else Fault(s)
  }

  function Close(s: State): State
    requires Valid(s.g)
  {
    s.(enqueue := OrFlag(s.g, s.enqueue), closed := true)
  }

  // --- Step relation ------------------------------------------------------------

  datatype Step =
    | SBegin(k: nat, msg: Msg)
    | SCheck(k: nat)
    | SCompare(k: nat, weak: bool)
    | SWrite(k: nat)
    | SStamp(k: nat)
    | SPopLoad
    | SPopTake
    | SPopProbe
    | SVacate
    | SRelease
    | SClose

  predicate NextStep(s: State, s': State, step: Step)
    requires Valid(s.g)
  {
    match step
    case SBegin(k, msg) => k !in s.pushes && s' == PushBegin(s, k, msg)
    case SCheck(k) =>
      k in s.pushes && var p := s.pushes[k];
      p.Checking? && s' == PushCheck(s, k, p, HasFlag(s.g, p.pos), AndRightMask(s.g, p.pos))
    case SCompare(k, weak) =>
      k in s.pushes && var p := s.pushes[k];
      p.Comparing? && s' == Checked(PushCompare(s, k, p, weak), p.stamp != p.pos || !HasFlag(s.g, p.pos))
    case SWrite(k) =>
      k in s.pushes && var p := s.pushes[k];
      p.Writing? && s' == PushWrite(s, k, p, AndRightMask(s.g, p.pos))
    case SStamp(k) =>
      k in s.pushes && var p := s.pushes[k];
      p.Stamping? && s' == PushStamp(s, k, p, AndRightMask(s.g, p.pos))
    case SPopLoad => s.pop.Resting? && s' == PopLoad(s, AndRightMask(s.g, s.dequeue))
    case SPopTake =>
      && s.pop.Taking?
      && s' == Checked(PopTake(s, AndRightMask(s.g, s.dequeue), NextPos(s.g, s.dequeue)), !HasFlag(s.g, s.dequeue))
    case SPopProbe => s.pop.Probing? && s' == s.(pop := Resting)
    case SVacate => s.pop.Borrowing? && s' == DropVacate(s)
    case SRelease => s.pop.Releasing? && s' == DropRelease(s)
    case SClose => s' == Close(s)
  }

  // --- Invariant ---------------------------------------------------------------

  predicate Shape(s: State) {
    && Valid(s.g)
    && |s.stamps| == |s.boxes| == s.g.cap
    && !s.fault
  }

  predicate Words(s: State)
    requires Shape(s)
  {
    && s.enqueue == WithFlag(s.g, Pos(s.g, |s.log|), s.closed)
    && s.dequeue == Pos(s.g, |s.popped|)
  }

  /** Messages are popped in reservation order, and never more slots are held than there are. */
  predicate Fifo(s: State)
    requires Shape(s)
  {
    && s.popped <= s.log
    && 0 <= Released(s)
    && |s.log| <= Released(s) + s.g.cap
  }

  /** The slot of the n-th reservation. */
  predicate SlotOk(s: State, n: nat)
    requires Shape(s)
  {
    var i := Ix(s.g, n);
    if n < |s.popped| then
      s.stamps[i] == Pos(s.g, n) + 1 && s.boxes[i] == if s.pop.Releasing? then Vacated else Absent
    else if n >= |s.log| then
      s.stamps[i] == Pos(s.g, n) && s.boxes[i] == Vacated
    else if n in s.owner then
      s.stamps[i] == Pos(s.g, n) &&
      s.boxes[i] == if s.owner[n] in s.pushes && s.pushes[s.owner[n]].Writing? then Vacated else Populated(s.log[n])
    else
      s.stamps[i] == Pos(s.g, n) + 1 && s.boxes[i] == Populated(s.log[n])
  }

  ghost predicate Slots(s: State)
    requires Shape(s)
  {
    forall n {:trigger SlotOk(s, n)} :: Released(s) <= n < Released(s) + s.g.cap && 0 <= n ==> SlotOk(s, n)
  }

  predicate PushOk(s: State, k: nat, p: Push)
    requires Shape(s)
  {
    match p
    case Checking(_, pos, turn) =>
      turn <= |s.log| && (pos == Pos(s.g, turn) || (s.closed && pos == Pos(s.g, turn) + s.g.flag))
    case Comparing(_, pos, stamp, turn, full) =>
      && turn <= |s.log| && pos == Pos(s.g, turn)
      && (stamp == pos ==> turn < Released(s) + s.g.cap)
      && (stamp < pos ==> full)
    case Writing(msg, pos, stamp, turn) => Owns(s, k, msg, pos, stamp, turn)
    case Stamping(msg, pos, stamp, turn) => Owns(s, k, msg, pos, stamp, turn)
  }

  predicate Owns(s: State, k: nat, msg: Msg, pos: nat, stamp: nat, turn: nat)
    requires Shape(s)
  {
    turn < |s.log| && s.log[turn] == msg && pos == stamp == Pos(s.g, turn) && turn in s.owner && s.owner[turn] == k
  }

  ghost predicate Pushes(s: State)
    requires Shape(s)
  {
    && (forall k :: k in s.pushes ==> PushOk(s, k, s.pushes[k]))
    && (forall n :: n in s.owner ==>
          && |s.popped| <= n < |s.log| && s.owner[n] in s.pushes
          && var p := s.pushes[s.owner[n]]; Holds(p) && p.turn == n)
  }

  predicate Consumer(s: State)
    requires Shape(s)
  {
    match s.pop
    case Resting => true
    case Probing => true
    case Taking(stamp) => stamp == s.dequeue + 1 && |s.popped| < |s.log| && |s.popped| !in s.owner
    case Borrowing(i, stamp) =>
      |s.popped| > 0 && i == Ix(s.g, |s.popped| - 1) && stamp == Pos(s.g, |s.popped| - 1 + s.g.cap)
    case Releasing(i, stamp) =>
      |s.popped| > 0 && i == Ix(s.g, |s.popped| - 1) && stamp == Pos(s.g, |s.popped| - 1 + s.g.cap)
  }

  ghost predicate Inv(s: State) {
    Shape(s) && Words(s) && Fifo(s) && Slots(s) && Pushes(s) && Consumer(s)
  }

  ghost predicate Next(s: State, s': State) {
    Valid(s.g) && exists step :: NextStep(s, s', step)
  }

  ghost predicate IsStep(run: seq<State>, i: nat)
    requires 0 < i < |run|
  {
    Next(run[i - 1], run[i])
  }

  ghost predicate IsRun(run: seq<State>) {
    && |run| > 0 && Init(run[0])
    && forall i :: 0 < i < |run| ==> IsStep(run, i)
  }

  // --- Slots -------------------------------------------------------------------

  lemma SlotAt(s: State, n: nat)
    requires Inv(s) && Released(s) <= n < Released(s) + s.g.cap
    ensures SlotOk(s, n)
  {
  }

  lemma OtherSlot(g: Geometry, m: nat, n: nat)
    requires Valid(g) && m != n && m - g.cap < n < m + g.cap
    ensures Ix(g, m) != Ix(g, n)
  {
    if m < n { IxDistinct(g, m, n); } else { IxDistinct(g, n, m); }
  }

  /** The reservation of the current round that uses the same slot as an older one. */
  lemma {:induction false} SameSlot(g: Geometry, low: nat, turn: nat) returns (n: nat)
    requires Valid(g) && turn < low
    ensures low <= n < low + g.cap && turn < n && Ix(g, n) == Ix(g, turn)
    decreases low - turn
  {
    n := turn + g.cap;
    if n < low { n := SameSlot(g, low, n); }
  }

  /** What a stamp read by a producer tells about the occupancy of the queue. */
  lemma StampTells(s: State, turn: nat)
    requires Inv(s) && turn <= |s.log|
    ensures s.stamps[Ix(s.g, turn)] == Pos(s.g, turn) ==> turn < Released(s) + s.g.cap
    ensures s.stamps[Ix(s.g, turn)] < Pos(s.g, turn) ==> IsFull(s)
  {
    var r := Released(s);
    if turn < r {
      var n := SameSlot(s.g, r, turn);
      SlotAt(s, n);
      PosIncreases(s.g, turn, n);
    } else if turn < r + s.g.cap {
      SlotAt(s, turn);
    } else {
      SlotAt(s, r);
    }
  }

  /** Slots are unaffected by a step that leaves them and their owners alone. */
  lemma SlotsFramed(s: State, s': State)
    requires Shape(s) && Slots(s)
    requires s' == s.(pushes := s'.pushes, enqueue := s'.enqueue, closed := s'.closed)
    requires forall n :: n in s.owner ==>
               (s.owner[n] in s.pushes && s.pushes[s.owner[n]].Writing? <==>
                s.owner[n] in s'.pushes && s'.pushes[s.owner[n]].Writing?)
    ensures Slots(s')
  {
    forall n | 0 <= n && Released(s') <= n < Released(s') + s'.g.cap ensures SlotOk(s', n) {
      assert SlotOk(s, n);
    }
  }

  /** Only the push `k` moves, and it does not let go of a reservation. */
  lemma PushesFramed(s: State, s': State, k: nat)
    requires Shape(s) && Shape(s') && Pushes(s)
    requires s'.g == s.g && s'.log == s.log && s'.popped == s.popped && s'.pop == s.pop && s'.owner == s.owner
    requires s'.pushes - {k} == s.pushes - {k} && (s.closed ==> s'.closed)
    requires k in s'.pushes ==> PushOk(s', k, s'.pushes[k])
    requires forall n :: n in s.owner && s.owner[n] == k ==>
               k in s'.pushes && s'.pushes[k].Stamping? && s'.pushes[k].turn == n
    ensures Pushes(s')
  {
    assert forall j :: j != k ==> (j in s'.pushes <==> j in s'.pushes - {k});
    assert forall j :: j != k ==> (j in s.pushes <==> j in s.pushes - {k});
    forall j | j in s'.pushes && j != k ensures PushOk(s', j, s'.pushes[j]) {
      assert s'.pushes[j] == (s'.pushes - {k})[j] == s.pushes[j];
      assert PushOk(s, j, s.pushes[j]);
    }
    forall n | n in s.owner && s.owner[n] != k
      ensures s.owner[n] in s'.pushes && s'.pushes[s.owner[n]] == s.pushes[s.owner[n]]
    {
      var j := s.owner[n];
      assert (s'.pushes - {k})[j] == (s.pushes - {k})[j];
    }
  }

  /** A step of the consumer that pops nothing and takes no slot away. */
  lemma PushesKept(s: State, s': State)
    requires Shape(s) && Shape(s') && Pushes(s) && Released(s) <= Released(s') && s'.closed == s.closed
    requires s'.g == s.g && s'.log == s.log && s'.popped == s.popped && s'.owner == s.owner && s'.pushes == s.pushes
    ensures Pushes(s')
  {
    forall k | k in s'.pushes ensures PushOk(s', k, s'.pushes[k]) {
      assert PushOk(s, k, s.pushes[k]);
    }
  }

  /** Positions, histories and consumer are left alone by a producer. */
  lemma RestKept(s: State, s': State)
    requires Shape(s) && Words(s) && Fifo(s) && Consumer(s)
    requires s' == s.(stamps := s'.stamps, boxes := s'.boxes, pushes := s'.pushes, owner := s'.owner)
    requires |s'.stamps| == |s'.boxes| == s.g.cap && s'.owner.Keys <= s.owner.Keys
    ensures Shape(s') && Words(s') && Fifo(s') && Consumer(s')
  {
  }

  // --- Preservation -----------------------------------------------------------

  lemma InitHolds(s: State)
    requires Init(s)
    ensures Inv(s)
  {
  }

  lemma BeginKeeps(s: State, s': State, k: nat, msg: Msg)
    requires Inv(s) && NextStep(s, s', SBegin(k, msg))
    ensures Inv(s')
  {
    SlotsFramed(s, s');
    PosFlag(s.g, |s.log|);
    PushesFramed(s, s', k);
  }

  lemma EndKeeps(s: State, k: nat)
    requires Inv(s) && k in s.pushes && !Holds(s.pushes[k])
    ensures Inv(EndPush(s, k))
  {
    SlotsFramed(s, EndPush(s, k));
    PushesFramed(s, EndPush(s, k), k);
  }

  lemma LoadKeeps(s: State, k: nat)
    requires Inv(s) && k in s.pushes && s.pushes[k].Checking? && s.pushes[k].pos == Pos(s.g, s.pushes[k].turn)
    ensures var p := s.pushes[k];
            Inv(SetPush(s, k, Comparing(p.msg, p.pos, s.stamps[Ix(s.g, p.turn)], p.turn, IsFull(s))))
  {
    var p := s.pushes[k];
    assert PushOk(s, k, p);
    StampTells(s, p.turn);
    var s' := SetPush(s, k, Comparing(p.msg, p.pos, s.stamps[Ix(s.g, p.turn)], p.turn, IsFull(s)));
    PushesFramed(s, s', k);
    SlotsFramed(s, s');
    RestKept(s, s');
  }

  lemma CheckKeeps(s: State, k: nat)
    requires Inv(s) && k in s.pushes && s.pushes[k].Checking?
    ensures var p := s.pushes[k]; Inv(PushCheck(s, k, p, p.pos != Pos(s.g, p.turn), Ix(s.g, p.turn)))
  {
    var p := s.pushes[k];
    assert PushOk(s, k, p);
    if p.pos != Pos(s.g, p.turn) { EndKeeps(s, k); } else { LoadKeeps(s, k); }
  }

  /** A compare-exchange that succeeds reserves the next slot of an open queue. */
  lemma ReserveIsNext(s: State, k: nat)
    requires Inv(s) && k in s.pushes && s.pushes[k].Comparing?
    requires s.pushes[k].stamp == s.pushes[k].pos == s.enqueue
    ensures !s.closed && s.pushes[k].turn == |s.log| < Released(s) + s.g.cap
  {
    var p := s.pushes[k];
    assert PushOk(s, k, p);
    PosFlag(s.g, p.turn);
    PosFlag(s.g, |s.log|);
    if p.turn < |s.log| { PosIncreases(s.g, p.turn, |s.log|); }
  }

  lemma ReserveSlots(s: State, k: nat)
    requires Inv(s) && k in s.pushes && s.pushes[k].Comparing? && |s.log| < Released(s) + s.g.cap
    ensures Slots(Reserve(s, k, s.pushes[k], Pos(s.g, |s.log| + 1)))
  {
    var s' := Reserve(s, k, s.pushes[k], Pos(s.g, |s.log| + 1));
    forall n | 0 <= n && Released(s') <= n < Released(s') + s'.g.cap ensures SlotOk(s', n) {
      assert SlotOk(s, n);
    }
  }

  lemma ReserveKeeps(s: State, k: nat)
    requires Inv(s) && k in s.pushes && s.pushes[k].Comparing?
    requires !s.closed && s.pushes[k].stamp == s.pushes[k].pos && s.pushes[k].turn == |s.log| < Released(s) + s.g.cap
    ensures Inv(Reserve(s, k, s.pushes[k], Pos(s.g, |s.log| + 1)))
  {
    var s' := Reserve(s, k, s.pushes[k], Pos(s.g, |s.log| + 1));
    ReserveSlots(s, k);
    assert PushOk(s, k, s.pushes[k]);
    assert Pushes(s') by {
      forall j | j in s'.pushes ensures PushOk(s', j, s'.pushes[j]) {
        if j != k { assert PushOk(s, j, s.pushes[j]); }
      }
    }
  }

  lemma ReloadKeeps(s: State, k: nat)
    requires Inv(s) && k in s.pushes && s.pushes[k].Comparing?
    ensures Inv(Reload(s, k, s.pushes[k].msg))
  {
    SlotsFramed(s, Reload(s, k, s.pushes[k].msg));
    PushesFramed(s, Reload(s, k, s.pushes[k].msg), k);
  }

  lemma WriteSlots(s: State, k: nat)
    requires Inv(s) && k in s.pushes && s.pushes[k].Writing? && PushOk(s, k, s.pushes[k])
    ensures !PushWrite(s, k, s.pushes[k], Ix(s.g, s.pushes[k].turn)).fault
    ensures Slots(PushWrite(s, k, s.pushes[k], Ix(s.g, s.pushes[k].turn)))
  {
    var p := s.pushes[k];
    SlotAt(s, p.turn);
    var s' := PushWrite(s, k, p, Ix(s.g, p.turn));
    forall n | 0 <= n && Released(s') <= n < Released(s') + s'.g.cap ensures SlotOk(s', n) {
      assert SlotOk(s, n);
      if n != p.turn { OtherSlot(s.g, p.turn, n); }
    }
  }

  lemma WritePushes(s: State, k: nat)
    requires Inv(s) && k in s.pushes && s.pushes[k].Writing? && PushOk(s, k, s.pushes[k])
    requires !PushWrite(s, k, s.pushes[k], Ix(s.g, s.pushes[k].turn)).fault
    ensures Pushes(PushWrite(s, k, s.pushes[k], Ix(s.g, s.pushes[k].turn)))
  {
    PushesFramed(s, PushWrite(s, k, s.pushes[k], Ix(s.g, s.pushes[k].turn)), k);
  }

  lemma WriteKeeps(s: State, k: nat)
    requires Inv(s) && k in s.pushes && s.pushes[k].Writing?
    ensures Inv(PushWrite(s, k, s.pushes[k], Ix(s.g, s.pushes[k].turn)))
  {
    assert PushOk(s, k, s.pushes[k]);
    WriteSlots(s, k);
    WritePushes(s, k);
    RestKept(s, PushWrite(s, k, s.pushes[k], Ix(s.g, s.pushes[k].turn)));
  }

  lemma StampSlots(s: State, k: nat)
    requires Inv(s) && k in s.pushes && s.pushes[k].Stamping? && PushOk(s, k, s.pushes[k])
    ensures Slots(PushStamp(s, k, s.pushes[k], Ix(s.g, s.pushes[k].turn)))
  {
    var p := s.pushes[k];
    SlotAt(s, p.turn);
    var s' := PushStamp(s, k, p, Ix(s.g, p.turn));
    forall n | 0 <= n && Released(s') <= n < Released(s') + s'.g.cap ensures SlotOk(s', n) {
      assert SlotOk(s, n);
      if n != p.turn { OtherSlot(s.g, p.turn, n); }
    }
  }

  lemma StampPushes(s: State, k: nat)
    requires Inv(s) && k in s.pushes && s.pushes[k].Stamping? && PushOk(s, k, s.pushes[k])
    ensures Pushes(PushStamp(s, k, s.pushes[k], Ix(s.g, s.pushes[k].turn)))
  {
    var p := s.pushes[k];
    var s' := PushStamp(s, k, p, Ix(s.g, p.turn));
    forall j | j in s'.pushes ensures PushOk(s', j, s'.pushes[j]) {
      assert PushOk(s, j, s.pushes[j]);
    }
    forall n | n in s'.owner ensures s'.owner[n] in s'.pushes {
      assert n in s.owner && s.owner[n] != k;
    }
  }

  lemma StampKeeps(s: State, k: nat)
    requires Inv(s) && k in s.pushes && s.pushes[k].Stamping?
    ensures Inv(PushStamp(s, k, s.pushes[k], Ix(s.g, s.pushes[k].turn)))
  {
    assert PushOk(s, k, s.pushes[k]);
    StampSlots(s, k);
    StampPushes(s, k);
    RestKept(s, PushStamp(s, k, s.pushes[k], Ix(s.g, s.pushes[k].turn)));
  }

  /** The consumer moves on without holding a borrow. */
  lemma SlotsUnderPop(s: State, s': State)
    requires Shape(s) && Slots(s) && s' == s.(pop := s'.pop)
    requires !s.pop.Borrowing? && !s.pop.Releasing? && !s'.pop.Borrowing? && !s'.pop.Releasing?
    ensures Slots(s')
  {
    forall n | 0 <= n && Released(s') <= n < Released(s') + s'.g.cap ensures SlotOk(s', n) {
      assert SlotOk(s, n);
    }
  }

  lemma PopLoadKeeps(s: State)
    requires Inv(s) && s.pop.Resting?
    ensures Inv(PopLoad(s, Ix(s.g, |s.popped|)))
  {
    SlotAt(s, |s.popped|);
    SlotsUnderPop(s, PopLoad(s, Ix(s.g, |s.popped|)));
    PushesKept(s, PopLoad(s, Ix(s.g, |s.popped|)));
  }

  lemma PopTakeSlots(s: State)
    requires Inv(s) && s.pop.Taking?
    ensures var s' := PopTake(s, Ix(s.g, |s.popped|), Pos(s.g, |s.popped| + 1));
            !s'.fault && Slots(s') && s'.popped == s.popped + [s.log[|s.popped|]]
  {
    var d := |s.popped|;
    SlotAt(s, d);
    var s' := PopTake(s, Ix(s.g, d), Pos(s.g, d + 1));
    forall n | 0 <= n && Released(s') <= n < Released(s') + s'.g.cap ensures SlotOk(s', n) {
      assert SlotOk(s, n);
      if n != d { OtherSlot(s.g, d, n); }
    }
  }

  lemma PopTakeKeeps(s: State)
    requires Inv(s) && s.pop.Taking?
    ensures Inv(PopTake(s, Ix(s.g, |s.popped|), Pos(s.g, |s.popped| + 1)))
  {
    PopTakeSlots(s);
    var s' := PopTake(s, Ix(s.g, |s.popped|), Pos(s.g, |s.popped| + 1));
    assert Released(s') == Released(s) && s'.log == s.log && s'.owner == s.owner && s'.pushes == s.pushes &&
        s'.g == s.g;
    assert Pushes(s') by {
      forall k | k in s'.pushes ensures PushOk(s', k, s'.pushes[k]) {
        assert PushOk(s, k, s.pushes[k]);
      }
      forall n | n in s'.owner ensures |s'.popped| <= n {
        assert n in s.owner && n != |s.popped|;
      }
    }
  }

  lemma ProbeKeeps(s: State)
    requires Inv(s) && s.pop.Probing?
    ensures Inv(s.(pop := Resting))
  {
    SlotsUnderPop(s, s.(pop := Resting));
    PushesKept(s, s.(pop := Resting));
  }

  lemma VacateKeeps(s: State)
    requires Inv(s) && s.pop.Borrowing?
    ensures Inv(DropVacate(s))
  {
    var d := |s.popped| - 1;
    var s' := DropVacate(s);
    forall n | 0 <= n && Released(s') <= n < Released(s') + s'.g.cap ensures SlotOk(s', n) {
      assert SlotOk(s, n);
      if n != d { OtherSlot(s.g, d, n); }
    }
  }

  lemma ReleasedSlot(s: State, n: nat)
    requires Inv(s) && s.pop.Releasing? && n == |s.popped| - 1 + s.g.cap
    ensures !DropRelease(s).fault && SlotOk(DropRelease(s), n)
  {
    SlotAt(s, |s.popped| - 1);
  }

  lemma UnreleasedSlot(s: State, n: nat)
    requires Inv(s) && s.pop.Releasing? && |s.popped| <= n < |s.popped| - 1 + s.g.cap
    ensures !DropRelease(s).fault && SlotOk(DropRelease(s), n)
  {
    SlotAt(s, n);
    OtherSlot(s.g, |s.popped| - 1, n);
  }

  lemma ReleaseSlots(s: State)
    requires Inv(s) && s.pop.Releasing?
    ensures Slots(DropRelease(s))
  {
    var s' := DropRelease(s);
    forall n | 0 <= n && Released(s') <= n < Released(s') + s'.g.cap ensures SlotOk(s', n) {
      if n < |s.popped| - 1 + s.g.cap { UnreleasedSlot(s, n); } else { ReleasedSlot(s, n); }
    }
  }

  lemma ReleaseKeeps(s: State)
    requires Inv(s) && s.pop.Releasing?
    ensures Inv(DropRelease(s))
  {
    ReleaseSlots(s);
    PushesKept(s, DropRelease(s));
  }

  lemma CloseKeeps(s: State)
    requires Inv(s)
    ensures Inv(Close(s))
  {
    PosFlag(s.g, |s.log|);
    SlotsFramed(s, Close(s));
  }

  // --- All steps ------------------------------------------------------------------

  lemma CheckStepKeeps(s: State, s': State, k: nat)
    requires Inv(s) && NextStep(s, s', SCheck(k))
    ensures Inv(s')
  {
    var p := s.pushes[k];
    assert PushOk(s, k, p);
    PosFlag(s.g, p.turn);
    PosIndex(s.g, p.turn);
    CheckKeeps(s, k);
  }

  lemma HolderStepKeeps(s: State, s': State, step: Step)
    requires Inv(s) && NextStep(s, s', step) && (step.SWrite? || step.SStamp?)
    ensures Inv(s')
  {
    var p := s.pushes[step.k];
    assert PushOk(s, step.k, p);
    PosIndex(s.g, p.turn);
    if step.SWrite? { WriteKeeps(s, step.k); } else { StampKeeps(s, step.k); }
  }

  lemma CompareKeeps(s: State, s': State, k: nat, weak: bool)
    requires Inv(s) && NextStep(s, s', SCompare(k, weak))
    ensures Inv(s')
  {
    var p := s.pushes[k];
    assert PushOk(s, k, p);
    PosFlag(s.g, p.turn);
    if p.stamp == p.pos == s.enqueue && !weak {
      ReserveIsNext(s, k);
      NextPosIsNext(s.g, |s.log|);
      ReserveKeeps(s, k);
    } else {
      EndKeeps(s, k);
      ReloadKeeps(s, k);
    }
  }

  lemma PopStepKeeps(s: State, s': State, step: Step)
    requires Inv(s) && NextStep(s, s', step) && (step.SPopLoad? || step.SPopTake?)
    ensures Inv(s')
  {
    PosIndex(s.g, |s.popped|);
    PosFlag(s.g, |s.popped|);
    NextPosIsNext(s.g, |s.popped|);
    if step.SPopLoad? { PopLoadKeeps(s); } else { PopTakeKeeps(s); }
  }

  lemma NextKeeps(s: State, s': State)
    requires Inv(s) && Next(s, s')
    ensures Inv(s')
  {
    var step :| NextStep(s, s', step);
    match step
    case SBegin(k, msg) => BeginKeeps(s, s', k, msg);
    case SCheck(k) => CheckStepKeeps(s, s', k);
    case SCompare(k, weak) => CompareKeeps(s, s', k, weak);
    case SPopLoad => PopStepKeeps(s, s', step);
    case SPopTake => PopStepKeeps(s, s', step);
    case SPopProbe => ProbeKeeps(s);
    case SVacate => VacateKeeps(s);
    case SRelease => ReleaseKeeps(s);
    case SClose => CloseKeeps(s);
    case _ => HolderStepKeeps(s, s', step);
  }

  lemma StepKeeps(run: seq<State>, i: nat)
    requires IsRun(run) && 0 < i < |run| && Inv(run[i - 1])
    ensures Inv(run[i])
  {
    assert IsStep(run, i);
    NextKeeps(run[i - 1], run[i]);
  }

  lemma {:induction false} RunKeeps(run: seq<State>, i: nat)
    requires IsRun(run) && i < |run|
    ensures Inv(run[i])
  {
    if i == 0 {
      InitHolds(run[0]);
    } else {
      RunKeeps(run, i - 1);
      StepKeeps(run, i);
    }
  }

  // --- Theorems over whole runs -------------------------------------------------

  /** Two parties never work on the same slot. */
  ghost predicate SlotsExclusive(s: State)
    requires Valid(s.g)
  {
    && (forall j, k :: j in s.pushes && k in s.pushes && j != k && Holds(s.pushes[j]) && Holds(s.pushes[k]) ==>
          AndRightMask(s.g, s.pushes[j].pos) != AndRightMask(s.g, s.pushes[k].pos))
    && (forall k :: k in s.pushes && Holds(s.pushes[k]) && (s.pop.Borrowing? || s.pop.Releasing?) ==>
          AndRightMask(s.g, s.pushes[k].pos) != s.pop.index)
  }

  lemma Exclusive(s: State)
    requires Inv(s)
    ensures SlotsExclusive(s)
  {
    forall k | k in s.pushes && Holds(s.pushes[k])
      ensures AndRightMask(s.g, s.pushes[k].pos) == Ix(s.g, s.pushes[k].turn)
      ensures |s.popped| <= s.pushes[k].turn < Released(s) + s.g.cap
      ensures s.pop.Borrowing? || s.pop.Releasing? ==> Ix(s.g, s.pushes[k].turn) != s.pop.index
    {
      assert PushOk(s, k, s.pushes[k]);
      PosIndex(s.g, s.pushes[k].turn);
      if s.pop.Borrowing? || s.pop.Releasing? { OtherSlot(s.g, s.pushes[k].turn, |s.popped| - 1); }
    }
    forall j, k | j in s.pushes && k in s.pushes && j != k && Holds(s.pushes[j]) && Holds(s.pushes[k])
      ensures Ix(s.g, s.pushes[j].turn) != Ix(s.g, s.pushes[k].turn)
    {
      assert PushOk(s, j, s.pushes[j]) && PushOk(s, k, s.pushes[k]);
      OtherSlot(s.g, s.pushes[j].turn, s.pushes[k].turn);
    }
  }

  /**
    In every reachable state of every interleaving, for any capacity: no
    `unreachable!`, debug assertion or bounds check has failed; messages were
    popped exactly in the order of successful reservations; at most `cap` slots
    are held; every slot has one owner; the stamp under the dequeue position of a
    consumer that holds no borrow is the position itself or one more; and the
    reported length is the number of messages reserved and not yet popped.
  */
  lemma QueueSafety(run: seq<State>, i: nat)
    requires IsRun(run) && i < |run|
    ensures var s := run[i];
            && Valid(s.g)
            && !s.fault
            && s.popped <= s.log
            && 0 <= |s.log| - Released(s) <= s.g.cap
            && SlotsExclusive(s)
            && (!s.pop.Borrowing? && !s.pop.Releasing? ==>
                  var i := AndRightMask(s.g, s.dequeue);
                  i < |s.stamps| && (s.stamps[i] == s.dequeue || s.stamps[i] == s.dequeue + 1))
            && Len(s.g, s.enqueue, s.dequeue) == |s.log| - |s.popped|
  {
    RunKeeps(run, i);
    var s := run[i];
    Exclusive(s);
    PosIndex(s.g, |s.popped|);
    LenIsExact(s.g, |s.popped|, |s.log|, s.closed);
    if !s.pop.Borrowing? && !s.pop.Releasing? { SlotAt(s, |s.popped|); }
  }

  /** What one step does to the two histories and to the closed flag. */
  predicate Grows(s: State, s': State) {
    && s'.g == s.g && s.log <= s'.log && s.popped <= s'.popped
    && (s.closed ==> s'.closed && s'.log == s.log)
  }

  lemma PushHistory(s: State, s': State, step: Step)
    requires Inv(s) && NextStep(s, s', step)
    requires step.SBegin? || step.SCheck? || step.SCompare? || step.SWrite? || step.SStamp?
    ensures Grows(s, s') && s'.popped == s.popped
  {
    match step
    case SBegin(k, msg) =>
    case SCheck(k) =>
    case SCompare(k, weak) =>
      var p := s.pushes[k];
      if p.stamp == p.pos == s.enqueue && !weak { ReserveIsNext(s, k); }
    case SWrite(k) =>
    case SStamp(k) =>
  }

  lemma TakeHistory(s: State, s': State)
    requires Valid(s.g) && NextStep(s, s', SPopTake)
    ensures Grows(s, s') && |s'.popped| <= |s.popped| + 1
  {
  }

  lemma PopHistory(s: State, s': State, step: Step)
    requires Valid(s.g) && NextStep(s, s', step)
    requires step.SPopLoad? || step.SPopProbe? || step.SVacate? || step.SRelease? || step.SClose?
    ensures Grows(s, s') && s'.popped == s.popped
  {
    match step
    case SPopLoad =>
    case SPopProbe =>
    case SVacate =>
    case SRelease =>
    case SClose =>
  }

  /** Only the step that takes a message pops one. */
  lemma OneStepHistory(s: State, s': State, step: Step)
    requires Inv(s) && NextStep(s, s', step)
    ensures Grows(s, s') && (if step.SPopTake? then |s'.popped| <= |s.popped| + 1 else s'.popped == s.popped)
  {
    if step.SBegin? || step.SCheck? || step.SCompare? || step.SWrite? || step.SStamp? {
      PushHistory(s, s', step);
    } else if step.SPopTake? {
      TakeHistory(s, s');
    } else {
      PopHistory(s, s', step);
    }
  }

  lemma StepHistory(s: State, s': State)
    requires Inv(s) && Next(s, s')
    ensures Grows(s, s')
  {
    var step :| NextStep(s, s', step);
    OneStepHistory(s, s', step);
  }

  lemma StepGrows(run: seq<State>, i: nat)
    requires IsRun(run) && 0 < i < |run| && Inv(run[i - 1])
    ensures Grows(run[i - 1], run[i])
  {
    assert IsStep(run, i);
    StepHistory(run[i - 1], run[i]);
  }

  lemma {:induction false} HistoriesGrow(run: seq<State>, i: nat, j: nat)
    requires IsRun(run) && i <= j < |run|
    ensures run[j].g == run[i].g && run[i].log <= run[j].log && run[i].popped <= run[j].popped
    ensures run[i].closed ==> run[j].closed && run[j].log == run[i].log
    decreases j
  {
    if i < j {
      HistoriesGrow(run, i, j - 1);
      RunKeeps(run, j - 1);
      StepGrows(run, j);
    }
  }

  lemma ProbeTells(s: State)
    requires Inv(s)
    ensures ProbeSaysClosed(s) <==> s.closed && s.popped == s.log
  {
    PosFlag(s.g, |s.popped|);
    PosFlag(s.g, |s.log|);
    if |s.popped| < |s.log| { PosIncreases(s.g, |s.popped|, |s.log|); }
  }

  /**
    Once `close` was called, no slot is ever reserved again; a pop reports a
    closed queue exactly when, in addition, every accepted message was popped;
    and from then on it never reports anything else.
  */
  lemma ClosedIsFinal(run: seq<State>, i: nat, j: nat)
    requires IsRun(run) && i <= j < |run|
    ensures run[i].closed ==> run[j].log == run[i].log
    ensures Valid(run[i].g) && (ProbeSaysClosed(run[i]) <==> run[i].closed && run[i].popped == run[i].log)
    ensures ProbeSaysClosed(run[i]) ==>
              Valid(run[j].g) && ProbeSaysClosed(run[j]) && !run[j].pop.Taking? && run[j].popped == run[i].popped
  {
    RunKeeps(run, i);
    RunKeeps(run, j);
    HistoriesGrow(run, i, j);
    ProbeTells(run[i]);
    ProbeTells(run[j]);
  }

  /** A message whose push has completed is taken by the next pop, closed or not. */
  lemma PopDelivers(s: State)
    requires Inv(s) && s.pop.Resting? && |s.popped| < |s.log| && |s.popped| !in s.owner
    ensures var t := PopLoad(s, AndRightMask(s.g, s.dequeue));
            && t.pop.Taking?
            && var u := PopTake(t, AndRightMask(t.g, t.dequeue), NextPos(t.g, t.dequeue));
               !u.fault && u.popped == s.popped + [s.log[|s.popped|]]
  {
    PosIndex(s.g, |s.popped|);
    SlotAt(s, |s.popped|);
  }

  /** A push that has read its stamp either read it just now or has not moved. */
  predicate ReadNow(s: State, s': State, k: nat) {
    k in s'.pushes && s'.pushes[k].Comparing? ==>
      k in s.pushes &&
      (|| s.pushes[k] == s'.pushes[k]
       || (s.pushes[k].Checking? && s.pushes[k].pos == s'.pushes[k].pos && s'.pushes[k].full == IsFull(s)))
  }

  lemma PushReads(s: State, s': State, step: Step, k: nat)
    requires Valid(s.g) && NextStep(s, s', step)
    requires step.SBegin? || step.SCheck? || step.SCompare? || step.SWrite? || step.SStamp?
    ensures ReadNow(s, s', k)
  {
    match step
    case SBegin(j, msg) =>
    case SCheck(j) =>
    case SCompare(j, weak) =>
    case SWrite(j) =>
    case SStamp(j) =>
  }

  lemma PopReads(s: State, s': State, step: Step, k: nat)
    requires Valid(s.g) && NextStep(s, s', step)
    requires step.SPopLoad? || step.SPopTake? || step.SPopProbe? || step.SVacate? || step.SRelease? || step.SClose?
    ensures ReadNow(s, s', k)
  {
    match step
    case SPopLoad =>
    case SPopTake =>
    case SPopProbe =>
    case SVacate =>
    case SRelease =>
    case SClose =>
  }

  lemma NextReads(s: State, s': State, k: nat)
    requires Next(s, s')
    ensures ReadNow(s, s', k)
  {
    var step :| NextStep(s, s', step);
    if step.SBegin? || step.SCheck? || step.SCompare? || step.SWrite? || step.SStamp? {
      PushReads(s, s', step, k);
    } else {
      PopReads(s, s', step, k);
    }
  }

  lemma LowStampIsFull(run: seq<State>, i: nat, k: nat)
    requires IsRun(run) && i < |run|
    requires k in run[i].pushes && run[i].pushes[k].Comparing? && run[i].pushes[k].stamp < run[i].pushes[k].pos
    ensures i > 0 && run[i].pushes[k].full
  {
    RunKeeps(run, i);
    assert PushOk(run[i], k, run[i].pushes[k]);
  }

  lemma {:induction false} StampReadAt(run: seq<State>, i: nat, k: nat) returns (j: nat)
    requires i < |run| && k !in run[0].pushes && k in run[i].pushes && run[i].pushes[k].Comparing?
    requires forall m :: 0 < m <= i ==> ReadNow(run[m - 1], run[m], k)
    ensures j < i && k in run[j].pushes && run[j].pushes[k].Checking?
    ensures run[j].pushes[k].pos == run[i].pushes[k].pos && run[i].pushes[k].full == IsFull(run[j])
    ensures forall m :: j < m <= i ==> k in run[m].pushes && run[m].pushes[k] == run[i].pushes[k]
  {
    assert ReadNow(run[i - 1], run[i], k);
    j := i - 1;
    if run[j].pushes[k] == run[i].pushes[k] { j := StampReadAt(run, i - 1, k); }
  }

  /** A push reports a full queue only if every slot was held when it read the stamp. */
  lemma FullWasFull(run: seq<State>, i: nat, k: nat) returns (j: nat)
    requires IsRun(run) && i < |run|
    requires k in run[i].pushes && run[i].pushes[k].Comparing? && run[i].pushes[k].stamp < run[i].pushes[k].pos
    ensures j < i && k in run[j].pushes && run[j].pushes[k].Checking?
    ensures run[j].pushes[k].pos == run[i].pushes[k].pos && IsFull(run[j])
    ensures forall m :: j < m <= i ==> k in run[m].pushes && run[m].pushes[k] == run[i].pushes[k]
  {
    LowStampIsFull(run, i, k);
    forall m | 0 < m <= i ensures ReadNow(run[m - 1], run[m], k) {
      assert IsStep(run, m);
      NextReads(run[m - 1], run[m], k);
    }
    j := StampReadAt(run, i, k);
  }

  // --- Why a push ends ------------------------------------------------------------------------

  /** The push `k` leaves in this step without having reserved a slot. */
  predicate GivesUp(s: State, s': State, k: nat) { k in s.pushes && !Holds(s.pushes[k]) && k !in s'.pushes }

  /** It has read a closed position, or a stamp below its position. */
  predicate HasCause(s: State, k: nat)
    requires Valid(s.g) && k in s.pushes
  {
    var p := s.pushes[k];
    (p.Checking? && HasFlag(s.g, p.pos)) || (p.Comparing? && p.stamp < p.pos)
  }

  lemma GivingUpHasCause(s: State, s': State, step: Step, k: nat)
    requires Valid(s.g) && NextStep(s, s', step) && GivesUp(s, s', k)
    ensures HasCause(s, k)
  {
    match step
    case SBegin(j, msg) =>
    case SCheck(j) =>
    case SCompare(j, weak) =>
    case SWrite(j) =>
    case SStamp(j) =>
    case SPopLoad =>
    case SPopTake =>
    case SPopProbe =>
    case SVacate =>
    case SRelease =>
    case SClose =>
  }

  lemma FlagMeansClosed(s: State, k: nat)
    requires Inv(s) && k in s.pushes && s.pushes[k].Checking? && HasFlag(s.g, s.pushes[k].pos)
    ensures s.closed
  {
    assert PushOk(s, k, s.pushes[k]);
    PosFlag(s.g, s.pushes[k].turn);
  }

  /** The push `k` of `run[i]` read its stamp in `run[j]`, when all slots were held, and has not looked again. */
  ghost predicate FoundFull(run: seq<State>, i: nat, j: nat, k: nat)
    requires i < |run| && k in run[i].pushes
  {
    && j < i && k in run[j].pushes && run[j].pushes[k].Checking? && run[j].pushes[k].pos == run[i].pushes[k].pos
    && IsFull(run[j]) && forall m :: j < m <= i ==> k in run[m].pushes && run[m].pushes[k] == run[i].pushes[k]
  }

  /**
    A push that ends without a slot had read the position of a closed queue, or had found all
    slots held; after a lost race it tries again.
  */
  lemma PushGivesUp(run: seq<State>, i: nat, k: nat)
    requires IsRun(run) && i + 1 < |run| && GivesUp(run[i], run[i + 1], k)
    ensures var s := run[i];
            || (s.pushes[k].Checking? && s.closed && Valid(s.g) && HasFlag(s.g, s.pushes[k].pos))
            || exists j :: FoundFull(run, i, j, k)
  {
    RunKeeps(run, i);
    assert IsStep(run, i + 1);
    var step :| NextStep(run[i], run[i + 1], step);
    GivingUpHasCause(run[i], run[i + 1], step, k);
    if run[i].pushes[k].Checking? {
      FlagMeansClosed(run[i], k);
    } else {
      var j := FullWasFull(run, i, k);
      assert FoundFull(run, i, j, k);
    }
  }

  // --- A push that nobody disturbs --------------------------------------------------------------

  /** The stamp under the next position tells whether there is a free slot. */
  lemma NextStamp(s: State)
    requires Inv(s)
    ensures var stamp := s.stamps[Ix(s.g, |s.log|)];
            if IsFull(s) then stamp < Pos(s.g, |s.log|) else stamp == Pos(s.g, |s.log|)
  {
    if IsFull(s) {
      SlotAt(s, Released(s));
    } else {
      SlotAt(s, |s.log|);
    }
  }

  lemma PushLooks(s: State, k: nat, msg: Msg) returns (s1: State, s2: State)
    requires Inv(s) && k !in s.pushes && !s.closed
    ensures NextStep(s, s1, SBegin(k, msg)) && s1.g == s.g && NextStep(s1, s2, SCheck(k))
    ensures s2 == SetPush(s, k, Comparing(msg, s.enqueue, s.stamps[Ix(s.g, |s.log|)], |s.log|, IsFull(s)))
  {
    PosFlag(s.g, |s.log|);
    PosIndex(s.g, |s.log|);
    s1 := PushBegin(s, k, msg);
    s2 := PushCheck(s1, k, s1.pushes[k], false, Ix(s.g, |s.log|));
  }

  /** In an open queue it reserves the next slot if one is free, and else gives up at once. */
  lemma PushReserves(s: State, k: nat, msg: Msg) returns (s1: State, s2: State, s3: State)
    requires Inv(s) && k !in s.pushes && !s.closed
    ensures NextStep(s, s1, SBegin(k, msg)) && s1.g == s.g && NextStep(s1, s2, SCheck(k))
    ensures s2.g == s.g && NextStep(s2, s3, SCompare(k, false))
    ensures if IsFull(s) then s3 == s
            else s3.log == s.log + [msg] && k in s3.pushes && s3.pushes[k].Writing? && s3.pushes[k].turn == |s.log|
  {
    s1, s2 := PushLooks(s, k, msg);
    PosFlag(s.g, |s.log|);
    NextStamp(s);
    s3 := PushCompare(s2, k, s2.pushes[k], false);
    if IsFull(s) { assert s3.pushes == s.pushes; }
  }

  /** In a closed queue it ends at once. */
  lemma PushIsRejected(s: State, k: nat, msg: Msg) returns (s1: State)
    requires Inv(s) && k !in s.pushes && s.closed
    ensures NextStep(s, s1, SBegin(k, msg)) && s1.g == s.g && NextStep(s1, s, SCheck(k))
  {
    PosFlag(s.g, |s.log|);
    s1 := PushBegin(s, k, msg);
    assert EndPush(s1, k).pushes == s.pushes;
  }

  /** A reserved slot is filled and stamped, and then a pop can take the message. */
  lemma PushFills(s: State, k: nat) returns (s1: State, s2: State)
    requires Inv(s) && k in s.pushes && s.pushes[k].Writing?
    ensures NextStep(s, s1, SWrite(k)) && s1.g == s.g && NextStep(s1, s2, SStamp(k)) && Inv(s2)
    ensures k !in s2.pushes && s2.owner == s.owner - {s.pushes[k].turn} && s2.log == s.log && s2.popped == s.popped
  {
    var p := s.pushes[k];
    assert PushOk(s, k, p);
    PosIndex(s.g, p.turn);
    WriteSlots(s, k);
    s1 := PushWrite(s, k, p, AndRightMask(s.g, p.pos));
    HolderStepKeeps(s, s1, SWrite(k));
    s2 := PushStamp(s1, k, s1.pushes[k], AndRightMask(s.g, p.pos));
    HolderStepKeeps(s1, s2, SStamp(k));
  }

  // --- A pop that nobody disturbs ---------------------------------------------------------------

  /** A pop finds nothing exactly if all completed pushes have been popped. */
  lemma PopFindsNothing(s: State, s': State)
    requires Inv(s) && NextStep(s, s', SPopLoad)
    ensures if |s.popped| == |s.log| || |s.popped| in s.owner then s'.pop == Probing else s'.pop.Taking?
  {
    PosIndex(s.g, |s.popped|);
    SlotAt(s, |s.popped|);
  }

  /** Dropping the borrow of a message hands its slot back to the producers. */
  lemma BorrowReturns(s: State) returns (s1: State, s2: State)
    requires Inv(s) && s.pop.Borrowing?
    ensures NextStep(s, s1, SVacate) && s1.g == s.g && NextStep(s1, s2, SRelease)
    ensures s2.pop == Resting && Released(s2) == Released(s) + 1 && !IsFull(s2)
  {
    s1 := DropVacate(s);
    s2 := DropRelease(s1);
  }
}
