/**
  The single-value overwriting buffer: two slots, the index of the one that holds the
  latest value, and a lock word with a writer bit and a reader bit for each slot.

  Any number of writers and readers; each load, each `fetch_or`, each store and each
  access to a slot is one step.  Every write attempt carries a value of its own.
*/
module SharedCell {
  import opened Wrappers

  type SlotIdx = i: nat | i < 2

  datatype Lock = Lock(writer: bool, reader: bool)

  const FREE: Lock := Lock(false, false)

  datatype Outcome = NoneYet | Succeeded | Failed

  datatype WriterPc =
    | WIdle
    | WLoaded(i: SlotIdx)
    | WSecond(i: SlotIdx)
    | WWriting(i: SlotIdx, second: bool)
    | WPublishing(i: SlotIdx)
    | WUnlocking(i: SlotIdx)

  /** `met` records whether another write was in progress at some moment of this one. */
  datatype Writer = Writer(pc: WriterPc, value: nat, met: bool, outcome: Outcome)

  datatype ReaderPc =
    | RIdle
    | RLoaded(i: SlotIdx)
    | RTaking(i: SlotIdx)
    | RUnlocking(i: SlotIdx)

  /**
    `clean` records that no write was in progress during this read, `expected` the last
    value written and not yet taken when it began.
  */
  datatype Reader = Reader(pc: ReaderPc, clean: bool, expected: Option<nat>, result: Option<nat>)

  datatype Holder = ByWriter(n: nat) | ByReader(n: nat)

  /**
    History: who acquired each slot, the number of the last value issued, the last value
    committed, the values taken.
  */
  datatype State = State(
    slots: seq<Option<nat>>,
    idx: SlotIdx,
    locks: seq<Lock>,
    writers: seq<Writer>,
    readers: seq<Reader>,
    owners: seq<Option<Holder>>,
    issued: nat,
    written: nat,
    taken: set<nat>)

  ghost predicate Init(s: State) {
    && s.slots == [None, None] && s.idx == 0 && s.locks == [FREE, FREE]
    && (forall n :: 0 <= n < |s.writers| ==> s.writers[n] == Writer(WIdle, 0, false, NoneYet))
    && (forall n :: 0 <= n < |s.readers| ==> s.readers[n] == Reader(RIdle, false, None, None))
    && s.owners == [None, None] && s.issued == 0 && s.written == 0 && s.taken == {}
  }

  // --- Steps --------------------------------------------------------------------------------

  predicate Other(n: nat, w: Writer, k: nat) { k != n && !w.pc.WIdle? }

  predicate IsWriter(s: State, n: nat) { n < |s.writers| }

  predicate IsReader(s: State, n: nat) { n < |s.readers| }

  predicate WellSized(s: State) { |s.slots| == 2 && |s.locks| == 2 && |s.owners| == 2 }

  /** The last value written, unless it was taken. */
  function Latest(s: State): Option<nat> {
    if s.written == 0 || s.written in s.taken then None else Some(s.written)
  }

  predicate AnyWriting(ws: seq<Writer>) { exists k :: 0 <= k < |ws| && !ws[k].pc.WIdle? }

  predicate OthersWriting(ws: seq<Writer>, n: nat) { exists k :: 0 <= k < |ws| && Other(n, ws[k], k) }

  /** A new write is noticed by the writes in progress. */
  function Noticed(ws: seq<Writer>): seq<Writer> {
    seq(|ws|, k requires 0 <= k < |ws| => if ws[k].pc.WIdle? then ws[k] else ws[k].(met := true))
  }

  /** A new write spoils the reads in progress. */
  function Spoiled(rs: seq<Reader>): seq<Reader> {
    seq(|rs|, k requires 0 <= k < |rs| => rs[k].(clean := false))
  }

  function SetWriter(s: State, n: nat, w: Writer): State
    requires IsWriter(s, n)
  {
    s.(writers := s.writers[n := w])
  }

  function WAt(s: State, n: nat, pc: WriterPc): State
    requires IsWriter(s, n)
  {
    SetWriter(s, n, s.writers[n].(pc := pc))
  }

  function WDone(s: State, n: nat, outcome: Outcome): State
    requires IsWriter(s, n)
  {
    SetWriter(s, n, s.writers[n].(pc := WIdle, outcome := outcome))
  }

  function RAt(s: State, n: nat, pc: ReaderPc): State
    requires IsReader(s, n)
  {
    s.(readers := s.readers[n := s.readers[n].(pc := pc)])
  }

  function StartWrite(s: State, n: nat): State
    requires IsWriter(s, n)
  {
    var w := Writer(WLoaded(s.idx), s.issued + 1, OthersWriting(s.writers, n), NoneYet);
    s.(writers := Noticed(s.writers)[n := w], readers := Spoiled(s.readers), issued := s.issued + 1)
  }

  function LockFirst(s: State, n: nat, i: SlotIdx): State
    requires IsWriter(s, n) && WellSized(s)
  {
    var was := s.locks[i];
    var s := s.(locks := s.locks[i := was.(writer := true)]);
    if was == FREE then WAt(s, n, WWriting(i, false)).(owners := s.owners[i := Some(ByWriter(n))])
    else if was == Lock(true, false) then WDone(s, n, Failed)
    else WAt(s, n, WSecond(1 - i))
  }

  function LockSecond(s: State, n: nat, i: SlotIdx): State
    requires IsWriter(s, n) && WellSized(s)
  {
    var was := s.locks[i];
    var s := s.(locks := s.locks[i := was.(writer := true)]);
    if was == FREE then WAt(s, n, WWriting(i, true)).(owners := s.owners[i := Some(ByWriter(n))])
    else WDone(s, n, Failed)
  }

  function StoreValue(s: State, n: nat, i: SlotIdx, second: bool): State
    requires IsWriter(s, n) && WellSized(s)
  {
    var v := s.writers[n].value;
    var s := s.(slots := s.slots[i := Some(v)]);
    if second then WAt(s, n, WPublishing(i)) else WAt(s, n, WUnlocking(i)).(written := v)
  }

  function Publish(s: State, n: nat, i: SlotIdx): State
    requires IsWriter(s, n)
  {
    WAt(s, n, WUnlocking(i)).(idx := i, written := s.writers[n].value)
  }

  function UnlockWrite(s: State, n: nat, i: SlotIdx): State
    requires IsWriter(s, n) && WellSized(s)
  {
    WDone(s, n, Succeeded).(locks := s.locks[i := FREE], owners := s.owners[i := None])
  }

  function StartRead(s: State, n: nat): State
    requires IsReader(s, n)
  {
    s.(readers := s.readers[n := Reader(RLoaded(s.idx), !AnyWriting(s.writers), Latest(s), None)])
  }

  function LockRead(s: State, n: nat, i: SlotIdx): State
    requires IsReader(s, n) && WellSized(s)
  {
    var was := s.locks[i];
    var s := s.(locks := s.locks[i := was.(reader := true)]);
    if was == FREE then RAt(s, n, RTaking(i)).(owners := s.owners[i := Some(ByReader(n))]) else RAt(s, n, RIdle)
  }

  function TakeValue(s: State, n: nat, i: SlotIdx): State
    requires IsReader(s, n) && WellSized(s)
  {
    var v := s.slots[i];
    s.(slots := s.slots[i := None], taken := if v.Some? then s.taken + {v.value} else s.taken,
       readers := s.readers[n := s.readers[n].(pc := RUnlocking(i), result := v)])
  }

  function UnlockRead(s: State, n: nat, i: SlotIdx): State
    requires IsReader(s, n) && WellSized(s)
  {
    RAt(s, n, RIdle).(locks := s.locks[i := FREE], owners := s.owners[i := None])
  }

  datatype Step =
    | WStart(n: nat) | WFirst(n: nat) | WOther(n: nat) | WStore(n: nat) | WPublish(n: nat) | WUnlock(n: nat)
    | RStart(n: nat) | RLock(n: nat) | RTake(n: nat) | RUnlock(n: nat)

  predicate WriterStep(step: Step) {
    step.WStart? || step.WFirst? || step.WOther? || step.WStore? || step.WPublish? || step.WUnlock?
  }

  predicate NextStep(s: State, s': State, step: Step) {
    WellSized(s) &&
    if WriterStep(step) then IsWriter(s, step.n) && WriterNext(s, s', step)
    else IsReader(s, step.n) && ReaderNext(s, s', step)
  }

  predicate WriterNext(s: State, s': State, step: Step)
    requires WellSized(s) && IsWriter(s, step.n) && WriterStep(step)
  {
    var n, pc := step.n, s.writers[step.n].pc;
    match step
    case WStart(_) => pc.WIdle? && s' == StartWrite(s, n)
    case WFirst(_) => pc.WLoaded? && s' == LockFirst(s, n, pc.i)
    case WOther(_) => pc.WSecond? && s' == LockSecond(s, n, pc.i)
    case WStore(_) => pc.WWriting? && s' == StoreValue(s, n, pc.i, pc.second)
    case WPublish(_) => pc.WPublishing? && s' == Publish(s, n, pc.i)
    case WUnlock(_) => pc.WUnlocking? && s' == UnlockWrite(s, n, pc.i)
  }

  predicate ReaderNext(s: State, s': State, step: Step)
    requires WellSized(s) && IsReader(s, step.n) && !WriterStep(step)
  {
    var n, pc := step.n, s.readers[step.n].pc;
    match step
    case RStart(_) => pc.RIdle? && s' == StartRead(s, n)
    case RLock(_) => pc.RLoaded? && s' == LockRead(s, n, pc.i)
    case RTake(_) => pc.RTaking? && s' == TakeValue(s, n, pc.i)
    case RUnlock(_) => pc.RUnlocking? && s' == UnlockRead(s, n, pc.i)
  }

  ghost predicate IsRun(run: seq<State>, steps: seq<Step>) {
    && |run| == |steps| + 1 && Init(run[0])
    && forall i {:trigger steps[i]} :: 0 <= i < |steps| ==> NextStep(run[i], run[i + 1], steps[i])
  }

  // --- Exclusion: any number of writers and readers ----------------------------------------------

  predicate WHolds(w: Writer, i: SlotIdx) { (w.pc.WWriting? || w.pc.WPublishing? || w.pc.WUnlocking?) && w.pc.i == i }

  predicate RHolds(r: Reader, i: SlotIdx) { (r.pc.RTaking? || r.pc.RUnlocking?) && r.pc.i == i }

  /** The holder of a slot is the one that acquired it; the lock word is zero exactly if there is none. */
  ghost predicate SlotOk(s: State, i: SlotIdx)
    requires WellSized(s)
  {
    && (s.owners[i].None? <==> s.locks[i] == FREE)
    && (s.owners[i].Some? ==>
          if s.owners[i].value.ByWriter? then s.locks[i].writer && s.owners[i].value.n < |s.writers|
          else s.locks[i].reader && s.owners[i].value.n < |s.readers|)
  }

  predicate WOwns(s: State, n: nat, i: SlotIdx)
    requires WellSized(s) && IsWriter(s, n)
  {
    WHolds(s.writers[n], i) <==> s.owners[i] == Some(ByWriter(n))
  }

  predicate ROwns(s: State, n: nat, i: SlotIdx)
    requires WellSized(s) && IsReader(s, n)
  {
    RHolds(s.readers[n], i) <==> s.owners[i] == Some(ByReader(n))
  }

  ghost predicate Exclusive(s: State) {
    && WellSized(s) && SlotOk(s, 0) && SlotOk(s, 1)
    && (forall n {:trigger WOwns(s, n, 0)} :: 0 <= n < |s.writers| ==> WOwns(s, n, 0) && WOwns(s, n, 1))
    && (forall n {:trigger ROwns(s, n, 0)} :: 0 <= n < |s.readers| ==> ROwns(s, n, 0) && ROwns(s, n, 1))
  }

  ghost predicate SlotsOk(s: State) { WellSized(s) && SlotOk(s, 0) && SlotOk(s, 1) }

  lemma SlotsAfterFirst(s: State, n: nat, i: SlotIdx)
    requires SlotsOk(s) && IsWriter(s, n)
    ensures SlotsOk(LockFirst(s, n, i))
  {
  }

  lemma SlotsAfterSecond(s: State, n: nat, i: SlotIdx)
    requires SlotsOk(s) && IsWriter(s, n)
    ensures SlotsOk(LockSecond(s, n, i))
  {
  }

  lemma WriterSlots(s: State, s': State, step: Step)
    requires Exclusive(s) && NextStep(s, s', step) && WriterStep(step)
    ensures SlotsOk(s') && |s'.writers| == |s.writers| && |s'.readers| == |s.readers|
  {
    match step
    case WStart(_) =>
    case WFirst(n) => SlotsAfterFirst(s, n, s.writers[n].pc.i);
    case WOther(n) => SlotsAfterSecond(s, n, s.writers[n].pc.i);
    case WStore(_) =>
    case WPublish(_) =>
    case WUnlock(_) =>
  }

  lemma ReaderSlots(s: State, s': State, step: Step)
    requires Exclusive(s) && NextStep(s, s', step) && !WriterStep(step)
    ensures WellSized(s') && SlotOk(s', 0) && SlotOk(s', 1)
    ensures |s'.writers| == |s.writers| && |s'.readers| == |s.readers|
  {
    assert ROwns(s, step.n, 0);
  }

  lemma WriterOwnsAfterLock(s: State, s': State, step: Step, n: nat)
    requires Exclusive(s) && NextStep(s, s', step) && (step.WFirst? || step.WOther?) && WellSized(s')
    requires n < |s.writers| == |s'.writers|
    ensures WOwns(s', n, 0) && WOwns(s', n, 1)
  {
    assert WOwns(s, n, 0) && WOwns(s, n, 1) && WOwns(s, step.n, 0) && WOwns(s, step.n, 1);
  }

  lemma WriterOwnsAfterWrite(s: State, s': State, step: Step, n: nat)
    requires Exclusive(s) && NextStep(s, s', step) && WriterStep(step) && WellSized(s')
    requires n < |s.writers| == |s'.writers|
    ensures WOwns(s', n, 0) && WOwns(s', n, 1)
  {
    if step.WFirst? || step.WOther? {
      WriterOwnsAfterLock(s, s', step, n);
    } else {
      assert WOwns(s, n, 0) && WOwns(s, n, 1) && WOwns(s, step.n, 0) && WOwns(s, step.n, 1);
    }
  }

  lemma WriterOwnsAfterRead(s: State, s': State, step: Step, n: nat)
    requires Exclusive(s) && NextStep(s, s', step) && !WriterStep(step) && WellSized(s')
    requires n < |s.writers| == |s'.writers|
    ensures WOwns(s', n, 0) && WOwns(s', n, 1)
  {
    assert WOwns(s, n, 0) && WOwns(s, n, 1) && ROwns(s, step.n, 0) && ROwns(s, step.n, 1);
  }

  lemma ReaderOwnsAfterWrite(s: State, s': State, step: Step, n: nat)
    requires Exclusive(s) && NextStep(s, s', step) && WriterStep(step) && WellSized(s')
    requires n < |s.readers| == |s'.readers|
    ensures ROwns(s', n, 0) && ROwns(s', n, 1)
  {
    assert ROwns(s, n, 0) && ROwns(s, n, 1) && WOwns(s, step.n, 0) && WOwns(s, step.n, 1);
  }

  lemma ReaderOwnsAfterRead(s: State, s': State, step: Step, n: nat)
    requires Exclusive(s) && NextStep(s, s', step) && !WriterStep(step) && WellSized(s')
    requires n < |s.readers| == |s'.readers|
    ensures ROwns(s', n, 0) && ROwns(s', n, 1)
  {
    assert ROwns(s, n, 0) && ROwns(s, n, 1) && ROwns(s, step.n, 0) && ROwns(s, step.n, 1);
  }

  lemma ExclusionKept(s: State, s': State, step: Step)
    requires Exclusive(s) && NextStep(s, s', step)
    ensures Exclusive(s')
  {
    if WriterStep(step) { WriterSlots(s, s', step); } else { ReaderSlots(s, s', step); }
    forall n | 0 <= n < |s'.writers| ensures WOwns(s', n, 0) && WOwns(s', n, 1) {
      if WriterStep(step) { WriterOwnsAfterWrite(s, s', step, n); } else { WriterOwnsAfterRead(s, s', step, n); }
    }
    forall n | 0 <= n < |s'.readers| ensures ROwns(s', n, 0) && ROwns(s', n, 1) {
      if WriterStep(step) { ReaderOwnsAfterWrite(s, s', step, n); } else { ReaderOwnsAfterRead(s, s', step, n); }
    }
  }

  lemma {:induction false} ExclusionInRuns(run: seq<State>, steps: seq<Step>, k: nat)
    requires IsRun(run, steps) && k < |run|
    ensures Exclusive(run[k])
  {
    if k == 0 {
      forall n | 0 <= n < |run[0].writers| ensures WOwns(run[0], n, 0) && WOwns(run[0], n, 1) { }
      forall n | 0 <= n < |run[0].readers| ensures ROwns(run[0], n, 0) && ROwns(run[0], n, 1) { }
    } else {
      ExclusionInRuns(run, steps, k - 1);
      ExclusionKept(run[k - 1], run[k], steps[k - 1]);
    }
  }

  predicate Holds(s: State, a: Holder, i: SlotIdx) {
    match a
    case ByWriter(n) => n < |s.writers| && WHolds(s.writers[n], i)
    case ByReader(n) => n < |s.readers| && RHolds(s.readers[n], i)
  }

  lemma WriterOwns(s: State, n: nat, i: SlotIdx)
    requires Exclusive(s) && n < |s.writers|
    ensures WOwns(s, n, i)
  {
    assert WOwns(s, n, 0) && WOwns(s, n, 1);
    assert i == 0 || i == 1;
  }

  lemma ReaderOwns(s: State, n: nat, i: SlotIdx)
    requires Exclusive(s) && n < |s.readers|
    ensures ROwns(s, n, i)
  {
    assert ROwns(s, n, 0) && ROwns(s, n, 1);
    assert i == 0 || i == 1;
  }

  lemma OwnerHolds(s: State, i: SlotIdx)
    requires Exclusive(s) && s.owners[i].Some?
    ensures Holds(s, s.owners[i].value, i)
  {
    assert SlotOk(s, i);
    var a := s.owners[i].value;
    if a.ByWriter? { WriterOwns(s, a.n, i); } else { ReaderOwns(s, a.n, i); }
  }

  lemma HolderOwns(s: State, a: Holder, i: SlotIdx)
    requires Exclusive(s) && Holds(s, a, i)
    ensures s.owners[i] == Some(a)
  {
    if a.ByWriter? { WriterOwns(s, a.n, i); } else { ReaderOwns(s, a.n, i); }
  }

  /** No two operations are ever between acquiring and releasing the same slot. */
  lemma OneHolder(run: seq<State>, steps: seq<Step>, k: nat, i: SlotIdx, a: Holder, b: Holder)
    requires IsRun(run, steps) && k < |run| && Holds(run[k], a, i) && Holds(run[k], b, i)
    ensures a == b
  {
    ExclusionInRuns(run, steps, k);
    HolderOwns(run[k], a, i);
    HolderOwns(run[k], b, i);
  }

  // --- One reader: a write fails only if another one succeeds -------------------------------------

  predicate HoldsAny(w: Writer) { WHolds(w, 0) || WHolds(w, 1) }

  /** Writer `n` is in the middle of a write while writer `m` holds a slot. */
  predicate Rivals(s: State, n: nat, m: nat) {
    n < |s.writers| && m < |s.writers| && n != m && !s.writers[n].pc.WIdle? && HoldsAny(s.writers[m])
  }

  /** Up to `run[k]`, no other write has held a slot during the current write of `n`, the one of the value `v`. */
  ghost predicate Unrivalled(run: seq<State>, k: nat, n: nat, v: nat)
    requires k < |run|
  {
    forall j, m :: 0 <= j <= k && Rivals(run[j], n, m) ==> run[j].writers[n].value != v
  }

  /** A write that no other one rivals sees the index unchanged, and the reader only on its way to that slot. */
  predicate SeesOneSlot(s: State, n: nat)
    requires IsWriter(s, n) && IsReader(s, 0)
  {
    var pc := s.writers[n].pc;
    && (pc.WLoaded? ==> s.idx == pc.i)
    && (pc.WSecond? ==> s.idx == 1 - pc.i && !RHolds(s.readers[0], pc.i) && s.readers[0].pc != RLoaded(pc.i))
  }

  /** The slot that such a write finds locked is held by the reader. */
  lemma LockedByReader(s: State, n: nat, i: SlotIdx)
    requires Exclusive(s) && |s.readers| == 1 && n < |s.writers| && (forall m :: !Rivals(s, n, m))
    requires !s.writers[n].pc.WIdle? && !HoldsAny(s.writers[n]) && s.locks[i] != FREE
    ensures s.locks[i].reader && RHolds(s.readers[0], i)
  {
    assert SlotOk(s, i);
    OwnerHolds(s, i);
    var t := Rivals(s, n, s.owners[i].value.n);
  }

  lemma SeesOwnStep(s: State, s': State, step: Step)
    requires Exclusive(s) && |s.readers| == 1 && NextStep(s, s', step) && WriterStep(step)
    requires SeesOneSlot(s, step.n) && (forall m :: !Rivals(s, step.n, m))
    requires |s'.writers| == |s.writers| && |s'.readers| == 1
    ensures SeesOneSlot(s', step.n)
  {
    var n := step.n;
    if step.WFirst? && s.locks[s.writers[n].pc.i] != FREE { LockedByReader(s, n, s.writers[n].pc.i); }
  }

  lemma SeesOtherStep(s: State, s': State, step: Step, n: nat)
    requires |s.readers| == 1 && n < |s.writers| && NextStep(s, s', step) && (WriterStep(step) ==> step.n != n)
    requires SeesOneSlot(s, n) && !s.writers[n].pc.WIdle? && (forall m :: !Rivals(s, n, m))
    requires |s'.writers| == |s.writers| && |s'.readers| == 1
    ensures SeesOneSlot(s', n)
  {
    if WriterStep(step) { assert !Rivals(s, n, step.n); }
  }

  /** A write in progress has just begun, or was the same one before the step. */
  lemma SameWrite(s: State, s': State, step: Step, n: nat)
    requires Exclusive(s) && NextStep(s, s', step) && n < |s.writers| && step != WStart(n)
    ensures |s'.writers| == |s.writers| && |s'.readers| == |s.readers| && s'.writers[n].value == s.writers[n].value
    ensures !s'.writers[n].pc.WIdle? ==> !s.writers[n].pc.WIdle?
  {
  }

  lemma SeesNextSlot(s: State, s': State, step: Step, n: nat)
    requires Exclusive(s) && |s.readers| == 1 && NextStep(s, s', step) && n < |s.writers| && step != WStart(n)
    requires SeesOneSlot(s, n) && !s.writers[n].pc.WIdle? && (forall m :: !Rivals(s, n, m))
    ensures n < |s'.writers| && |s'.readers| == 1 && SeesOneSlot(s', n)
  {
    SameWrite(s, s', step, n);
    if WriterStep(step) && step.n == n { SeesOwnStep(s, s', step); } else { SeesOtherStep(s, s', step, n); }
  }

  lemma UnrivalledNow(run: seq<State>, k: nat, n: nat, v: nat)
    requires k < |run| && Unrivalled(run, k, n, v) && n < |run[k].writers| && run[k].writers[n].value == v
    ensures forall m :: !Rivals(run[k], n, m)
  {
  }

  lemma {:induction false} SeesInRuns(run: seq<State>, steps: seq<Step>, k: nat, n: nat)
    requires IsRun(run, steps) && k < |run| && |run[0].readers| == 1 && n < |run[0].writers|
    ensures |run[k].readers| == 1 && n < |run[k].writers|
    ensures !run[k].writers[n].pc.WIdle? && Unrivalled(run, k, n, run[k].writers[n].value) ==> SeesOneSlot(run[k], n)
  {
    if k > 0 {
      SeesInRuns(run, steps, k - 1, n);
      ExclusionInRuns(run, steps, k - 1);
      var s, s', step := run[k - 1], run[k], steps[k - 1];
      if step != WStart(n) {
        SameWrite(s, s', step, n);
        var v := s'.writers[n].value;
        if !s'.writers[n].pc.WIdle? && Unrivalled(run, k, n, v) {
          UnrivalledNow(run, k - 1, n, v);
          SeesNextSlot(s, s', step, n);
        }
      }
    }
  }

  /** Up to `run[k]`, some other write has held a slot during the write of the value `v` by `n`. */
  ghost predicate Rivalled(run: seq<State>, k: nat, n: nat, v: nat)
    requires k < |run|
  {
    exists j, m :: 0 <= j <= k && Rivals(run[j], n, m) && run[j].writers[n].value == v
  }

  /** The step that makes a write fail. */
  lemma FailingStep(run: seq<State>, steps: seq<Step>, k: nat, n: nat)
    requires IsRun(run, steps) && k < |steps| && |run[0].readers| == 1 && n < |run[0].writers|
    requires (steps[k] == WFirst(n) || steps[k] == WOther(n))
    requires n < |run[k].writers| && n < |run[k + 1].writers| && run[k + 1].writers[n].outcome.Failed?
    requires !run[k].writers[n].outcome.Failed?
    ensures Rivalled(run, k, n, run[k].writers[n].value)
  {
    var s := run[k];
    var i, v := s.writers[n].pc.i, s.writers[n].value;
    ExclusionInRuns(run, steps, k);
    SeesInRuns(run, steps, k, n);
    if !Rivalled(run, k, n, v) {
      assert Unrivalled(run, k, n, v);
      forall m ensures !Rivals(s, n, m) { var t := Rivals(run[k], n, m); }
      LockedByReader(s, n, i);
    }
  }

  /**
    With one reader at a time, a write fails only if during it another write holds a slot,
    that is, is bound to succeed.
  */
  lemma {:induction false} WriteFailsOnlyIfRivalled(run: seq<State>, steps: seq<Step>, k: nat, n: nat)
    requires IsRun(run, steps) && k < |run| && |run[0].readers| == 1
    requires n < |run[0].writers| && n < |run[k].writers| && run[k].writers[n].outcome.Failed?
    ensures Rivalled(run, k, n, run[k].writers[n].value)
  {
    if k > 0 {
      var s, s', step := run[k - 1], run[k], steps[k - 1];
      ExclusionInRuns(run, steps, k - 1);
      SeesInRuns(run, steps, k - 1, n);
      if step != WStart(n) { SameWrite(s, s', step, n); }
      if s.writers[n].outcome.Failed? && step != WStart(n) {
        WriteFailsOnlyIfRivalled(run, steps, k - 1, n);
      } else {
        FailingStep(run, steps, k - 1, n);
      }
    }
  }

  // --- A write that holds a slot succeeds ---------------------------------------------------------

  /** The write still holds its slot, or it has succeeded. */
  predicate Held(w: Writer) { HoldsAny(w) || (w.pc.WIdle? && w.outcome.Succeeded?) }

  predicate ValuesIssued(s: State) { forall m :: 0 <= m < |s.writers| ==> s.writers[m].value <= s.issued }

  lemma ValuesAfter(s: State, s': State, step: Step)
    requires ValuesIssued(s) && NextStep(s, s', step)
    ensures ValuesIssued(s') && s.issued <= s'.issued && |s'.writers| == |s.writers|
  {
  }

  lemma {:induction false} ValuesInRuns(run: seq<State>, steps: seq<Step>, j: nat, k: nat)
    requires IsRun(run, steps) && j <= k < |run|
    ensures ValuesIssued(run[k]) && run[j].issued <= run[k].issued && |run[k].writers| == |run[j].writers|
    decreases k
  {
    if k > 0 {
      ValuesInRuns(run, steps, if j < k then j else k - 1, k - 1);
      ValuesAfter(run[k - 1], run[k], steps[k - 1]);
    }
  }

  lemma HolderGoesOn(s: State, s': State, step: Step, m: nat, v: nat)
    requires NextStep(s, s', step) && m < |s.writers| == |s'.writers| && v <= s.issued
    requires s.writers[m].value == v ==> Held(s.writers[m])
    ensures s'.writers[m].value == v ==> Held(s'.writers[m])
  {
  }

  /** At every later moment, until its writer begins another write, it still holds its slot or has succeeded. */
  lemma {:induction false} HolderSucceeds(run: seq<State>, steps: seq<Step>, j: nat, k: nat, m: nat)
    requires IsRun(run, steps) && j <= k < |run| && m < |run[j].writers| && HoldsAny(run[j].writers[m])
    ensures m < |run[k].writers|
    ensures var w := run[k].writers[m];
            w.value == run[j].writers[m].value ==> Held(w)
    decreases k
  {
    ValuesInRuns(run, steps, j, k);
    if j < k {
      HolderSucceeds(run, steps, j, k - 1, m);
      ValuesInRuns(run, steps, j, k - 1);
      ValuesInRuns(run, steps, j, j);
      HolderGoesOn(run[k - 1], run[k], steps[k - 1], m, run[j].writers[m].value);
    }
  }

  function HolderStep(w: Writer, m: nat): Step {
    if w.pc.WWriting? then WStore(m) else if w.pc.WPublishing? then WPublish(m) else WUnlock(m)
  }

  /**
    And nothing stops it: its next step is enabled whatever the others do, and the third one
    at the latest is the end.
  */
  lemma HolderIsNotStopped(s: State, m: nat)
    requires WellSized(s) && m < |s.writers| && HoldsAny(s.writers[m])
    ensures exists s' :: NextStep(s, s', HolderStep(s.writers[m], m)) &&
              StepsLeft(s'.writers[m]) < StepsLeft(s.writers[m])
  {
    var pc := s.writers[m].pc;
    var s' := if pc.WWriting? then StoreValue(s, m, pc.i, pc.second)
              else if pc.WPublishing? then Publish(s, m, pc.i) else UnlockWrite(s, m, pc.i);
    assert NextStep(s, s', HolderStep(s.writers[m], m));
  }

  function StepsLeft(w: Writer): nat {
    match w.pc
    case WWriting(_, second) => if second then 3 else 2
    case WPublishing(_) => 2
    case WUnlocking(_) => 1
    case _ => 0
  }

  // --- Overlapping writes -------------------------------------------------------------------------

  predicate Alone(s: State, n: nat) {
    forall m :: 0 <= m < |s.writers| && m != n ==> s.writers[m].pc.WIdle?
  }

  /** Writers `n` and `m` are both in the middle of a write. */
  predicate BothWriting(s: State, n: nat, m: nat) {
    n < |s.writers| && m < |s.writers| && n != m && !s.writers[n].pc.WIdle? && !s.writers[m].pc.WIdle?
  }

  /** What `met` records has really happened, during the same write. */
  lemma {:induction false} MetIsOverlap(run: seq<State>, steps: seq<Step>, k: nat, n: nat)
    requires IsRun(run, steps) && k < |run| && n < |run[k].writers| && run[k].writers[n].met
    ensures exists j, m :: 0 <= j <= k && BothWriting(run[j], n, m) &&
              run[j].writers[n].value == run[k].writers[n].value
  {
    if k > 0 {
      var s, s', step := run[k - 1], run[k], steps[k - 1];
      if s.writers[n].met && s'.writers[n].value == s.writers[n].value {
        MetIsOverlap(run, steps, k - 1, n);
      } else if step.n == n {
        var m :| 0 <= m < |s.writers| && Other(n, s.writers[m], m);
        assert BothWriting(run[k], n, m);
      } else {
        assert BothWriting(run[k], n, step.n);
      }
    }
  }

  // --- One writer and one reader: a read that no write overlaps returns the latest value -----------

  /** The write in progress has its value to itself until it commits. */
  predicate WriteOk(s: State)
    requires WellSized(s) && IsWriter(s, 0)
  {
    var w := s.writers[0];
    && (!w.pc.WIdle? && !w.pc.WUnlocking? ==> w.value == s.issued && s.written < w.value)
    && (w.pc.WLoaded? ==> w.pc.i == s.idx)
    && (w.pc.WSecond? ==> w.pc.i == 1 - s.idx)
    && (w.pc.WWriting? ==> w.pc.i == if w.pc.second then 1 - s.idx else s.idx)
    && (w.pc.WPublishing? ==> w.pc.i == 1 - s.idx && s.slots[w.pc.i] == Some(w.value))
  }

  /** The current slot holds the last value written unless it was taken; the other one can only hold an older value. */
  predicate ValuesOk(s: State)
    requires WellSized(s) && IsWriter(s, 0)
  {
    && s.written <= s.issued && (forall v :: v in s.taken ==> v <= s.written)
    && s.slots[s.idx] == Latest(s)
    && (s.slots[1 - s.idx].Some? ==>
          || s.slots[1 - s.idx].value < s.written
          || s.writers[0].pc == WPublishing(1 - s.idx))
  }

  /** A clean read is on its way to the value that was the latest when it began. */
  predicate ReadOk(s: State)
    requires WellSized(s) && IsWriter(s, 0) && IsReader(s, 0)
  {
    var r := s.readers[0];
    !r.pc.RIdle? && r.clean ==>
      && s.writers[0].pc.WIdle?
      && (r.pc.RLoaded? || r.pc.RTaking? ==> r.pc.i == s.idx && r.expected == Latest(s))
      && (r.pc.RUnlocking? ==> r.result == r.expected)
  }

  ghost predicate PairInv(s: State) {
    Exclusive(s) && |s.writers| == 1 && |s.readers| == 1 && WriteOk(s) && ValuesOk(s) && ReadOk(s)
  }

  ghost predicate PairValues(s: State) { WellSized(s) && |s.writers| == 1 && WriteOk(s) && ValuesOk(s) }

  lemma PairStart(s: State)
    requires PairValues(s) && s.writers[0].pc.WIdle?
    ensures PairValues(StartWrite(s, 0))
  {
  }

  lemma PairFirst(s: State)
    requires PairValues(s) && s.writers[0].pc.WLoaded?
    ensures PairValues(LockFirst(s, 0, s.writers[0].pc.i))
  {
  }

  lemma PairSecond(s: State)
    requires PairValues(s) && s.writers[0].pc.WSecond?
    ensures PairValues(LockSecond(s, 0, s.writers[0].pc.i))
  {
  }

  lemma PairUnlock(s: State)
    requires PairValues(s) && s.writers[0].pc.WUnlocking?
    ensures PairValues(UnlockWrite(s, 0, s.writers[0].pc.i))
  {
  }

  lemma PairLocking(s: State, s': State, step: Step)
    requires PairValues(s) && NextStep(s, s', step) && (step.WStart? || step.WFirst? || step.WOther? || step.WUnlock?)
    ensures PairValues(s')
  {
    match step
    case WStart(_) => PairStart(s);
    case WFirst(_) => PairFirst(s);
    case WOther(_) => PairSecond(s);
    case WUnlock(_) => PairUnlock(s);
  }

  lemma PairStoring(s: State, s': State, step: Step)
    requires PairValues(s) && NextStep(s, s', step) && (step.WStore? || step.WPublish?)
    ensures PairValues(s')
  {
  }

  lemma PairWriterRead(s: State, s': State, step: Step)
    requires PairInv(s) && NextStep(s, s', step) && WriterStep(step) && Exclusive(s') && |s'.writers| == 1
    requires |s'.readers| == 1
    ensures ReadOk(s')
  {
  }

  lemma PairTake(s: State)
    requires PairInv(s) && s.readers[0].pc.RTaking?
    ensures PairValues(TakeValue(s, 0, s.readers[0].pc.i))
  {
    assert WOwns(s, 0, 0) && ROwns(s, 0, 0);
  }

  /** Other steps of the reader leave slots, index and writer alone. */
  lemma PairFramed(s: State, s': State)
    requires PairValues(s) && s' == s.(locks := s'.locks, readers := s'.readers, owners := s'.owners) && WellSized(s')
    ensures PairValues(s')
  {
  }

  lemma PairReader(s: State, s': State, step: Step)
    requires PairInv(s) && NextStep(s, s', step) && !WriterStep(step)
    ensures PairValues(s')
  {
    if step.RTake? { PairTake(s); } else { PairFramed(s, s'); }
  }

  lemma PairReaderRead(s: State, s': State, step: Step)
    requires PairInv(s) && NextStep(s, s', step) && !WriterStep(step) && WellSized(s') && |s'.writers| == 1
    requires |s'.readers| == 1
    ensures ReadOk(s')
  {
    assert WOwns(s, 0, 0) && ROwns(s, 0, 0);
  }

  lemma {:induction false} PairInRuns(run: seq<State>, steps: seq<Step>, k: nat)
    requires IsRun(run, steps) && k < |run| && |run[0].writers| == 1 && |run[0].readers| == 1
    ensures PairInv(run[k])
  {
    ExclusionInRuns(run, steps, k);
    if k > 0 {
      PairInRuns(run, steps, k - 1);
      var s, s', step := run[k - 1], run[k], steps[k - 1];
      if WriterStep(step) {
        WriterSlots(s, s', step);
        if step.WStore? || step.WPublish? { PairStoring(s, s', step); } else { PairLocking(s, s', step); }
        PairWriterRead(s, s', step);
      } else {
        ReaderSlots(s, s', step);
        PairReader(s, s', step);
        PairReaderRead(s, s', step);
      }
    }
  }

  /**
    With one writer and one reader, a read that overlaps no write gets its lock, and
    returns the last value written and not yet taken when it began.
  */
  lemma CleanReadReturnsLatest(run: seq<State>, steps: seq<Step>, k: nat)
    requires IsRun(run, steps) && k < |steps| && |run[0].writers| == 1 && |run[0].readers| == 1
    requires !WriterStep(steps[k]) && !steps[k].RStart? && run[k].readers[0].clean
    ensures steps[k].RLock? ==> run[k + 1].readers[0].pc.RTaking?
    ensures steps[k].RUnlock? ==> run[k].readers[0].result == run[k].readers[0].expected
  {
    PairInRuns(run, steps, k);
    var s := run[k];
    assert WOwns(s, 0, 0) && ROwns(s, 0, 0);
    assert steps[k].n == 0;
  }

  /** Between writes, the reader by itself gets the last value written and not yet taken. */
  lemma ReaderAloneGetsLatest(s: State) returns (s1: State, s2: State, s3: State, s4: State)
    requires PairInv(s) && s.writers[0].pc.WIdle? && s.readers[0].pc.RIdle?
    ensures NextStep(s, s1, RStart(0)) && NextStep(s1, s2, RLock(0))
    ensures NextStep(s2, s3, RTake(0)) && NextStep(s3, s4, RUnlock(0))
    ensures s4.readers[0].pc.RIdle? && s4.readers[0].result == Latest(s) && Latest(s4) == None
  {
    OwnersAtRest(s, s.idx);
    s1 := StartRead(s, 0);
    s2 := LockRead(s1, 0, s.idx);
    s3 := TakeValue(s2, 0, s.idx);
    s4 := UnlockRead(s3, 0, s.idx);
  }

  /** A slot that nobody holds is unlocked. */
  lemma OwnersAtRest(s: State, i: SlotIdx)
    requires Exclusive(s) && |s.writers| == 1 && |s.readers| == 1
    requires !WHolds(s.writers[0], i) && !RHolds(s.readers[0], i)
    ensures s.locks[i] == FREE
  {
    if s.locks[i] != FREE { OwnerHolds(s, i); }
  }

  /** The current slot is locked by a reader. */
  lemma FirstIsPassed(s: State) returns (s1: State, s2: State)
    requires WellSized(s) && |s.writers| == 1 && s.writers[0].pc.WIdle? && s.locks[s.idx].reader
    ensures NextStep(s, s1, WStart(0)) && NextStep(s1, s2, WFirst(0))
    ensures WellSized(s2) && s2.locks[1 - s.idx] == s.locks[1 - s.idx] && s2.taken == s.taken
    ensures |s2.writers| == 1 && s2.writers[0].pc == WSecond(1 - s.idx) && s2.writers[0].value == s.issued + 1
  {
    s1 := StartWrite(s, 0);
    s2 := LockFirst(s1, 0, s.idx);
  }

  lemma FirstSucceeds(s: State) returns (s1: State, s2: State, s3: State, s4: State)
    requires WellSized(s) && |s.writers| == 1 && s.writers[0].pc.WIdle? && s.locks[s.idx] == FREE
    ensures NextStep(s, s1, WStart(0)) && NextStep(s1, s2, WFirst(0))
    ensures NextStep(s2, s3, WStore(0)) && NextStep(s3, s4, WUnlock(0))
    ensures |s4.writers| == 1 && s4.writers[0].outcome.Succeeded?
    ensures s4.written == s.issued + 1 && s4.taken == s.taken
  {
    s1 := StartWrite(s, 0);
    s2 := LockFirst(s1, 0, s.idx);
    s3 := StoreValue(s2, 0, s.idx, false);
    s4 := UnlockWrite(s3, 0, s.idx);
  }

  /** The writer by itself succeeds, whatever the reader was about to do; its value is the latest then. */
  lemma WriterAloneSucceeds(s: State) returns (path: seq<State>, steps: seq<Step>)
    requires PairInv(s) && s.writers[0].pc.WIdle?
    ensures |path| == |steps| + 1 && path[0] == s
    ensures forall k {:trigger steps[k]} :: 0 <= k < |steps| ==>
              WriterStep(steps[k]) && NextStep(path[k], path[k + 1], steps[k])
    ensures var end := path[|steps|];
            |end.writers| == 1 && end.writers[0].outcome.Succeeded? && Latest(end) == Some(s.issued + 1)
  {
    if RHolds(s.readers[0], s.idx) {
      OwnersAtRest(s, 1 - s.idx);
      ReaderOwns(s, 0, s.idx);
      var s1, s2 := FirstIsPassed(s);
      var s3, s4, s5, s6 := SecondSucceeds(s2, 1 - s.idx);
      path := [s, s1, s2, s3, s4, s5, s6];
      steps := [WStart(0), WFirst(0), WOther(0), WStore(0), WPublish(0), WUnlock(0)];
    } else {
      OwnersAtRest(s, s.idx);
      var s1, s2, s3, s4 := FirstSucceeds(s);
      path := [s, s1, s2, s3, s4];
      steps := [WStart(0), WFirst(0), WStore(0), WUnlock(0)];
    }
  }

  lemma SecondSucceeds(s: State, i: SlotIdx) returns (s1: State, s2: State, s3: State, s4: State)
    requires WellSized(s) && |s.writers| == 1 && s.writers[0].pc == WSecond(i) && s.locks[i] == FREE
    ensures NextStep(s, s1, WOther(0)) && NextStep(s1, s2, WStore(0))
    ensures NextStep(s2, s3, WPublish(0)) && NextStep(s3, s4, WUnlock(0))
    ensures |s4.writers| == 1 && s4.writers[0].outcome.Succeeded?
    ensures s4.written == s.writers[0].value && s4.taken == s.taken
  {
    s1 := LockSecond(s, 0, i);
    s2 := StoreValue(s1, 0, i, true);
    s3 := Publish(s2, 0, i);
    s4 := UnlockWrite(s3, 0, i);
  }

  // --- Any number of readers: when exactly a write fails that meets no other one --------------------

  ghost predicate MetInv(s: State) {
    forall n :: 0 <= n < |s.writers| && !s.writers[n].met && !s.writers[n].pc.WIdle? ==> Alone(s, n)
  }

  lemma MetKept(s: State, s': State, step: Step)
    requires MetInv(s) && NextStep(s, s', step)
    ensures MetInv(s')
  {
    forall n, m | 0 <= n < |s'.writers| && 0 <= m < |s'.writers| && m != n && !s'.writers[n].met &&
        !s'.writers[n].pc.WIdle?
      ensures s'.writers[m].pc.WIdle?
    {
      if step == WStart(n) { assert !Other(n, s.writers[m], m); } else { assert Alone(s, n); }
    }
  }

  lemma {:induction false} MetInRuns(run: seq<State>, steps: seq<Step>, k: nat)
    requires IsRun(run, steps) && k < |run|
    ensures MetInv(run[k])
  {
    if k > 0 {
      MetInRuns(run, steps, k - 1);
      MetKept(run[k - 1], run[k], steps[k - 1]);
    }
  }

  /** The first attempt never ends such a write; the second one does exactly if a reader holds the other slot. */
  lemma LoneWriteFailsIffReadersHoldBoth(run: seq<State>, steps: seq<Step>, k: nat)
    requires IsRun(run, steps) && k < |steps| && (steps[k].WFirst? || steps[k].WOther?)
    requires !run[k].writers[steps[k].n].met
    ensures var n, s, s' := steps[k].n, run[k], run[k + 1];
            var i := s.writers[n].pc.i;
            && (steps[k].WFirst? ==> !s'.writers[n].pc.WIdle?)
            && (steps[k].WFirst? ==> (s'.writers[n].pc.WSecond? <==> exists m :: Holds(s, ByReader(m), i)))
            && (steps[k].WOther? ==> (s'.writers[n].pc.WIdle? <==> exists m :: Holds(s, ByReader(m), i)))
  {
    MetInRuns(run, steps, k);
    ExclusionInRuns(run, steps, k);
    var n, s := steps[k].n, run[k];
    var i := s.writers[n].pc.i;
    assert WOwns(s, n, 0) && SlotOk(s, i);
    if m :| Holds(s, ByReader(m), i) { assert ROwns(s, m, 0); }
    if s.locks[i] != FREE {
      OwnerHolds(s, i);
      assert Holds(s, ByReader(s.owners[i].value.n), i);
    }
  }

  // --- What does not hold -----------------------------------------------------------------------

  ghost predicate Reachable(s: State) {
    exists run, steps :: IsRun(run, steps) && run[|run| - 1] == s
  }

  lemma Extend(s: State, s': State, step: Step)
    requires Reachable(s) && NextStep(s, s', step)
    ensures Reachable(s')
  {
    var run, steps :| IsRun(run, steps) && run[|run| - 1] == s;
    var run', steps' := run + [s'], steps + [step];
    forall i | 0 <= i < |steps'| ensures NextStep(run'[i], run'[i + 1], steps'[i]) {
      if i < |steps| { assert steps[i] == steps'[i]; }
    }
    assert IsRun(run', steps');
  }

  function Stage0(): State {
    State([None, None], 0, [Lock(false, false), Lock(false, false)], [Writer(WIdle, 0, false, NoneYet)],
      [Reader(RIdle, false, None, None), Reader(RIdle, false, None, None)],
      [None, None], 0, 0, {})
  }

  function Stage1(): State {
    State([None, None], 0, [Lock(true, true), Lock(true, false)], [Writer(WWriting(1, true), 1, false, NoneYet)],
      [Reader(RTaking(0), false, None, None), Reader(RIdle, false, None, None)],
      [Some(ByReader(0)), Some(ByWriter(0))], 1, 0, {})
  }

  function Stage2(): State {
    State([None, Some(1)], 1, [Lock(false, false), Lock(false, false)], [Writer(WIdle, 1, false, Succeeded)],
      [Reader(RIdle, false, None, None), Reader(RIdle, false, None, None)],
      [None, None], 1, 1, {})
  }

  function Stage3(): State {
    State([None, Some(1)], 1, [Lock(true, false), Lock(true, true)], [Writer(WWriting(0, true), 2, false, NoneYet)],
      [Reader(RTaking(1), false, Some(1), None), Reader(RLoaded(1), false, Some(1), None)],
      [Some(ByWriter(0)), Some(ByReader(0))], 2, 1, {})
  }

  function Stage4(): State {
    State([Some(2), None], 0, [Lock(false, false), Lock(false, false)], [Writer(WIdle, 2, false, Succeeded)],
      [Reader(RIdle, false, Some(1), Some(1)), Reader(RLoaded(1), false, Some(1), None)],
      [None, None], 2, 2, {1})
  }

  function Stage5(): State {
    State([Some(2), None], 0, [Lock(true, true), Lock(true, true)], [Writer(WIdle, 3, false, Failed)],
      [Reader(RTaking(0), false, Some(2), None), Reader(RTaking(1), false, Some(1), None)],
      [Some(ByReader(0)), Some(ByReader(1))], 3, 2, {1})
  }

  lemma Stage0To1()
    requires Reachable(Stage0())
    ensures Reachable(Stage1())
  {
    var s0 := Stage0();
    var s1 := StartRead(s0, 0);
    Extend(s0, s1, RStart(0));
    var s2 := LockRead(s1, 0, 0);
    Extend(s1, s2, RLock(0));
    var s3 := StartWrite(s2, 0);
    Extend(s2, s3, WStart(0));
    var s4 := LockFirst(s3, 0, 0);
    Extend(s3, s4, WFirst(0));
    var s5 := LockSecond(s4, 0, 1);
    Extend(s4, s5, WOther(0));
    assert s5 == Stage1();
  }

  lemma Stage1To2()
    requires Reachable(Stage1())
    ensures Reachable(Stage2())
  {
    var s0 := Stage1();
    var s1 := StoreValue(s0, 0, 1, true);
    Extend(s0, s1, WStore(0));
    var s2 := Publish(s1, 0, 1);
    Extend(s1, s2, WPublish(0));
    var s3 := UnlockWrite(s2, 0, 1);
    Extend(s2, s3, WUnlock(0));
    var s4 := TakeValue(s3, 0, 0);
    Extend(s3, s4, RTake(0));
    var s5 := UnlockRead(s4, 0, 0);
    Extend(s4, s5, RUnlock(0));
    assert s5 == Stage2();
  }

  lemma Stage2To3()
    requires Reachable(Stage2())
    ensures Reachable(Stage3())
  {
    var s0 := Stage2();
    var s1 := StartRead(s0, 1);
    Extend(s0, s1, RStart(1));
    var s2 := StartRead(s1, 0);
    Extend(s1, s2, RStart(0));
    var s3 := LockRead(s2, 0, 1);
    Extend(s2, s3, RLock(0));
    var s4 := StartWrite(s3, 0);
    Extend(s3, s4, WStart(0));
    var s5 := LockFirst(s4, 0, 1);
    Extend(s4, s5, WFirst(0));
    var s6 := LockSecond(s5, 0, 0);
    Extend(s5, s6, WOther(0));
    assert s6 == Stage3();
  }

  lemma Stage3To4()
    requires Reachable(Stage3())
    ensures Reachable(Stage4())
  {
    var s0 := Stage3();
    var s1 := StoreValue(s0, 0, 0, true);
    Extend(s0, s1, WStore(0));
    var s2 := Publish(s1, 0, 0);
    Extend(s1, s2, WPublish(0));
    var s3 := UnlockWrite(s2, 0, 0);
    Extend(s2, s3, WUnlock(0));
    var s4 := TakeValue(s3, 0, 1);
    Extend(s3, s4, RTake(0));
    var s5 := UnlockRead(s4, 0, 1);
    Extend(s4, s5, RUnlock(0));
    assert s5 == Stage4();
  }

  lemma Stage4To5()
    requires Reachable(Stage4())
    ensures Reachable(Stage5())
  {
    var s0 := Stage4();
    var s1 := StartRead(s0, 0);
    Extend(s0, s1, RStart(0));
    var s2 := LockRead(s1, 0, 0);
    Extend(s1, s2, RLock(0));
    var s3 := LockRead(s2, 1, 1);
    Extend(s2, s3, RLock(1));
    var s4 := StartWrite(s3, 0);
    Extend(s3, s4, WStart(0));
    var s5 := LockFirst(s4, 0, 0);
    Extend(s4, s5, WFirst(0));
    var s6 := LockSecond(s5, 0, 1);
    Extend(s5, s6, WOther(0));
    assert s6 == Stage5();
  }

  /**
    With two readers, one of which has loaded an index that is out of date, a write can
    fail although there is no other writer at all.
  */
  lemma TwoReadersDefeatTheWriter()
    ensures exists s :: Reachable(s) && |s.writers| == 1 && |s.readers| == 2 && s.writers[0].outcome.Failed?
  {
    assert IsRun([Stage0()], []);
    assert [Stage0()][0] == Stage0();
    Stage0To1();
    Stage1To2();
    Stage2To3();
    Stage3To4();
    Stage4To5();
  }

  /** Both bits of a lock word can be set: a writer that finds the slot locked leaves its bit behind. */
  lemma BothBitsCanBeSet()
    ensures exists s :: Reachable(s) && Lock(true, true) in s.locks
  {
    assert IsRun([Stage0()], []);
    assert [Stage0()][0] == Stage0();
    Stage0To1();
    assert Stage1().locks[0] == Lock(true, true);
  }
}
