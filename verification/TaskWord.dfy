/**
  The packed 64-bit form of the task word, and its refinement to the record used
  by module TaskLifecycle.

  Layout, from the most significant bit: wake count (31 bits), reference count
  (31 bits), CLOSED, POLLING.  Additions and subtractions wrap around at 2^64;
  a conjunction with a mask of consecutive bits keeps those bits in place.
*/
module TaskWord {
  import opened Arithmetic
  import opened TaskLifecycle

  const WORD: nat := 0x1_0000_0000_0000_0000
  const POLLING: nat := 1
  const CLOSED: nat := 2
  const REF_INC: nat := 4
  const WAKE_INC: nat := 0x2_0000_0000
  const COUNTER_LIMIT: nat := 0x8000_0000

  // The values at which the source gives up: REF_CRITICAL / REF_INC and
  // WAKE_CRITICAL / WAKE_INC.
  const CRITICAL_COUNT: nat := 0x3fff_ffff

  function Add(x: nat, d: nat): nat { (x + d) % WORD }

  function Sub(x: nat, d: nat): nat { (x - d) % WORD }

  function AndPolling(x: nat): nat { x % 2 }

  function AndClosed(x: nat): nat { x / 2 % 2 * CLOSED }

  function AndRefMask(x: nat): nat { x / REF_INC % COUNTER_LIMIT * REF_INC }

  function AndWakeMask(x: nat): nat { x / WAKE_INC * WAKE_INC }

  function AndNotPolling(x: nat): nat { x / 2 * 2 }

  function OrClosed(x: nat): nat { if AndClosed(x) == 0 then x + CLOSED else x }

  predicate PackedRunnableExists(x: nat) {
    AndPolling(x) != 0 && (AndWakeMask(x) != 0 || AndClosed(x) != 0)
  }

  predicate Fits(w: Word) { w.wake < COUNTER_LIMIT && w.refs < COUNTER_LIMIT }

  function Pack(w: Word): (x: nat)
    requires Fits(w)
    ensures x < WORD
  {
    w.wake * WAKE_INC + w.refs * REF_INC + One(w.closed) * CLOSED + One(w.polling) * POLLING
  }

  function Unpack(x: nat): (w: Word)
    requires x < WORD
    ensures Fits(w)
  {
    Word(AndWakeMask(x) / WAKE_INC, AndRefMask(x) / REF_INC, AndClosed(x) != 0, AndPolling(x) != 0)
  }

  /** Where each field of a packed word is found again. */
  lemma Fields(wake: nat, refs: nat, closed: nat, polling: nat, x: nat)
    requires refs < COUNTER_LIMIT && closed <= 1 && polling <= 1
    requires x == wake * WAKE_INC + refs * REF_INC + closed * CLOSED + polling
    ensures x % 2 == polling && x / 2 % 2 == closed && x / REF_INC % COUNTER_LIMIT == refs && x / WAKE_INC == wake
    ensures x / 2 * 2 == x - polling
  {
    assert x / 2 == wake * (WAKE_INC / 2) + refs * 2 + closed;
    assert x / REF_INC == wake * COUNTER_LIMIT + refs;
  }

  lemma UnpackPack(w: Word)
    requires Fits(w)
    ensures Unpack(Pack(w)) == w
    ensures AndWakeMask(Pack(w)) == w.wake * WAKE_INC && AndRefMask(Pack(w)) == w.refs * REF_INC
    ensures AndClosed(Pack(w)) == One(w.closed) * CLOSED && AndPolling(Pack(w)) == One(w.polling)
    ensures AndNotPolling(Pack(w)) == Pack(w) - One(w.polling)
  {
    Fields(w.wake, w.refs, One(w.closed), One(w.polling), Pack(w));
  }

  lemma PackUnpack(x: nat)
    requires x < WORD
    ensures Pack(Unpack(x)) == x
  {
    var r := x / REF_INC;
    assert x / WAKE_INC == r / COUNTER_LIMIT;
    assert r == r / COUNTER_LIMIT * COUNTER_LIMIT + r % COUNTER_LIMIT;
    assert x == r * REF_INC + x / 2 % 2 * CLOSED + x % 2;
  }

  /** The read-modify-write operations that the source performs on the shared word. */
  datatype Rmw =
    | NoRmw
    | AddRef
    | AddWake
    | AddWakeSubRef
    | SubRef
    | SubWake(n: nat)
    | CloseIfCompleted
    | CancelWord
    | CompleteWord
    | ClearPolling
    | CloseWord

  function HandleRmw(hs: HandleStep): Rmw {
    match hs
    case SClone(_) => AddRef
    case SWakeByRef(_) => AddWake
    case SWakeByVal(_) => AddWakeSubRef
    case SDrop => SubRef
    case SPromisePoll => CloseIfCompleted
    case SPromiseTake => NoRmw
    case STokenCancel => CancelWord
    case STokenDropFuture => NoRmw
    case STokenRelease => SubRef
  }

  function RunRmw(p: RunPoint, rs: RunStep): Rmw {
    match rs
    case SContextClone(_) => AddRef
    case SContextWake(_) => AddWake
    case SPending => if p.Polled? then SubWake(p.seen) else NoRmw
    case SComplete => CompleteWord
    case SClear => ClearPolling
    case SCancelClose => CloseWord
    case _ => NoRmw
  }

  function StepRmw(s: State, step: Step): Rmw {
    match step
    case OfHandle(_, hs) => HandleRmw(hs)
    case OfRunner(k, rs) => if k in s.runners then RunRmw(s.runners[k], rs) else NoRmw
    case OfReaper(_) => NoRmw
  }

  /** What each operation computes in the source, on the packed word. */
  function PackedRmw(x: nat, op: Rmw): nat {
    match op
    case NoRmw => x
    case AddRef => Add(x, REF_INC)
    case AddWake => Add(x, WAKE_INC)
    case AddWakeSubRef => Add(x, WAKE_INC - REF_INC)
    case SubRef => Sub(x, REF_INC)
    case SubWake(n) => Sub(x, n * WAKE_INC)
    case CloseIfCompleted => if AndPolling(x) + AndClosed(x) == 0 then OrClosed(x) else x
    case CancelWord =>
      if AndPolling(x) == 0 then Sub(x, REF_INC)
      else if PackedRunnableExists(x) then Sub(OrClosed(x), REF_INC)
      else AndNotPolling(OrClosed(x))
    case CompleteWord => if AndClosed(x) == CLOSED || AndRefMask(x) == 0 then x else AndNotPolling(x)
    case ClearPolling => AndNotPolling(x)
    case CloseWord => AndNotPolling(OrClosed(x))
  }

  function Minus(m: nat, n: nat): nat { if n <= m then m - n else 0 }

  /** The same operations on the record. */
  function WordRmw(w: Word, op: Rmw): Word {
    match op
    case NoRmw => w
    case AddRef => w.(refs := w.refs + 1)
    case AddWake => w.(wake := w.wake + 1)
    case AddWakeSubRef => w.(wake := w.wake + 1, refs := Minus(w.refs, 1))
    case SubRef => w.(refs := Minus(w.refs, 1))
    case SubWake(n) => w.(wake := Minus(w.wake, n))
    case CloseIfCompleted => if !w.polling && !w.closed then w.(closed := true) else w
    case CancelWord =>
      if !w.polling then w.(refs := Minus(w.refs, 1))
      else if RunnableExists(w) then w.(closed := true, refs := Minus(w.refs, 1))
      else w.(closed := true, polling := false)
    case CompleteWord => if w.closed || w.refs == 0 then w else w.(polling := false)
    case ClearPolling => w.(polling := false)
    case CloseWord => w.(polling := false, closed := true)
  }

  lemma ReleaseWordEffect(s: State, k: nat, hs: HandleStep)
    requires hs.SWakeByVal? || hs.SDrop?
    ensures HandleEffect(s, k, hs).word == WordRmw(s.word, HandleRmw(hs))
  {
    match hs
    case SWakeByVal(n) =>
    case SDrop =>
  }

  lemma CancelWordEffect(s: State, k: nat)
    ensures HandleEffect(s, k, STokenCancel).word == WordRmw(s.word, HandleRmw(STokenCancel))
  {
  }

  lemma HandleWordEffect(s: State, k: nat, hs: HandleStep)
    ensures HandleEffect(s, k, hs).word == WordRmw(s.word, HandleRmw(hs))
  {
    match hs
    case SWakeByVal(n) => ReleaseWordEffect(s, k, hs);
    case SDrop => ReleaseWordEffect(s, k, hs);
    case STokenCancel => CancelWordEffect(s, k);
    case _ =>
  }

  lemma RunWordEffect(s: State, k: nat, p: RunPoint, rs: RunStep)
    requires RunEnabled(s, p, rs)
    ensures RunEffect(s, k, p, rs).word == WordRmw(s.word, RunRmw(p, rs))
  {
    match rs
    case SPending =>
    case SComplete =>
    case SClear =>
    case SCancelClose =>
    case _ =>
  }

  lemma PackAddRef(w: Word)
    requires w.wake < COUNTER_LIMIT && w.refs + 1 < COUNTER_LIMIT
    ensures Add(Pack(w), REF_INC) == Pack(w.(refs := w.refs + 1))
  {
  }

  lemma PackAddWake(w: Word)
    requires w.wake + 1 < COUNTER_LIMIT && w.refs < COUNTER_LIMIT
    ensures Add(Pack(w), WAKE_INC) == Pack(w.(wake := w.wake + 1))
  {
  }

  lemma PackWakeByVal(w: Word)
    requires w.wake + 1 < COUNTER_LIMIT && 0 < w.refs < COUNTER_LIMIT
    ensures Add(Pack(w), WAKE_INC - REF_INC) == Pack(w.(wake := w.wake + 1, refs := w.refs - 1))
  {
  }

  lemma PackSubRef(w: Word)
    requires Fits(w) && w.refs > 0
    ensures Sub(Pack(w), REF_INC) == Pack(w.(refs := w.refs - 1))
  {
  }

  lemma PackSubWake(w: Word, n: nat)
    requires Fits(w) && n <= w.wake
    ensures Sub(Pack(w), n * WAKE_INC) == Pack(w.(wake := w.wake - n))
  {
    assert Pack(w.(wake := w.wake - n)) == Pack(w) - n * WAKE_INC;
  }

  lemma PackFlags(w: Word)
    requires Fits(w)
    ensures OrClosed(Pack(w)) == Pack(w.(closed := true))
    ensures AndNotPolling(Pack(w)) == Pack(w.(polling := false))
  {
    UnpackPack(w);
  }

  /** The source's flag and counter tests on the packed word decide the record's. */
  lemma PackedTests(w: Word)
    requires Fits(w)
    ensures var x := Pack(w);
            && (AndPolling(x) == 0 <==> !w.polling)
            && (AndClosed(x) == 0 <==> !w.closed) && (AndClosed(x) == CLOSED <==> w.closed)
            && (AndRefMask(x) == 0 <==> w.refs == 0)
            && (AndRefMask(x) + AndPolling(x) == REF_INC <==> w.refs == 1 && !w.polling)
            && (AndWakeMask(x) + AndClosed(x) + AndPolling(x) == POLLING <==> Idle(w))
            && (PackedRunnableExists(x) <==> RunnableExists(w))
            && (AndRefMask(x) > CRITICAL_COUNT * REF_INC <==> w.refs > CRITICAL_COUNT)
            && (AndWakeMask(x) > CRITICAL_COUNT * WAKE_INC <==> w.wake > CRITICAL_COUNT)
  {
    UnpackPack(w);
  }

  /** An operation neither overflows nor exhausts a counter. */
  predicate InRange(w: Word, op: Rmw) {
    && Fits(w) && Fits(WordRmw(w, op))
    && (op.AddWakeSubRef? || op.SubRef? || op.CancelWord? ==> w.refs > 0)
    && (op.SubWake? ==> op.n <= w.wake)
  }

  lemma RmwRefines(w: Word, op: Rmw)
    requires InRange(w, op)
    ensures Pack(WordRmw(w, op)) == PackedRmw(Pack(w), op)
  {
    match op
    case NoRmw =>
    case AddRef => PackAddRef(w);
    case AddWake => PackAddWake(w);
    case AddWakeSubRef => PackWakeByVal(w);
    case SubRef => PackSubRef(w);
    case SubWake(n) => PackSubWake(w, n);
    case CloseIfCompleted => PackedTests(w); PackFlags(w);
    case CancelWord =>
      PackedTests(w);
      PackFlags(w);
      PackFlags(w.(closed := true));
      PackSubRef(w);
      PackSubRef(w.(closed := true));
    case CompleteWord => PackedTests(w); PackFlags(w);
    case ClearPolling => PackFlags(w);
    case CloseWord => PackFlags(w); PackFlags(w.(closed := true));
  }

  /** On a reachable state a handle's or the Runnable's operation is in range. */
  lemma HandleStepWord(s: State, s': State, k: nat, hs: HandleStep)
    requires Inv(s) && NextStep(s, s', OfHandle(k, hs)) && Fits(s.word) && Fits(s'.word)
    ensures s'.word == WordRmw(s.word, HandleRmw(hs)) && InRange(s.word, HandleRmw(hs))
  {
    HandleWordEffect(Touch(s), k, hs);
    assert s.word.refs > 0;
  }

  lemma RunStepWord(s: State, s': State, k: nat, rs: RunStep)
    requires Inv(s) && NextStep(s, s', OfRunner(k, rs)) && Fits(s.word) && Fits(s'.word)
    ensures s'.word == WordRmw(s.word, RunRmw(s.runners[k], rs)) && InRange(s.word, RunRmw(s.runners[k], rs))
  {
    RunWordEffect(Touch(s), k, s.runners[k], rs);
    assert RunnerOk(s, s.runners[k]);
  }

  /**
    Along every run, as long as both counters stay below 2^31, the packed word
    goes through exactly the values that the source's wrap-around arithmetic and
    bit masks compute.
  */
  lemma PackedRunRefines(run: seq<State>, i: nat, step: Step)
    requires IsRun(run) && i + 1 < |run| && NextStep(run[i], run[i + 1], step)
    requires Fits(run[i].word) && Fits(run[i + 1].word)
    ensures Pack(run[i + 1].word) == PackedRmw(Pack(run[i].word), StepRmw(run[i], step))
  {
    RunKeeps(run, i);
    var s, s' := run[i], run[i + 1];
    match step {
      case OfHandle(k, hs) => HandleStepWord(s, s', k, hs);
      case OfRunner(k, rs) => RunStepWord(s, s', k, rs);
      case OfReaper(k) =>
    }
    RmwRefines(s.word, StepRmw(s, step));
  }
}
