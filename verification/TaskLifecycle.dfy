/**
  The life cycle of an executor task: one shared word, a Runnable, a Promise,
  a CancelToken and any number of Wakers.

  Every atomic operation on the shared word is one step, and so is every access
  to the future, to its output or to the allocation.  A step that the source
  would execute on a freed task, on the wrong variant of the core or on an
  exhausted counter is not forbidden: it raises `fault`, and the main theorem
  says that no interleaving ever does.
*/
module TaskLifecycle {
  import opened Arithmetic

  /** The decoded shared word (see module TaskWord for the packed form). */
  datatype Word = Word(wake: nat, refs: nat, closed: bool, polling: bool)

  predicate RunnableExists(w: Word) {
    w.polling && (w.wake > 0 || w.closed)
  }

  predicate Idle(w: Word) {
    w.polling && w.wake == 0 && !w.closed
  }

  datatype Phase = Polling | Completed | WindDown | Closed

  function PhaseOf(w: Word): Phase {
    if w.polling then (if w.closed then WindDown else Polling)
    else (if w.closed then Closed else Completed)
  }

  /** What the task's storage currently holds. */
  datatype Core = Future | Output | Vacant

  /**
    The owners accounted for in the reference count.  A promise that is taking has set
    CLOSED in its poll and is about to move the output out.  A token that is dropping has
    closed an idle task: it is about to drop the future, then to release its reference.
  */
  datatype Handle = Waker | Promise | PromiseTaking | Token | TokenDropping | TokenReleasing

  /**
    The points a Runnable goes through: held by the thread that woke the task, then
    queued; `run` at the head of its loop, then inside the poll of the future; `run` after
    the future returned its output, in four steps; `cancel`, about to drop the future, then
    to close the task.
  */
  datatype RunPoint =
    | Scheduling | Queued
    | Loaded(seen: nat, closedSeen: bool) | Polled(seen: nat)
    | Publishing | Completing | Discarding | Clearing
    | CancelDropping | CancelClosing

  /**
    An owner that has given up its handle or its Runnable after finding itself
    the last one: it is about to drop what the flags it saw say is stored, then
    to free the task.
  */
  datatype Duty = Reaping(core: Core) | Freeing

  datatype State = State(
    word: Word,
    core: Core,
    handles: map<nat, Handle>,
    runners: map<nat, RunPoint>,
    reapers: map<nat, Duty>,
    freed: bool,
    fault: bool,
    // History: wake-ups issued so far, and how many of them preceded the start
    // of the most recent poll.
    issued: nat,
    polledAt: nat,
    // History: how often the future and the output were disposed of, how often
    // an output was stored and how often the task was freed.
    futureDrops: nat,
    outputStores: nat,
    outputTakes: nat,
    frees: nat)

  /** `spawn` and `spawn_and_forget`: the latter creates no promise. */
  predicate Init(s: State) {
    && (|| (s.word == Word(1, 2, false, true) && s.handles == map[0 := Promise, 1 := Token])
        || (s.word == Word(1, 1, false, true) && s.handles == map[1 := Token]))
    && s.runners == map[0 := Queued] && s.reapers == map[]
    && s.core == Future && !s.freed && !s.fault
    && s.issued == 1 && s.polledAt == 0
    && s.futureDrops == 0 && s.outputStores == 0 && s.outputTakes == 0 && s.frees == 0
  }

  // --- Elementary effects -------------------------------------------------

  /** Any access to the allocation. */
  function Touch(s: State): State {
    s.(fault := s.fault || s.freed)
  }

  function DropCore(s: State, what: Core): State {
    var s := s.(fault := s.fault || s.core != what || what == Vacant, core := Vacant);
    if what == Future then s.(futureDrops := s.futureDrops + 1)
    else s.(outputTakes := s.outputTakes + 1)
  }

  function StoreOutput(s: State): State {
    s.(fault := s.fault || s.core != Vacant, core := Output, outputStores := s.outputStores + 1)
  }

  /** A handle is consumed together with one unit of the reference count. */
  function Release(s: State, k: nat): State {
    s.(handles := s.handles - {k},
       fault := s.fault || s.word.refs == 0,
       word := s.word.(refs := if s.word.refs == 0 then 0 else s.word.refs - 1))
  }

  function EndRunner(s: State, k: nat): State {
    s.(runners := s.runners - {k})
  }

  function Handles(s: State, k: nat, h: Handle): State {
    s.(handles := s.handles[k := h])
  }

  function Runs(s: State, k: nat, p: RunPoint): State {
    s.(runners := s.runners[k := p])
  }

  function Reaps(s: State, k: nat, d: Duty): State {
    s.(reapers := s.reapers[k := d])
  }

  // --- Operations on handles -------------------------------------------------

  /** The wake-up that finds the task idle creates the Runnable. */
  function IssueWake(s: State, n: nat): State {
    var woken := s.(word := s.word.(wake := s.word.wake + 1), issued := s.issued + 1);
    if Idle(s.word) then Runs(woken, n, Scheduling) else woken
  }

  function WakeByVal(s: State, k: nat, n: nat): State {
    var w := s.word;
    var s' := Release(IssueWake(s, n), k);
    if w.refs == 1 && !w.polling then Reaps(s', k, if !w.closed then Reaping(Output) else Freeing) else s'
  }

  function DropHandle(s: State, k: nat): State {
    var w := s.word;
    var s' := Release(s, k);
    if w.refs == 1 && !RunnableExists(w) then
      Reaps(s', k, if w.polling then Reaping(Future) else if !w.closed then Reaping(Output) else Freeing)
    else s'
  }

  /** A poll that finds no output leaves the word alone. */
  function PromisePoll(s: State, k: nat): State {
    if !s.word.polling && !s.word.closed
    then Handles(s.(word := s.word.(closed := true)), k, PromiseTaking)
    else s
  }

  function TokenCancel(s: State, k: nat): State {
    var w := s.word;
    if !w.polling then
      var s' := Release(s, k);
      if w.refs == 1 then Reaps(s', k, if !w.closed then Reaping(Output) else Freeing) else s'
    else if RunnableExists(w) then
      Release(s.(word := w.(closed := true)), k)
    else
      Handles(s.(word := w.(closed := true, polling := false)), k, TokenDropping)
  }

  function TokenRelease(s: State, k: nat): State {
    var s' := Release(s, k);
    if s.word.refs == 1 then Reaps(s', k, Freeing) else s'
  }

  // --- Operations of the Runnable --------------------------------------------

  function BeginPoll(s: State, k: nat, p: RunPoint): State
    requires p.Loaded?
  {
    if p.closedSeen then Runs(s, k, CancelDropping)
    else Runs(s.(polledAt := s.issued), k, Polled(p.seen))
  }

  /** The future is pending: subtract the wake-ups seen before the poll. */
  function PollPending(s: State, k: nat, seen: nat): State {
    var w := s.word;
    var left := if seen <= w.wake then w.wake - seen else 0;
    var s' := s.(word := w.(wake := left), fault := s.fault || w.wake < seen);
    if left == 0 && !w.closed then
      if w.refs == 0 then Reaps(EndRunner(s', k), k, Reaping(Future)) else EndRunner(s', k)
    else
      Runs(s', k, Loaded(left, w.closed))
  }

  function Complete(s: State, k: nat): State {
    if s.word.closed || s.word.refs == 0 then Runs(s, k, Discarding)
    else EndRunner(s.(word := s.word.(polling := false)), k)
  }

  /** The Runnable leaves a task that cannot be scheduled again. */
  function Leave(s: State, k: nat): State {
    var s' := EndRunner(s, k);
    if s.word.refs == 0 then Reaps(s', k, Freeing) else s'
  }

  // --- Steps --------------------------------------------------------------

  datatype HandleStep =
    | SClone(n: nat) | SWakeByRef(n: nat) | SWakeByVal(n: nat) | SDrop
    | SPromisePoll | SPromiseTake
    | STokenCancel | STokenDropFuture | STokenRelease

  datatype RunStep =
    | SContextClone(n: nat) | SContextWake(n: nat)
    | SSchedule | SLoad | SDropRunnable | SBeginPoll
    | SReady | SPending | SPollPanic
    | SPublish | SPublishPanic | SComplete | SDiscard | SDiscardPanic | SClear
    | SCancelDrop | SCancelClose

  datatype Step = OfHandle(k: nat, hs: HandleStep) | OfRunner(k: nat, rs: RunStep) | OfReaper(k: nat)

  predicate HandleEnabled(s: State, h: Handle, hs: HandleStep) {
    match hs
    case SClone(n) => h.Waker? && n !in s.handles
    case SWakeByRef(n) => h.Waker? && n !in s.runners
    case SWakeByVal(n) => h.Waker? && n !in s.runners
    case SDrop => h.Waker? || h.Promise? || h.Token?
    case SPromisePoll => h.Promise?
    case SPromiseTake => h.PromiseTaking?
    case STokenCancel => h.Token?
    case STokenDropFuture => h.TokenDropping?
    case STokenRelease => h.TokenReleasing?
  }

  function HandleEffect(s: State, k: nat, hs: HandleStep): State {
    match hs
    case SClone(n) => Handles(s.(word := s.word.(refs := s.word.refs + 1)), n, Waker)
    case SWakeByRef(n) => IssueWake(s, n)
    case SWakeByVal(n) => WakeByVal(s, k, n)
    case SDrop => DropHandle(s, k)
    case SPromisePoll => PromisePoll(s, k)
    case SPromiseTake => Handles(DropCore(s, Output), k, Promise)
    case STokenCancel => TokenCancel(s, k)
    case STokenDropFuture => Handles(DropCore(s, Future), k, TokenReleasing)
    case STokenRelease => TokenRelease(s, k)
  }

  /** While it is polled, the future may clone or wake the borrowed waker of its context. */
  predicate RunEnabled(s: State, p: RunPoint, rs: RunStep) {
    match rs
    case SContextClone(n) => p.Polled? && n !in s.handles
    case SContextWake(n) => p.Polled? && n !in s.runners
    case SSchedule => p.Scheduling?
    case SLoad => p.Queued?
    case SDropRunnable => p.Queued?
    case SBeginPoll => p.Loaded?
    case SReady => p.Polled?
    case SPending => p.Polled?
    case SPollPanic => p.Polled?
    case SPublish => p.Publishing?
    case SPublishPanic => p.Publishing?
    case SComplete => p.Completing?
    case SDiscard => p.Discarding?
    case SDiscardPanic => p.Discarding?
    case SClear => p.Clearing?
    case SCancelDrop => p.CancelDropping?
    case SCancelClose => p.CancelClosing?
  }

  function RunEffect(s: State, k: nat, p: RunPoint, rs: RunStep): State
    requires RunEnabled(s, p, rs)
  {
    match rs
    case SContextClone(n) => Handles(s.(word := s.word.(refs := s.word.refs + 1)), n, Waker)
    case SContextWake(n) => IssueWake(s, n)
    case SSchedule => Runs(s, k, Queued)
    case SLoad => Runs(s.(fault := s.fault || !s.word.polling), k, Loaded(s.word.wake, s.word.closed))
    case SDropRunnable => Runs(s, k, CancelDropping)
    case SBeginPoll => BeginPoll(s, k, p)
    case SReady => Runs(s, k, Publishing)
    case SPending => PollPending(s, k, p.seen)
    case SPollPanic => Runs(s, k, CancelDropping)
    case SPublish => Runs(StoreOutput(DropCore(s, Future)), k, Completing)
    case SPublishPanic => Runs(DropCore(s, Future), k, CancelClosing)
    case SComplete => Complete(s, k)
    case SDiscard => Runs(DropCore(s, Output), k, Clearing)
    case SDiscardPanic => Runs(DropCore(s, Output), k, CancelClosing)
    case SClear => Leave(s.(word := s.word.(polling := false)), k)
    case SCancelDrop => Runs(DropCore(s, Future), k, CancelClosing)
    case SCancelClose => Leave(s.(word := s.word.(polling := false, closed := true)), k)
  }

  function ReapEffect(s: State, k: nat, d: Duty): State {
    match d
    case Reaping(c) => Reaps(DropCore(s, c), k, Freeing)
    case Freeing => s.(freed := true, frees := s.frees + 1, reapers := s.reapers - {k})
  }

  predicate NextStep(s: State, s': State, step: Step) {
    match step
    case OfHandle(k, hs) =>
      k in s.handles && HandleEnabled(s, s.handles[k], hs) && s' == HandleEffect(Touch(s), k, hs)
    case OfRunner(k, rs) =>
      k in s.runners && RunEnabled(s, s.runners[k], rs) && s' == RunEffect(Touch(s), k, s.runners[k], rs)
    case OfReaper(k) =>
      k in s.reapers && s' == ReapEffect(Touch(s), k, s.reapers[k])
  }

  ghost predicate Next(s: State, s': State) {
    exists step :: NextStep(s, s', step)
  }

  ghost predicate IsStep(run: seq<State>, i: nat)
    requires 0 < i < |run|
  {
    Next(run[i - 1], run[i])
  }

  ghost predicate IsRun(run: seq<State>) {
    && |run| > 0 && Init(run[0])
    && forall i :: 0 < i < |run| ==> IsStep(run, i)
  }

  // --- Invariant ----------------------------------------------------------

  /** One Runnable at most, and exactly when the flags say so. */
  ghost predicate RunnableTracked(s: State) {
    |s.runners| == One(RunnableExists(s.word))
  }

  predicate IsPromise(h: Handle) { h.Promise? || h.PromiseTaking? }

  predicate IsToken(h: Handle) { h.Token? || h.TokenDropping? || h.TokenReleasing? }

  /** The count is exact; there is one promise and one token at most. */
  ghost predicate HandlesTracked(s: State) {
    && s.word.refs == |s.handles|
    && (forall k :: k in s.handles && IsPromise(s.handles[k]) ==> k == 0)
    && (forall k :: k in s.handles && IsToken(s.handles[k]) ==> k == 1)
  }

  /** A last owner is alone, and the task is freed exactly when nobody is left. */
  ghost predicate LastIsAlone(s: State) {
    && |s.reapers| <= 1
    && (|s.reapers| == 1 ==> |s.handles| == 0 && |s.runners| == 0)
    && (s.freed <==> |s.handles| + |s.runners| + |s.reapers| == 0)
  }

  /** What each owner may rely on, from the program point it has reached. */
  predicate HandleOk(s: State, h: Handle) {
    && (h.PromiseTaking? ==> PhaseOf(s.word) == Closed && s.core == Output)
    && (h.TokenDropping? ==> PhaseOf(s.word) == Closed && s.core == Future)
    && (h.TokenReleasing? ==> PhaseOf(s.word) == Closed && s.core == Vacant)
  }

  predicate RunnerOk(s: State, p: RunPoint) {
    match p
    case Scheduling => s.core == Future
    case Queued => s.core == Future
    case Loaded(n, c) => s.core == Future && n <= s.word.wake && (if c then s.word.closed else n > 0)
    case Polled(n) => s.core == Future && 0 < n <= s.word.wake && n + s.issued <= s.polledAt + s.word.wake
    case Publishing => s.core == Future
    case Completing => s.core == Output
    case Discarding => s.core == Output && (s.word.closed || s.word.refs == 0)
    case Clearing => s.core == Vacant && (s.word.closed || s.word.refs == 0)
    case CancelDropping => s.core == Future
    case CancelClosing => s.core == Vacant
  }

  predicate ReaperOk(s: State, d: Duty) {
    match d
    case Reaping(c) => s.core == c && c != Vacant
    case Freeing => s.core == Vacant
  }

  ghost predicate OwnersOk(s: State) {
    && (forall k :: k in s.handles ==> HandleOk(s, s.handles[k]))
    && (forall k :: k in s.runners ==> RunnerOk(s, s.runners[k]))
    && (forall k :: k in s.reapers ==> ReaperOk(s, s.reapers[k]))
  }

  predicate Busy(h: Handle) { h.PromiseTaking? || h.TokenDropping? }

  ghost predicate AnyBusy(handles: map<nat, Handle>) {
    exists k :: k in handles && Busy(handles[k])
  }

  /** With nobody working on the core, the flags alone say what it holds. */
  ghost predicate CoreAtRest(s: State) {
    |s.handles| > 0 && |s.runners| == 0 && !AnyBusy(s.handles) ==>
      s.core == match PhaseOf(s.word)
                case Polling => Future
                case Completed => Output
                case WindDown => Future
                case Closed => Vacant
  }

  predicate WakesTracked(s: State) {
    && s.word.wake <= s.issued
    && s.polledAt <= s.issued
    && (Idle(s.word) ==> s.polledAt == s.issued)
  }

  predicate Conserved(s: State) {
    && s.futureDrops == One(s.core != Future)
    && s.outputTakes + One(s.core == Output) == s.outputStores <= s.futureDrops
    && s.frees == One(s.freed)
    && (s.freed ==> s.core == Vacant)
  }

  /** The counters, and the number of owners of each kind. */
  ghost predicate CountsOk(s: State) {
    && !s.fault
    && RunnableTracked(s)
    && HandlesTracked(s)
    && LastIsAlone(s)
    && WakesTracked(s)
    && Conserved(s)
  }

  ghost predicate Inv(s: State) {
    CountsOk(s) && OwnersOk(s) && CoreAtRest(s)
  }

  // --- Owners after a change -------------------------------------------------

  lemma PutHandle(m: map<nat, Handle>, k: nat, h: Handle)
    ensures |m[k := h]| == |m| + One(k !in m)
    ensures Busy(h) ==> AnyBusy(m[k := h])
    ensures !Busy(h) && (k in m ==> !Busy(m[k])) ==> (AnyBusy(m[k := h]) <==> AnyBusy(m))
  {
    var m' := m[k := h];
    assert m'[k] == h;
    if j :| j in m && Busy(m[j]) && j != k { assert m'[j] == m[j]; }
    if j :| j in m' && Busy(m'[j]) && j != k { assert m[j] == m'[j]; }
  }

  lemma RemoveHandle(m: map<nat, Handle>, k: nat)
    requires k in m
    ensures |m - {k}| == |m| - 1
    ensures !Busy(m[k]) ==> (AnyBusy(m - {k}) <==> AnyBusy(m))
  {
    var m' := m - {k};
    assert m'.Keys == m.Keys - {k};
    if j :| j in m && Busy(m[j]) && j != k { assert m'[j] == m[j]; }
    if j :| j in m' && Busy(m'[j]) { assert m[j] == m'[j]; }
  }

  lemma RemoveOwner<V>(m: map<nat, V>, k: nat)
    requires k in m
    ensures |m - {k}| == |m| - 1
  {
    assert (m - {k}).Keys == m.Keys - {k};
  }

  lemma OnlyOne<V>(m: map<nat, V>, k: nat)
    requires |m| <= 1 && k in m
    ensures |m| == 1 && forall j :: j in m ==> j == k
  {
    assert |m.Keys - {k}| == |m.Keys| - 1;
  }

  // --- Preservation ---------------------------------------------------------

  lemma InitHolds(s: State)
    requires Init(s)
    ensures Inv(s)
  {
  }

  lemma CloneCounts(s: State, s': State, k: nat, n: nat)
    requires Inv(s) && (NextStep(s, s', OfHandle(k, SClone(n))) || NextStep(s, s', OfRunner(k, SContextClone(n))))
    ensures CountsOk(s')
  {
    PutHandle(s.handles, n, Waker);
  }

  lemma CloneOwners(s: State, s': State, k: nat, n: nat)
    requires Inv(s) && (NextStep(s, s', OfHandle(k, SClone(n))) || NextStep(s, s', OfRunner(k, SContextClone(n))))
    ensures OwnersOk(s') && CoreAtRest(s')
  {
    PutHandle(s.handles, n, Waker);
  }

  lemma CloneKeeps(s: State, s': State, k: nat, n: nat)
    requires Inv(s) && (NextStep(s, s', OfHandle(k, SClone(n))) || NextStep(s, s', OfRunner(k, SContextClone(n))))
    ensures Inv(s')
  {
    CloneCounts(s, s', k, n);
    CloneOwners(s, s', k, n);
  }

  lemma WakeByRefCounts(s: State, s': State, k: nat, n: nat)
    requires Inv(s) && (NextStep(s, s', OfHandle(k, SWakeByRef(n))) || NextStep(s, s', OfRunner(k, SContextWake(n))))
    ensures CountsOk(s')
  {
  }

  lemma WakeByRefOwners(s: State, s': State, k: nat, n: nat)
    requires Inv(s) && (NextStep(s, s', OfHandle(k, SWakeByRef(n))) || NextStep(s, s', OfRunner(k, SContextWake(n))))
    ensures OwnersOk(s') && CoreAtRest(s')
  {
  }

  lemma WakeByRefKeeps(s: State, s': State, k: nat, n: nat)
    requires Inv(s) && (NextStep(s, s', OfHandle(k, SWakeByRef(n))) || NextStep(s, s', OfRunner(k, SContextWake(n))))
    ensures Inv(s')
  {
    WakeByRefCounts(s, s', k, n);
    WakeByRefOwners(s, s', k, n);
  }

  lemma WakeByValTracked(s: State, s': State, k: nat, n: nat)
    requires Inv(s) && NextStep(s, s', OfHandle(k, SWakeByVal(n)))
    ensures RunnableTracked(s') && HandlesTracked(s') && WakesTracked(s')
  {
    RemoveHandle(s.handles, k);
  }

  lemma WakeByValLast(s: State, s': State, k: nat, n: nat)
    requires Inv(s) && NextStep(s, s', OfHandle(k, SWakeByVal(n)))
    ensures !s'.fault && LastIsAlone(s') && Conserved(s')
  {
    RemoveHandle(s.handles, k);
  }

  lemma WakeByValOwners(s: State, s': State, k: nat, n: nat)
    requires Inv(s) && NextStep(s, s', OfHandle(k, SWakeByVal(n)))
    ensures OwnersOk(s')
  {
    RemoveHandle(s.handles, k);
  }

  lemma WakeByValCore(s: State, s': State, k: nat, n: nat)
    requires Inv(s) && NextStep(s, s', OfHandle(k, SWakeByVal(n)))
    ensures CoreAtRest(s')
  {
    RemoveHandle(s.handles, k);
  }

  lemma WakeByValKeeps(s: State, s': State, k: nat, n: nat)
    requires Inv(s) && NextStep(s, s', OfHandle(k, SWakeByVal(n)))
    ensures Inv(s')
  {
    WakeByValTracked(s, s', k, n);
    WakeByValLast(s, s', k, n);
    WakeByValOwners(s, s', k, n);
    WakeByValCore(s, s', k, n);
  }

  lemma DropCounts(s: State, s': State, k: nat)
    requires Inv(s) && NextStep(s, s', OfHandle(k, SDrop))
    ensures CountsOk(s')
  {
    RemoveHandle(s.handles, k);
  }

  lemma DropOwners(s: State, s': State, k: nat)
    requires Inv(s) && NextStep(s, s', OfHandle(k, SDrop))
    ensures OwnersOk(s') && CoreAtRest(s')
  {
    RemoveHandle(s.handles, k);
  }

  lemma DropKeeps(s: State, s': State, k: nat)
    requires Inv(s) && NextStep(s, s', OfHandle(k, SDrop))
    ensures Inv(s')
  {
    DropCounts(s, s', k);
    DropOwners(s, s', k);
  }

  lemma PromisePollKeeps(s: State, s': State, k: nat)
    requires Inv(s) && NextStep(s, s', OfHandle(k, SPromisePoll))
    ensures Inv(s')
  {
    PutHandle(s.handles, k, PromiseTaking);
  }

  lemma PromiseTakeKeeps(s: State, s': State, k: nat)
    requires Inv(s) && NextStep(s, s', OfHandle(k, SPromiseTake))
    ensures Inv(s')
  {
    PutHandle(s.handles, k, Promise);
  }

  lemma CancelIdleKeeps(s: State, s': State, k: nat)
    requires Inv(s) && NextStep(s, s', OfHandle(k, STokenCancel)) && Idle(s.word)
    ensures Inv(s')
  {
    PutHandle(s.handles, k, TokenDropping);
  }

  lemma CancelOtherCounts(s: State, s': State, k: nat)
    requires Inv(s) && NextStep(s, s', OfHandle(k, STokenCancel)) && !Idle(s.word)
    ensures CountsOk(s')
  {
    RemoveHandle(s.handles, k);
  }

  lemma CancelOtherOwners(s: State, s': State, k: nat)
    requires Inv(s) && NextStep(s, s', OfHandle(k, STokenCancel)) && !Idle(s.word)
    ensures OwnersOk(s') && CoreAtRest(s')
  {
    RemoveHandle(s.handles, k);
  }

  lemma CancelOtherKeeps(s: State, s': State, k: nat)
    requires Inv(s) && NextStep(s, s', OfHandle(k, STokenCancel)) && !Idle(s.word)
    ensures Inv(s')
  {
    CancelOtherCounts(s, s', k);
    CancelOtherOwners(s, s', k);
  }

  lemma TokenDropFutureKeeps(s: State, s': State, k: nat)
    requires Inv(s) && NextStep(s, s', OfHandle(k, STokenDropFuture))
    ensures Inv(s')
  {
    PutHandle(s.handles, k, TokenReleasing);
  }

  lemma TokenReleaseKeeps(s: State, s': State, k: nat)
    requires Inv(s) && NextStep(s, s', OfHandle(k, STokenRelease))
    ensures Inv(s')
  {
    RemoveHandle(s.handles, k);
  }

  lemma ReapKeeps(s: State, s': State, k: nat)
    requires Inv(s) && NextStep(s, s', OfReaper(k))
    ensures Inv(s')
  {
    OnlyOne(s.reapers, k);
    RemoveOwner(s.reapers, k);
  }

  lemma PendingCounts(s: State, s': State, k: nat)
    requires Inv(s) && NextStep(s, s', OfRunner(k, SPending))
    ensures CountsOk(s')
  {
    OnlyOne(s.runners, k);
    RemoveOwner(s.runners, k);
  }

  lemma PendingOwners(s: State, s': State, k: nat)
    requires Inv(s) && NextStep(s, s', OfRunner(k, SPending))
    ensures OwnersOk(s') && CoreAtRest(s')
  {
    OnlyOne(s.runners, k);
    RemoveOwner(s.runners, k);
  }

  lemma PendingKeeps(s: State, s': State, k: nat)
    requires Inv(s) && NextStep(s, s', OfRunner(k, SPending))
    ensures Inv(s')
  {
    PendingCounts(s, s', k);
    PendingOwners(s, s', k);
  }

  lemma CompleteKeeps(s: State, s': State, k: nat)
    requires Inv(s) && NextStep(s, s', OfRunner(k, SComplete))
    ensures Inv(s')
  {
    OnlyOne(s.runners, k);
    RemoveOwner(s.runners, k);
  }

  lemma LeaveCounts(s: State, s': State, k: nat, rs: RunStep)
    requires Inv(s) && NextStep(s, s', OfRunner(k, rs)) && (rs.SClear? || rs.SCancelClose?)
    ensures CountsOk(s')
  {
    OnlyOne(s.runners, k);
    RemoveOwner(s.runners, k);
  }

  lemma LeaveOwners(s: State, s': State, k: nat, rs: RunStep)
    requires Inv(s) && NextStep(s, s', OfRunner(k, rs)) && (rs.SClear? || rs.SCancelClose?)
    ensures OwnersOk(s') && CoreAtRest(s')
  {
    OnlyOne(s.runners, k);
    RemoveOwner(s.runners, k);
  }

  lemma LeaveKeeps(s: State, s': State, k: nat, rs: RunStep)
    requires Inv(s) && NextStep(s, s', OfRunner(k, rs)) && (rs.SClear? || rs.SCancelClose?)
    ensures Inv(s')
  {
    LeaveCounts(s, s', k, rs);
    LeaveOwners(s, s', k, rs);
  }

  lemma RunnerMoves(s: State, s': State, k: nat, rs: RunStep)
    requires Inv(s) && NextStep(s, s', OfRunner(k, rs))
    requires rs.SSchedule? || rs.SLoad? || rs.SDropRunnable? || rs.SBeginPoll? || rs.SReady? || rs.SPollPanic?
    ensures Inv(s')
  {
    OnlyOne(s.runners, k);
  }

  lemma RunnerDropsFuture(s: State, s': State, k: nat, rs: RunStep)
    requires Inv(s) && NextStep(s, s', OfRunner(k, rs)) && (rs.SPublish? || rs.SPublishPanic? || rs.SCancelDrop?)
    ensures Inv(s')
  {
    OnlyOne(s.runners, k);
  }

  lemma RunnerDropsOutput(s: State, s': State, k: nat, rs: RunStep)
    requires Inv(s) && NextStep(s, s', OfRunner(k, rs)) && (rs.SDiscard? || rs.SDiscardPanic?)
    ensures Inv(s')
  {
    OnlyOne(s.runners, k);
  }

  lemma HandleStepKeeps(s: State, s': State, k: nat, hs: HandleStep)
    requires Inv(s) && NextStep(s, s', OfHandle(k, hs))
    ensures Inv(s')
  {
    match hs
    case SClone(n) => CloneKeeps(s, s', k, n);
    case SWakeByRef(n) => WakeByRefKeeps(s, s', k, n);
    case SWakeByVal(n) => WakeByValKeeps(s, s', k, n);
    case SDrop => DropKeeps(s, s', k);
    case SPromisePoll => PromisePollKeeps(s, s', k);
    case SPromiseTake => PromiseTakeKeeps(s, s', k);
    case STokenCancel => if Idle(s.word) { CancelIdleKeeps(s, s', k); } else { CancelOtherKeeps(s, s', k); }
    case STokenDropFuture => TokenDropFutureKeeps(s, s', k);
    case STokenRelease => TokenReleaseKeeps(s, s', k);
  }

  lemma RunStepKeeps(s: State, s': State, k: nat, rs: RunStep)
    requires Inv(s) && NextStep(s, s', OfRunner(k, rs))
    ensures Inv(s')
  {
    match rs
    case SContextClone(n) => CloneKeeps(s, s', k, n);
    case SContextWake(n) => WakeByRefKeeps(s, s', k, n);
    case SPending => PendingKeeps(s, s', k);
    case SComplete => CompleteKeeps(s, s', k);
    case SClear => LeaveKeeps(s, s', k, rs);
    case SCancelClose => LeaveKeeps(s, s', k, rs);
    case SPublish => RunnerDropsFuture(s, s', k, rs);
    case SPublishPanic => RunnerDropsFuture(s, s', k, rs);
    case SCancelDrop => RunnerDropsFuture(s, s', k, rs);
    case SDiscard => RunnerDropsOutput(s, s', k, rs);
    case SDiscardPanic => RunnerDropsOutput(s, s', k, rs);
    case _ => RunnerMoves(s, s', k, rs);
  }

  lemma NextKeeps(s: State, s': State)
    requires Inv(s) && Next(s, s')
    ensures Inv(s')
  {
    var step :| NextStep(s, s', step);
    match step
    case OfHandle(k, hs) => HandleStepKeeps(s, s', k, hs);
    case OfRunner(k, rs) => RunStepKeeps(s, s', k, rs);
    case OfReaper(k) => ReapKeeps(s, s', k);
  }

  lemma StepKeeps(run: seq<State>, i: nat)
    requires IsRun(run) && 0 < i < |run| && Inv(run[i - 1])
    ensures Inv(run[i])
  {
    assert IsStep(run, i);
    NextKeeps(run[i - 1], run[i]);
  }

  lemma {:induction false} RunKeeps(run: seq<State>, i: nat)
    requires IsRun(run) && i < |run|
    ensures Inv(run[i])
  {
    if i == 0 {
      InitHolds(run[0]);
    } else {
      RunKeeps(run, i - 1);
      StepKeeps(run, i);
    }
  }

  // --- Theorems over whole runs ------------------------------------------------

  /** Two owners never work on the future or on the output at the same time. */
  ghost predicate CoreExclusive(s: State) {
    && (forall j, k :: j in s.handles && k in s.handles && Busy(s.handles[j]) && Busy(s.handles[k]) ==> j == k)
    && (forall j, k :: j in s.runners && k in s.runners ==> j == k)
    && (forall j, k :: j in s.reapers && k in s.reapers ==> j == k)
    && (AnyBusy(s.handles) ==> |s.runners| == 0)
    && (|s.reapers| > 0 ==> |s.handles| == 0 && |s.runners| == 0)
  }

  /**
    In every reachable state: no step has touched a freed task, the wrong variant
    of the core or an exhausted counter; the reference count is the number of
    live handles; there is at most one Runnable, exactly when the flags say so;
    the core has at most one user; the future is dropped, the output disposed of
    and the task freed at most once.
  */
  lemma TaskSafety(run: seq<State>, i: nat)
    requires IsRun(run) && i < |run|
    ensures !run[i].fault
    ensures run[i].word.refs == |run[i].handles|
    ensures |run[i].runners| == One(RunnableExists(run[i].word))
    ensures CoreExclusive(run[i])
    ensures run[i].futureDrops <= 1 && run[i].outputTakes <= run[i].outputStores <= 1 && run[i].frees <= 1
  {
    RunKeeps(run, i);
    var s := run[i];
    forall j, k | j in s.runners && k in s.runners ensures j == k { OnlyOne(s.runners, k); }
    forall j, k | j in s.reapers && k in s.reapers ensures j == k { OnlyOne(s.reapers, k); }
  }

  /**
    The task is freed exactly when its last owner is gone, and by then the
    future was dropped exactly once and no output is left behind.
  */
  lemma FreedExactlyAtTheEnd(run: seq<State>, i: nat)
    requires IsRun(run) && i < |run|
    ensures var s := run[i];
            && (s.frees == 1 <==> s.handles == map[] && s.runners == map[] && s.reapers == map[])
            && (s.frees == 1 ==> s.core == Vacant && s.futureDrops == 1 && s.outputTakes == s.outputStores)
  {
    RunKeeps(run, i);
  }

  /** The order in which phases may follow one another. */
  predicate PhaseLe(p: Phase, q: Phase) {
    p == q || p == Polling || q == Closed
  }

  lemma WakerStepAdvances(s: State, k: nat, hs: HandleStep)
    requires hs.SClone? || hs.SWakeByRef? || hs.SWakeByVal? || hs.SDrop?
    ensures var s' := HandleEffect(s, k, hs); PhaseLe(PhaseOf(s.word), PhaseOf(s'.word)) && s.issued <= s'.issued
  {
    match hs
    case SClone(n) =>
    case SWakeByRef(n) =>
    case SWakeByVal(n) =>
    case SDrop =>
  }

  lemma TokenStepAdvances(s: State, k: nat, hs: HandleStep)
    requires hs.STokenCancel? || hs.STokenDropFuture? || hs.STokenRelease?
    ensures var s' := HandleEffect(s, k, hs); PhaseLe(PhaseOf(s.word), PhaseOf(s'.word)) && s.issued <= s'.issued
  {
    match hs
    case STokenCancel =>
    case STokenDropFuture =>
    case STokenRelease =>
  }

  lemma HandleStepAdvances(s: State, k: nat, hs: HandleStep)
    ensures var s' := HandleEffect(s, k, hs); PhaseLe(PhaseOf(s.word), PhaseOf(s'.word)) && s.issued <= s'.issued
  {
    match hs
    case SPromisePoll =>
    case SPromiseTake =>
    case STokenCancel => TokenStepAdvances(s, k, hs);
    case STokenDropFuture => TokenStepAdvances(s, k, hs);
    case STokenRelease => TokenStepAdvances(s, k, hs);
    case _ => WakerStepAdvances(s, k, hs);
  }

  lemma RunStepAdvances(s: State, k: nat, p: RunPoint, rs: RunStep)
    requires RunEnabled(s, p, rs)
    ensures var s' := RunEffect(s, k, p, rs); PhaseLe(PhaseOf(s.word), PhaseOf(s'.word)) && s.issued <= s'.issued
  {
    match rs
    case SContextClone(n) =>
    case SContextWake(n) =>
    case SBeginPoll =>
    case SPending =>
    case SPublish =>
    case SPublishPanic =>
    case SComplete =>
    case SDiscard =>
    case SDiscardPanic =>
    case SClear =>
    case SCancelDrop =>
    case SCancelClose =>
    case _ =>
  }

  lemma NextAdvances(s: State, s': State)
    requires Next(s, s')
    ensures PhaseLe(PhaseOf(s.word), PhaseOf(s'.word)) && s.issued <= s'.issued
  {
    var step :| NextStep(s, s', step);
    match step
    case OfHandle(k, hs) => HandleStepAdvances(Touch(s), k, hs);
    case OfRunner(k, rs) => RunStepAdvances(Touch(s), k, s.runners[k], rs);
    case OfReaper(k) =>
  }

  lemma StepAdvances(run: seq<State>, i: nat)
    requires IsRun(run) && 0 < i < |run|
    ensures PhaseLe(PhaseOf(run[i - 1].word), PhaseOf(run[i].word)) && run[i - 1].issued <= run[i].issued
  {
    assert IsStep(run, i);
    NextAdvances(run[i - 1], run[i]);
  }

  lemma {:induction false} PhasesAdvance(run: seq<State>, i: nat, j: nat)
    requires IsRun(run) && i <= j < |run|
    ensures PhaseLe(PhaseOf(run[i].word), PhaseOf(run[j].word))
    decreases j
  {
    if i < j {
      PhasesAdvance(run, i, j - 1);
      StepAdvances(run, j);
    }
  }

  datatype Stage = Ready | Pending | Cancelled

  /** What Promise::poll reports. */
  function PollStage(w: Word): Stage {
    if !w.polling && !w.closed then Ready
    else if w.closed then Cancelled
    else Pending
  }

  /** A poll reports Ready at most once in a run, and Pending never after anything else. */
  lemma PollReportsOnce(run: seq<State>, i: nat, j: nat, k: nat)
    requires IsRun(run) && i < j < |run|
    requires NextStep(run[i], run[i + 1], OfHandle(k, SPromisePoll))
    requires PollStage(run[i].word) != Pending
    ensures PollStage(run[j].word) == Cancelled
  {
    PhasesAdvance(run, i + 1, j);
  }

  lemma RunTracks(run: seq<State>, i: nat)
    requires IsRun(run) && i < |run|
    ensures WakesTracked(run[i]) && RunnableTracked(run[i])
  {
    RunKeeps(run, i);
  }

  /** What a poll reports is what happens to the promise: it is given the output exactly if Ready is reported. */
  lemma PollReports(run: seq<State>, i: nat, k: nat)
    requires IsRun(run) && i + 1 < |run| && NextStep(run[i], run[i + 1], OfHandle(k, SPromisePoll))
    ensures k in run[i + 1].handles
    ensures PollStage(run[i].word) == Ready <==> run[i + 1].handles[k] == PromiseTaking
    ensures PollStage(run[i].word) == Ready <==> PhaseOf(run[i].word) == Completed
    ensures PollStage(run[i].word) == Ready ==> run[i + 1].core == Output && PhaseOf(run[i + 1].word) == Closed
    ensures PollStage(run[i].word) == Cancelled <==> run[i].word.closed
    ensures PollStage(run[i].word) != Ready ==> run[i + 1] == run[i]
  {
    RunKeeps(run, i);
    RunKeeps(run, i + 1);
    var s := run[i + 1];
    if s.handles[k] == PromiseTaking { assert HandleOk(s, s.handles[k]); }
  }

  // --- Cancellation ---------------------------------------------------------------------------

  /** A Runnable that has seen an open task or is polling it. */
  predicate IsCommitted(p: RunPoint) { p.Polled? || (p.Loaded? && !p.closedSeen) }

  /** The task is closed, and no Runnable is on its way to a poll. */
  ghost predicate IsPast(s: State) { s.word.closed && forall k :: k in s.runners ==> !IsCommitted(s.runners[k]) }

  lemma HandleStepPast(s: State, k: nat, hs: HandleStep)
    requires IsPast(s) && k in s.handles && HandleEnabled(s, s.handles[k], hs)
    ensures IsPast(HandleEffect(s, k, hs))
  {
  }

  lemma RunStepPast(s: State, k: nat, rs: RunStep)
    requires IsPast(s) && k in s.runners && RunEnabled(s, s.runners[k], rs)
    ensures IsPast(RunEffect(s, k, s.runners[k], rs))
  {
  }

  lemma StepPast(run: seq<State>, i: nat)
    requires IsRun(run) && 0 < i < |run| && IsPast(run[i - 1])
    ensures IsPast(run[i])
  {
    assert IsStep(run, i);
    var s := run[i - 1];
    var step :| NextStep(s, run[i], step);
    match step
    case OfHandle(k, hs) => HandleStepPast(Touch(s), k, hs);
    case OfRunner(k, rs) => RunStepPast(Touch(s), k, rs);
    case OfReaper(k) =>
  }

  /** A closed task is not polled again, unless its Runnable had seen it open. */
  lemma {:induction false} ClosedIsNotPolled(run: seq<State>, i: nat, j: nat)
    requires IsRun(run) && i <= j < |run| && IsPast(run[i])
    ensures run[j].word.closed && forall k :: k in run[j].runners ==> !run[j].runners[k].Polled?
    ensures IsPast(run[j])
    decreases j
  {
    if i < j {
      ClosedIsNotPolled(run, i, j - 1);
      StepPast(run, j);
    }
  }

  /** Cancelling closes a task that is not completed, for ever; an idle task is closed by the token itself. */
  lemma CancelCloses(run: seq<State>, i: nat, j: nat, k: nat)
    requires IsRun(run) && i < j < |run| && NextStep(run[i], run[i + 1], OfHandle(k, STokenCancel))
    ensures run[i].word.polling ==> run[j].word.closed
    ensures Idle(run[i].word) ==> run[i + 1].handles == run[i].handles[k := TokenDropping] && !run[i + 1].word.polling
    ensures !Idle(run[i].word) ==> run[i + 1].handles == run[i].handles - {k}
    ensures !run[i].word.polling ==> PhaseOf(run[i + 1].word) == PhaseOf(run[i].word)
  {
    PhasesAdvance(run, i + 1, j);
  }

  // --- A Runnable by itself -------------------------------------------------------------------

  /** The steps `rs` of the Runnable `k`, one after the other, lead from `s` to `t`. */
  ghost predicate Leads(s: State, k: nat, rs: seq<RunStep>, t: State)
    decreases |rs|
  {
    if rs == [] then s == t
    else
      && k in s.runners && RunEnabled(s, s.runners[k], rs[0])
      && Leads(RunEffect(Touch(s), k, s.runners[k], rs[0]), k, rs[1..], t)
  }

  lemma LeadsMore(s: State, k: nat, r: RunStep, s': State, rs: seq<RunStep>, t: State)
    requires NextStep(s, s', OfRunner(k, r)) && Leads(s', k, rs, t)
    ensures Leads(s, k, [r] + rs, t)
  {
    assert ([r] + rs)[1..] == rs;
  }

  /** The head of `run`: an open task is polled, having seen all wake-ups; a closed one is about to be cancelled. */
  lemma RunBegins(s: State, k: nat) returns (t: State)
    requires Inv(s) && k in s.runners && s.runners[k].Queued?
    ensures Leads(s, k, [SLoad, SBeginPoll], t) && t.word == s.word && t.core == Future && !t.fault
    ensures k in t.runners && t.runners[k] == if s.word.closed then CancelDropping else Polled(s.word.wake)
    ensures t.polledAt == if s.word.closed then s.polledAt else s.issued
    ensures t.handles == s.handles && t.reapers == s.reapers && t.runners.Keys == s.runners.Keys
    ensures t.issued == s.issued && t.futureDrops == s.futureDrops && t.outputStores == s.outputStores
  {
    var s1 := RunEffect(Touch(s), k, s.runners[k], SLoad);
    t := RunEffect(Touch(s1), k, s1.runners[k], SBeginPoll);
    RunnerMoves(s, s1, k, SLoad);
    RunnerMoves(s1, t, k, SBeginPoll);
    assert Leads(t, k, [], t);
    LeadsMore(s1, k, SBeginPoll, t, [], t);
    LeadsMore(s, k, SLoad, s1, [SBeginPoll], t);
  }

  /** `cancel` drops the future and closes the task; the last owner frees it. */
  lemma CancelEnds(s: State, k: nat) returns (t: State)
    requires Inv(s) && k in s.runners && s.runners[k].CancelDropping?
    ensures Leads(s, k, [SCancelDrop, SCancelClose], t)
    ensures PhaseOf(t.word) == Closed && t.core == Vacant && t.runners == s.runners - {k}
    ensures t.futureDrops == s.futureDrops + 1 && t.outputStores == s.outputStores
  {
    var s1 := RunEffect(Touch(s), k, s.runners[k], SCancelDrop);
    t := RunEffect(Touch(s1), k, s1.runners[k], SCancelClose);
    assert Leads(t, k, [], t);
    LeadsMore(s1, k, SCancelClose, t, [], t);
    LeadsMore(s, k, SCancelDrop, s1, [SCancelClose], t);
  }

  lemma PublishEnds(s: State, k: nat) returns (t: State)
    requires k in s.runners && s.runners[k].Publishing? && !s.word.closed && s.word.refs > 0
    ensures Leads(s, k, [SPublish, SComplete], t)
    ensures PhaseOf(t.word) == Completed && t.core == Output && t.runners == s.runners - {k}
    ensures t.futureDrops == s.futureDrops + 1 && t.outputStores == s.outputStores + 1
  {
    var s1 := RunEffect(Touch(s), k, s.runners[k], SPublish);
    t := RunEffect(Touch(s1), k, s1.runners[k], SComplete);
    assert Leads(t, k, [], t);
    LeadsMore(s1, k, SComplete, t, [], t);
    LeadsMore(s, k, SPublish, s1, [SComplete], t);
  }

  /** A poll that is ready, while somebody may still want the output of an open task, completes it. */
  lemma ReadyEnds(s: State, k: nat) returns (t: State)
    requires k in s.runners && s.runners[k].Polled? && !s.word.closed && s.word.refs > 0
    ensures Leads(s, k, [SReady, SPublish, SComplete], t)
    ensures PhaseOf(t.word) == Completed && t.core == Output && t.runners == s.runners - {k}
    ensures t.futureDrops == s.futureDrops + 1 && t.outputStores == s.outputStores + 1
  {
    var s1 := RunEffect(Touch(s), k, s.runners[k], SReady);
    t := PublishEnds(s1, k);
    LeadsMore(s, k, SReady, s1, [SPublish, SComplete], t);
  }

  /**
    A poll that is pending leaves an idle task if nothing has happened since the word was last
    read; after a wake-up or a cancellation it looks at the task again.
  */
  lemma PendingEnds(s: State, s': State, k: nat)
    requires Inv(s) && NextStep(s, s', OfRunner(k, SPending))
    ensures var seen := s.runners[k].seen;
            if s.word.wake == seen && !s.word.closed then k !in s'.runners && Idle(s'.word)
            else k in s'.runners && s'.runners[k] == Loaded(s.word.wake - seen, s.word.closed)
    ensures s'.word.closed == s.word.closed && s'.word.refs == s.word.refs
  {
    PendingKeeps(s, s', k);
  }

  /**
    No wake-up is lost: an idle task has started a poll after every wake-up
    issued so far; and as long as a wake-up has not been followed by the start
    of a poll, an uncancelled task has a Runnable.
  */
  lemma {:induction false} NoLostWakeUp(run: seq<State>, i: nat, j: nat)
    requires IsRun(run) && i <= j < |run|
    ensures run[i].issued <= run[j].issued
    ensures Idle(run[j].word) ==> run[i].issued <= run[j].polledAt
    ensures PhaseOf(run[j].word) == Polling && run[j].polledAt < run[i].issued ==> |run[j].runners| == 1
    decreases j
  {
    RunTracks(run, j);
    if i < j {
      NoLostWakeUp(run, i, j - 1);
      StepAdvances(run, j);
    }
  }

  /** A wake-up creates a Runnable if and only if it finds the task idle. */
  lemma WakeCreatesRunnable(run: seq<State>, i: nat, k: nat, n: nat)
    requires IsRun(run) && i + 1 < |run|
    requires || NextStep(run[i], run[i + 1], OfHandle(k, SWakeByRef(n)))
             || NextStep(run[i], run[i + 1], OfHandle(k, SWakeByVal(n)))
             || NextStep(run[i], run[i + 1], OfRunner(k, SContextWake(n)))
    ensures |run[i + 1].runners| == |run[i].runners| + One(Idle(run[i].word))
    ensures PhaseOf(run[i].word) == Polling ==> |run[i + 1].runners| == 1
  {
    RunKeeps(run, i);
    RunKeeps(run, i + 1);
  }
}
