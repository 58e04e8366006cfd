/**
  The multi-threaded executor: a pool of workers with local queues and a
  non-stealable fast slot, a shared injector, a bit set of active workers, and a
  main thread that waits until the pool is idle.

  Every access to a shared word, every critical section of the injector and every
  operation on a local queue is one step.  The local queues are work-stealing
  queues of which only the abstract behaviour is used: a push may find the queue
  full, a steal may fail spuriously.  The source's assertions and unwraps raise
  `fault`, and so does a search counter that would fall below zero.
*/
module WorkerPool {
  import opened Wrappers

  type Task = nat

  const BUCKET_SIZE: nat := 128
  const QUEUE_SIZE: nat := 256

  /**
    The points of the loop of a worker.

    - Deactivation: flush the message count, clear the bit or find oneself last.
    - Search: the injector first, then the other active workers.
    - Processing of local tasks.
    - Scheduling a task while another one occupies the fast slot.
    - Activation of another worker.
  */
  datatype Pc =
    | Flushing | Deactivating | LastCheck | Quitting | WakingMain | Parked
    | Probing | Popping | PopFlag(got: seq<Task>) | Filling(got: seq<Task>)
    | Scanning | Stealing(victims: set<nat>) | Ending
    | Working | Running
    | Displaced(prev: Task) | Injecting(tasks: seq<Task>, single: bool, kept: Option<Task>)
    | InjectFlag(kept: Option<Task>, wasEmpty: bool) | Repushing(prev: Task)
    | Notifying | Loading | Selecting(seen: set<nat>) | Counting(target: nat) | Unparking(target: nat)

  /** How far the activation of a parked worker has gone, and who carries it out. */
  datatype Summon = NoCall | Marked(caller: nat) | Counted(caller: nat) | Ready

  /** `summon.Ready?` is the parker's token; `debt` counts messages not yet accounted for. */
  datatype Worker = Worker(
    pc: Pc,
    fast: Option<Task>,
    queue: seq<Task>,
    summon: Summon,
    searching: bool,
    count: int,
    debt: int)

  datatype Main =
    | Starting
    | Resting
    | MLoading
    | MSelecting(seen: set<nat>)
    | MCounting(target: nat)
    | MUnparking(target: nat)
    | Checking
    | Waiting
    | Reading
    | Halted(unprocessed: int)

  datatype State = State(
    active: set<nat>,
    searching: int,
    inner: seq<seq<Task>>,
    emptyFlag: bool,
    lock: Option<nat>,
    workers: seq<Worker>,
    main: Main,
    mainToken: bool,
    msgCount: int,
    fault: bool,
    // History: messages pushed and popped, tasks scheduled and tasks run.
    pushed: int,
    popped: int,
    scheduled: multiset<Task>,
    ran: multiset<Task>)

  ghost predicate Init(s: State) {
    && |s.workers| >= 1
    && (forall w :: 0 <= w < |s.workers| ==> s.workers[w] == Worker(Flushing, None, [], NoCall, false, 0, 0))
    && (forall w :: w in s.active <==> IsWorker(s, w))
    && s.searching == 0 && s.inner == [] && s.emptyFlag && s.lock == None
    && s.main == Starting && !s.mainToken && s.msgCount == 0 && !s.fault
    && s.pushed == 0 && s.popped == 0 && s.scheduled == multiset{} && s.ran == multiset{}
  }

  // --- Injector ---------------------------------------------------------------

  /** A single task goes to the first bucket; a full one is first moved to the back. */
  function InsertTask(inner: seq<seq<Task>>, t: Task): seq<seq<Task>> {
    if inner == [] then [[t]]
    else if |inner[0]| < BUCKET_SIZE then inner[0 := inner[0] + [t]]
    else inner[0 := [t]] + [inner[0]]
  }

  /** A whole bucket goes to the back. */
  function Received(inner: seq<seq<Task>>, tasks: seq<Task>, single: bool): seq<seq<Task>>
    requires |tasks| > 0
  {
    if single then InsertTask(inner, tasks[0]) else inner + [tasks]
  }

  function BucketTasks(inner: seq<seq<Task>>): multiset<Task> {
    if inner == [] then multiset{} else BucketTasks(inner[..|inner| - 1]) + multiset(inner[|inner| - 1])
  }

  // --- Worker steps --------------------------------------------------------------

  predicate IsWorker(s: State, w: nat) { w < |s.workers| }

  function Put(s: State, w: nat, x: Worker): State
    requires IsWorker(s, w)
  {
    s.(workers := s.workers[w := x])
  }

  function Move(s: State, w: nat, pc: Pc): State
    requires IsWorker(s, w)
  {
    Put(s, w, s.workers[w].(pc := pc))
  }

  function Flush(s: State, w: nat): State
    requires IsWorker(s, w)
  {
    Put(s, w, s.workers[w].(pc := Deactivating, count := 0)).(msgCount := s.msgCount + s.workers[w].count)
  }

  function Deactivate(s: State, w: nat): State
    requires IsWorker(s, w)
  {
    var s := s.(fault := s.fault || w !in s.active);
    if s.active == {w} then Move(s, w, LastCheck) else Move(s, w, Parked).(active := s.active - {w})
  }

  function Quit(s: State, w: nat): State
    requires IsWorker(s, w)
  {
    Move(s, w, WakingMain).(active := {})
  }

  function WakeMain(s: State, w: nat): State
    requires IsWorker(s, w)
  {
    Move(s, w, Parked).(mainToken := true)
  }

  function Unpark(s: State, w: nat): State
    requires IsWorker(s, w)
  {
    Put(s, w, s.workers[w].(pc := Probing, summon := NoCall))
  }

  function BeginSearch(s: State, w: nat): State
    requires IsWorker(s, w)
  {
    Put(s, w, s.workers[w].(pc := Probing, searching := true)).(searching := s.searching + 1)
  }

  function EndSearch(s: State, w: nat, pc: Pc): State
    requires IsWorker(s, w)
  {
    Put(s, w, s.workers[w].(pc := pc, searching := false)).(
      searching := s.searching - 1, fault := s.fault || s.searching <= 0)
  }

  function PopBucket(s: State, w: nat): State
    requires IsWorker(s, w)
  {
    var last := |s.inner| - 1;
    if last < 0 then Move(s, w, PopFlag([])).(lock := Some(w))
    else Move(s, w, PopFlag(s.inner[last])).(lock := Some(w), inner := s.inner[..last])
  }

  function StorePopFlag(s: State, w: nat, got: seq<Task>): State
    requires IsWorker(s, w)
  {
    Move(s, w, if got == [] then Scanning else Filling(got)).(
      lock := None, emptyFlag := if s.inner == [] then true else s.emptyFlag)
  }

  function Fill(s: State, w: nat, got: seq<Task>): State
    requires IsWorker(s, w)
  {
    Put(s, w, s.workers[w].(pc := Ending, queue := s.workers[w].queue + got))
  }

  /** `c` tasks are taken from the front of the victim's queue; the last one goes to the fast slot. */
  function Steal(s: State, w: nat, v: nat, c: nat): State
    requires IsWorker(s, w) && IsWorker(s, v) && w != v && 1 <= c <= |s.workers[v].queue|
  {
    var x, y := s.workers[w], s.workers[v];
    var taken := y.queue[..c];
    var s := Put(s, v, y.(queue := y.queue[c..])).(fault := s.fault || x.fast != None);
    Put(s, w, x.(pc := Ending, fast := Some(taken[c - 1]), queue := x.queue + taken[..c - 1]))
  }

  /** Run the next local task, or resume the search. */
  function Work(s: State, w: nat): State
    requires IsWorker(s, w)
  {
    var x := s.workers[w];
    if x.fast.Some? then Put(s, w, x.(pc := Running, fast := None)).(ran := s.ran + multiset{x.fast.value})
    else if x.queue != [] then Put(s, w, x.(pc := Running, queue := x.queue[1..])).(ran := s.ran + multiset{x.queue[0]})
    else BeginSearch(s, w)
  }

  function Schedule(s: State, w: nat, t: Task): State
    requires IsWorker(s, w)
  {
    var x := s.workers[w];
    var s := s.(scheduled := s.scheduled + multiset{t});
    Put(s, w, x.(fast := Some(t), pc := if x.fast.Some? then Displaced(x.fast.value) else Running))
  }

  /** Push the displaced task, or move half of the queue or the task alone to the injector. */
  function Displace(s: State, w: nat, prev: Task, pushes: bool, drains: bool): State
    requires IsWorker(s, w)
  {
    var x := s.workers[w];
    if |x.queue| < QUEUE_SIZE && pushes then Put(s, w, x.(pc := Notifying, queue := x.queue + [prev]))
    else if x.queue != [] && drains then
      var n := if |x.queue| < BUCKET_SIZE then |x.queue| else BUCKET_SIZE;
      Put(s, w, x.(pc := Injecting(x.queue[..n], false, Some(prev)), queue := x.queue[n..]))
    else Put(s, w, x.(pc := Injecting([prev], true, None)))
  }

  function Inject(s: State, w: nat, tasks: seq<Task>, single: bool, kept: Option<Task>): State
    requires IsWorker(s, w) && |tasks| > 0
  {
    Move(s, w, InjectFlag(kept, s.inner == [])).(
      lock := Some(w), inner := Received(s.inner, tasks, single))
  }

  function StoreInjectFlag(s: State, w: nat, kept: Option<Task>, wasEmpty: bool): State
    requires IsWorker(s, w)
  {
    Move(s, w, if kept.Some? then Repushing(kept.value) else Notifying).(
      lock := None, emptyFlag := if wasEmpty then false else s.emptyFlag)
  }

  function Repush(s: State, w: nat, prev: Task): State
    requires IsWorker(s, w)
  {
    var x := s.workers[w];
    if |x.queue| < QUEUE_SIZE then Put(s, w, x.(pc := Notifying, queue := x.queue + [prev]))
    else s.(fault := true)
  }

  /** `trailing_ones`: the first worker, below `n`, that is not in `seen`; `n` if there is none. */
  function FirstIdle(seen: set<nat>, i: nat, n: nat): (r: nat)
    requires i <= n
    ensures i <= r <= n && (r < n ==> r !in seen) && (forall j :: i <= j < r ==> j in seen)
    decreases n - i
  {
    if i == n || i !in seen then i else FirstIdle(seen, i + 1, n)
  }

  function Select(s: State, w: nat, seen: set<nat>): State
    requires IsWorker(s, w)
  {
    var b := FirstIdle(seen, 0, |s.workers|);
    if b == |s.workers| then Move(s, w, Running)
    else if b in s.active then Move(s, w, Selecting(s.active))
    else Put(Move(s, w, Counting(b)), b, s.workers[b].(summon := Marked(w))).(active := s.active + {b})
  }

  function CountFor(s: State, w: nat, b: nat): State
    requires IsWorker(s, w) && IsWorker(s, b)
  {
    Put(Move(s, w, Unparking(b)), b,
        s.workers[b].(summon := Counted(w), searching := true)).(searching := s.searching + 1)
  }

  function UnparkFor(s: State, w: nat, b: nat): State
    requires IsWorker(s, w) && IsWorker(s, b)
  {
    Put(Move(s, w, Running), b, s.workers[b].(summon := Ready))
  }

  // --- Main thread -----------------------------------------------------------------

  function MainId(s: State): nat { |s.workers| }

  function Spawn(s: State, t: Task): State {
    s.(inner := InsertTask(s.inner, t),
       emptyFlag := if s.inner == [] then false else s.emptyFlag,
       scheduled := s.scheduled + multiset{t})
  }

  function MSelect(s: State, seen: set<nat>): State {
    var b := FirstIdle(seen, 0, |s.workers|);
    if b == |s.workers| then s.(main := if s.active == seen then Checking else MSelecting(s.active))
    else if b in s.active then s.(main := MSelecting(s.active))
    else Put(s, b, s.workers[b].(summon := Marked(MainId(s)))).(active := s.active + {b}, main := MCounting(b))
  }

  function MCountFor(s: State, b: nat): State
    requires IsWorker(s, b)
  {
    Put(s, b, s.workers[b].(summon := Counted(MainId(s)), searching := true)).(
      searching := s.searching + 1, main := MUnparking(b))
  }

  function MUnparkFor(s: State, b: nat): State
    requires IsWorker(s, b)
  {
    Put(s, b, s.workers[b].(summon := Ready)).(main := Checking)
  }

  /** A message count that is not zero must be positive. */
  function ReadCount(s: State): State {
    s.(main := if s.msgCount == 0 then Resting else Halted(s.msgCount), fault := s.fault || s.msgCount < 0)
  }

  // --- Step relation -----------------------------------------------------------------

  datatype WorkerStep =
    | SFlush | SDeactivate | SLastCheck | SQuit | SWakeMain | SUnpark
    | SProbe | SPop | SPopFlag | SFill | SScan
    | SSteal(v: nat, c: nat) | SStealFails(v: nat) | SRetry | SGiveUp | SEnd
    | SWork | SSchedule(t: Task) | SSend | SRecv | SCountMsg | SDone
    | SDisplace(pushes: bool, drains: bool) | SInject | SInjectFlag | SRepush
    | SNotify | SLoad | SSelect | SCountFor | SUnparkFor

  datatype MainStep = MStart | MSpawn(t: Task) | MRun | MLoad | MPick | MCount | MUnpark | MCheck | MAwake | MRead

  datatype Step = OfWorker(w: nat, ws: WorkerStep) | OfMain(ms: MainStep)

  predicate WorkerNext(s: State, s': State, w: nat, ws: WorkerStep)
    requires IsWorker(s, w)
  {
    var x := s.workers[w];
    match ws
    case SFlush => x.pc.Flushing? && s' == Flush(s, w)
    case SDeactivate => x.pc.Deactivating? && s' == Deactivate(s, w)
    case SLastCheck => x.pc.LastCheck? && s' == if s.emptyFlag then Move(s, w, Quitting) else BeginSearch(s, w)
    case SQuit => x.pc.Quitting? && s' == Quit(s, w)
    case SWakeMain => x.pc.WakingMain? && s' == WakeMain(s, w)
    case SUnpark => x.pc.Parked? && x.summon.Ready? && s' == Unpark(s, w)
    case SProbe => x.pc.Probing? && s' == Move(s, w, if s.emptyFlag then Scanning else Popping)
    case SPop => x.pc.Popping? && s.lock.None? && s' == PopBucket(s, w)
    case SPopFlag => x.pc.PopFlag? && s' == StorePopFlag(s, w, x.pc.got)
    case SFill => x.pc.Filling? && |x.queue| + |x.pc.got| <= QUEUE_SIZE && s' == Fill(s, w, x.pc.got)
    case SScan => x.pc.Scanning? && s' == Move(s, w, Stealing(s.active - {w}))
    case SSteal(v, c) =>
      x.pc.Stealing? && v in x.pc.victims && v < |s.workers| && v != w &&
      var n := |s.workers[v].queue|;
      1 <= c <= n - n / 2 && s' == Steal(s, w, v, c)
    case SStealFails(v) => x.pc.Stealing? && v in x.pc.victims && s' == Move(s, w, Stealing(x.pc.victims - {v}))
    case SRetry => x.pc.Stealing? && x.pc.victims == {} && s' == Move(s, w, Probing)
    case SGiveUp => x.pc.Stealing? && x.pc.victims == {} && s' == EndSearch(s, w, Flushing)
    case SEnd => x.pc.Ending? && s' == EndSearch(s, w, Working)
    case SWork => x.pc.Working? && s' == Work(s, w)
    case SSchedule(t) => x.pc.Running? && s' == Schedule(s, w, t)
    case SSend => x.pc.Running? && x.debt == 0 && s' == Put(s, w, x.(debt := 1)).(pushed := s.pushed + 1)
    case SRecv => x.pc.Running? && x.debt == 0 && s.popped < s.pushed &&
        s' == Put(s, w, x.(debt := -1)).(popped := s.popped + 1)
    case SCountMsg => x.pc.Running? && x.debt != 0 && s' == Put(s, w, x.(count := x.count + x.debt, debt := 0))
    case SDone => x.pc.Running? && x.debt == 0 && s' == Move(s, w, Working)
    case SDisplace(pushes, drains) => x.pc.Displaced? && s' == Displace(s, w, x.pc.prev, pushes, drains)
    case SInject =>
      x.pc.Injecting? && s.lock.None? && |x.pc.tasks| > 0 && s' == Inject(s, w, x.pc.tasks, x.pc.single, x.pc.kept)
    case SInjectFlag => x.pc.InjectFlag? && s' == StoreInjectFlag(s, w, x.pc.kept, x.pc.wasEmpty)
    case SRepush => x.pc.Repushing? && s' == Repush(s, w, x.pc.prev)
    case SNotify => x.pc.Notifying? && s' == Move(s, w, if s.searching == 0 then Loading else Running)
    case SLoad => x.pc.Loading? && s' == Move(s, w, Selecting(s.active))
    case SSelect => x.pc.Selecting? && s' == Select(s, w, x.pc.seen)
    case SCountFor => x.pc.Counting? && x.pc.target < |s.workers| && s' == CountFor(s, w, x.pc.target)
    case SUnparkFor => x.pc.Unparking? && x.pc.target < |s.workers| && s' == UnparkFor(s, w, x.pc.target)
  }

  predicate MainNext(s: State, s': State, ms: MainStep) {
    match ms
    case MStart => s.main.Starting? && s.mainToken &&
                   s' == s.(main := Resting, mainToken := false, fault := s.fault || s.active != {})
    case MSpawn(t) => s.main.Resting? && s.lock.None? && s' == Spawn(s, t)
    case MRun => s.main.Resting? && s' == s.(main := MLoading)
    case MLoad => s.main.MLoading? && s' == s.(main := MSelecting(s.active))
    case MPick => s.main.MSelecting? && s' == MSelect(s, s.main.seen)
    case MCount => s.main.MCounting? && s.main.target < |s.workers| && s' == MCountFor(s, s.main.target)
    case MUnpark => s.main.MUnparking? && s.main.target < |s.workers| && s' == MUnparkFor(s, s.main.target)
    case MCheck => s.main.Checking? && s' == s.(main := if s.active == {} then Reading else Waiting)
    case MAwake => s.main.Waiting? && s.mainToken && s' == s.(main := Checking, mainToken := false)
    case MRead => s.main.Reading? && s' == ReadCount(s)
  }

  predicate NextStep(s: State, s': State, step: Step) {
    match step
    case OfWorker(w, ws) => w < |s.workers| && WorkerNext(s, s', w, ws)
    case OfMain(ms) => MainNext(s, s', ms)
  }

  /** `run[i + 1]` follows from `run[i]` by `steps[i]`. */
  ghost predicate IsRun(run: seq<State>, steps: seq<Step>) {
    && |run| == |steps| + 1 && Init(run[0])
    && forall i {:trigger steps[i]} :: 0 <= i < |steps| ==> NextStep(run[i], run[i + 1], steps[i])
  }
}
