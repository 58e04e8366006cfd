/**
  What every run of the worker pool keeps: an invariant over the workers, the lock,
  the injector, the main thread and three sums, and what follows from it.
*/
module WorkerPoolInvariant {
  import opened Arithmetic
  import opened WorkerPool
  import opened Wrappers

  // --- Sums over workers ---------------------------------------------------------------

  function OptTasks(o: Option<Task>): multiset<Task> { if o.Some? then multiset{o.value} else multiset{} }

  /** Tasks carried from one place to another. */
  function Carried(pc: Pc): multiset<Task> {
    match pc
    case PopFlag(got) => multiset(got)
    case Filling(got) => multiset(got)
    case Displaced(prev) => multiset{prev}
    case Injecting(tasks, _, kept) => multiset(tasks) + OptTasks(kept)
    case InjectFlag(kept, _) => OptTasks(kept)
    case Repushing(prev) => multiset{prev}
    case _ => multiset{}
  }

  function TasksOf(x: Worker): multiset<Task> { OptTasks(x.fast) + multiset(x.queue) + Carried(x.pc) }

  function Tasks(ws: seq<Worker>): multiset<Task> {
    if ws == [] then multiset{} else Tasks(ws[..|ws| - 1]) + TasksOf(ws[|ws| - 1])
  }

  function Messages(ws: seq<Worker>): int {
    if ws == [] then 0 else Messages(ws[..|ws| - 1]) + ws[|ws| - 1].count + ws[|ws| - 1].debt
  }

  function Searchers(ws: seq<Worker>): int {
    if ws == [] then 0 else Searchers(ws[..|ws| - 1]) + One(ws[|ws| - 1].searching)
  }

  lemma Exchange(a: multiset<Task>, a': multiset<Task>, rest: multiset<Task>, was: multiset<Task>, now: multiset<Task>)
    requires a' + was == a + now
    ensures a' + rest + was == a + rest + now
  {
    assert a' + rest + was == a' + was + rest;
  }

  function Total(ms: seq<multiset<Task>>): multiset<Task> {
    if ms == [] then multiset{} else Total(ms[..|ms| - 1]) + ms[|ms| - 1]
  }

  function AllTasks(ws: seq<Worker>): seq<multiset<Task>> {
    seq(|ws|, w requires 0 <= w < |ws| => TasksOf(ws[w]))
  }

  lemma {:induction false} TasksAreTotal(ws: seq<Worker>)
    ensures Tasks(ws) == Total(AllTasks(ws))
  {
    if ws != [] {
      TasksAreTotal(ws[..|ws| - 1]);
      assert AllTasks(ws)[..|ws| - 1] == AllTasks(ws[..|ws| - 1]);
    }
  }

  lemma {:induction false} TotalAfterPut(ms: seq<multiset<Task>>, i: nat, m: multiset<Task>)
    requires i < |ms|
    ensures Total(ms[i := m]) + ms[i] == Total(ms) + m
  {
    var last := |ms| - 1;
    if i == last {
      assert ms[i := m][..last] == ms[..last];
    } else {
      assert ms[i := m][..last] == ms[..last][i := m];
      TotalAfterPut(ms[..last], i, m);
      Exchange(Total(ms[..last]), Total(ms[..last][i := m]), ms[last], ms[i], m);
    }
  }

  lemma AllTasksAfterPut(ws: seq<Worker>, w: nat, x: Worker, ms: seq<multiset<Task>>, m: multiset<Task>)
    requires w < |ws| && ms == AllTasks(ws) && m == TasksOf(x)
    ensures AllTasks(ws[w := x]) == ms[w := m] && ms[w] == TasksOf(ws[w])
  {
  }

  lemma {:induction false} TasksAfterPut(ws: seq<Worker>, w: nat, x: Worker)
    requires w < |ws|
    ensures Tasks(ws[w := x]) + TasksOf(ws[w]) == Tasks(ws) + TasksOf(x)
  {
    var ms := AllTasks(ws);
    TasksAreTotal(ws);
    TasksAreTotal(ws[w := x]);
    AllTasksAfterPut(ws, w, x, ms, TasksOf(x));
    TotalAfterPut(ms, w, TasksOf(x));
  }

  lemma {:induction false} CountsAfterPut(ws: seq<Worker>, w: nat, x: Worker)
    requires w < |ws|
    ensures Messages(ws[w := x]) == Messages(ws) - ws[w].count - ws[w].debt + x.count + x.debt
    ensures Searchers(ws[w := x]) == Searchers(ws) - One(ws[w].searching) + One(x.searching)
  {
    var last := |ws| - 1;
    if w == last {
      assert ws[w := x][..last] == ws[..last];
    } else {
      assert ws[w := x][..last] == ws[..last][w := x];
      CountsAfterPut(ws[..last], w, x);
    }
  }

  lemma {:induction false} NothingLeft(ws: seq<Worker>)
    requires forall w :: 0 <= w < |ws| ==> TasksOf(ws[w]) == multiset{} && ws[w].count == 0 && ws[w].debt == 0
    ensures Tasks(ws) == multiset{} && Messages(ws) == 0
  {
    if ws != [] { NothingLeft(ws[..|ws| - 1]); }
  }

  lemma {:induction false} SearcherCounted(ws: seq<Worker>, w: nat)
    requires w < |ws|
    ensures 0 <= Searchers(ws) && (ws[w].searching ==> Searchers(ws) > 0)
  {
    var last := |ws| - 1;
    if last > 0 { SearcherCounted(ws[..last], if w < last then w else 0); }
  }

  lemma {:induction false} BucketsAfterPut(inner: seq<seq<Task>>, i: nat, b: seq<Task>)
    requires i < |inner|
    ensures BucketTasks(inner[i := b]) + multiset(inner[i]) == BucketTasks(inner) + multiset(b)
  {
    var last := |inner| - 1;
    if i == last {
      assert inner[i := b][..last] == inner[..last];
    } else {
      assert inner[i := b][..last] == inner[..last][i := b];
      BucketsAfterPut(inner[..last], i, b);
      Exchange(BucketTasks(inner[..last]), BucketTasks(inner[..last][i := b]), multiset(inner[last]),
          multiset(inner[i]), multiset(b));
    }
  }

  lemma AppendBucket(inner: seq<seq<Task>>, b: seq<Task>)
    ensures BucketTasks(inner + [b]) == BucketTasks(inner) + multiset(b)
  {
    assert (inner + [b])[..|inner|] == inner;
  }

  lemma InsertTaskTasks(inner: seq<seq<Task>>, t: Task)
    ensures BucketTasks(InsertTask(inner, t)) == BucketTasks(inner) + multiset{t}
    ensures InsertTask(inner, t) != []
  {
    if inner == [] {
      assert [[t]][..0] == [];
    } else if |inner[0]| < BUCKET_SIZE {
      BucketsAfterPut(inner, 0, inner[0] + [t]);
      Cancel(BucketTasks(inner[0 := inner[0] + [t]]), BucketTasks(inner), multiset(inner[0]), t);
    } else {
      BucketsAfterPut(inner, 0, [t]);
      AppendBucket(inner[0 := [t]], inner[0]);
    }
  }

  lemma Cancel(a': multiset<Task>, a: multiset<Task>, b: multiset<Task>, t: Task)
    requires a' + b == a + (b + multiset{t})
    ensures a' == a + multiset{t}
  {
    assert a' == (a' + b) - b;
    assert a + multiset{t} == (a + (b + multiset{t})) - b;
  }

  // --- Invariant -------------------------------------------------------------------

  /** A worker that has left its loop and waits, or is about to wait, for its token. */
  predicate Rests(pc: Pc) { pc.WakingMain? || pc.Parked? }

  predicate InSearch(pc: Pc) {
    pc.Probing? || pc.Popping? || pc.PopFlag? || pc.Filling? || pc.Scanning? || pc.Stealing? || pc.Ending?
  }

  predicate HoldsLock(pc: Pc) { pc.PopFlag? || pc.InjectFlag? }

  predicate Calls(pc: Pc) { pc.Counting? || pc.Unparking? }

  /** Points at which the worker has found its own fast slot and queue empty. */
  predicate Drained(pc: Pc) {
    pc.Flushing? || pc.Deactivating? || pc.LastCheck? || pc.Quitting? || Rests(pc) || (InSearch(pc) && !pc.Ending?)
  }

  /** What a worker's own record satisfies, given whether its bit is set. */
  predicate LocalOk(x: Worker, isActive: bool) {
    && |x.queue| <= QUEUE_SIZE
    && (if Rests(x.pc) then
          && (isActive <==> x.summon != NoCall)
          && (x.searching <==> x.summon.Counted? || x.summon.Ready?)
        else
          isActive && x.summon == NoCall && (x.searching <==> InSearch(x.pc)))
    && (Drained(x.pc) ==> x.fast == None && x.queue == [] && x.debt == 0)
    && (Rests(x.pc) || x.pc.Deactivating? || x.pc.LastCheck? || x.pc.Quitting? ==> x.count == 0)
    && (x.pc.Ending? || x.pc.Working? ==> x.debt == 0)
    && (x.pc.PopFlag? || x.pc.Filling? ==> |x.pc.got| <= BUCKET_SIZE)
    && (x.pc.Injecting? ==> 0 < |x.pc.tasks| <= BUCKET_SIZE && (x.pc.single ==> |x.pc.tasks| == 1))
    && (((x.pc.Injecting? || x.pc.InjectFlag?) && x.pc.kept.Some?) || x.pc.Repushing? ==> |x.queue| < QUEUE_SIZE)
  }

  /** The last active worker is alone, and quits only with an empty injector. */
  predicate SoloOk(s: State, w: nat)
    requires IsWorker(s, w)
  {
    && (s.workers[w].pc.LastCheck? || s.workers[w].pc.Quitting? ==> s.active == {w})
    && (s.workers[w].pc.Quitting? ==> s.inner == [])
  }

  /** Callers and the workers they activate agree about each other. */
  predicate CallerOk(s: State, w: nat)
    requires IsWorker(s, w)
  {
    match s.workers[w].pc
    case Counting(b) => b < |s.workers| && s.workers[b].summon == Marked(w)
    case Unparking(b) => b < |s.workers| && s.workers[b].summon == Counted(w)
    case _ => true
  }

  predicate SummonOk(s: State, w: nat)
    requires IsWorker(s, w)
  {
    match s.workers[w].summon
    case Marked(c) => c <= |s.workers| &&
        if c == MainId(s) then s.main == MCounting(w) else s.workers[c].pc == Counting(w)
    case Counted(c) => c <= |s.workers| &&
        if c == MainId(s) then s.main == MUnparking(w) else s.workers[c].pc == Unparking(w)
    case _ => true
  }

  predicate WorkerOk(s: State, w: nat)
    requires IsWorker(s, w)
  {
    LocalOk(s.workers[w], w in s.active) && SoloOk(s, w) && CallerOk(s, w) && SummonOk(s, w)
  }

  ghost predicate WorkersOk(s: State) {
    && |s.workers| >= 1
    && (forall w :: w in s.active ==> w < |s.workers|)
    && (forall w :: 0 <= w < |s.workers| ==> WorkerOk(s, w))
  }

  ghost predicate LockOk(s: State) {
    && (s.lock.Some? ==> s.lock.value < |s.workers| && HoldsLock(s.workers[s.lock.value].pc))
    && (forall w :: 0 <= w < |s.workers| && HoldsLock(s.workers[w].pc) ==> s.lock == Some(w))
  }

  /** The hint may be wrong only while the worker that will correct it holds the lock. */
  predicate InjectorOk(s: State)
    requires s.lock.Some? ==> s.lock.value < |s.workers|
  {
    && (forall b :: b in s.inner ==> 0 < |b| <= BUCKET_SIZE)
    && (s.inner != [] ==>
          || !s.emptyFlag
          || (s.lock.Some? && var pc := s.workers[s.lock.value].pc; pc.InjectFlag? && pc.wasEmpty))
  }

  /** The main thread is between two runs. */
  predicate Quiet(m: Main) { m.Resting? || m.MLoading? || m.MSelecting? || m.Reading? || m.Halted? }

  /** The main thread has started a run, or the threads, and not seen the end of it. */
  predicate InRun(m: Main) {
    m.Starting? || m.MCounting? || m.MUnparking? || m.Checking? || m.Waiting? || m.Reading?
  }

  ghost predicate AnyWaking(s: State) { exists w :: 0 <= w < |s.workers| && s.workers[w].pc.WakingMain? }

  ghost predicate MainOk(s: State) {
    && (Quiet(s.main) ==> s.active == {})
    && (s.main.MSelecting? ==> s.main.seen == {})
    && (s.main.MCounting? ==> s.main.target < |s.workers| && s.workers[s.main.target].summon == Marked(MainId(s)))
    && (s.main.MUnparking? ==> s.main.target < |s.workers| && s.workers[s.main.target].summon == Counted(MainId(s)))
    && (InRun(s.main) && s.active == {} ==> s.inner == [])
    && (s.main.Starting? && (s.mainToken || AnyWaking(s)) ==> s.active == {})
    && (s.main.Starting? || s.main.Waiting? ==> s.active != {} || s.mainToken || AnyWaking(s))
    && (s.main.Halted? ==> s.main.unprocessed == s.pushed - s.popped != 0)
  }

  predicate SumsOk(s: State) {
    && s.searching == Searchers(s.workers)
    && s.msgCount + Messages(s.workers) == s.pushed - s.popped >= 0
    && s.scheduled == s.ran + BucketTasks(s.inner) + Tasks(s.workers)
  }

  ghost predicate Struct(s: State) {
    !s.fault && WorkersOk(s) && LockOk(s) && InjectorOk(s) && MainOk(s)
  }

  ghost predicate Inv(s: State) {
    Struct(s) && SumsOk(s)
  }

  // --- Bookkeeping -------------------------------------------------------------------

  lemma Rebalance(ran: multiset<Task>, b: multiset<Task>, t: multiset<Task>, was: multiset<Task>,
                  ran': multiset<Task>, b': multiset<Task>, t': multiset<Task>, now: multiset<Task>,
                  s: multiset<Task>, s': multiset<Task>)
    requires s == ran + b + t && t' + was == t + now && s' + ran + b + was == s + ran' + b' + now
    ensures s' == ran' + b' + t'
  {
    forall e ensures s'[e] == (ran' + b' + t')[e] {
      assert s[e] == ran[e] + b[e] + t[e];
      assert (t' + was)[e] == (t + now)[e];
      assert (s' + ran + b + was)[e] == (s + ran' + b' + now)[e];
    }
  }

  /** The sums stay exact when one worker changes, given what was moved where. */
  lemma Balanced(s: State, s': State, w: nat, x: Worker)
    requires SumsOk(s) && w < |s.workers| && s'.workers == s.workers[w := x]
    requires s'.searching - s.searching == One(x.searching) - One(s.workers[w].searching)
    requires s'.msgCount + x.count + x.debt - (s'.pushed - s'.popped) ==
             s.msgCount + s.workers[w].count + s.workers[w].debt - (s.pushed - s.popped)
    requires s'.popped <= s'.pushed
    requires s'.scheduled + s.ran + BucketTasks(s.inner) + TasksOf(s.workers[w]) ==
             s.scheduled + s'.ran + BucketTasks(s'.inner) + TasksOf(x)
    ensures SumsOk(s')
  {
    TasksAfterPut(s.workers, w, x);
    CountsAfterPut(s.workers, w, x);
    Rebalance(s.ran, BucketTasks(s.inner), Tasks(s.workers), TasksOf(s.workers[w]),
              s'.ran, BucketTasks(s'.inner), Tasks(s'.workers), TasksOf(x), s.scheduled, s'.scheduled);
  }

  /** A worker moves on without touching bits, lock, injector, main thread or other workers. */
  predicate Private(s: State, s': State, w: nat, x: Worker) {
    && w < |s.workers| && !s'.fault
    && s' == s.(workers := s.workers[w := x], searching := s'.searching, msgCount := s'.msgCount,
                pushed := s'.pushed, popped := s'.popped, scheduled := s'.scheduled, ran := s'.ran)
    && LocalOk(x, w in s.active) && x.summon == s.workers[w].summon == NoCall
    && !Rests(s.workers[w].pc) && !Rests(x.pc)
    && !HoldsLock(s.workers[w].pc) && !HoldsLock(x.pc)
    && !Calls(s.workers[w].pc) && !Calls(x.pc)
    && (x.pc.LastCheck? || x.pc.Quitting? ==> s.active == {w})
    && (x.pc.Quitting? ==> s.inner == [])
  }

  lemma PrivateOther(s: State, s': State, w: nat, x: Worker, v: nat)
    requires Private(s, s', w, x) && v < |s.workers| && WorkerOk(s, v)
    ensures WorkerOk(s', v)
  {
    if v != w { assert s'.workers[v] == s.workers[v]; }
  }

  /** Whether some worker is about to wake the main thread depends on these points only. */
  lemma SameWaking(s: State, s': State)
    requires |s'.workers| == |s.workers|
    requires forall v :: 0 <= v < |s.workers| ==> (s'.workers[v].pc.WakingMain? <==> s.workers[v].pc.WakingMain?)
    ensures AnyWaking(s') <==> AnyWaking(s)
  {
    if v :| 0 <= v < |s.workers| && s.workers[v].pc.WakingMain? { assert s'.workers[v].pc.WakingMain?; }
    if v :| 0 <= v < |s'.workers| && s'.workers[v].pc.WakingMain? { assert s.workers[v].pc.WakingMain?; }
  }

  lemma PrivateMain(s: State, s': State, w: nat, x: Worker)
    requires WorkersOk(s) && MainOk(s) && Private(s, s', w, x)
    requires s.main.Halted? ==> s'.pushed - s'.popped == s.pushed - s.popped
    ensures MainOk(s')
  {
    SameWaking(s, s');
  }

  lemma PrivateStep(s: State, s': State, w: nat, x: Worker)
    requires Struct(s) && Private(s, s', w, x)
    ensures Struct(s')
  {
    assert WorkerOk(s, w);
    PrivateMain(s, s', w, x);
    assert WorkersOk(s') by {
      forall v | 0 <= v < |s'.workers| ensures WorkerOk(s', v) {
        assert WorkerOk(s, v);
        PrivateOther(s, s', w, x, v);
      }
    }
  }

  /** What leaves one count or place enters another. */
  predicate Conserves(s: State, s': State, w: nat)
    requires w < |s.workers| && w < |s'.workers|
  {
    var x, y := s.workers[w], s'.workers[w];
    && s'.searching - s.searching == One(y.searching) - One(x.searching)
    && s'.msgCount + y.count + y.debt - (s'.pushed - s'.popped) == s.msgCount + x.count + x.debt - (s.pushed - s.popped)
    && s'.popped <= s'.pushed
    && s'.scheduled + s.ran + TasksOf(x) == s.scheduled + s'.ran + TasksOf(y)
  }

  predicate PrivateMove(s: State, s': State, w: nat) {
    w < |s.workers| && w < |s'.workers| && Private(s, s', w, s'.workers[w]) && Conserves(s, s', w)
  }

  lemma PrivateKeeps(s: State, s': State, w: nat)
    requires Inv(s) && PrivateMove(s, s', w)
    ensures Inv(s')
  {
    PrivateStep(s, s', w, s'.workers[w]);
    AddBoth(s'.scheduled, s.ran, TasksOf(s.workers[w]), s.scheduled, s'.ran, TasksOf(s'.workers[w]),
        BucketTasks(s.inner));
    Balanced(s, s', w, s'.workers[w]);
  }

  lemma AddBoth(a: multiset<Task>, b: multiset<Task>, c: multiset<Task>, d: multiset<Task>, e: multiset<Task>,
                f: multiset<Task>, m: multiset<Task>)
    requires a + b + c == d + e + f
    ensures a + b + m + c == d + e + m + f
  {
    assert a + b + m + c == a + b + c + m;
  }

  // --- Steps of one worker -----------------------------------------------------------

  /** The part of the invariant that a worker's own steps rely on. */
  predicate OwnOk(s: State, w: nat) {
    w < |s.workers| && !s.fault && s.popped <= s.pushed && LocalOk(s.workers[w], w in s.active)
  }

  /** Points between which a worker moves without carrying anything. */
  predicate IsFree(pc: Pc) { !Rests(pc) && !HoldsLock(pc) && !Calls(pc) && Carried(pc) == multiset{} }

  lemma PlainMoves(s: State, w: nat, pc: Pc)
    requires OwnOk(s, w) && IsFree(s.workers[w].pc) && IsFree(pc) && !pc.LastCheck? && !pc.Quitting?
    requires LocalOk(s.workers[w].(pc := pc), w in s.active)
    ensures PrivateMove(s, Move(s, w, pc), w)
  {
  }

  predicate IsMessaging(ws: WorkerStep) { ws.SFlush? || ws.SSend? || ws.SRecv? || ws.SCountMsg? }

  lemma FlushMoves(s: State, w: nat)
    requires OwnOk(s, w) && s.workers[w].pc.Flushing?
    ensures PrivateMove(s, Flush(s, w), w)
  {
  }

  lemma MessageMoves(s: State, s': State, w: nat, ws: WorkerStep)
    requires OwnOk(s, w) && WorkerNext(s, s', w, ws) && IsMessaging(ws)
    ensures PrivateMove(s, s', w)
  {
    if ws.SFlush? { FlushMoves(s, w); }
  }

  lemma EndSearchMoves(s: State, w: nat, pc: Pc)
    requires OwnOk(s, w) && s.searching > 0
    requires (s.workers[w].pc.Stealing? && pc == Flushing) || (s.workers[w].pc.Ending? && pc == Working)
    ensures PrivateMove(s, EndSearch(s, w, pc), w)
  {
  }

  lemma FillMoves(s: State, w: nat)
    requires OwnOk(s, w) && s.workers[w].pc.Filling?
    ensures PrivateMove(s, Fill(s, w, s.workers[w].pc.got), w)
  {
  }

  lemma RunFast(s: State, w: nat)
    requires OwnOk(s, w) && s.workers[w].pc.Working? && s.workers[w].fast.Some?
    ensures PrivateMove(s, Work(s, w), w)
  {
  }

  lemma HeadAndTail(q: seq<Task>)
    requires q != []
    ensures multiset(q) == multiset{q[0]} + multiset(q[1..])
  {
    assert q == [q[0]] + q[1..];
  }

  lemma RunTasks(x: Worker, y: Worker)
    requires x.pc.Working? && x.queue != [] && y == x.(pc := Running, queue := x.queue[1..])
    ensures TasksOf(x) == multiset{x.queue[0]} + TasksOf(y)
  {
    HeadAndTail(x.queue);
  }

  lemma RanSums(a: multiset<Task>, r: multiset<Task>, t: multiset<Task>, x: multiset<Task>, y: multiset<Task>)
    requires x == t + y
    ensures a + r + x == a + (r + t) + y
  {
  }

  lemma RunQueued(s: State, w: nat)
    requires OwnOk(s, w) && s.workers[w].pc.Working? && s.workers[w].fast.None? && s.workers[w].queue != []
    ensures PrivateMove(s, Work(s, w), w)
  {
    var x, y := s.workers[w], Work(s, w).workers[w];
    RunTasks(x, y);
    RanSums(s.scheduled, s.ran, multiset{x.queue[0]}, TasksOf(x), TasksOf(y));
  }

  lemma ResumeSearch(s: State, w: nat)
    requires OwnOk(s, w) && s.workers[w].pc.Working? && s.workers[w].fast.None? && s.workers[w].queue == []
    ensures PrivateMove(s, Work(s, w), w)
  {
  }

  lemma ScheduledTasks(x: Worker, y: Worker, t: Task)
    requires x.pc.Running? && y == x.(fast := Some(t), pc := if x.fast.Some? then Displaced(x.fast.value) else Running)
    ensures TasksOf(y) == TasksOf(x) + multiset{t}
  {
    assert Carried(x.pc) == multiset{} && Carried(y.pc) == OptTasks(x.fast);
  }

  lemma ScheduleConserves(s: State, w: nat, t: Task)
    requires w < |s.workers| && s.popped <= s.pushed && s.workers[w].pc.Running?
    ensures Conserves(s, Schedule(s, w, t), w)
  {
    ScheduledTasks(s.workers[w], Schedule(s, w, t).workers[w], t);
    AddOne(s.scheduled, s.ran, TasksOf(s.workers[w]), t);
  }

  lemma AddOne(a: multiset<Task>, b: multiset<Task>, c: multiset<Task>, t: Task)
    ensures a + multiset{t} + b + c == a + b + (c + multiset{t})
  {
  }

  lemma ScheduleMoves(s: State, w: nat, t: Task)
    requires OwnOk(s, w) && s.workers[w].pc.Running?
    ensures PrivateMove(s, Schedule(s, w, t), w)
  {
    ScheduleConserves(s, w, t);
  }

  lemma QueuedTasks(x: Worker, y: Worker, t: Task)
    requires (x.pc == Displaced(t) || x.pc == Repushing(t)) && y == x.(pc := Notifying, queue := x.queue + [t])
    ensures TasksOf(y) == TasksOf(x)
  {
    assert Carried(x.pc) == multiset{t} && Carried(y.pc) == multiset{};
  }

  lemma HandedTasks(x: Worker, y: Worker, t: Task)
    requires x.pc == Displaced(t) && y == x.(pc := Injecting([t], true, None))
    ensures TasksOf(y) == TasksOf(x)
  {
    assert Carried(x.pc) == multiset{t} && Carried(y.pc) == multiset{t};
  }

  lemma DisplaceToQueue(s: State, w: nat, drains: bool)
    requires OwnOk(s, w) && s.workers[w].pc.Displaced? && |s.workers[w].queue| < QUEUE_SIZE
    ensures PrivateMove(s, Displace(s, w, s.workers[w].pc.prev, true, drains), w)
  {
    var x, y := s.workers[w], Displace(s, w, s.workers[w].pc.prev, true, drains).workers[w];
    QueuedTasks(x, y, x.pc.prev);
  }

  lemma HalvedTasks(x: Worker, y: Worker, t: Task)
    requires x.pc == Displaced(t) && y.pc.Injecting? && y.pc.kept == Some(t)
    requires x.queue == y.pc.tasks + y.queue && y.fast == x.fast
    ensures TasksOf(y) == TasksOf(x)
  {
    assert Carried(x.pc) == multiset{t} && Carried(y.pc) == multiset(y.pc.tasks) + multiset{t};
    assert multiset(x.queue) == multiset(y.pc.tasks) + multiset(y.queue);
  }

  lemma DisplaceHalf(s: State, w: nat, pushes: bool)
    requires OwnOk(s, w) && s.workers[w].pc.Displaced? && s.workers[w].queue != []
    requires |s.workers[w].queue| == QUEUE_SIZE || !pushes
    ensures PrivateMove(s, Displace(s, w, s.workers[w].pc.prev, pushes, true), w)
  {
    var x, y := s.workers[w], Displace(s, w, s.workers[w].pc.prev, pushes, true).workers[w];
    HalvedTasks(x, y, x.pc.prev);
  }

  lemma DisplaceAlone(s: State, w: nat, pushes: bool, drains: bool)
    requires OwnOk(s, w) && s.workers[w].pc.Displaced?
    requires |s.workers[w].queue| == QUEUE_SIZE || !pushes
    requires s.workers[w].queue == [] || !drains
    ensures PrivateMove(s, Displace(s, w, s.workers[w].pc.prev, pushes, drains), w)
  {
    var x := s.workers[w];
    HandedTasks(x, x.(pc := Injecting([x.pc.prev], true, None)), x.pc.prev);
    assert Displace(s, w, x.pc.prev, pushes, drains) == Put(s, w, x.(pc := Injecting([x.pc.prev], true, None)));
  }

  lemma RepushMoves(s: State, w: nat)
    requires OwnOk(s, w) && s.workers[w].pc.Repushing?
    ensures PrivateMove(s, Repush(s, w, s.workers[w].pc.prev), w)
  {
    var x, y := s.workers[w], Repush(s, w, s.workers[w].pc.prev).workers[w];
    QueuedTasks(x, y, x.pc.prev);
  }

  /** The last worker that sees the hint set may rely on it: nobody else is active. */
  lemma LastCheckMoves(s: State, s': State, w: nat)
    requires OwnOk(s, w) && SoloOk(s, w) && (s.emptyFlag ==> s.inner == []) && WorkerNext(s, s', w, SLastCheck)
    ensures PrivateMove(s, s', w)
  {
  }

  // --- Bits ------------------------------------------------------------------------------

  /** Sums are untouched by a move between points that carry nothing. */
  lemma MoveSums(s: State, s': State, w: nat)
    requires SumsOk(s) && w < |s.workers| && |s'.workers| == |s.workers| && s'.workers == s.workers[w := s'.workers[w]]
    requires TasksOf(s'.workers[w]) == TasksOf(s.workers[w]) && s'.workers[w].searching == s.workers[w].searching
    requires s'.workers[w].count == s.workers[w].count && s'.workers[w].debt == s.workers[w].debt
    requires s' == s.(workers := s'.workers, active := s'.active, emptyFlag := s'.emptyFlag, lock := s'.lock,
                      main := s'.main, mainToken := s'.mainToken)
    ensures SumsOk(s')
  {
    Balanced(s, s', w, s'.workers[w]);
  }

  /** Nothing that another worker relies on changes when `w` goes from `x` to `y`. */
  predicate Unnoticed(s: State, s': State, w: nat) {
    && w < |s.workers| && |s'.workers| == |s.workers| && s'.workers == s.workers[w := s'.workers[w]]
    && (var x, y := s.workers[w], s'.workers[w];
        && (x.summon == y.summon || (!x.summon.Marked? && !x.summon.Counted?))
        && (x.pc == y.pc || !Calls(x.pc)))
    && (s'.main == s.main || (!s.main.MCounting? && !s.main.MUnparking?))
  }

  lemma OtherOk(s: State, s': State, w: nat, v: nat)
    requires Unnoticed(s, s', w) && v < |s.workers| && v != w && WorkerOk(s, v)
    requires v in s'.active <==> v in s.active
    requires SoloOk(s', v)
    ensures WorkerOk(s', v)
  {
    assert s'.workers[v] == s.workers[v];
  }

  lemma WorkersAfter(s: State, s': State, w: nat)
    requires WorkersOk(s) && Unnoticed(s, s', w) && WorkerOk(s', w)
    requires forall v :: v in s'.active ==> v == w || v in s.active
    requires forall v :: v in s.active ==> v == w || v in s'.active
    requires forall v :: 0 <= v < |s.workers| && v != w && (s.workers[v].pc.LastCheck? || s.workers[v].pc.Quitting?) ==>
               s'.active == s.active && s'.inner == s.inner
    ensures WorkersOk(s')
  {
    forall v | 0 <= v < |s'.workers| ensures WorkerOk(s', v) {
      if v != w {
        assert WorkerOk(s, v) && s'.workers[v] == s.workers[v];
        OtherOk(s, s', w, v);
      }
    }
  }

  /** While `w` has its bit set, no other worker believes to be the last one. */
  lemma NotAlone(s: State, w: nat)
    requires WorkersOk(s) && w in s.active
    ensures forall v :: 0 <= v < |s.workers| && v != w ==> !s.workers[v].pc.LastCheck? && !s.workers[v].pc.Quitting?
  {
    forall v | 0 <= v < |s.workers| && v != w ensures !s.workers[v].pc.LastCheck? && !s.workers[v].pc.Quitting? {
      assert WorkerOk(s, v);
    }
  }

  /** The main thread's view is kept by a step of a worker that it does not refer to. */
  lemma MainFramed(s: State, s': State)
    requires MainOk(s) && |s'.workers| == |s.workers| && s'.main == s.main
    requires s'.pushed == s.pushed && s'.popped == s.popped
    requires s.main.MCounting? || s.main.MUnparking? ==>
               s.main.target < |s.workers| && s'.workers[s.main.target].summon == s.workers[s.main.target].summon
    requires s.active == {} ==> s'.active == {}
    requires s'.active == {} ==> (s.active == {} && s'.inner == s.inner) || s'.inner == []
    requires s.main.Starting? && s'.active != {} ==> !s'.mainToken && !AnyWaking(s')
    requires s'.active == {} && (s.main.Starting? || s.main.Waiting?) ==> s'.mainToken || AnyWaking(s')
    ensures MainOk(s')
  {
  }

  lemma LocksFramed(s: State, s': State, w: nat)
    requires LockOk(s) && InjectorOk(s) && w < |s.workers| && |s'.workers| == |s.workers|
    requires s'.workers == s.workers[w := s'.workers[w]]
    requires s'.workers[w].pc == s.workers[w].pc || (!HoldsLock(s.workers[w].pc) && !HoldsLock(s'.workers[w].pc))
    requires s'.lock == s.lock && s'.inner == s.inner && s'.emptyFlag == s.emptyFlag
    ensures LockOk(s') && InjectorOk(s')
  {
  }

  /** A worker changes its point and its summon only, and carries nothing. */
  lemma FreeSums(s: State, s': State, w: nat, pc: Pc, summon: Summon)
    requires SumsOk(s) && w < |s.workers| && s'.workers == s.workers[w := s.workers[w].(pc := pc, summon := summon)]
    requires Carried(s.workers[w].pc) == Carried(pc)
    requires s' == s.(workers := s'.workers, active := s'.active, mainToken := s'.mainToken)
    ensures SumsOk(s')
  {
    MoveSums(s, s', w);
  }

  lemma MovedSums(s: State, w: nat, pc: Pc)
    requires SumsOk(s) && w < |s.workers| && Carried(s.workers[w].pc) == Carried(pc)
    ensures SumsOk(Move(s, w, pc))
  {
    FreeSums(s, Move(s, w, pc), w, pc, s.workers[w].summon);
  }

  lemma ParkWorkers(s: State, w: nat)
    requires WorkersOk(s) && !s.fault && w < |s.workers| && s.workers[w].pc.Deactivating? && s.active != {w}
    ensures WorkersOk(Deactivate(s, w)) && Deactivate(s, w).active != {} && !Deactivate(s, w).fault
  {
    var s' := Deactivate(s, w);
    assert WorkerOk(s, w);
    NotAlone(s, w);
    WorkersAfter(s, s', w);
    var v :| v in s.active && v != w;
    assert v in s'.active;
  }

  lemma ParkMain(s: State, w: nat)
    requires Struct(s) && w < |s.workers| && s.workers[w].pc.Deactivating? && Deactivate(s, w).active != {}
    ensures MainOk(Deactivate(s, w))
  {
    var s' := Deactivate(s, w);
    assert WorkerOk(s, w);
    SameWaking(s, s');
    MainFramed(s, s');
  }

  lemma ParkKeeps(s: State, w: nat)
    requires Inv(s) && w < |s.workers| && s.workers[w].pc.Deactivating? && s.active != {w}
    ensures Inv(Deactivate(s, w))
  {
    ParkWorkers(s, w);
    ParkMain(s, w);
    LocksFramed(s, Deactivate(s, w), w);
    FreeSums(s, Deactivate(s, w), w, Parked, s.workers[w].summon);
  }

  lemma LastMoves(s: State, w: nat)
    requires OwnOk(s, w) && s.workers[w].pc.Deactivating? && s.active == {w}
    ensures PrivateMove(s, Deactivate(s, w), w)
  {
  }

  lemma QuitWorkers(s: State, w: nat)
    requires WorkersOk(s) && w < |s.workers| && s.workers[w].pc.Quitting?
    ensures WorkersOk(Quit(s, w)) && s.inner == [] && s.active == {w}
  {
    assert WorkerOk(s, w);
    NotAlone(s, w);
    WorkersAfter(s, Quit(s, w), w);
  }

  lemma QuitMain(s: State, w: nat)
    requires MainOk(s) && WorkersOk(s) && w < |s.workers| && s.workers[w].pc.Quitting? && s.inner == []
    requires s.active == {w}
    ensures MainOk(Quit(s, w))
  {
    var s' := Quit(s, w);
    assert s'.workers[w].pc.WakingMain?;
    assert AnyWaking(s');
    MainFramed(s, s');
  }

  lemma QuitKeeps(s: State, w: nat)
    requires Inv(s) && w < |s.workers| && s.workers[w].pc.Quitting?
    ensures Inv(Quit(s, w))
  {
    QuitWorkers(s, w);
    QuitMain(s, w);
    LocksFramed(s, Quit(s, w), w);
    FreeSums(s, Quit(s, w), w, WakingMain, s.workers[w].summon);
  }

  lemma WakeMainWorkers(s: State, w: nat)
    requires WorkersOk(s) && w < |s.workers| && s.workers[w].pc.WakingMain?
    ensures WorkersOk(WakeMain(s, w))
  {
    assert WorkerOk(s, w);
    WorkersAfter(s, WakeMain(s, w), w);
  }

  lemma WakeMainMain(s: State, w: nat)
    requires MainOk(s) && w < |s.workers| && s.workers[w].pc.WakingMain?
    ensures MainOk(WakeMain(s, w))
  {
    assert AnyWaking(s);
    MainFramed(s, WakeMain(s, w));
  }

  lemma WakeMainKeeps(s: State, w: nat)
    requires Inv(s) && w < |s.workers| && s.workers[w].pc.WakingMain?
    ensures Inv(WakeMain(s, w))
  {
    WakeMainWorkers(s, w);
    WakeMainMain(s, w);
    LocksFramed(s, WakeMain(s, w), w);
    FreeSums(s, WakeMain(s, w), w, Parked, s.workers[w].summon);
  }

  lemma UnparkWorkers(s: State, w: nat)
    requires WorkersOk(s) && w < |s.workers| && s.workers[w].pc.Parked? && s.workers[w].summon.Ready?
    ensures WorkersOk(Unpark(s, w))
  {
    assert WorkerOk(s, w);
    WorkersAfter(s, Unpark(s, w), w);
  }

  lemma UnparkMain(s: State, w: nat)
    requires MainOk(s) && w < |s.workers| && s.workers[w].pc.Parked? && s.workers[w].summon.Ready?
    ensures MainOk(Unpark(s, w))
  {
    SameWaking(s, Unpark(s, w));
    MainFramed(s, Unpark(s, w));
  }

  lemma UnparkKeeps(s: State, w: nat)
    requires Inv(s) && w < |s.workers| && s.workers[w].pc.Parked? && s.workers[w].summon.Ready?
    ensures Inv(Unpark(s, w))
  {
    UnparkWorkers(s, w);
    UnparkMain(s, w);
    LocksFramed(s, Unpark(s, w), w);
    FreeSums(s, Unpark(s, w), w, Probing, NoCall);
  }

  // --- Injector -----------------------------------------------------------------------

  lemma Swap(a: multiset<Task>, f: multiset<Task>, b: multiset<Task>, c: multiset<Task>, b': multiset<Task>,
             c': multiset<Task>)
    requires b + c == b' + c'
    ensures a + b + (f + c) == a + b' + (f + c')
  {
    assert a + b + (f + c) == a + f + (b + c);
    assert a + b' + (f + c') == a + f + (b' + c');
  }

  /** Tasks pass between the injector and the hands of one worker. */
  lemma InjectorSums(s: State, s': State, w: nat, pc: Pc)
    requires SumsOk(s) && w < |s.workers| && s'.workers == s.workers[w := s.workers[w].(pc := pc)]
    requires s' == s.(workers := s'.workers, inner := s'.inner, emptyFlag := s'.emptyFlag, lock := s'.lock)
    requires BucketTasks(s.inner) + Carried(s.workers[w].pc) == BucketTasks(s'.inner) + Carried(pc)
    ensures SumsOk(s')
  {
    var x := s.workers[w];
    Swap(s.scheduled + s.ran, OptTasks(x.fast) + multiset(x.queue),
         BucketTasks(s.inner), Carried(x.pc), BucketTasks(s'.inner), Carried(pc));
    Balanced(s, s', w, s'.workers[w]);
  }

  lemma PopWorkers(s: State, w: nat)
    requires WorkersOk(s) && s.lock.None? && InjectorOk(s) && w < |s.workers| && s.workers[w].pc.Popping?
    ensures WorkersOk(PopBucket(s, w)) && s.active != {} && PopBucket(s, w).active == s.active
  {
    assert WorkerOk(s, w);
    NotAlone(s, w);
    WorkersAfter(s, PopBucket(s, w), w);
  }

  lemma PopLocks(s: State, w: nat)
    requires LockOk(s) && InjectorOk(s) && w < |s.workers| && s.workers[w].pc.Popping? && s.lock.None?
    ensures LockOk(PopBucket(s, w)) && InjectorOk(PopBucket(s, w))
  {
  }

  lemma PopCarried(inner: seq<seq<Task>>)
    ensures inner == [] ==> BucketTasks(inner) + Carried(Popping) == BucketTasks(inner) + Carried(PopFlag([]))
    ensures inner != [] ==>
              var last := |inner| - 1;
              BucketTasks(inner) + Carried(Popping) == BucketTasks(inner[..last]) + Carried(PopFlag(inner[last]))
  {
    assert Carried(Popping) == multiset{};
    if inner != [] { assert Carried(PopFlag(inner[|inner| - 1])) == multiset(inner[|inner| - 1]); }
  }

  lemma PopSums(s: State, w: nat)
    requires SumsOk(s) && w < |s.workers| && s.workers[w].pc.Popping?
    ensures SumsOk(PopBucket(s, w))
  {
    PopCarried(s.inner);
    InjectorSums(s, PopBucket(s, w), w, PopBucket(s, w).workers[w].pc);
  }

  lemma PopMain(s: State, w: nat)
    requires MainOk(s) && w < |s.workers| && s.workers[w].pc.Popping? && s.active != {}
    ensures MainOk(PopBucket(s, w))
  {
    SameWaking(s, PopBucket(s, w));
    MainFramed(s, PopBucket(s, w));
  }

  lemma PopKeeps(s: State, w: nat)
    requires Inv(s) && w < |s.workers| && s.workers[w].pc.Popping? && s.lock.None?
    ensures Inv(PopBucket(s, w))
  {
    PopWorkers(s, w);
    PopLocks(s, w);
    PopSums(s, w);
    PopMain(s, w);
  }

  lemma PopFlagWorkers(s: State, w: nat)
    requires WorkersOk(s) && w < |s.workers| && s.workers[w].pc.PopFlag?
    ensures WorkersOk(StorePopFlag(s, w, s.workers[w].pc.got)) && s.active != {}
  {
    assert WorkerOk(s, w);
    WorkersAfter(s, StorePopFlag(s, w, s.workers[w].pc.got), w);
  }

  lemma PopFlagLocks(s: State, w: nat)
    requires LockOk(s) && InjectorOk(s) && w < |s.workers| && s.workers[w].pc.PopFlag?
    ensures var s' := StorePopFlag(s, w, s.workers[w].pc.got); LockOk(s') && InjectorOk(s')
  {
  }

  lemma PopFlagSums(s: State, w: nat)
    requires SumsOk(s) && w < |s.workers| && s.workers[w].pc.PopFlag?
    ensures SumsOk(StorePopFlag(s, w, s.workers[w].pc.got))
  {
    InjectorSums(s, StorePopFlag(s, w, s.workers[w].pc.got), w, StorePopFlag(s, w, s.workers[w].pc.got).workers[w].pc);
  }

  lemma PopFlagKeeps(s: State, w: nat)
    requires Inv(s) && w < |s.workers| && s.workers[w].pc.PopFlag?
    ensures Inv(StorePopFlag(s, w, s.workers[w].pc.got))
  {
    var s' := StorePopFlag(s, w, s.workers[w].pc.got);
    PopFlagWorkers(s, w);
    PopFlagLocks(s, w);
    PopFlagSums(s, w);
    SameWaking(s, s');
    MainFramed(s, s');
  }

  predicate CanInject(s: State, w: nat) {
    w < |s.workers| && s.lock.None? && s.workers[w].pc.Injecting? && |s.workers[w].pc.tasks| > 0
  }

  function Injected(s: State, w: nat): State
    requires CanInject(s, w)
  {
    Inject(s, w, s.workers[w].pc.tasks, s.workers[w].pc.single, s.workers[w].pc.kept)
  }

  lemma InjectWorkers(s: State, w: nat)
    requires WorkersOk(s) && CanInject(s, w)
    ensures WorkersOk(Injected(s, w)) && s.active != {} && LocalOk(s.workers[w], true)
  {
    assert WorkerOk(s, w);
    NotAlone(s, w);
    WorkersAfter(s, Injected(s, w), w);
  }

  lemma InsertTaskSizes(inner: seq<seq<Task>>, t: Task)
    requires forall b :: b in inner ==> 0 < |b| <= BUCKET_SIZE
    ensures forall b :: b in InsertTask(inner, t) ==> 0 < |b| <= BUCKET_SIZE
  {
  }

  lemma InjectLocks(s: State, w: nat)
    requires LockOk(s) && InjectorOk(s) && CanInject(s, w) && LocalOk(s.workers[w], true)
    ensures LockOk(Injected(s, w)) && InjectorOk(Injected(s, w))
  {
    InsertTaskSizes(s.inner, s.workers[w].pc.tasks[0]);
  }

  lemma InjectedTasks(inner: seq<seq<Task>>, tasks: seq<Task>, single: bool, kept: Option<Task>)
    requires |tasks| > 0 && (single ==> |tasks| == 1)
    ensures BucketTasks(inner) + (multiset(tasks) + OptTasks(kept)) ==
              BucketTasks(Received(inner, tasks, single)) + OptTasks(kept)
  {
    assert BucketTasks(inner) + (multiset(tasks) + OptTasks(kept)) ==
        BucketTasks(inner) + multiset(tasks) + OptTasks(kept);
    if single {
      assert tasks == [tasks[0]];
      InsertTaskTasks(inner, tasks[0]);
    } else {
      AppendBucket(inner, tasks);
    }
  }

  lemma InjectCarried(b: multiset<Task>, b': multiset<Task>, pc: Pc, wasEmpty: bool)
    requires pc.Injecting?
    requires b + (multiset(pc.tasks) + OptTasks(pc.kept)) == b' + OptTasks(pc.kept)
    ensures b + Carried(pc) == b' + Carried(InjectFlag(pc.kept, wasEmpty))
  {
    var c, c' := Carried(pc), Carried(InjectFlag(pc.kept, wasEmpty));
    assert c == multiset(pc.tasks) + OptTasks(pc.kept);
    assert c' == OptTasks(pc.kept);
  }

  lemma InjectSums(s: State, w: nat)
    requires SumsOk(s) && CanInject(s, w) && LocalOk(s.workers[w], true)
    ensures SumsOk(Injected(s, w))
  {
    var pc := s.workers[w].pc;
    InjectedTasks(s.inner, pc.tasks, pc.single, pc.kept);
    InjectCarried(BucketTasks(s.inner), BucketTasks(Received(s.inner, pc.tasks, pc.single)), pc, s.inner == []);
    InjectorSums(s, Injected(s, w), w, Injected(s, w).workers[w].pc);
  }

  lemma InjectMain(s: State, w: nat)
    requires MainOk(s) && CanInject(s, w) && s.active != {}
    ensures MainOk(Injected(s, w))
  {
    SameWaking(s, Injected(s, w));
    MainFramed(s, Injected(s, w));
  }

  lemma InjectKeeps(s: State, w: nat)
    requires Inv(s) && CanInject(s, w)
    ensures Inv(Injected(s, w))
  {
    InjectWorkers(s, w);
    InjectLocks(s, w);
    InjectSums(s, w);
    InjectMain(s, w);
  }

  function InjectFlagged(s: State, w: nat): State
    requires w < |s.workers| && s.workers[w].pc.InjectFlag?
  {
    StoreInjectFlag(s, w, s.workers[w].pc.kept, s.workers[w].pc.wasEmpty)
  }

  lemma InjectFlagWorkers(s: State, w: nat)
    requires WorkersOk(s) && w < |s.workers| && s.workers[w].pc.InjectFlag?
    ensures WorkersOk(InjectFlagged(s, w)) && s.active != {}
  {
    assert WorkerOk(s, w);
    WorkersAfter(s, InjectFlagged(s, w), w);
  }

  lemma InjectFlagLocks(s: State, w: nat)
    requires LockOk(s) && InjectorOk(s) && w < |s.workers| && s.workers[w].pc.InjectFlag?
    ensures LockOk(InjectFlagged(s, w)) && InjectorOk(InjectFlagged(s, w))
  {
  }

  lemma InjectFlagCarried(s: State, w: nat)
    requires w < |s.workers| && s.workers[w].pc.InjectFlag?
    ensures Carried(InjectFlagged(s, w).workers[w].pc) == Carried(s.workers[w].pc)
  {
  }

  lemma InjectFlagSums(s: State, w: nat)
    requires SumsOk(s) && w < |s.workers| && s.workers[w].pc.InjectFlag?
    ensures SumsOk(InjectFlagged(s, w))
  {
    InjectFlagCarried(s, w);
    InjectorSums(s, InjectFlagged(s, w), w, InjectFlagged(s, w).workers[w].pc);
  }

  lemma InjectFlagKeeps(s: State, w: nat)
    requires Inv(s) && w < |s.workers| && s.workers[w].pc.InjectFlag?
    ensures Inv(InjectFlagged(s, w))
  {
    InjectFlagWorkers(s, w);
    InjectFlagLocks(s, w);
    InjectFlagSums(s, w);
    SameWaking(s, InjectFlagged(s, w));
    MainFramed(s, InjectFlagged(s, w));
  }

  // --- Stealing -----------------------------------------------------------------------

  function Shrunk(s: State, v: nat, c: nat): State
    requires v < |s.workers| && c <= |s.workers[v].queue|
  {
    Put(s, v, s.workers[v].(queue := s.workers[v].queue[c..]))
  }

  lemma ShrinkWorkers(s: State, v: nat, c: nat)
    requires WorkersOk(s) && v < |s.workers| && 1 <= c <= |s.workers[v].queue|
    ensures WorkersOk(Shrunk(s, v, c))
  {
    assert WorkerOk(s, v);
    WorkersAfter(s, Shrunk(s, v, c), v);
  }

  lemma ShrinkStruct(s: State, v: nat, c: nat)
    requires Struct(s) && v < |s.workers| && 1 <= c <= |s.workers[v].queue|
    ensures Struct(Shrunk(s, v, c))
  {
    ShrinkWorkers(s, v, c);
    LocksFramed(s, Shrunk(s, v, c), v);
    SameWaking(s, Shrunk(s, v, c));
    MainFramed(s, Shrunk(s, v, c));
  }

  predicate CanSteal(s: State, w: nat, v: nat, c: nat) {
    w < |s.workers| && v < |s.workers| && w != v && 1 <= c <= |s.workers[v].queue| && s.workers[w].pc.Stealing?
  }

  lemma StealStruct(s: State, w: nat, v: nat, c: nat)
    requires Struct(s) && CanSteal(s, w, v, c)
    ensures Struct(Steal(s, w, v, c)) && s.workers[w].fast == None
  {
    ShrinkStruct(s, v, c);
    assert WorkerOk(s, w) && WorkerOk(s, v);
    PrivateStep(Shrunk(s, v, c), Steal(s, w, v, c), w, Steal(s, w, v, c).workers[w]);
  }

  lemma StolenSums(f: multiset<Task>, c: multiset<Task>, q: multiset<Task>, i: multiset<Task>, l: multiset<Task>,
                   r: multiset<Task>)
    ensures (l + (q + i) + multiset{}) + (f + r + c) == (multiset{} + q + multiset{}) + (f + (i + l + r) + c)
  {
  }

  lemma StolenTasks(x: Worker, y: Worker, x': Worker, y': Worker, taken: seq<Task>)
    requires |taken| > 0 && x.fast == None && Carried(x.pc) == multiset{}
    requires y.queue == taken + y'.queue && y' == y.(queue := y'.queue)
    requires x' == x.(pc := Ending, fast := Some(taken[|taken| - 1]), queue := x.queue + taken[..|taken| - 1])
    ensures TasksOf(x') + TasksOf(y') == TasksOf(x) + TasksOf(y)
  {
    var init, last := taken[..|taken| - 1], taken[|taken| - 1];
    assert taken == init + [last];
    StolenSums(OptTasks(y.fast), Carried(y.pc), multiset(x.queue), multiset(init), multiset{last}, multiset(y'.queue));
    assert multiset(y.queue) == multiset(init) + multiset{last} + multiset(y'.queue);
    assert multiset(x.queue + init) == multiset(x.queue) + multiset(init);
  }

  lemma TwoPutsTasks(ws: seq<Worker>, v: nat, y: Worker, w: nat, x: Worker)
    requires v < |ws| && w < |ws| && v != w
    requires TasksOf(x) + TasksOf(y) == TasksOf(ws[w]) + TasksOf(ws[v])
    ensures Tasks(ws[v := y][w := x]) == Tasks(ws)
  {
    TasksAfterPut(ws, v, y);
    TasksAfterPut(ws[v := y], w, x);
    TwoExchanges(Tasks(ws), Tasks(ws[v := y]), Tasks(ws[v := y][w := x]), TasksOf(ws[v]), TasksOf(y), TasksOf(ws[w]),
        TasksOf(x));
  }

  lemma TwoPutsCounts(ws: seq<Worker>, v: nat, y: Worker, w: nat, x: Worker)
    requires v < |ws| && w < |ws| && v != w
    requires y.count == ws[v].count && y.debt == ws[v].debt && y.searching == ws[v].searching
    requires x.count == ws[w].count && x.debt == ws[w].debt && x.searching == ws[w].searching
    ensures var ws' := ws[v := y][w := x]; Messages(ws') == Messages(ws) && Searchers(ws') == Searchers(ws)
  {
    CountsAfterPut(ws, v, y);
    CountsAfterPut(ws[v := y], w, x);
  }

  lemma StealWorkers(s: State, w: nat, v: nat, c: nat)
    requires CanSteal(s, w, v, c)
    ensures var x, y := s.workers[w], s.workers[v];
            var taken := y.queue[..c];
            && y.queue == taken + y.queue[c..]
            && Shrunk(s, v, c).workers[v] == y.(queue := y.queue[c..])
            && Steal(s, w, v, c).workers[w] ==
                 x.(pc := Ending, fast := Some(taken[c - 1]), queue := x.queue + taken[..c - 1])
  {
  }

  lemma StealSums(s: State, w: nat, v: nat, c: nat)
    requires SumsOk(s) && CanSteal(s, w, v, c) && s.workers[w].fast == None
    ensures SumsOk(Steal(s, w, v, c))
  {
    var y', x' := Shrunk(s, v, c).workers[v], Steal(s, w, v, c).workers[w];
    StealWorkers(s, w, v, c);
    StolenTasks(s.workers[w], s.workers[v], x', y', s.workers[v].queue[..c]);
    TwoPutsTasks(s.workers, v, y', w, x');
    TwoPutsCounts(s.workers, v, y', w, x');
  }

  lemma TwoExchanges(t: multiset<Task>, t1: multiset<Task>, t2: multiset<Task>, y: multiset<Task>,
                     y': multiset<Task>, x: multiset<Task>, x': multiset<Task>)
    requires t1 + y == t + y' && t2 + x == t1 + x' && x' + y' == x + y
    ensures t2 == t
  {
    forall e ensures t2[e] == t[e] {
      assert (t1 + y)[e] == (t + y')[e];
      assert (t2 + x)[e] == (t1 + x')[e];
      assert (x' + y')[e] == (x + y)[e];
    }
  }

  lemma StealKeeps(s: State, w: nat, v: nat, c: nat)
    requires Inv(s) && CanSteal(s, w, v, c)
    ensures Inv(Steal(s, w, v, c))
  {
    StealStruct(s, w, v, c);
    StealSums(s, w, v, c);
  }

  // --- Activation of a parked worker ------------------------------------------------------

  /** The activation of a worker with this summon is in nobody's hands but those of `c`. */
  predicate FreeFor(summon: Summon, c: nat) {
    summon.NoCall? || summon == Marked(c) || summon == Counted(c)
  }

  /** Caller `c`, a worker or the main thread, is activating nobody but `b`. */
  predicate PointsAt(s: State, c: nat, b: nat) {
    if c == MainId(s) then (s.main.MCounting? || s.main.MUnparking? ==> s.main.target == b)
    else c < |s.workers| && (Calls(s.workers[c].pc) ==> s.workers[c].pc.target == b)
  }

  /** Caller `c` takes one step of the activation of `b`. */
  predicate Summons(s: State, s': State, c: nat, b: nat) {
    && |s'.workers| == |s.workers| && b < |s.workers| && c <= |s.workers| && b != c
    && (forall u :: 0 <= u < |s.workers| && u != b && u != c ==> s'.workers[u] == s.workers[u])
    && (c < |s.workers| ==> s'.main == s.main && s'.workers[c].summon == s.workers[c].summon)
    && s'.workers[b].pc == s.workers[b].pc
    && FreeFor(s.workers[b].summon, c) && PointsAt(s, c, b)
  }

  lemma SummonOther(s: State, s': State, c: nat, b: nat, v: nat)
    requires Summons(s, s', c, b) && v < |s.workers| && v != b && v != c && WorkerOk(s, v)
    requires v in s'.active <==> v in s.active
    requires SoloOk(s', v)
    ensures WorkerOk(s', v)
  {
  }

  lemma SummonWorkers(s: State, s': State, c: nat, b: nat)
    requires WorkersOk(s) && Summons(s, s', c, b) && s'.active == s.active + {b}
    requires WorkerOk(s', b) && (c < |s.workers| ==> c in s.active && WorkerOk(s', c))
    requires c < |s.workers| || s'.active == {b} || s'.active == s.active
    requires s'.inner == s.inner
    ensures WorkersOk(s')
  {
    forall v | 0 <= v < |s'.workers| ensures WorkerOk(s', v) {
      if v != b && v != c {
        assert WorkerOk(s, v);
        if c < |s.workers| { NotAlone(s, c); }
        SummonOther(s, s', c, b, v);
      }
    }
  }

  /** A worker other than the main thread activates `b`, which the main thread does not. */
  lemma SummonMain(s: State, s': State, c: nat, b: nat)
    requires MainOk(s) && Summons(s, s', c, b) && c < |s.workers| && c in s.active && s'.active == s.active + {b}
    requires s'.workers[c].pc.WakingMain? <==> s.workers[c].pc.WakingMain?
    requires s' == s.(workers := s'.workers, active := s'.active, searching := s'.searching)
    ensures MainOk(s')
  {
    SameWaking(s, s');
    MainFramed(s, s');
  }

  lemma SummonLocks(s: State, s': State, c: nat, b: nat)
    requires LockOk(s) && InjectorOk(s) && Summons(s, s', c, b)
    requires c < |s.workers| ==> !HoldsLock(s.workers[c].pc) && !HoldsLock(s'.workers[c].pc)
    requires s'.lock == s.lock && s'.inner == s.inner && s'.emptyFlag == s.emptyFlag
    ensures LockOk(s') && InjectorOk(s')
  {
  }

  predicate CanMark(s: State, w: nat) {
    && w < |s.workers| && s.workers[w].pc.Selecting?
    && var b := FirstIdle(s.workers[w].pc.seen, 0, |s.workers|);
       b < |s.workers| && b !in s.active
  }

  function Marking(s: State, w: nat): State
    requires CanMark(s, w)
  {
    Select(s, w, s.workers[w].pc.seen)
  }

  lemma MarkWorkers(s: State, w: nat)
    requires WorkersOk(s) && CanMark(s, w)
    ensures var b := FirstIdle(s.workers[w].pc.seen, 0, |s.workers|);
            Summons(s, Marking(s, w), w, b) && Marking(s, w).active == s.active + {b}
    ensures w in s.active && WorkersOk(Marking(s, w))
  {
    var b, s' := FirstIdle(s.workers[w].pc.seen, 0, |s.workers|), Marking(s, w);
    assert WorkerOk(s, w) && WorkerOk(s, b);
    SummonWorkers(s, s', w, b);
  }

  lemma MarkKeeps(s: State, w: nat)
    requires Inv(s) && CanMark(s, w)
    ensures Inv(Marking(s, w))
  {
    MarkWorkers(s, w);
    var b, s' := FirstIdle(s.workers[w].pc.seen, 0, |s.workers|), Marking(s, w);
    SummonMain(s, s', w, b);
    SummonLocks(s, s', w, b);
    MarkSums(s, w);
  }

  lemma MarkAfterMove(s: State, w: nat, b: nat)
    requires CanMark(s, w) && b == FirstIdle(s.workers[w].pc.seen, 0, |s.workers|) && b != w
    ensures var s1 := Move(s, w, Counting(b));
            && s1.workers[b] == s.workers[b]
            && Marking(s, w) == Put(s1, b, s1.workers[b].(summon := Marked(w))).(active := s1.active + {b})
  {
  }

  lemma MarkSums(s: State, w: nat)
    requires SumsOk(s) && CanMark(s, w) && w in s.active
    ensures SumsOk(Marking(s, w))
  {
    var b, s' := FirstIdle(s.workers[w].pc.seen, 0, |s.workers|), Marking(s, w);
    var s1 := Move(s, w, Counting(b));
    MovedSums(s, w, Counting(b));
    MarkAfterMove(s, w, b);
    FreeSums(s1, s', b, s.workers[b].pc, Marked(w));
  }

  /** The caller and the worker that it activates, seen from the caller. */
  lemma CalledWorker(s: State, w: nat)
    requires WorkersOk(s) && w < |s.workers| && Calls(s.workers[w].pc)
    ensures var b := s.workers[w].pc.target;
            && b < |s.workers| && b != w && w in s.active && b in s.active && Rests(s.workers[b].pc)
            && s.workers[b].summon == (if s.workers[w].pc.Counting? then Marked(w) else Counted(w))
            && (s.workers[b].searching <==> s.workers[w].pc.Unparking?)
  {
    assert WorkerOk(s, w);
    assert WorkerOk(s, s.workers[w].pc.target);
  }

  lemma CountEnds(s: State, w: nat)
    requires WorkersOk(s) && w < |s.workers| && s.workers[w].pc.Counting?
    ensures var b := s.workers[w].pc.target;
            b < |s.workers| && WorkerOk(CountFor(s, w, b), w) && WorkerOk(CountFor(s, w, b), b)
  {
    CalledWorker(s, w);
    assert WorkerOk(s, w) && WorkerOk(s, s.workers[w].pc.target);
  }

  lemma CountWorkers(s: State, w: nat)
    requires WorkersOk(s) && w < |s.workers| && s.workers[w].pc.Counting?
    ensures s.workers[w].pc.target < |s.workers| && s.workers[w].pc.target != w &&
              !s.workers[s.workers[w].pc.target].searching
    ensures Summons(s, CountFor(s, w, s.workers[w].pc.target), w, s.workers[w].pc.target)
    ensures w in s.active && s.workers[w].pc.target in s.active
    ensures WorkersOk(CountFor(s, w, s.workers[w].pc.target))
  {
    CalledWorker(s, w);
    var b, s' := s.workers[w].pc.target, CountFor(s, w, s.workers[w].pc.target);
    CountEnds(s, w);
    assert s'.active == s.active + {b};
    SummonWorkers(s, s', w, b);
  }

  lemma CountKeeps(s: State, w: nat)
    requires Inv(s) && w < |s.workers| && s.workers[w].pc.Counting? && s.workers[w].pc.target < |s.workers|
    ensures Inv(CountFor(s, w, s.workers[w].pc.target))
  {
    CountWorkers(s, w);
    var b, s' := s.workers[w].pc.target, CountFor(s, w, s.workers[w].pc.target);
    assert s'.active == s.active + {b};
    SummonMain(s, s', w, b);
    SummonLocks(s, s', w, b);
    CountSums(s, w);
  }

  /** The activated worker is entered in the search count. */
  lemma CountedSums(s: State, s': State, b: nat, summon: Summon)
    requires SumsOk(s) && b < |s.workers| && !s.workers[b].searching
    requires s'.workers == s.workers[b := s.workers[b].(summon := summon, searching := true)]
    requires s' == s.(workers := s'.workers, searching := s.searching + 1, main := s'.main)
    ensures SumsOk(s')
  {
    Balanced(s, s', b, s'.workers[b]);
  }

  lemma CountAfterMove(s: State, w: nat, b: nat)
    requires w < |s.workers| && b < |s.workers| && b != w
    ensures var s1 := Move(s, w, Unparking(b));
            && s1.workers[b] == s.workers[b]
            && CountFor(s, w, b) == Put(s1, b,
                s1.workers[b].(summon := Counted(w), searching := true)).(searching := s1.searching + 1)
  {
  }

  lemma CountSums(s: State, w: nat)
    requires SumsOk(s) && w < |s.workers| && s.workers[w].pc.Counting? && s.workers[w].pc.target < |s.workers|
    requires s.workers[w].pc.target != w && !s.workers[s.workers[w].pc.target].searching
    ensures SumsOk(CountFor(s, w, s.workers[w].pc.target))
  {
    var b := s.workers[w].pc.target;
    MovedSums(s, w, Unparking(b));
    CountAfterMove(s, w, b);
    CountedSums(Move(s, w, Unparking(b)), CountFor(s, w, b), b, Counted(w));
  }

  lemma UnparkForWorkers(s: State, w: nat)
    requires WorkersOk(s) && w < |s.workers| && s.workers[w].pc.Unparking?
    ensures s.workers[w].pc.target < |s.workers| && s.workers[w].pc.target != w
    ensures Summons(s, UnparkFor(s, w, s.workers[w].pc.target), w, s.workers[w].pc.target)
    ensures w in s.active && s.workers[w].pc.target in s.active
    ensures WorkersOk(UnparkFor(s, w, s.workers[w].pc.target))
  {
    assert WorkerOk(s, w) && WorkerOk(s, s.workers[w].pc.target);
    var b, s' := s.workers[w].pc.target, UnparkFor(s, w, s.workers[w].pc.target);
    assert s'.active == s.active + {b};
    SummonWorkers(s, s', w, b);
  }

  lemma UnparkForKeeps(s: State, w: nat)
    requires Inv(s) && w < |s.workers| && s.workers[w].pc.Unparking? && s.workers[w].pc.target < |s.workers|
    ensures Inv(UnparkFor(s, w, s.workers[w].pc.target))
  {
    UnparkForWorkers(s, w);
    var b, s' := s.workers[w].pc.target, UnparkFor(s, w, s.workers[w].pc.target);
    assert s'.active == s.active + {b};
    SummonMain(s, s', w, b);
    SummonLocks(s, s', w, b);
    UnparkForSums(s, w);
  }

  lemma UnparkForSums(s: State, w: nat)
    requires SumsOk(s) && w < |s.workers| && s.workers[w].pc.Unparking? && s.workers[w].pc.target < |s.workers|
    requires s.workers[w].pc.target != w
    ensures SumsOk(UnparkFor(s, w, s.workers[w].pc.target))
  {
    var b := s.workers[w].pc.target;
    FreeSums(s, Move(s, w, Running), w, Running, s.workers[w].summon);
    FreeSums(Move(s, w, Running), UnparkFor(s, w, b), b, s.workers[b].pc, Ready);
  }

  // --- Main thread ------------------------------------------------------------------------

  /** With no bit set every worker rests with nothing in its hands. */
  lemma AllRest(s: State)
    requires WorkersOk(s) && s.active == {}
    ensures forall w :: 0 <= w < |s.workers| ==>
              Rests(s.workers[w].pc) && s.workers[w].summon == NoCall && s.workers[w].fast == None &&
                  s.workers[w].queue == []
    ensures Tasks(s.workers) == multiset{} && Messages(s.workers) == 0
  {
    forall w | 0 <= w < |s.workers|
      ensures Rests(s.workers[w].pc) && s.workers[w].summon == NoCall && s.workers[w].fast == None &&
                s.workers[w].queue == []
      ensures TasksOf(s.workers[w]) == multiset{} && s.workers[w].count == 0 && s.workers[w].debt == 0
    {
      assert WorkerOk(s, w);
    }
    NothingLeft(s.workers);
  }

  /** Steps of the main thread on its own state and token. */
  predicate IsOwnStep(ms: MainStep) { ms.MStart? || ms.MRun? || ms.MLoad? || ms.MCheck? || ms.MAwake? || ms.MRead? }

  lemma OwnStepWorkers(s: State, s': State, ms: MainStep)
    requires WorkersOk(s) && IsOwnStep(ms) && MainNext(s, s', ms)
    ensures WorkersOk(s')
  {
    forall v | 0 <= v < |s'.workers| ensures WorkerOk(s', v) { assert WorkerOk(s, v); }
  }

  lemma OwnStepMain(s: State, s': State, ms: MainStep)
    requires !s.fault && MainOk(s) && IsOwnStep(ms) && !ms.MRead? && MainNext(s, s', ms)
    ensures MainOk(s') && !s'.fault
  {
    SameWaking(s, s');
  }

  lemma ReadMain(s: State, s': State)
    requires !s.fault && WorkersOk(s) && MainOk(s) && SumsOk(s) && MainNext(s, s', MRead)
    ensures MainOk(s') && !s'.fault
  {
    assert s.msgCount == s.pushed - s.popped by { AllRest(s); }
  }

  lemma OwnStepKeeps(s: State, s': State, ms: MainStep)
    requires Inv(s) && IsOwnStep(ms) && MainNext(s, s', ms)
    ensures Inv(s')
  {
    OwnStepWorkers(s, s', ms);
    if ms.MRead? { ReadMain(s, s'); } else { OwnStepMain(s, s', ms); }
  }

  lemma SpawnWorkers(s: State, t: Task)
    requires WorkersOk(s) && s.active == {}
    ensures WorkersOk(Spawn(s, t))
  {
    AllRest(s);
    forall v | 0 <= v < |s.workers| ensures WorkerOk(Spawn(s, t), v) { assert WorkerOk(s, v); }
  }

  lemma SpawnSums(s: State, t: Task)
    requires SumsOk(s)
    ensures SumsOk(Spawn(s, t))
  {
    InsertTaskTasks(s.inner, t);
    Added(s.scheduled, s.ran, BucketTasks(s.inner), Tasks(s.workers), multiset{t});
  }

  lemma Added(a: multiset<Task>, b: multiset<Task>, c: multiset<Task>, d: multiset<Task>, e: multiset<Task>)
    requires a == b + c + d
    ensures a + e == b + (c + e) + d
  {
    assert b + (c + e) + d == b + c + d + e;
  }

  lemma SpawnRest(s: State, t: Task)
    requires LockOk(s) && InjectorOk(s) && MainOk(s) && s.main.Resting? && s.lock.None?
    ensures LockOk(Spawn(s, t)) && InjectorOk(Spawn(s, t)) && MainOk(Spawn(s, t))
  {
    InsertTaskSizes(s.inner, t);
    SameWaking(s, Spawn(s, t));
  }

  lemma SpawnKeeps(s: State, t: Task)
    requires Inv(s) && s.main.Resting? && s.lock.None?
    ensures Inv(Spawn(s, t))
  {
    SpawnWorkers(s, t);
    SpawnSums(s, t);
    SpawnRest(s, t);
  }

  /** The main thread finds the pool idle and picks its first worker. */
  lemma MPickWorkers(s: State)
    requires WorkersOk(s) && MainOk(s) && s.main.MSelecting?
    ensures var s' := MSelect(s, s.main.seen);
            && s'.active == {0} && s'.main == MCounting(0) && WorkersOk(s') && Summons(s, s', MainId(s), 0)
            && s'.workers == s.workers[0 := s.workers[0].(summon := Marked(MainId(s)))]
            && s' == s.(workers := s'.workers, active := {0}, main := MCounting(0))
  {
    var s' := MSelect(s, s.main.seen);
    assert WorkerOk(s, 0);
    assert FirstIdle({}, 0, |s.workers|) == 0;
    assert s'.active == {0};
    assert s'.active == s.active + {0};
    SummonWorkers(s, s', MainId(s), 0);
  }

  predicate MPicked(s: State, s': State) {
    && |s.workers| > 0
    && s'.workers == s.workers[0 := s.workers[0].(summon := Marked(MainId(s)))]
    && s' == s.(workers := s'.workers, active := {0}, main := MCounting(0))
  }

  lemma MPickMain(s: State, s': State)
    requires MPicked(s, s')
    ensures MainOk(s')
  {
    assert 0 in s'.active;
  }

  lemma MPickSums(s: State, s': State)
    requires SumsOk(s) && MPicked(s, s')
    ensures SumsOk(s')
  {
    MoveSums(s, s', 0);
  }

  lemma MPickKeeps(s: State)
    requires Inv(s) && s.main.MSelecting?
    ensures Inv(MSelect(s, s.main.seen))
  {
    MPickWorkers(s);
    SummonLocks(s, MSelect(s, s.main.seen), MainId(s), 0);
    MPickMain(s, MSelect(s, s.main.seen));
    MPickSums(s, MSelect(s, s.main.seen));
  }

  lemma MCountWorkers(s: State)
    requires WorkersOk(s) && MainOk(s) && s.main.MCounting?
    ensures s.main.target in s.active && !s.workers[s.main.target].searching
    ensures var s' := MCountFor(s, s.main.target); WorkersOk(s') && Summons(s, s', MainId(s), s.main.target)
  {
    var b := s.main.target;
    var s' := MCountFor(s, b);
    assert WorkerOk(s, b);
    assert s'.active == s.active + {b};
    SummonWorkers(s, s', MainId(s), b);
  }

  lemma MCountMain(s: State)
    requires MainOk(s) && s.main.MCounting? && s.main.target in s.active
    ensures MainOk(MCountFor(s, s.main.target))
  {
  }

  lemma MCountStruct(s: State)
    requires Struct(s) && s.main.MCounting?
    ensures Struct(MCountFor(s, s.main.target)) && !s.workers[s.main.target].searching
  {
    MCountWorkers(s);
    SummonLocks(s, MCountFor(s, s.main.target), MainId(s), s.main.target);
    MCountMain(s);
  }

  lemma MCountSums(s: State)
    requires SumsOk(s) && s.main.MCounting? && s.main.target < |s.workers| && !s.workers[s.main.target].searching
    ensures SumsOk(MCountFor(s, s.main.target))
  {
    CountedSums(s, MCountFor(s, s.main.target), s.main.target, Counted(MainId(s)));
  }

  lemma MCountKeeps(s: State)
    requires Inv(s) && s.main.MCounting?
    ensures Inv(MCountFor(s, s.main.target))
  {
    MCountStruct(s);
    MCountSums(s);
  }

  lemma MUnparkWorkers(s: State)
    requires WorkersOk(s) && MainOk(s) && s.main.MUnparking?
    ensures s.main.target in s.active
    ensures var s' := MUnparkFor(s, s.main.target); WorkersOk(s') && Summons(s, s', MainId(s), s.main.target)
  {
    var b := s.main.target;
    var s' := MUnparkFor(s, b);
    assert WorkerOk(s, b);
    assert s'.active == s.active + {b};
    SummonWorkers(s, s', MainId(s), b);
  }

  lemma MUnparkMain(s: State)
    requires MainOk(s) && s.main.MUnparking? && s.main.target in s.active
    ensures MainOk(MUnparkFor(s, s.main.target))
  {
  }

  lemma MUnparkKeeps(s: State)
    requires Inv(s) && s.main.MUnparking?
    ensures Inv(MUnparkFor(s, s.main.target))
  {
    MUnparkWorkers(s);
    SummonLocks(s, MUnparkFor(s, s.main.target), MainId(s), s.main.target);
    MoveSums(s, MUnparkFor(s, s.main.target), s.main.target);
    MUnparkMain(s);
  }

  lemma MainKeeps(s: State, s': State, ms: MainStep)
    requires Inv(s) && MainNext(s, s', ms)
    ensures Inv(s')
  {
    match ms
    case MSpawn(t) => SpawnKeeps(s, t);
    case MPick => MPickKeeps(s);
    case MCount => MCountKeeps(s);
    case MUnpark => MUnparkKeeps(s);
    case MStart => OwnStepKeeps(s, s', ms);
    case MRun => OwnStepKeeps(s, s', ms);
    case MLoad => OwnStepKeeps(s, s', ms);
    case MCheck => OwnStepKeeps(s, s', ms);
    case MAwake => OwnStepKeeps(s, s', ms);
    case MRead => OwnStepKeeps(s, s', ms);
  }

  // --- All steps --------------------------------------------------------------------------

  /** The part of the invariant that private steps rely on. */
  lemma Owned(s: State, w: nat)
    requires Inv(s) && w < |s.workers|
    ensures OwnOk(s, w) && SoloOk(s, w) && (s.workers[w].searching ==> s.searching > 0)
  {
    assert WorkerOk(s, w);
    SearcherCounted(s.workers, w);
  }

  lemma PlainKeeps(s: State, w: nat, pc: Pc)
    requires Inv(s) && w < |s.workers| && IsFree(s.workers[w].pc) && IsFree(pc) && !pc.LastCheck? && !pc.Quitting?
    requires LocalOk(s.workers[w].(pc := pc), w in s.active)
    ensures Inv(Move(s, w, pc))
  {
    Owned(s, w);
    PlainMoves(s, w, pc);
    PrivateKeeps(s, Move(s, w, pc), w);
  }

  /** Steps that only move a worker between two points of its loop. */
  predicate IsPlain(ws: WorkerStep) {
    ws.SProbe? || ws.SScan? || ws.SStealFails? || ws.SRetry? || ws.SDone? || ws.SNotify? || ws.SLoad?
  }

  lemma SearchStepMoves(s: State, s': State, w: nat, ws: WorkerStep)
    requires OwnOk(s, w) && WorkerNext(s, s', w, ws) && (ws.SProbe? || ws.SScan? || ws.SStealFails? || ws.SRetry?)
    ensures PrivateMove(s, s', w)
  {
    match ws
    case SProbe => PlainMoves(s, w, if s.emptyFlag then Scanning else Popping);
    case SScan => PlainMoves(s, w, Stealing(s.active - {w}));
    case SStealFails(v) => PlainMoves(s, w, Stealing(s.workers[w].pc.victims - {v}));
    case SRetry => PlainMoves(s, w, Probing);
  }

  lemma NotifyMoves(s: State, w: nat, pc: Pc)
    requires OwnOk(s, w) && (s.workers[w].pc.Notifying? || s.workers[w].pc.Loading?)
    requires pc.Loading? || pc.Running? || pc.Selecting?
    ensures PrivateMove(s, Move(s, w, pc), w)
  {
    PlainMoves(s, w, pc);
  }

  lemma DoneMoves(s: State, w: nat)
    requires OwnOk(s, w) && s.workers[w].pc.Running? && s.workers[w].debt == 0
    ensures PrivateMove(s, Move(s, w, Working), w)
  {
    PlainMoves(s, w, Working);
  }

  lemma PlainStepMoves(s: State, s': State, w: nat, ws: WorkerStep)
    requires OwnOk(s, w) && IsPlain(ws) && WorkerNext(s, s', w, ws)
    ensures PrivateMove(s, s', w)
  {
    if ws.SDone? {
      DoneMoves(s, w);
    } else if ws.SNotify? || ws.SLoad? {
      NotifyMoves(s, w, s'.workers[w].pc);
    } else {
      SearchStepMoves(s, s', w, ws);
    }
  }

  lemma PlainStepKeeps(s: State, s': State, w: nat, ws: WorkerStep)
    requires Inv(s) && w < |s.workers| && IsPlain(ws) && WorkerNext(s, s', w, ws)
    ensures Inv(s')
  {
    Owned(s, w);
    PlainStepMoves(s, s', w, ws);
    PrivateKeeps(s, s', w);
  }

  lemma MessageKeeps(s: State, s': State, w: nat, ws: WorkerStep)
    requires Inv(s) && w < |s.workers| && IsMessaging(ws) && WorkerNext(s, s', w, ws)
    ensures Inv(s')
  {
    Owned(s, w);
    MessageMoves(s, s', w, ws);
    PrivateKeeps(s, s', w);
  }

  lemma DeactivateKeeps(s: State, w: nat)
    requires Inv(s) && w < |s.workers| && s.workers[w].pc.Deactivating?
    ensures Inv(Deactivate(s, w))
  {
    if s.active == {w} {
      Owned(s, w);
      LastMoves(s, w);
      PrivateKeeps(s, Deactivate(s, w), w);
    } else {
      ParkKeeps(s, w);
    }
  }

  /** Alone, a worker cannot catch the hint at the wrong moment: nobody holds the lock. */
  lemma HintIsRight(s: State, w: nat)
    requires Struct(s) && w < |s.workers| && s.workers[w].pc.LastCheck? && s.emptyFlag
    ensures s.inner == []
  {
    assert WorkerOk(s, w);
    if s.lock.Some? { assert WorkerOk(s, s.lock.value); }
  }

  lemma LastCheckKeeps(s: State, s': State, w: nat)
    requires Inv(s) && w < |s.workers| && WorkerNext(s, s', w, SLastCheck)
    ensures Inv(s')
  {
    Owned(s, w);
    if s.emptyFlag { HintIsRight(s, w); }
    LastCheckMoves(s, s', w);
    PrivateKeeps(s, s', w);
  }

  lemma EndKeeps(s: State, w: nat, pc: Pc)
    requires Inv(s) && w < |s.workers|
    requires (s.workers[w].pc.Stealing? && pc == Flushing) || (s.workers[w].pc.Ending? && pc == Working)
    ensures Inv(EndSearch(s, w, pc))
  {
    Owned(s, w);
    EndSearchMoves(s, w, pc);
    PrivateKeeps(s, EndSearch(s, w, pc), w);
  }

  lemma WorkKeeps(s: State, w: nat)
    requires Inv(s) && w < |s.workers| && s.workers[w].pc.Working?
    ensures Inv(Work(s, w))
  {
    Owned(s, w);
    if s.workers[w].fast.Some? {
      RunFast(s, w);
    } else if s.workers[w].queue != [] {
      RunQueued(s, w);
    } else {
      ResumeSearch(s, w);
    }
    PrivateKeeps(s, Work(s, w), w);
  }

  lemma ScheduleKeeps(s: State, w: nat, t: Task)
    requires Inv(s) && w < |s.workers| && s.workers[w].pc.Running?
    ensures Inv(Schedule(s, w, t))
  {
    Owned(s, w);
    ScheduleMoves(s, w, t);
    PrivateKeeps(s, Schedule(s, w, t), w);
  }

  lemma FillKeeps(s: State, w: nat)
    requires Inv(s) && w < |s.workers| && s.workers[w].pc.Filling?
    ensures Inv(Fill(s, w, s.workers[w].pc.got))
  {
    Owned(s, w);
    FillMoves(s, w);
    PrivateKeeps(s, Fill(s, w, s.workers[w].pc.got), w);
  }

  lemma DisplaceKeeps(s: State, w: nat, pushes: bool, drains: bool)
    requires Inv(s) && w < |s.workers| && s.workers[w].pc.Displaced?
    ensures Inv(Displace(s, w, s.workers[w].pc.prev, pushes, drains))
  {
    Owned(s, w);
    if |s.workers[w].queue| < QUEUE_SIZE && pushes {
      DisplaceToQueue(s, w, drains);
    } else if s.workers[w].queue != [] && drains {
      DisplaceHalf(s, w, pushes);
    } else {
      DisplaceAlone(s, w, pushes, drains);
    }
    PrivateKeeps(s, Displace(s, w, s.workers[w].pc.prev, pushes, drains), w);
  }

  lemma RepushKeeps(s: State, w: nat)
    requires Inv(s) && w < |s.workers| && s.workers[w].pc.Repushing?
    ensures Inv(Repush(s, w, s.workers[w].pc.prev))
  {
    Owned(s, w);
    RepushMoves(s, w);
    PrivateKeeps(s, Repush(s, w, s.workers[w].pc.prev), w);
  }

  lemma SelectKeeps(s: State, w: nat)
    requires Inv(s) && w < |s.workers| && s.workers[w].pc.Selecting?
    ensures Inv(Select(s, w, s.workers[w].pc.seen))
  {
    Owned(s, w);
    var b := FirstIdle(s.workers[w].pc.seen, 0, |s.workers|);
    if b == |s.workers| {
      PlainKeeps(s, w, Running);
    } else if b in s.active {
      PlainKeeps(s, w, Selecting(s.active));
    } else {
      MarkKeeps(s, w);
    }
  }

  /** Steps in which tasks change places. */
  predicate IsTransfer(ws: WorkerStep) {
    ws.SPop? || ws.SPopFlag? || ws.SFill? || ws.SSteal? || ws.SWork? || ws.SSchedule? || ws.SDisplace? ||
    ws.SInject? || ws.SInjectFlag? || ws.SRepush?
  }

  lemma FetchKeeps(s: State, s': State, w: nat, ws: WorkerStep)
    requires Inv(s) && w < |s.workers| && (ws.SPop? || ws.SPopFlag? || ws.SFill? || ws.SSteal?)
    requires WorkerNext(s, s', w, ws)
    ensures Inv(s')
  {
    match ws
    case SPop => PopKeeps(s, w);
    case SPopFlag => PopFlagKeeps(s, w);
    case SFill => FillKeeps(s, w);
    case SSteal(v, c) => StealKeeps(s, w, v, c);
  }

  lemma HandOnKeeps(s: State, s': State, w: nat, ws: WorkerStep)
    requires Inv(s) && w < |s.workers| && (ws.SInject? || ws.SInjectFlag? || ws.SRepush?) && WorkerNext(s, s', w, ws)
    ensures Inv(s')
  {
    match ws
    case SInject => InjectKeeps(s, w);
    case SInjectFlag => InjectFlagKeeps(s, w);
    case SRepush => RepushKeeps(s, w);
  }

  lemma TaskStepKeeps(s: State, s': State, w: nat, ws: WorkerStep)
    requires Inv(s) && w < |s.workers| && (ws.SWork? || ws.SSchedule? || ws.SDisplace?) && WorkerNext(s, s', w, ws)
    ensures Inv(s')
  {
    match ws
    case SWork => WorkKeeps(s, w);
    case SSchedule(t) => ScheduleKeeps(s, w, t);
    case SDisplace(pushes, drains) => DisplaceKeeps(s, w, pushes, drains);
  }

  lemma TransferKeeps(s: State, s': State, w: nat, ws: WorkerStep)
    requires Inv(s) && w < |s.workers| && IsTransfer(ws) && WorkerNext(s, s', w, ws)
    ensures Inv(s')
  {
    if ws.SPop? || ws.SPopFlag? || ws.SFill? || ws.SSteal? {
      FetchKeeps(s, s', w, ws);
    } else if ws.SInject? || ws.SInjectFlag? || ws.SRepush? {
      HandOnKeeps(s, s', w, ws);
    } else {
      TaskStepKeeps(s, s', w, ws);
    }
  }

  /** Steps on the bits, the tokens and the search count. */
  predicate IsSignal(ws: WorkerStep) { !IsMessaging(ws) && !IsPlain(ws) && !IsTransfer(ws) }

  lemma SignalKeeps(s: State, s': State, w: nat, ws: WorkerStep)
    requires Inv(s) && w < |s.workers| && IsSignal(ws) && WorkerNext(s, s', w, ws)
    ensures Inv(s')
  {
    match ws
    case SDeactivate => DeactivateKeeps(s, w);
    case SLastCheck => LastCheckKeeps(s, s', w);
    case SQuit => QuitKeeps(s, w);
    case SWakeMain => WakeMainKeeps(s, w);
    case SUnpark => UnparkKeeps(s, w);
    case SGiveUp => EndKeeps(s, w, Flushing);
    case SEnd => EndKeeps(s, w, Working);
    case SSelect => SelectKeeps(s, w);
    case SCountFor => CountKeeps(s, w);
    case SUnparkFor => UnparkForKeeps(s, w);
  }

  lemma WorkerKeeps(s: State, s': State, w: nat, ws: WorkerStep)
    requires Inv(s) && w < |s.workers| && WorkerNext(s, s', w, ws)
    ensures Inv(s')
  {
    if IsMessaging(ws) {
      MessageKeeps(s, s', w, ws);
    } else if IsPlain(ws) {
      PlainStepKeeps(s, s', w, ws);
    } else if IsTransfer(ws) {
      TransferKeeps(s, s', w, ws);
    } else {
      SignalKeeps(s, s', w, ws);
    }
  }

  lemma NextKeeps(s: State, s': State, step: Step)
    requires Inv(s) && NextStep(s, s', step)
    ensures Inv(s')
  {
    match step
    case OfWorker(w, ws) => WorkerKeeps(s, s', w, ws);
    case OfMain(ms) => MainKeeps(s, s', ms);
  }

  lemma InitHolds(s: State)
    requires Init(s)
    ensures Inv(s)
  {
    assert 0 in s.active;
    FreshSums(s.workers);
  }

  lemma {:induction false} FreshSums(ws: seq<Worker>)
    requires forall w :: 0 <= w < |ws| ==> ws[w] == Worker(Flushing, None, [], NoCall, false, 0, 0)
    ensures Tasks(ws) == multiset{} && Messages(ws) == 0 && Searchers(ws) == 0
  {
    if ws != [] { FreshSums(ws[..|ws| - 1]); }
  }

  lemma {:induction false} RunKeeps(run: seq<State>, steps: seq<Step>, i: nat)
    requires IsRun(run, steps) && i < |run|
    ensures Inv(run[i])
  {
    if i == 0 {
      InitHolds(run[0]);
    } else {
      RunKeeps(run, steps, i - 1);
      NextKeeps(run[i - 1], run[i], steps[i - 1]);
    }
  }

  // --- What every run of the pool satisfies ------------------------------------------------

  /**
    No assertion or unwrap fails and the search count is exact.  Every scheduled task has
    been run or waits in one place, and every message is accounted for.
  */
  lemma PoolSafety(run: seq<State>, steps: seq<Step>, i: nat)
    requires IsRun(run, steps) && i < |run|
    ensures var s := run[i];
            && !s.fault && s.searching == Searchers(s.workers) >= 0
            && s.scheduled == s.ran + BucketTasks(s.inner) + Tasks(s.workers)
            && s.msgCount + Messages(s.workers) == s.pushed - s.popped
            && forall w :: 0 <= w < |s.workers| ==> |s.workers[w].queue| <= QUEUE_SIZE
  {
    RunKeeps(run, steps, i);
    var s := run[i];
    SearcherCounted(s.workers, 0);
    forall w | 0 <= w < |s.workers| ensures |s.workers[w].queue| <= QUEUE_SIZE { assert WorkerOk(s, w); }
  }

  /** Once the main thread sees no bit set, every scheduled task has been run. */
  lemma IdleMeansDone(run: seq<State>, steps: seq<Step>, i: nat)
    requires IsRun(run, steps) && i < |run| && InRun(run[i].main) && run[i].active == {}
    ensures var s := run[i];
            && s.scheduled == s.ran && s.inner == [] && s.msgCount == s.pushed - s.popped
            && forall w :: 0 <= w < |s.workers| ==>
                 Rests(s.workers[w].pc) && s.workers[w].fast == None && s.workers[w].queue == []
  {
    RunKeeps(run, steps, i);
    AllRest(run[i]);
  }

  lemma AllDone(s: State)
    requires WorkersOk(s) && SumsOk(s) && s.active == {} && s.inner == []
    ensures s.scheduled == s.ran && s.msgCount == s.pushed - s.popped
  {
    AllRest(s);
    assert BucketTasks(s.inner) == multiset{};
  }

  lemma ReadIsExact(s: State, s': State)
    requires WorkersOk(s) && SumsOk(s) && MainOk(s) && MainNext(s, s', MRead)
    ensures s'.scheduled == s'.ran && s'.main == if s.pushed == s.popped then Resting else Halted(s.pushed - s.popped)
  {
    AllDone(s);
  }

  /** A run succeeds exactly when every message was received, and else counts the missing ones. */
  lemma ReturnIsExact(run: seq<State>, steps: seq<Step>, i: nat)
    requires IsRun(run, steps) && i < |steps| && steps[i] == OfMain(MRead)
    ensures var s, s' := run[i], run[i + 1];
            && s'.scheduled == s'.ran
            && (s'.main == Resting <==> s.pushed == s.popped)
            && (s'.main != Resting ==> s'.main == Halted(s.pushed - s.popped) && s.pushed > s.popped)
  {
    RunKeeps(run, steps, i);
    ReadIsExact(run[i], run[i + 1]);
  }

  /** A parked worker whose bit is set has its token, or somebody is about to hand it over. */
  lemma ActivationIsNotLost(run: seq<State>, steps: seq<Step>, i: nat, w: nat)
    requires IsRun(run, steps) && i < |run| && w < |run[i].workers|
    requires w in run[i].active && run[i].workers[w].pc.Parked?
    ensures var s := run[i];
            || s.workers[w].summon == Ready
            || s.main == MCounting(w) || s.main == MUnparking(w)
            || exists c :: 0 <= c < |s.workers| && (s.workers[c].pc == Counting(w) || s.workers[c].pc == Unparking(w))
  {
    RunKeeps(run, steps, i);
    assert WorkerOk(run[i], w);
  }

  /** The main thread never sleeps through the end of a run. */
  lemma MainIsWoken(run: seq<State>, steps: seq<Step>, i: nat)
    requires IsRun(run, steps) && i < |run| && run[i].main.Waiting? && run[i].active == {}
    ensures run[i].mainToken || AnyWaking(run[i])
  {
    RunKeeps(run, steps, i);
  }

  // --- No deadlock ----------------------------------------------------------------------------

  ghost predicate CanStep(s: State, w: nat)
    requires w < |s.workers|
  {
    exists ws, s' :: WorkerNext(s, s', w, ws) && s' != s
  }

  ghost predicate MainCanStep(s: State) { exists ms, s' :: MainNext(s, s', ms) && s' != s }

  /** A worker waits only for the lock of the injector or for its own token. */
  predicate Blocked(s: State, w: nat)
    requires w < |s.workers|
  {
    || ((s.workers[w].pc.Popping? || s.workers[w].pc.Injecting?) && s.lock.Some?)
    || (s.workers[w].pc.Parked? && !s.workers[w].summon.Ready?)
  }

  lemma Enabled(s: State, s': State, w: nat, ws: WorkerStep)
    requires w < |s.workers| && WorkerNext(s, s', w, ws)
    requires |s'.workers| == |s.workers| && (s'.workers[w] != s.workers[w] || s'.active != s.active)
    ensures CanStep(s, w)
  {
  }

  lemma RestCanStep(s: State, w: nat)
    requires w < |s.workers| && !Blocked(s, w)
    requires var pc := s.workers[w].pc;
             pc.Flushing? || pc.Deactivating? || pc.LastCheck? || pc.Quitting? || pc.WakingMain? || pc.Parked?
    ensures CanStep(s, w)
  {
    match s.workers[w].pc
    case Flushing => Enabled(s, Flush(s, w), w, SFlush);
    case Deactivating => Enabled(s, Deactivate(s, w), w, SDeactivate);
    case LastCheck => Enabled(s, if s.emptyFlag then Move(s, w, Quitting) else BeginSearch(s, w), w, SLastCheck);
    case Quitting => Enabled(s, Quit(s, w), w, SQuit);
    case WakingMain => Enabled(s, WakeMain(s, w), w, SWakeMain);
    case Parked => Enabled(s, Unpark(s, w), w, SUnpark);
  }

  /** In particular the bucket taken from the injector always fits into the local queue. */
  lemma FetchCanStep(s: State, w: nat)
    requires w < |s.workers| && LocalOk(s.workers[w], w in s.active) && !Blocked(s, w)
    requires var pc := s.workers[w].pc; pc.Probing? || pc.Popping? || pc.PopFlag? || pc.Filling?
    ensures CanStep(s, w)
  {
    match s.workers[w].pc
    case Probing => Enabled(s, Move(s, w, if s.emptyFlag then Scanning else Popping), w, SProbe);
    case Popping => Enabled(s, PopBucket(s, w), w, SPop);
    case PopFlag(got) => Enabled(s, StorePopFlag(s, w, got), w, SPopFlag);
    case Filling(got) => Enabled(s, Fill(s, w, got), w, SFill);
  }

  lemma StealCanStep(s: State, w: nat)
    requires w < |s.workers| && s.workers[w].pc.Stealing?
    ensures CanStep(s, w)
  {
    var victims := s.workers[w].pc.victims;
    if victims == {} {
      Enabled(s, Move(s, w, Probing), w, SRetry);
    } else {
      var v :| v in victims;
      assert v !in victims - {v};
      Enabled(s, Move(s, w, Stealing(victims - {v})), w, SStealFails(v));
    }
  }

  lemma SearchCanStep(s: State, w: nat)
    requires w < |s.workers| && LocalOk(s.workers[w], w in s.active) && !Blocked(s, w) && InSearch(s.workers[w].pc)
    ensures CanStep(s, w)
  {
    match s.workers[w].pc
    case Scanning => Enabled(s, Move(s, w, Stealing(s.active - {w})), w, SScan);
    case Stealing(_) => StealCanStep(s, w);
    case Ending => Enabled(s, EndSearch(s, w, Working), w, SEnd);
    case _ => FetchCanStep(s, w);
  }

  lemma RunningCanStep(s: State, w: nat)
    requires w < |s.workers| && s.workers[w].pc.Running?
    ensures CanStep(s, w)
  {
    var x := s.workers[w];
    if x.debt == 0 {
      Enabled(s, Move(s, w, Working), w, SDone);
    } else {
      Enabled(s, Put(s, w, x.(count := x.count + x.debt, debt := 0)), w, SCountMsg);
    }
  }

  lemma InjectCanStep(s: State, w: nat)
    requires w < |s.workers| && LocalOk(s.workers[w], w in s.active) && !Blocked(s, w)
    requires var pc := s.workers[w].pc; pc.Injecting? || pc.InjectFlag? || pc.Repushing?
    ensures CanStep(s, w)
  {
    match s.workers[w].pc
    case Injecting(tasks, single, kept) => Enabled(s, Inject(s, w, tasks, single, kept), w, SInject);
    case InjectFlag(kept, wasEmpty) => Enabled(s, StoreInjectFlag(s, w, kept, wasEmpty), w, SInjectFlag);
    case Repushing(prev) => Enabled(s, Repush(s, w, prev), w, SRepush);
  }

  lemma TaskCanStep(s: State, w: nat)
    requires w < |s.workers| && LocalOk(s.workers[w], w in s.active) && !Blocked(s, w)
    requires var pc := s.workers[w].pc;
             pc.Working? || pc.Running? || pc.Displaced? || pc.Injecting? || pc.InjectFlag? || pc.Repushing?
    ensures CanStep(s, w)
  {
    match s.workers[w].pc
    case Working => Enabled(s, Work(s, w), w, SWork);
    case Running => RunningCanStep(s, w);
    case Displaced(prev) => Enabled(s, Displace(s, w, prev, true, true), w, SDisplace(true, true));
    case _ => InjectCanStep(s, w);
  }

  /** A worker that selects again has seen the bits change. */
  lemma SelectCanStep(s: State, w: nat)
    requires w < |s.workers| && s.workers[w].pc.Selecting?
    ensures CanStep(s, w)
  {
    var seen := s.workers[w].pc.seen;
    var b := FirstIdle(seen, 0, |s.workers|);
    if b < |s.workers| && b in s.active { assert b !in seen; }
    if b < |s.workers| && b !in s.active { assert b in Select(s, w, seen).active; }
    Enabled(s, Select(s, w, seen), w, SSelect);
  }

  lemma HandOverCanStep(s: State, w: nat)
    requires w < |s.workers| && CallerOk(s, w) && (s.workers[w].pc.Counting? || s.workers[w].pc.Unparking?)
    ensures CanStep(s, w)
  {
    match s.workers[w].pc
    case Counting(b) => Enabled(s, CountFor(s, w, b), w, SCountFor);
    case Unparking(b) => Enabled(s, UnparkFor(s, w, b), w, SUnparkFor);
  }

  lemma CallCanStep(s: State, w: nat)
    requires w < |s.workers| && CallerOk(s, w)
    requires var pc := s.workers[w].pc; pc.Notifying? || pc.Loading? || pc.Selecting? || pc.Counting? || pc.Unparking?
    ensures CanStep(s, w)
  {
    match s.workers[w].pc
    case Notifying => Enabled(s, Move(s, w, if s.searching == 0 then Loading else Running), w, SNotify);
    case Loading => Enabled(s, Move(s, w, Selecting(s.active)), w, SLoad);
    case Selecting(_) => SelectCanStep(s, w);
    case _ => HandOverCanStep(s, w);
  }

  lemma UnblockedCanStep(s: State, w: nat)
    requires w < |s.workers| && WorkerOk(s, w) && !Blocked(s, w)
    ensures CanStep(s, w)
  {
    var pc := s.workers[w].pc;
    if InSearch(pc) {
      SearchCanStep(s, w);
    } else if pc.Working? || pc.Running? || pc.Displaced? || pc.Injecting? || pc.InjectFlag? || pc.Repushing? {
      TaskCanStep(s, w);
    } else if pc.Notifying? || pc.Loading? || pc.Selecting? || pc.Counting? || pc.Unparking? {
      CallCanStep(s, w);
    } else {
      RestCanStep(s, w);
    }
  }

  lemma MainSteps(s: State)
    requires MainOk(s) && !s.main.Halted? && !s.main.Resting?
    requires (s.main.Starting? || s.main.Waiting?) ==> s.mainToken
    ensures MainCanStep(s)
  {
    match s.main
    case Starting => assert MainNext(s, s.(main := Resting, mainToken := false, fault := s.fault || s.active != {}),
        MStart);
    case MLoading => assert MainNext(s, s.(main := MSelecting(s.active)), MLoad);
    case MSelecting(seen) => assert MainNext(s, MSelect(s, seen), MPick);
    case MCounting(b) => assert MainNext(s, MCountFor(s, b), MCount);
    case MUnparking(b) => assert MainNext(s, MUnparkFor(s, b), MUnpark);
    case Checking => assert MainNext(s, s.(main := if s.active == {} then Reading else Waiting), MCheck);
    case Waiting => assert MainNext(s, s.(main := Checking, mainToken := false), MAwake);
    case Reading => assert MainNext(s, ReadCount(s), MRead);
  }

  /** What a blocked worker waits for is in the hands of somebody who is not blocked. */
  lemma SomebodyElse(s: State, w: nat) returns (v: nat)
    requires Struct(s) && w in s.active && w < |s.workers| && Blocked(s, w) && (s.main.Starting? || s.main.Waiting?)
    ensures v < |s.workers| && !Blocked(s, v)
  {
    assert WorkerOk(s, w);
    v := if s.workers[w].pc.Parked? then s.workers[w].summon.caller else s.lock.value;
  }

  /** As long as a run is not over, a worker or the main thread can move. */
  lemma NoDeadlock(run: seq<State>, steps: seq<Step>, i: nat)
    requires IsRun(run, steps) && i < |run| && !run[i].main.Resting? && !run[i].main.Halted?
    ensures MainCanStep(run[i]) || exists w: nat :: w < |run[i].workers| && CanStep(run[i], w)
  {
    RunKeeps(run, steps, i);
    var s := run[i];
    if (s.main.Starting? || s.main.Waiting?) && !s.mainToken {
      var w: nat :| w < |s.workers| && (w in s.active || s.workers[w].pc.WakingMain?);
      if Blocked(s, w) { w := SomebodyElse(s, w); }
      assert WorkerOk(s, w);
      UnblockedCanStep(s, w);
    } else {
      MainSteps(s);
    }
  }
}
