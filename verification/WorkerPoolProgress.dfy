/**
  What a worker of the pool does with its search: it goes idle only after it has found the
  injector empty and tried every active worker, and by itself it runs a task that is in reach.
*/
module WorkerPoolProgress {
  import opened WorkerPool
  import opened WorkerPoolInvariant
  import opened Wrappers

  // --- What a worker has seen before it goes idle ---------------------------------------------

  /** A look at the injector finds nothing: its hint is up, or it holds no bucket. */
  predicate LooksEmpty(s: State) { s.emptyFlag || s.inner == [] }

  /** In a search, after a look at the injector. */
  predicate PastLook(pc: Pc) { pc.Scanning? || pc.Stealing? || (pc.PopFlag? && pc.got == []) }

  /** At state `j` the worker found nothing in the injector, and it has stayed in its search until `i`. */
  ghost predicate Looked(run: seq<State>, j: nat, i: nat, w: nat) {
    && j < i < |run| && LooksEmpty(run[j])
    && (forall m :: j <= m <= i ==> w < |run[m].workers| && InSearch(run[m].workers[w].pc))
    && (forall m :: j < m <= i ==> w < |run[m].workers| && !run[m].workers[w].pc.Probing?)
  }

  predicate IsDeactivation(ws: WorkerStep) { ws.SFlush? || ws.SLastCheck? }

  predicate IsRest(ws: WorkerStep) { ws.SQuit? || ws.SWakeMain? || ws.SUnpark? }

  /** Steps of a search on the worker's own record and the injector. */
  predicate IsFetch(ws: WorkerStep) { ws.SProbe? || ws.SPop? || ws.SPopFlag? || ws.SFill? || ws.SEnd? || ws.SGiveUp? }

  predicate IsTry(ws: WorkerStep) { ws.SScan? || ws.SSteal? || ws.SStealFails? || ws.SRetry? }

  predicate IsTask(ws: WorkerStep) { ws.SSchedule? || ws.SDone? }

  predicate IsMessage(ws: WorkerStep) { ws.SSend? || ws.SRecv? || ws.SCountMsg? }

  predicate IsHandOn(ws: WorkerStep) { ws.SDisplace? || ws.SInject? || ws.SInjectFlag? || ws.SRepush? }

  predicate IsNotice(ws: WorkerStep) { ws.SNotify? || ws.SLoad? }

  predicate IsCall(ws: WorkerStep) { ws.SCountFor? || ws.SUnparkFor? }

  /** There are as many workers as before, and the point of `v`, if not `w`, in its loop is the same. */
  predicate KeepsPoint(s: State, s': State, w: nat, v: nat) {
    |s'.workers| == |s.workers| && (v < |s.workers| && v != w ==> s'.workers[v].pc == s.workers[v].pc)
  }

  /** The injector is as before, and `w` neither holds nor gets its lock. */
  predicate KeepsInjector(s: State, s': State, w: nat)
    requires IsWorker(s, w)
  {
    s'.inner == s.inner && s'.emptyFlag == s.emptyFlag && s'.lock == s.lock && !HoldsLock(s.workers[w].pc)
  }

  /** `w` is in no search before, and not past the look after. */
  predicate IsOutside(s: State, s': State, w: nat)
    requires IsWorker(s, w)
  {
    !InSearch(s.workers[w].pc) && w < |s'.workers| && !PastLook(s'.workers[w].pc)
  }

  lemma DeactivationStep(s: State, s': State, w: nat, ws: WorkerStep, v: nat)
    requires IsWorker(s, w) && WorkerNext(s, s', w, ws) && IsDeactivation(ws)
    ensures KeepsPoint(s, s', w, v) && KeepsInjector(s, s', w) && IsOutside(s, s', w)
  {
  }

  lemma DeactivateStep(s: State, w: nat, v: nat)
    requires IsWorker(s, w) && s.workers[w].pc.Deactivating?
    ensures var s' := Deactivate(s, w); KeepsPoint(s, s', w, v) && KeepsInjector(s, s', w) && IsOutside(s, s', w)
  {
  }

  lemma RestStep(s: State, s': State, w: nat, ws: WorkerStep, v: nat)
    requires IsWorker(s, w) && WorkerNext(s, s', w, ws) && IsRest(ws)
    ensures KeepsPoint(s, s', w, v) && KeepsInjector(s, s', w) && IsOutside(s, s', w)
  {
  }

  lemma FetchStep(s: State, s': State, w: nat, ws: WorkerStep, v: nat)
    requires IsWorker(s, w) && WorkerNext(s, s', w, ws) && IsFetch(ws)
    ensures KeepsPoint(s, s', w, v) && (ws.SPop? || ws.SPopFlag? || KeepsInjector(s, s', w))
  {
  }

  lemma TryStepFrame(s: State, s': State, w: nat, ws: WorkerStep, v: nat)
    requires IsWorker(s, w) && WorkerNext(s, s', w, ws) && IsTry(ws)
    ensures KeepsPoint(s, s', w, v) && KeepsInjector(s, s', w)
  {
  }

  lemma WorkStep(s: State, w: nat, v: nat)
    requires IsWorker(s, w) && s.workers[w].pc.Working?
    ensures var s' := Work(s, w); KeepsPoint(s, s', w, v) && KeepsInjector(s, s', w) && IsOutside(s, s', w)
  {
  }

  lemma TaskStep(s: State, s': State, w: nat, ws: WorkerStep, v: nat)
    requires IsWorker(s, w) && WorkerNext(s, s', w, ws) && IsTask(ws)
    ensures KeepsPoint(s, s', w, v) && KeepsInjector(s, s', w) && IsOutside(s, s', w)
  {
  }

  lemma MessageStep(s: State, s': State, w: nat, ws: WorkerStep, v: nat)
    requires IsWorker(s, w) && WorkerNext(s, s', w, ws) && IsMessage(ws)
    ensures KeepsPoint(s, s', w, v) && KeepsInjector(s, s', w) && IsOutside(s, s', w)
  {
  }

  lemma HandOnStep(s: State, s': State, w: nat, ws: WorkerStep, v: nat)
    requires IsWorker(s, w) && WorkerNext(s, s', w, ws) && IsHandOn(ws)
    ensures KeepsPoint(s, s', w, v) && IsOutside(s, s', w)
    ensures ws.SInject? || ws.SInjectFlag? || KeepsInjector(s, s', w)
  {
  }

  lemma NoticeStep(s: State, s': State, w: nat, ws: WorkerStep, v: nat)
    requires IsWorker(s, w) && WorkerNext(s, s', w, ws) && IsNotice(ws)
    ensures KeepsPoint(s, s', w, v) && KeepsInjector(s, s', w) && IsOutside(s, s', w)
  {
  }

  /** The selected worker is another one, since the caller's own bit is set. */
  lemma SelectStep(s: State, w: nat, v: nat)
    requires IsWorker(s, w) && w in s.active && s.workers[w].pc.Selecting?
    ensures var s' := Select(s, w, s.workers[w].pc.seen);
            KeepsPoint(s, s', w, v) && KeepsInjector(s, s', w) && IsOutside(s, s', w)
  {
    var b := FirstIdle(s.workers[w].pc.seen, 0, |s.workers|);
    if b < |s.workers| && b !in s.active { assert b != w; }
  }

  /** The called worker is another one. */
  lemma CallStep(s: State, s': State, w: nat, ws: WorkerStep, v: nat)
    requires IsWorker(s, w) && CallerOk(s, w) && s.workers[w].summon == NoCall
    requires WorkerNext(s, s', w, ws) && IsCall(ws)
    ensures KeepsPoint(s, s', w, v) && KeepsInjector(s, s', w) && IsOutside(s, s', w)
  {
  }

  predicate IsInjectorStep(ws: WorkerStep) { ws.SPop? || ws.SPopFlag? || ws.SInject? || ws.SInjectFlag? }

  /** What the invariant says about the injector and the worker that takes the step. */
  predicate Fits(s: State, step: Step) {
    && (forall b :: b in s.inner ==> 0 < |b|)
    && (step.OfWorker? && step.w < |s.workers| ==> WorkerOk(s, step.w))
  }

  lemma InvFits(s: State, step: Step)
    requires Inv(s)
    ensures Fits(s, step)
  {
  }

  /** What all steps of a worker have in common. */
  lemma OwnStep(s: State, s': State, w: nat, ws: WorkerStep, v: nat)
    requires IsWorker(s, w) && WorkerOk(s, w) && WorkerNext(s, s', w, ws)
    ensures KeepsPoint(s, s', w, v) && (IsInjectorStep(ws) || KeepsInjector(s, s', w))
    ensures IsFetch(ws) || IsTry(ws) || IsOutside(s, s', w)
  {
    if IsDeactivation(ws) {
      DeactivationStep(s, s', w, ws, v);
    } else if ws.SDeactivate? {
      DeactivateStep(s, w, v);
    } else if IsRest(ws) {
      RestStep(s, s', w, ws, v);
    } else if IsFetch(ws) {
      FetchStep(s, s', w, ws, v);
    } else if IsTry(ws) {
      TryStepFrame(s, s', w, ws, v);
    } else if IsTask(ws) {
      TaskStep(s, s', w, ws, v);
    } else if ws.SWork? {
      WorkStep(s, w, v);
    } else if IsMessage(ws) {
      MessageStep(s, s', w, ws, v);
    } else if IsHandOn(ws) {
      HandOnStep(s, s', w, ws, v);
    } else if IsNotice(ws) {
      NoticeStep(s, s', w, ws, v);
    } else if ws.SSelect? {
      SelectStep(s, w, v);
    } else {
      CallStep(s, s', w, ws, v);
    }
  }

  lemma MainSize(s: State, s': State, ms: MainStep)
    requires MainNext(s, s', ms)
    ensures |s'.workers| == |s.workers|
  {
  }

  lemma MainFrame(s: State, s': State, ms: MainStep, w: nat)
    requires w < |s.workers| && MainNext(s, s', ms)
    ensures |s'.workers| == |s.workers| && s'.workers[w].pc == s.workers[w].pc
  {
  }

  /** A worker's point in its loop is changed by its own steps only. */
  lemma OthersKeepPoint(s: State, s': State, step: Step, w: nat)
    requires Fits(s, step) && w < |s.workers| && NextStep(s, s', step) && (step.OfMain? || step.w != w)
    ensures |s'.workers| == |s.workers| && s'.workers[w].pc == s.workers[w].pc
  {
    match step
    case OfMain(ms) => MainFrame(s, s', ms, w);
    case OfWorker(v, ws) => OwnStep(s, s', v, ws, w);
  }

  lemma StepSize(s: State, s': State, step: Step)
    requires Fits(s, step) && NextStep(s, s', step)
    ensures |s'.workers| == |s.workers|
  {
    match step
    case OfMain(ms) => MainSize(s, s', ms);
    case OfWorker(v, ws) => OwnStep(s, s', v, ws, v + 1);
  }

  /** A step of `w` gets past the look only from there, or by a look that finds nothing. */
  lemma LookStep(s: State, s': State, w: nat, ws: WorkerStep)
    requires IsWorker(s, w) && WorkerNext(s, s', w, ws) && (IsFetch(ws) || IsTry(ws))
    requires forall b :: b in s.inner ==> 0 < |b|
    requires IsWorker(s', w) && PastLook(s'.workers[w].pc)
    ensures PastLook(s.workers[w].pc) || (LooksEmpty(s) && InSearch(s.workers[w].pc))
  {
  }

  lemma LookBack(s: State, s': State, step: Step, w: nat)
    requires Fits(s, step) && NextStep(s, s', step) && IsWorker(s', w) && PastLook(s'.workers[w].pc)
    ensures IsWorker(s, w)
    ensures PastLook(s.workers[w].pc) || (LooksEmpty(s) && InSearch(s.workers[w].pc))
  {
    StepSize(s, s', step);
    if step.OfMain? || step.w != w {
      OthersKeepPoint(s, s', step, w);
    } else {
      OwnStep(s, s', w, step.ws, w);
      LookStep(s, s', w, step.ws);
    }
  }

  lemma RunFits(run: seq<State>, steps: seq<Step>, i: nat)
    requires IsRun(run, steps) && i < |steps|
    ensures Fits(run[i], steps[i]) && NextStep(run[i], run[i + 1], steps[i])
  {
    RunKeeps(run, steps, i);
    InvFits(run[i], steps[i]);
  }

  lemma NotFirst(run: seq<State>, i: nat, w: nat)
    requires i < |run| && Init(run[0]) && w < |run[i].workers| && InSearch(run[i].workers[w].pc)
    ensures i > 0
  {
  }

  lemma RunLookBack(run: seq<State>, steps: seq<Step>, i: nat, w: nat)
    requires IsRun(run, steps) && i < |steps| && w < |run[i + 1].workers| && PastLook(run[i + 1].workers[w].pc)
    ensures w < |run[i].workers|
    ensures PastLook(run[i].workers[w].pc) || (LooksEmpty(run[i]) && InSearch(run[i].workers[w].pc))
  {
    RunFits(run, steps, i);
    LookBack(run[i], run[i + 1], steps[i], w);
  }

  lemma {:induction false} Looks(run: seq<State>, steps: seq<Step>, i: nat, w: nat) returns (j: nat)
    requires IsRun(run, steps) && i < |run| && w < |run[i].workers| && PastLook(run[i].workers[w].pc)
    ensures Looked(run, j, i, w)
  {
    NotFirst(run, i, w);
    RunLookBack(run, steps, i - 1, w);
    if PastLook(run[i - 1].workers[w].pc) {
      j := Looks(run, steps, i - 1, w);
    } else {
      j := i - 1;
    }
  }

  lemma GiveUpStep(s: State, s': State, w: nat, ws: WorkerStep)
    requires IsWorker(s, w) && WorkerNext(s, s', w, ws) && (IsFetch(ws) || IsTry(ws))
    requires IsWorker(s', w) && s'.workers[w].pc.Flushing?
    ensures s.workers[w].pc == Stealing({})
  {
  }

  lemma SearchEnds(run: seq<State>, steps: seq<Step>, i: nat, w: nat)
    requires IsRun(run, steps) && i < |steps| && w < |run[i].workers| && w < |run[i + 1].workers|
    requires InSearch(run[i].workers[w].pc) && run[i + 1].workers[w].pc.Flushing?
    ensures run[i].workers[w].pc == Stealing({})
  {
    var s, s', step := run[i], run[i + 1], steps[i];
    RunFits(run, steps, i);
    if step.OfMain? || step.w != w {
      OthersKeepPoint(s, s', step, w);
    } else {
      OwnStep(s, s', w, step.ws, w);
      GiveUpStep(s, s', w, step.ws);
    }
  }

  /** A worker goes from its search to deactivation only after a look at the injector that found nothing. */
  lemma GivesUpAfterLooking(run: seq<State>, steps: seq<Step>, i: nat, w: nat) returns (j: nat)
    requires IsRun(run, steps) && i < |steps| && w < |run[i].workers| && w < |run[i + 1].workers|
    requires InSearch(run[i].workers[w].pc) && run[i + 1].workers[w].pc.Flushing?
    ensures Looked(run, j, i, w)
  {
    SearchEnds(run, steps, i, w);
    j := Looks(run, steps, i, w);
  }

  /** Since step `k` the worker has scanned the active workers and failed to steal from each but `victims`. */
  ghost predicate Tried(run: seq<State>, steps: seq<Step>, k: nat, i: nat, w: nat, victims: set<nat>) {
    && k < i < |run| && |run| == |steps| + 1 && steps[k] == OfWorker(w, SScan)
    && forall v :: v in run[k].active && v != w && v !in victims ==> Failed(steps, k, i, w, v)
  }

  ghost predicate Failed(steps: seq<Step>, k: nat, i: nat, w: nat, v: nat) {
    exists m :: k < m < i <= |steps| && steps[m] == OfWorker(w, SStealFails(v))
  }

  lemma FetchDoesNotTry(s: State, s': State, w: nat, ws: WorkerStep)
    requires w < |s.workers| && WorkerNext(s, s', w, ws) && IsFetch(ws) && w < |s'.workers|
    ensures !s'.workers[w].pc.Stealing?
  {
  }

  lemma TryStep(s: State, s': State, w: nat, ws: WorkerStep)
    requires w < |s.workers| && WorkerNext(s, s', w, ws) && IsTry(ws)
    requires w < |s'.workers| && s'.workers[w].pc.Stealing?
    ensures IsTrial(s, s', w, ws)
  {
  }

  /** A scan, or a steal that fails. */
  predicate IsTrial(s: State, s': State, w: nat, ws: WorkerStep)
    requires IsWorker(s, w) && IsWorker(s', w) && s'.workers[w].pc.Stealing?
  {
    var pc, victims := s.workers[w].pc, s'.workers[w].pc.victims;
    (ws.SScan? && victims == s.active - {w}) || (ws.SStealFails? && pc.Stealing? && victims == pc.victims - {ws.v})
  }

  /** If `w` is stealing after the step, it has been before, or has just scanned, or failed. */
  predicate IsTryLink(s: State, s': State, step: Step, w: nat) {
    IsWorker(s', w) && s'.workers[w].pc.Stealing? ==>
      && IsWorker(s, w)
      && (if step.OfMain? || step.w != w then s.workers[w].pc == s'.workers[w].pc else IsTrial(s, s', w, step.ws))
  }

  lemma TryBack(s: State, s': State, step: Step, w: nat)
    requires Fits(s, step) && NextStep(s, s', step)
    ensures IsTryLink(s, s', step, w)
  {
    if IsWorker(s', w) && s'.workers[w].pc.Stealing? {
      StepSize(s, s', step);
      if step.OfMain? || step.w != w {
        OthersKeepPoint(s, s', step, w);
      } else {
        OwnStep(s, s', w, step.ws, w);
        if IsFetch(step.ws) { FetchDoesNotTry(s, s', w, step.ws); }
        TryStep(s, s', w, step.ws);
      }
    }
  }

  /** As much of a run as concerns the steals of `w`. */
  ghost predicate IsTryRun(run: seq<State>, steps: seq<Step>, w: nat) {
    && |run| == |steps| + 1 && (w < |run[0].workers| ==> !run[0].workers[w].pc.Stealing?)
    && forall i {:trigger steps[i]} :: 0 <= i < |steps| ==> IsTryLink(run[i], run[i + 1], steps[i], w)
  }

  lemma RunTries(run: seq<State>, steps: seq<Step>, w: nat)
    requires IsRun(run, steps)
    ensures IsTryRun(run, steps, w)
  {
    forall i {:trigger steps[i]} | 0 <= i < |steps| ensures IsTryLink(run[i], run[i + 1], steps[i], w) {
      RunFits(run, steps, i);
      TryBack(run[i], run[i + 1], steps[i], w);
    }
  }

  lemma {:induction false} Tries(run: seq<State>, steps: seq<Step>, i: nat, w: nat) returns (k: nat)
    requires IsTryRun(run, steps, w) && i < |run| && w < |run[i].workers| && run[i].workers[w].pc.Stealing?
    ensures Tried(run, steps, k, i, w, run[i].workers[w].pc.victims)
  {
    var step := steps[i - 1];
    if step == OfWorker(w, SScan) {
      k := i - 1;
    } else {
      k := Tries(run, steps, i - 1, w);
      var victims := run[i - 1].workers[w].pc.victims;
      if step.OfMain? || step.w != w {
        StillTried(run, steps, k, i, w, victims);
      } else {
        MoreTried(run, steps, k, i, w, victims, step.ws.v);
      }
    }
  }

  lemma StillTried(run: seq<State>, steps: seq<Step>, k: nat, i: nat, w: nat, victims: set<nat>)
    requires i > 0 && Tried(run, steps, k, i - 1, w, victims) && i < |run|
    ensures Tried(run, steps, k, i, w, victims)
  {
    forall v | v in run[k].active && v != w && v !in victims ensures Failed(steps, k, i, w, v) {
      assert Failed(steps, k, i - 1, w, v);
    }
  }

  lemma MoreTried(run: seq<State>, steps: seq<Step>, k: nat, i: nat, w: nat, victims: set<nat>, u: nat)
    requires i > 0 && Tried(run, steps, k, i - 1, w, victims)
    requires i < |run| && steps[i - 1] == OfWorker(w, SStealFails(u))
    ensures Tried(run, steps, k, i, w, victims - {u})
  {
    forall v | v in run[k].active && v != w && v !in victims - {u} ensures Failed(steps, k, i, w, v) {
      if v !in victims { assert Failed(steps, k, i - 1, w, v); }
    }
  }

  /** A worker goes from its search to deactivation only after it has tried to steal from all active workers. */
  lemma GivesUpAfterTrying(run: seq<State>, steps: seq<Step>, i: nat, w: nat) returns (k: nat)
    requires IsRun(run, steps) && i < |steps| && w < |run[i].workers| && w < |run[i + 1].workers|
    requires InSearch(run[i].workers[w].pc) && run[i + 1].workers[w].pc.Flushing?
    ensures Tried(run, steps, k, i, w, {})
  {
    SearchEnds(run, steps, i, w);
    RunTries(run, steps, w);
    k := Tries(run, steps, i, w);
  }

  // --- The hint of the injector ------------------------------------------------------------------

  predicate IsPopping(s: State) {
    s.lock.Some? && s.lock.value < |s.workers| && s.workers[s.lock.value].pc.PopFlag?
  }

  predicate IsInjecting(s: State) {
    s.lock.Some? && s.lock.value < |s.workers| && s.workers[s.lock.value].pc.InjectFlag?
  }

  /** The hint is down on an empty injector only while the worker that will raise it holds the lock. */
  predicate HintOk(s: State) { s.inner == [] ==> IsPopping(s) || (s.emptyFlag && !IsInjecting(s)) }

  lemma InjectorStepHint(s: State, s': State, w: nat, ws: WorkerStep)
    requires Inv(s) && HintOk(s) && w < |s.workers| && WorkerNext(s, s', w, ws) && IsInjectorStep(ws)
    ensures HintOk(s')
  {
  }

  lemma OtherStepHint(s: State, s': State, w: nat, ws: WorkerStep)
    requires Inv(s) && HintOk(s) && w < |s.workers| && WorkerNext(s, s', w, ws) && !IsInjectorStep(ws)
    ensures HintOk(s')
  {
    InvFits(s, OfWorker(w, ws));
    OwnStep(s, s', w, ws, w);
    if s.lock.Some? && s.lock.value != w { OthersKeepPoint(s, s', OfWorker(w, ws), s.lock.value); }
  }

  lemma MainKeepsInjector(s: State, s': State, ms: MainStep)
    requires MainNext(s, s', ms)
    ensures if ms.MSpawn? then s'.inner != []
            else s'.inner == s.inner && s'.emptyFlag == s.emptyFlag && s'.lock == s.lock
  {
  }

  lemma MainStepHint(s: State, s': State, ms: MainStep)
    requires LockOk(s) && HintOk(s) && MainNext(s, s', ms)
    ensures HintOk(s')
  {
    MainKeepsInjector(s, s', ms);
    if s.lock.Some? { MainFrame(s, s', ms, s.lock.value); }
  }

  lemma {:induction false} RunHint(run: seq<State>, steps: seq<Step>, i: nat)
    requires IsRun(run, steps) && i < |run|
    ensures HintOk(run[i])
  {
    if i > 0 {
      RunHint(run, steps, i - 1);
      RunKeeps(run, steps, i - 1);
      match steps[i - 1]
      case OfMain(ms) => MainStepHint(run[i - 1], run[i], ms);
      case OfWorker(w, ws) =>
        if IsInjectorStep(ws) {
          InjectorStepHint(run[i - 1], run[i], w, ws);
        } else {
          OtherStepHint(run[i - 1], run[i], w, ws);
        }
    }
  }

  /** While nobody holds the lock, the hint is up exactly if the injector is empty. */
  lemma HintIsExact(run: seq<State>, steps: seq<Step>, i: nat)
    requires IsRun(run, steps) && i < |run| && run[i].lock.None?
    ensures run[i].emptyFlag <==> run[i].inner == []
  {
    RunKeeps(run, steps, i);
    RunHint(run, steps, i);
  }

  // --- A worker by itself ---------------------------------------------------------------------------

  /** `path[i + 1]` follows from `path[i]` by `steps[i]`. */
  ghost predicate IsPath(path: seq<State>, steps: seq<Step>) {
    && |path| == |steps| + 1
    && forall i {:trigger steps[i]} :: 0 <= i < |steps| ==> NextStep(path[i], path[i + 1], steps[i])
  }

  predicate AreOf(steps: seq<Step>, w: nat) {
    forall i :: 0 <= i < |steps| ==> steps[i].OfWorker? && steps[i].w == w
  }

  lemma Prepend(s: State, step: Step, path: seq<State>, steps: seq<Step>)
    requires IsPath(path, steps) && NextStep(s, path[0], step)
    ensures IsPath([s] + path, [step] + steps) && ([s] + path)[|steps| + 1] == path[|steps|]
  {
    var longer, all := [s] + path, [step] + steps;
    forall i {:trigger all[i]} | 0 <= i < |all| ensures NextStep(longer[i], longer[i + 1], all[i]) {
      if i > 0 { assert steps[i - 1] == all[i]; }
    }
  }

  /** The worker holds a local task. */
  predicate HasLocal(x: Worker) { x.fast.Some? || x.queue != [] }

  /** Points from which a worker gets to the injector without going to sleep. */
  predicate Comes(s: State, w: nat)
    requires IsWorker(s, w)
  {
    var x := s.workers[w];
    || x.pc.Probing? || x.pc.Popping? || x.pc.Scanning? || x.pc.Stealing?
    || (x.pc.Parked? && x.summon.Ready?)
    || (s.active == {w} && (x.pc.Flushing? || x.pc.Deactivating? || x.pc.LastCheck?))
  }

  /** A task is in the worker's hands, or in the unlocked injector and the worker on its way there. */
  predicate InReach(s: State, w: nat)
    requires IsWorker(s, w)
  {
    var x := s.workers[w];
    || (s.lock.None? && s.inner != [] && Comes(s, w))
    || ((x.pc.PopFlag? || x.pc.Filling?) && x.pc.got != [])
    || ((x.pc.Ending? || x.pc.Working?) && HasLocal(x))
  }

  /** Steps to the next local task, but for the steals that fail. */
  function Stage(pc: Pc): nat {
    if pc.Stealing? then 10 else if pc.Scanning? then 11
    else if pc.Flushing? then 9 else if pc.Deactivating? then 8 else if pc.LastCheck? then 7
    else if pc.Parked? then 6 else if pc.Probing? then 5 else if pc.Popping? then 4 else if pc.PopFlag? then 3
    else if pc.Filling? then 2 else if pc.Ending? then 1 else 0
  }

  function Left(pc: Pc): nat { if pc.Stealing? then |pc.victims| else 0 }

  /** One step nearer to a task. */
  predicate IsNearer(s: State, s': State, w: nat)
    requires IsWorker(s, w) && IsWorker(s', w)
  {
    var pc, pc' := s.workers[w].pc, s'.workers[w].pc;
    s'.ran == s.ran && (Stage(pc') < Stage(pc) || (Stage(pc') == Stage(pc) && Left(pc') < Left(pc)))
  }

  lemma SoloSteals(s: State, w: nat) returns (s': State, ws: WorkerStep)
    requires IsWorker(s, w) && s.lock.None? && s.inner != []
    requires s.workers[w].pc.Scanning? || s.workers[w].pc.Stealing?
    ensures WorkerNext(s, s', w, ws) && IsWorker(s', w) && InReach(s', w) && IsNearer(s, s', w)
  {
    var pc := s.workers[w].pc;
    if pc.Scanning? {
      ws, s' := SScan, Move(s, w, Stealing(s.active - {w}));
    } else if pc.victims == {} {
      ws, s' := SRetry, Move(s, w, Probing);
    } else {
      var v :| v in pc.victims;
      ws, s' := SStealFails(v), Move(s, w, Stealing(pc.victims - {v}));
    }
  }

  lemma SoloWakes(s: State, w: nat) returns (s': State, ws: WorkerStep)
    requires s.lock.None? && InjectorOk(s) && IsWorker(s, w) && s.inner != [] && Comes(s, w)
    requires var pc := s.workers[w].pc; pc.Parked? || pc.Flushing? || pc.Deactivating? || pc.LastCheck?
    ensures WorkerNext(s, s', w, ws) && IsWorker(s', w) && InReach(s', w) && IsNearer(s, s', w)
  {
    var pc := s.workers[w].pc;
    if pc.Parked? {
      ws, s' := SUnpark, Unpark(s, w);
    } else if pc.Flushing? {
      ws, s' := SFlush, Flush(s, w);
    } else if pc.Deactivating? {
      ws, s' := SDeactivate, Deactivate(s, w);
    } else {
      ws, s' := SLastCheck, BeginSearch(s, w);
    }
  }

  lemma SoloFetches(s: State, w: nat) returns (s': State, ws: WorkerStep)
    requires s.lock.None? && InjectorOk(s) && IsWorker(s, w) && s.inner != []
    requires s.workers[w].pc.Probing? || s.workers[w].pc.Popping?
    ensures WorkerNext(s, s', w, ws) && IsWorker(s', w) && InReach(s', w) && IsNearer(s, s', w)
  {
    if s.workers[w].pc.Probing? {
      ws, s' := SProbe, Move(s, w, Popping);
    } else {
      assert s.inner[|s.inner| - 1] in s.inner;
      ws, s' := SPop, PopBucket(s, w);
    }
  }

  lemma SoloFills(s: State, w: nat) returns (s': State, ws: WorkerStep)
    requires IsWorker(s, w) && LocalOk(s.workers[w], w in s.active)
    requires var pc := s.workers[w].pc; (pc.PopFlag? || pc.Filling?) && pc.got != []
    ensures WorkerNext(s, s', w, ws) && IsWorker(s', w) && InReach(s', w) && IsNearer(s, s', w)
  {
    var pc := s.workers[w].pc;
    if pc.PopFlag? {
      ws, s' := SPopFlag, StorePopFlag(s, w, pc.got);
    } else {
      ws, s' := SFill, Fill(s, w, pc.got);
    }
  }

  lemma SoloUses(s: State, w: nat) returns (s': State, ws: WorkerStep)
    requires IsWorker(s, w) && HasLocal(s.workers[w]) && (s.workers[w].pc.Ending? || s.workers[w].pc.Working?)
    ensures WorkerNext(s, s', w, ws) && IsWorker(s', w)
    ensures s.ran < s'.ran || (InReach(s', w) && IsNearer(s, s', w))
  {
    if s.workers[w].pc.Working? {
      ws, s' := SWork, Work(s, w);
    } else {
      ws, s' := SEnd, EndSearch(s, w, Working);
    }
  }

  /** Some step of `w` runs a task, or brings one nearer. */
  lemma SoloStep(s: State, w: nat) returns (s': State, ws: WorkerStep)
    requires Inv(s) && IsWorker(s, w) && InReach(s, w)
    ensures WorkerNext(s, s', w, ws) && IsWorker(s', w)
    ensures s.ran < s'.ran || (InReach(s', w) && IsNearer(s, s', w))
  {
    assert WorkerOk(s, w);
    var pc := s.workers[w].pc;
    if pc.Working? || pc.Ending? {
      s', ws := SoloUses(s, w);
    } else if pc.PopFlag? || pc.Filling? {
      s', ws := SoloFills(s, w);
    } else if pc.Scanning? || pc.Stealing? {
      s', ws := SoloSteals(s, w);
    } else if pc.Probing? || pc.Popping? {
      s', ws := SoloFetches(s, w);
    } else {
      s', ws := SoloWakes(s, w);
    }
  }

  /** A worker by itself, in whose reach a task is, runs one. */
  lemma {:induction false} SoloRuns(s: State, w: nat) returns (path: seq<State>, steps: seq<Step>)
    requires Inv(s) && IsWorker(s, w) && InReach(s, w)
    ensures IsPath(path, steps) && AreOf(steps, w) && path[0] == s && s.ran < path[|steps|].ran
    decreases Stage(s.workers[w].pc), Left(s.workers[w].pc)
  {
    var s', ws := SoloStep(s, w);
    if s.ran < s'.ran {
      path, steps := [s, s'], [OfWorker(w, ws)];
    } else {
      WorkerKeeps(s, s', w, ws);
      path, steps := SoloRuns(s', w);
      Prepend(s, OfWorker(w, ws), path, steps);
      path, steps := [s] + path, [OfWorker(w, ws)] + steps;
    }
  }

  lemma StealOne(s: State, w: nat, v: nat)
    requires IsWorker(s, w) && s.workers[w].pc.Stealing? && v in s.workers[w].pc.victims
    requires IsWorker(s, v) && v != w && s.workers[v].queue != []
    ensures var s' := Steal(s, w, v, 1);
            && NextStep(s, s', OfWorker(w, SSteal(v, 1)))
            && IsWorker(s', w) && InReach(s', w) && s'.ran == s.ran
  {
  }

  lemma StealKept(s: State, w: nat, v: nat) returns (s': State, step: Step)
    requires Inv(s) && IsWorker(s, w) && s.workers[w].pc.Stealing? && v in s.workers[w].pc.victims
    requires IsWorker(s, v) && v != w && s.workers[v].queue != []
    ensures NextStep(s, s', step) && step.OfWorker? && step.w == w
    ensures Inv(s') && IsWorker(s', w) && InReach(s', w) && s'.ran == s.ran
  {
    s', step := Steal(s, w, v, 1), OfWorker(w, SSteal(v, 1));
    StealOne(s, w, v);
    StealKeeps(s, w, v, 1);
  }

  /** A worker by itself that comes across a queue with tasks steals from it and runs one. */
  lemma SoloRunsStolen(s: State, w: nat, v: nat) returns (path: seq<State>, steps: seq<Step>)
    requires Inv(s) && IsWorker(s, w) && s.workers[w].pc.Stealing? && v in s.workers[w].pc.victims
    requires IsWorker(s, v) && v != w && s.workers[v].queue != []
    ensures IsPath(path, steps) && AreOf(steps, w) && path[0] == s && s.ran < path[|steps|].ran
  {
    var s', step := StealKept(s, w, v);
    path, steps := SoloRuns(s', w);
    Prepend(s, step, path, steps);
    path, steps := [s] + path, [step] + steps;
  }

  // --- The end of a run -----------------------------------------------------------------------------

  /** The last active worker, with nothing left to do, on its way to sleep. */
  predicate Leaves(s: State, w: nat) {
    && IsWorker(s, w) && s.active == {w} && s.lock.None? && s.inner == [] && s.emptyFlag
    && var pc := s.workers[w].pc; pc.Flushing? || pc.Deactivating? || pc.LastCheck? || pc.Quitting?
  }

  lemma LeaveStep(s: State, w: nat) returns (s': State, ws: WorkerStep)
    requires Leaves(s, w)
    ensures WorkerNext(s, s', w, ws)
    ensures if s.workers[w].pc.Quitting? then IsWorker(s', w) && s'.workers[w].pc.WakingMain? && s'.active == {}
            else Leaves(s', w) && Rank(s'.workers[w].pc) < Rank(s.workers[w].pc)
  {
    var pc := s.workers[w].pc;
    if pc.Flushing? {
      ws, s' := SFlush, Flush(s, w);
    } else if pc.Deactivating? {
      ws, s' := SDeactivate, Deactivate(s, w);
    } else if pc.LastCheck? {
      ws, s' := SLastCheck, Move(s, w, Quitting);
    } else {
      ws, s' := SQuit, Quit(s, w);
    }
  }

  function Rank(pc: Pc): nat {
    if pc.Flushing? then 3 else if pc.Deactivating? then 2 else if pc.LastCheck? then 1 else 0
  }

  /** The last active worker by itself, with nothing left to do, clears its bit and wakes the main thread. */
  lemma {:induction false} LastWakesMain(s: State, w: nat) returns (path: seq<State>, steps: seq<Step>)
    requires Leaves(s, w)
    ensures IsPath(path, steps) && AreOf(steps, w) && path[0] == s
    ensures var end := path[|steps|];
            end.active == {} && end.mainToken && w < |end.workers| && end.workers[w].pc.Parked?
    decreases Rank(s.workers[w].pc)
  {
    var s', ws := LeaveStep(s, w);
    if s.workers[w].pc.Quitting? {
      path, steps := [s', WakeMain(s', w)], [OfWorker(w, SWakeMain)];
    } else {
      path, steps := LastWakesMain(s', w);
    }
    Prepend(s, OfWorker(w, ws), path, steps);
    path, steps := [s] + path, [OfWorker(w, ws)] + steps;
  }

  /** Once woken and with no bit set, the main thread returns; it reports the messages that were not received. */
  lemma MainReturns(s: State) returns (s1: State, s2: State, s3: State)
    requires Inv(s) && s.main.Waiting? && s.mainToken && s.active == {}
    ensures MainNext(s, s1, MAwake) && MainNext(s1, s2, MCheck) && MainNext(s2, s3, MRead)
    ensures s3.main == if s.pushed == s.popped then Resting else Halted(s.pushed - s.popped)
  {
    s1 := s.(main := Checking, mainToken := false);
    s2 := s1.(main := Reading);
    s3 := ReadCount(s2);
    MainKeeps(s, s1, MAwake);
    MainKeeps(s1, s2, MCheck);
    ReadIsExact(s2, s3);
  }

  // --- The start of a run ---------------------------------------------------------------------------

  /** The state in which the main thread has activated the first worker and waits. */
  function Activated(s: State): State
    requires |s.workers| > 0
  {
    Put(s, 0, s.workers[0].(summon := Ready, searching := true)).(
      active := {0}, searching := s.searching + 1, main := Waiting)
  }

  lemma MainMarks(s: State) returns (s1: State, s2: State, s3: State)
    requires |s.workers| > 0 && s.main.Resting? && s.active == {}
    ensures MainNext(s, s1, MRun) && MainNext(s1, s2, MLoad) && MainNext(s2, s3, MPick)
    ensures s3 == Put(s, 0, s.workers[0].(summon := Marked(MainId(s)))).(active := {0}, main := MCounting(0))
  {
    s1 := s.(main := MLoading);
    s2 := s1.(main := MSelecting({}));
    s3 := MSelect(s2, {});
  }

  lemma MainCalls(s: State, s': State) returns (s1: State, s2: State)
    requires |s.workers| > 0 && s.main == MCounting(0) && s.active == {0}
    requires s' == Put(s, 0, s.workers[0].(summon := Ready, searching := true)).(
                     searching := s.searching + 1, main := Waiting)
    ensures MainNext(s, s1, MCount) && MainNext(s1, s2, MUnpark) && MainNext(s2, s', MCheck)
  {
    s1 := MCountFor(s, 0);
    s2 := MUnparkFor(s1, 0);
    assert s2.workers == s'.workers;
  }

  /** A call of the main thread activates the first worker and waits for the pool. */
  lemma MainActivates(s: State) returns (path: seq<State>, steps: seq<Step>)
    requires WorkersOk(s) && MainOk(s) && s.main.Resting?
    ensures IsPath(path, steps) && path[0] == s && path[|steps|] == Activated(s)
    ensures forall i :: 0 <= i < |steps| ==> steps[i].OfMain?
  {
    var s1, s2, s3 := MainMarks(s);
    assert s3.workers[0 := Activated(s).workers[0]] == Activated(s).workers;
    var s4, s5 := MainCalls(s3, Activated(s));
    path := [s, s1, s2, s3, s4, s5, Activated(s)];
    steps := [OfMain(MRun), OfMain(MLoad), OfMain(MPick), OfMain(MCount), OfMain(MUnpark), OfMain(MCheck)];
  }

  lemma SelectsIdle(s: State, w: nat) returns (s1: State, s2: State, s3: State, b: nat)
    requires IsWorker(s, w) && w in s.active && s.workers[w].pc.Notifying? && s.searching == 0
    requires exists v :: 0 <= v < |s.workers| && v !in s.active
    ensures NextStep(s, s1, OfWorker(w, SNotify)) && NextStep(s1, s2, OfWorker(w, SLoad))
    ensures NextStep(s2, s3, OfWorker(w, SSelect))
    ensures b < |s.workers| && b !in s.active && b != w && s3.active == s.active + {b}
    ensures |s3.workers| == |s.workers| && s3.workers[w].pc == Counting(b)
    ensures s3.workers[b] == s.workers[b].(summon := Marked(w))
  {
    s1 := Move(s, w, Loading);
    s2 := Move(s1, w, Selecting(s.active));
    s3 := Select(s2, w, s.active);
    b := FirstIdle(s.active, 0, |s.workers|);
  }

  lemma CallsIdle(s: State, w: nat, b: nat) returns (s1: State, s2: State)
    requires IsWorker(s, w) && IsWorker(s, b) && b != w && s.workers[w].pc == Counting(b)
    ensures NextStep(s, s1, OfWorker(w, SCountFor)) && NextStep(s1, s2, OfWorker(w, SUnparkFor))
    ensures s2.active == s.active && |s2.workers| == |s.workers| && s2.workers[w].pc.Running?
    ensures s2.workers[b] == s.workers[b].(summon := Ready, searching := true)
  {
    s1 := CountFor(s, w, b);
    s2 := UnparkFor(s1, w, b);
  }

  /** A worker by itself, with a new task in its queue and nobody searching, activates an idle worker. */
  lemma SoloActivates(s: State, w: nat) returns (path: seq<State>, steps: seq<Step>, b: nat)
    requires IsWorker(s, w) && w in s.active && s.workers[w].pc.Notifying? && s.searching == 0
    requires exists v :: 0 <= v < |s.workers| && v !in s.active
    ensures IsPath(path, steps) && AreOf(steps, w) && path[0] == s
    ensures b < |s.workers| && b !in s.active && b != w
    ensures var end := path[|steps|];
            && end.active == s.active + {b} && |end.workers| == |s.workers| && end.workers[w].pc.Running?
            && end.workers[b] == s.workers[b].(summon := Ready, searching := true)
  {
    var s1, s2, s3, b' := SelectsIdle(s, w);
    b := b';
    var s4, s5 := CallsIdle(s3, w, b);
    path := [s, s1, s2, s3, s4, s5];
    steps := [OfWorker(w, SNotify), OfWorker(w, SLoad), OfWorker(w, SSelect), OfWorker(w, SCountFor),
              OfWorker(w, SUnparkFor)];
  }
}
