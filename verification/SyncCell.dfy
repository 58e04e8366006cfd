/**
  The seqlock: one writer stores the fields of a value one by one between two
  increments of a sequence count; any number of readers load the count, the fields one
  by one, and the count again.

  Each load and each store is one step; the count does not wrap around.
*/
module SyncCell {

  type Value = seq<int>

  datatype WriterPc = Ready | Storing(next: nat)

  /** `seen` is the count loaded first; `got` are the fields loaded so far. */
  datatype ReaderPc = Idle | Loading(seen: nat, got: Value)

  /** `results` are the writes whose values the reader has returned, in order. */
  datatype Reader = Reader(pc: ReaderPc, results: seq<nat>)

  /** `writes` holds the initial value and all values of writes that have begun. */
  datatype State = State(sequence: nat, fields: Value, writer: WriterPc, readers: seq<Reader>, writes: seq<Value>,
      torn: bool)

  ghost predicate Init(s: State) {
    && s.sequence == 0 && s.writer == Ready && s.writes == [s.fields] && !s.torn
    && forall r :: 0 <= r < |s.readers| ==> s.readers[r] == Reader(Idle, [])
  }

  datatype Step = Begin(v: Value) | Store | End | Start(r: nat) | Load(r: nat) | Finish(r: nat)

  predicate IsEven(n: nat) { n % 2 == 0 }

  function SetReader(s: State, r: nat, x: Reader): State
    requires r < |s.readers|
  {
    s.(readers := s.readers[r := x])
  }

  predicate NextStep(s: State, s': State, step: Step) {
    match step
    case Begin(v) =>
      s.writer.Ready? && |v| == |s.fields| &&
      s' == s.(sequence := s.sequence + 1, writer := Storing(0), writes := s.writes + [v])
    case Store =>
      s.writer.Storing? && s.writer.next < |s.fields| && |s.writes| > 0 &&
      var v := s.writes[|s.writes| - 1];
      s.writer.next < |v| &&
      s' == s.(fields := s.fields[s.writer.next := v[s.writer.next]], writer := Storing(s.writer.next + 1))
    case End =>
      s.writer.Storing? && s.writer.next == |s.fields| && s' == s.(sequence := s.sequence + 1, writer := Ready)
    case Start(r) =>
      r < |s.readers| && s.readers[r].pc.Idle? &&
      s' == if IsEven(s.sequence) then SetReader(s, r, s.readers[r].(pc := Loading(s.sequence, []))) else s
    case Load(r) =>
      r < |s.readers| && s.readers[r].pc.Loading? && |s.readers[r].pc.got| < |s.fields| &&
      var pc := s.readers[r].pc;
      s' == SetReader(s, r, s.readers[r].(pc := Loading(pc.seen, pc.got + [s.fields[|pc.got|]])))
    case Finish(r) =>
      r < |s.readers| && s.readers[r].pc.Loading? && |s.readers[r].pc.got| == |s.fields| &&
      var x := s.readers[r];
      s' == if s.sequence == x.pc.seen then
              // The value is returned: it is torn unless it is the value of the write `seen / 2`.
              SetReader(s, r, Reader(Idle, x.results + [x.pc.seen / 2])).(
                torn := s.torn || x.pc.seen / 2 >= |s.writes| || x.pc.got != s.writes[x.pc.seen / 2])
            else SetReader(s, r, x.(pc := Idle))
  }

  ghost predicate IsRun(run: seq<State>, steps: seq<Step>) {
    && |run| == |steps| + 1 && Init(run[0])
    && forall i {:trigger steps[i]} :: 0 <= i < |steps| ==> NextStep(run[i], run[i + 1], steps[i])
  }

  // --- Invariant ----------------------------------------------------------------------------

  /** Writes that have ended. */
  function Ended(s: State): nat { s.sequence / 2 }

  ghost predicate WriterOk(s: State) {
    && |s.writes| == Ended(s) + (if s.writer.Ready? then 1 else 2)
    && (forall i :: 0 <= i < |s.writes| ==> |s.writes[i]| == |s.fields|)
    && (s.writer.Ready? <==> IsEven(s.sequence))
    && (if s.writer.Ready? then s.fields == s.writes[Ended(s)]
        else
          && s.writer.next <= |s.fields|
          && forall i :: 0 <= i < |s.fields| ==>
              s.fields[i] == s.writes[if i < s.writer.next then Ended(s) + 1 else Ended(s)][i])
  }

  predicate ReaderOk(s: State, x: Reader) {
    && (forall i :: 0 <= i < |x.results| ==> x.results[i] <= Ended(s))
    && (forall i, j :: 0 <= i < j < |x.results| ==> x.results[i] <= x.results[j])
    && (x.pc.Loading? ==>
          && IsEven(x.pc.seen) && x.pc.seen <= s.sequence && |x.pc.got| <= |s.fields|
          && (forall i :: 0 <= i < |x.results| ==> x.results[i] <= x.pc.seen / 2)
          && (x.pc.seen == s.sequence ==> x.pc.got == s.fields[..|x.pc.got|]))
  }

  ghost predicate Inv(s: State) {
    !s.torn && WriterOk(s) && forall r :: 0 <= r < |s.readers| ==> ReaderOk(s, s.readers[r])
  }

  lemma WriterKeeps(s: State, s': State, step: Step)
    requires Inv(s) && NextStep(s, s', step) && (step.Begin? || step.Store? || step.End?)
    ensures Inv(s')
  {
    assert forall r :: 0 <= r < |s.readers| ==> ReaderOk(s, s.readers[r]);
  }

  lemma ReaderKeeps(s: State, s': State, step: Step)
    requires Inv(s) && NextStep(s, s', step) && (step.Start? || step.Load? || step.Finish?)
    ensures Inv(s')
  {
    assert ReaderOk(s, s.readers[step.r]);
    forall r | 0 <= r < |s'.readers| ensures ReaderOk(s', s'.readers[r]) { assert ReaderOk(s, s.readers[r]); }
  }

  lemma {:induction false} RunKeeps(run: seq<State>, steps: seq<Step>, i: nat)
    requires IsRun(run, steps) && i < |run|
    ensures Inv(run[i])
  {
    if i > 0 {
      RunKeeps(run, steps, i - 1);
      var step := steps[i - 1];
      if step.Begin? || step.Store? || step.End? {
        WriterKeeps(run[i - 1], run[i], step);
      } else {
        ReaderKeeps(run[i - 1], run[i], step);
      }
    }
  }

  // --- What every run satisfies ------------------------------------------------------------------

  /** No read is ever torn, and no reader goes back to an older write. */
  lemma ReadsAreWholeAndMonotone(run: seq<State>, steps: seq<Step>, i: nat, r: nat)
    requires IsRun(run, steps) && i < |run| && r < |run[i].readers|
    ensures !run[i].torn
    ensures forall a, b :: 0 <= a < b < |run[i].readers[r].results| ==>
              run[i].readers[r].results[a] <= run[i].readers[r].results[b]
  {
    RunKeeps(run, steps, i);
    assert ReaderOk(run[i], run[i].readers[r]);
  }

  /** A successful read returns the value of the last write that has ended, and none is in progress. */
  lemma ReadReturnsLatest(run: seq<State>, steps: seq<Step>, i: nat)
    requires IsRun(run, steps) && i < |steps| && steps[i].Finish?
    requires run[i].sequence == run[i].readers[steps[i].r].pc.seen
    ensures var s := run[i];
            && s.writer.Ready? && Ended(s) + 1 == |s.writes|
            && s.readers[steps[i].r].pc.got == s.writes[Ended(s)] == s.fields
            && run[i + 1].readers[steps[i].r].results == s.readers[steps[i].r].results + [Ended(s)]
  {
    RunKeeps(run, steps, i);
    assert ReaderOk(run[i], run[i].readers[steps[i].r]);
  }

  // --- Reads and the writes that overlap them --------------------------------------------------------

  /** Between the steps `i` and `k` the reader `r` is in one read, begun at step `i`. */
  ghost predicate IsRead(run: seq<State>, steps: seq<Step>, i: nat, k: nat, r: nat) {
    && IsRun(run, steps) && i < k < |run| && r < |run[i].readers| && steps[i] == Start(r)
    && forall j {:trigger steps[j]} :: i < j < k ==> steps[j] != Start(r) && steps[j] != Finish(r)
  }

  /** No write begins between the steps `i` and `k`. */
  ghost predicate NoneBegins(steps: seq<Step>, i: nat, k: nat)
    requires k <= |steps|
  {
    forall j :: i <= j < k ==> !steps[j].Begin?
  }

  /** A read begins exactly if no write is in progress; the count tells whether one has begun since. */
  lemma {:induction false} ReadRemembers(run: seq<State>, steps: seq<Step>, i: nat, k: nat, r: nat)
    requires IsRead(run, steps, i, k, r)
    ensures r < |run[k].readers|
    ensures if run[i].writer.Ready? then
              var pc := run[k].readers[r].pc;
              && pc.Loading? && pc.seen == run[i].sequence <= run[k].sequence
              && (pc.seen == run[k].sequence <==> NoneBegins(steps, i, k))
            else run[k].readers[r].pc.Idle?
  {
    RunKeeps(run, steps, i);
    if k > i + 1 {
      ReadRemembers(run, steps, i, k - 1, r);
      RunKeeps(run, steps, k - 1);
      var step := steps[k - 1];
      assert NoneBegins(steps, i, k) <==> NoneBegins(steps, i, k - 1) && !step.Begin?;
      if step.End? { assert !IsEven(run[k - 1].sequence); }
    } else {
      assert !steps[i].Begin?;
    }
  }

  /** A read succeeds exactly if no write was in progress when it began and none has begun since. */
  lemma ReadSucceedsUnlessOverlapped(run: seq<State>, steps: seq<Step>, i: nat, k: nat, r: nat)
    requires IsRead(run, steps, i, k, r) && k < |steps| && steps[k] == Finish(r)
    ensures run[i].writer.Ready?
    ensures run[k + 1].readers[r].results ==
            run[k].readers[r].results + (if NoneBegins(steps, i, k) then [Ended(run[i])] else [])
  {
    ReadRemembers(run, steps, i, k, r);
  }

  /** The fields `r` has loaded after `n` loads of a read that nobody disturbs. */
  function Loaded(s: State, r: nat, n: nat): State
    requires r < |s.readers| && n <= |s.fields|
  {
    SetReader(s, r, s.readers[r].(pc := Loading(s.sequence, s.fields[..n])))
  }

  /** A reader by itself reads the cell to the end and returns the last value written. */
  lemma ReaderAloneSucceeds(s: State, r: nat) returns (s': State)
    requires Inv(s) && s.writer.Ready? && r < |s.readers| && s.readers[r].pc.Idle?
    ensures NextStep(s, Loaded(s, r, 0), Start(r))
    ensures forall n {:trigger Loaded(s, r, n)} :: 0 <= n < |s.fields| ==>
              NextStep(Loaded(s, r, n), Loaded(s, r, n + 1), Load(r))
    ensures NextStep(Loaded(s, r, |s.fields|), s', Finish(r)) && !s'.torn
    ensures s'.readers[r] == Reader(Idle, s.readers[r].results + [|s.writes| - 1])
  {
    forall n {:trigger Loaded(s, r, n)} | 0 <= n < |s.fields|
      ensures NextStep(Loaded(s, r, n), Loaded(s, r, n + 1), Load(r))
    {
      assert s.fields[..n + 1] == s.fields[..n] + [s.fields[n]];
      assert Loaded(s, r, n).readers[r := Loaded(s, r, n + 1).readers[r]] == Loaded(s, r, n + 1).readers;
    }
    assert s.fields[..|s.fields|] == s.fields;
    s' := SetReader(s, r, Reader(Idle, s.readers[r].results + [Ended(s)]));
    assert Loaded(s, r, |s.fields|).readers[r := s'.readers[r]] == s'.readers;
  }
}
