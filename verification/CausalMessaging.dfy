/**
  Causal messaging: a network of actors, each with a mailbox that is a bounded
  queue of module MpscQueue.  A run interleaves the atomic steps of all queues.
  Actor `k` pushes under the identifier `k`, and pops from its own mailbox.
*/
module CausalMessaging {
  import G = QueueGeometry
  import Q = MpscQueue

  type Net = map<nat, Q.State>

  datatype Label = Label(box: nat, step: Q.Step)

  /** `nets[i]` is the state before and `nets[i + 1]` the state after `labels[i]`. */
  datatype Run = Run(nets: seq<Net>, labels: seq<Label>)

  ghost predicate NetNext(n: Net, n': Net, l: Label) {
    && l.box in n && n'.Keys == n.Keys
    && G.Valid(n[l.box].g) && Q.NextStep(n[l.box], n'[l.box], l.step)
    && forall b :: b in n && b != l.box ==> n'[b] == n[b]
  }

  ghost predicate IsRun(r: Run) {
    && |r.nets| == |r.labels| + 1
    && (forall b :: b in r.nets[0] ==> Q.Init(r.nets[0][b]))
    && forall i {:trigger r.labels[i]} :: 0 <= i < |r.labels| ==> NetNext(r.nets[i], r.nets[i + 1], r.labels[i])
  }

  // --- Events -------------------------------------------------------------------

  predicate InRun(r: Run, i: nat) {
    |r.nets| == |r.labels| + 1 && i < |r.labels| && r.labels[i].box in r.nets[i] && r.labels[i].box in r.nets[i + 1]
  }

  function Box(r: Run, i: nat): nat
    requires InRun(r, i)
  {
    r.labels[i].box
  }

  function Before(r: Run, i: nat): Q.State
    requires InRun(r, i)
  {
    r.nets[i][Box(r, i)]
  }

  /** A message is sent when its slot is reserved. */
  predicate IsSend(r: Run, i: nat) {
    InRun(r, i) && r.labels[i].step.SCompare? && |r.nets[i + 1][Box(r, i)].log| > |Before(r, i).log|
  }

  predicate IsRecv(r: Run, i: nat) {
    InRun(r, i) && r.labels[i].step.SPopTake?
  }

  function Actor(r: Run, i: nat): nat
    requires IsSend(r, i) || IsRecv(r, i)
  {
    if r.labels[i].step.SCompare? then r.labels[i].step.k else Box(r, i)
  }

  /** The rank of the message sent or received, among all messages of the mailbox. */
  function Rank(r: Run, i: nat): nat
    requires IsSend(r, i) || IsRecv(r, i)
  {
    if r.labels[i].step.SCompare? then |Before(r, i).log| else |Before(r, i).popped|
  }

  /** Program order of one actor, or a message from its sender to its receiver. */
  ghost predicate Edge(r: Run, i: nat, j: nat) {
    && (IsSend(r, i) || IsRecv(r, i)) && (IsSend(r, j) || IsRecv(r, j))
    && (|| (Actor(r, i) == Actor(r, j) && i < j)
        || (IsSend(r, i) && IsRecv(r, j) && Box(r, i) == Box(r, j) && Rank(r, i) == Rank(r, j)))
  }

  ghost predicate IsPath(r: Run, path: seq<nat>) {
    |path| > 0 && forall k {:trigger path[k]} :: 0 < k < |path| ==> Edge(r, path[k - 1], path[k])
  }

  ghost predicate HappensBefore(r: Run, i: nat, j: nat) {
    exists path :: IsPath(r, path) && |path| > 1 && path[0] == i && path[|path| - 1] == j
  }

  // --- Every mailbox keeps the queue's invariant ---------------------------------

  /** A step leaves every mailbox but its own alone. */
  lemma BoxStep(r: Run, i: nat, b: nat)
    requires IsRun(r) && i < |r.labels| && b in r.nets[i]
    ensures b in r.nets[i + 1]
    ensures r.labels[i].box != b ==> r.nets[i + 1][b] == r.nets[i][b]
    ensures r.labels[i].box == b ==>
              G.Valid(r.nets[i][b].g) && Q.NextStep(r.nets[i][b], r.nets[i + 1][b], r.labels[i].step)
  {
    assert NetNext(r.nets[i], r.nets[i + 1], r.labels[i]);
  }

  lemma {:induction false} BoxInv(r: Run, i: nat, b: nat)
    requires IsRun(r) && i < |r.nets| && b in r.nets[0]
    ensures b in r.nets[i] && Q.Inv(r.nets[i][b])
  {
    if i == 0 {
      Q.InitHolds(r.nets[0][b]);
    } else {
      BoxInv(r, i - 1, b);
      BoxStep(r, i - 1, b);
      if r.labels[i - 1].box == b { Q.NextKeeps(r.nets[i - 1][b], r.nets[i][b]); }
    }
  }

  lemma {:induction false} SameBoxes(r: Run, i: nat, b: nat)
    requires IsRun(r) && i < |r.nets| && b in r.nets[i]
    ensures b in r.nets[0]
  {
    if i > 0 {
      assert NetNext(r.nets[i - 1], r.nets[i], r.labels[i - 1]);
      SameBoxes(r, i - 1, b);
    }
  }

  lemma BoxStepGrows(r: Run, b: nat, i: nat)
    requires IsRun(r) && i < |r.labels| && b in r.nets[0] && b in r.nets[i] && b in r.nets[i + 1]
    ensures |r.nets[i][b].log| <= |r.nets[i + 1][b].log| && |r.nets[i][b].popped| <= |r.nets[i + 1][b].popped|
  {
    BoxInv(r, i, b);
    BoxStep(r, i, b);
    if r.labels[i].box == b { Q.StepHistory(r.nets[i][b], r.nets[i + 1][b]); }
  }

  lemma {:induction false} BoxGrows(r: Run, b: nat, i: nat, j: nat)
    requires IsRun(r) && i <= j < |r.nets| && b in r.nets[0] && b in r.nets[i]
    ensures b in r.nets[j]
    ensures |r.nets[i][b].log| <= |r.nets[j][b].log| && |r.nets[i][b].popped| <= |r.nets[j][b].popped|
    decreases j
  {
    if i < j {
      BoxGrows(r, b, i, j - 1);
      BoxStep(r, j - 1, b);
      BoxStepGrows(r, b, j - 1);
    }
  }

  lemma TakesAMessage(r: Run, j: nat)
    requires IsRun(r) && IsRecv(r, j)
    ensures Box(r, j) in r.nets[0] && |Before(r, j).popped| < |Before(r, j).log|
  {
    SameBoxes(r, j, Box(r, j));
    BoxInv(r, j, Box(r, j));
    BoxStep(r, j, Box(r, j));
  }

  /** A message is received after it was sent. */
  lemma EdgeGoesForward(r: Run, i: nat, j: nat)
    requires IsRun(r) && Edge(r, i, j)
    ensures i < j
  {
    if IsSend(r, i) && IsRecv(r, j) && Box(r, i) == Box(r, j) && Rank(r, i) == Rank(r, j) {
      TakesAMessage(r, j);
      if j <= i { BoxGrows(r, Box(r, i), j, i); }
    }
  }

  lemma {:induction false} PathGoesForward(r: Run, path: seq<nat>)
    requires IsRun(r) && IsPath(r, path) && |path| > 1
    ensures path[0] < path[|path| - 1]
  {
    var last := |path| - 1;
    EdgeGoesForward(r, path[last - 1], path[last]);
    if last > 1 {
      var shorter := path[..last];
      forall k | 0 < k < |shorter| ensures Edge(r, shorter[k - 1], shorter[k]) {
        assert Edge(r, path[k - 1], path[k]);
      }
      PathGoesForward(r, shorter);
    }
  }

  lemma PopsOne(r: Run, b: nat, i: nat)
    requires IsRun(r) && i < |r.labels| && b in r.nets[0] && b in r.nets[i] && b in r.nets[i + 1]
    requires |r.nets[i][b].popped| < |r.nets[i + 1][b].popped|
    ensures r.labels[i] == Label(b, Q.SPopTake) && |r.nets[i + 1][b].popped| == |r.nets[i][b].popped| + 1
  {
    BoxInv(r, i, b);
    BoxStep(r, i, b);
    Q.OneStepHistory(r.nets[i][b], r.nets[i + 1][b], r.labels[i].step);
  }

  /** If a mailbox has had more than n pops, one of them popped the message of rank n. */
  lemma {:induction false} FindRecv(r: Run, b: nat, m: nat, n: nat) returns (l: nat)
    requires IsRun(r) && m < |r.nets| && b in r.nets[0] && b in r.nets[m] && n < |r.nets[m][b].popped|
    ensures l < m && IsRecv(r, l) && Box(r, l) == b && Rank(r, l) == n
  {
    assert m > 0 by { assert Q.Init(r.nets[0][b]); }
    BoxGrows(r, b, 0, m - 1);
    if n < |r.nets[m - 1][b].popped| {
      l := FindRecv(r, b, m - 1, n);
    } else {
      PopsOne(r, b, m - 1);
      l := m - 1;
    }
  }

  lemma RanksInOrder(r: Run, i: nat, j: nat)
    requires IsRun(r) && i < j && IsSend(r, i) && IsSend(r, j) && Box(r, i) == Box(r, j)
    ensures Rank(r, i) < Rank(r, j)
  {
    var b := Box(r, i);
    SameBoxes(r, i, b);
    BoxGrows(r, b, i + 1, j);
  }

  /**
    If one send happens before another and both target the same mailbox, then the
    message of the first is received before the message of the second.
  */
  lemma CausalOrder(r: Run, i: nat, j: nat, m: nat) returns (l: nat)
    requires IsRun(r) && HappensBefore(r, i, j)
    requires IsSend(r, i) && IsSend(r, j) && Box(r, i) == Box(r, j)
    requires IsRecv(r, m) && Box(r, m) == Box(r, j) && Rank(r, m) == Rank(r, j)
    ensures l < m && IsRecv(r, l) && Box(r, l) == Box(r, i) && Rank(r, l) == Rank(r, i)
  {
    var path :| IsPath(r, path) && |path| > 1 && path[0] == i && path[|path| - 1] == j;
    PathGoesForward(r, path);
    RanksInOrder(r, i, j);
    SameBoxes(r, i, Box(r, i));
    SameBoxes(r, m, Box(r, i));
    l := FindRecv(r, Box(r, i), m, Rank(r, i));
  }

  /** First documented rule: two messages from one model to another arrive in order. */
  lemma OneToOne(r: Run, i: nat, j: nat, m: nat) returns (l: nat)
    requires IsRun(r) && i < j && IsSend(r, i) && IsSend(r, j) && Actor(r, i) == Actor(r, j) && Box(r, i) == Box(r, j)
    requires IsRecv(r, m) && Box(r, m) == Box(r, j) && Rank(r, m) == Rank(r, j)
    ensures l < m && IsRecv(r, l) && Box(r, l) == Box(r, i) && Rank(r, l) == Rank(r, i)
  {
    assert IsPath(r, [i, j]);
    l := CausalOrder(r, i, j, m);
  }

  /**
    Second documented rule: `a` sends to `b` (event i), then to `c` (event j); `c`
    receives that message (event k) and then sends to `b` (event n).  Then `b`
    receives the first message before the last.
  */
  lemma Transitivity(r: Run, i: nat, j: nat, k: nat, n: nat, m: nat) returns (l: nat)
    requires IsRun(r) && i < j && IsSend(r, i) && IsSend(r, j) && Actor(r, i) == Actor(r, j)
    requires IsRecv(r, k) && Box(r, k) == Box(r, j) && Rank(r, k) == Rank(r, j)
    requires k < n && IsSend(r, n) && Actor(r, n) == Box(r, k) && Box(r, n) == Box(r, i)
    requires IsRecv(r, m) && Box(r, m) == Box(r, n) && Rank(r, m) == Rank(r, n)
    ensures l < m && IsRecv(r, l) && Box(r, l) == Box(r, i) && Rank(r, l) == Rank(r, i)
  {
    assert IsPath(r, [i, j, k, n]);
    l := CausalOrder(r, i, n, m);
  }
}
