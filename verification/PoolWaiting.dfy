/**
 Threads that wait: what has happened when `shutdown` returns, and the two ways in which a task can
 wait for itself.
 */
module PoolWaiting {
  import opened Words
  import opened Wrappers
  import opened PoolModel
  import opened PoolLedger
  import opened PoolInvariant
  import opened PoolSteps
  import opened PoolGrowth
  import opened PoolTheorems

  // ---------------------------------------------------------------- what one step leaves alone

  ghost predicate Leaves(s: System, s': System, t: nat, u: nat)
    requires u < |s.threads|
  {
    && |s'.threads| == |s.threads| && |s'.queues| == |s.queues|
    && (u != t ==> s'.threads[u] == s.threads[u])
    && (s.threads[u].base == Worker(Exited) ==> s'.threads[u].base == Worker(Exited))
  }

  lemma BodyLeaves(s: System, t: nat, c: nat, pc: BodyPc, below: Stack, u: nat)
    requires t < |s.threads| && u < |s.threads| && CanRunBody(s, c, pc)
    ensures Leaves(s, RunBody(s, t, c, pc, below), t, u)
  {
  }

  lemma FrameLeaves(s: System, t: nat, f: Frame, below: Stack, u: nat)
    requires t < |s.threads| && u < |s.threads| && CanRunFrame(s, f)
    ensures Leaves(s, RunFrame(s, t, f, below), t, u)
  {
    if f.Body? { BodyLeaves(s, t, f.cell, f.pc, below, u); }
  }

  lemma WorkerLeaves(s: System, t: nat, pc: WorkerPc, u: nat)
    requires t < |s.threads| && u < |s.threads| && CanRunWorker(s, t, pc) && s.threads[t].base == Worker(pc)
    ensures Leaves(s, RunWorker(s, t, pc), t, u)
  {
  }

  lemma CallLeaves(s: System, t: nat, l: Label, u: nat)
    requires Enabled(s, t, l) && !l.Own? && u < |s.threads|
    ensures Leaves(s, Call(s, t, l), t, u)
  {
  }

  /** A step of one thread leaves the others alone, and a worker that has exited stays so. */
  lemma StepLeaves(s: System, t: nat, l: Label, u: nat)
    requires Enabled(s, t, l) && u < |s.threads|
    ensures Leaves(s, Do(s, t, l), t, u)
  {
    var th := s.threads[t];
    if !l.Own? {
      CallLeaves(s, t, l, u);
    } else if th.exn.None? && th.stack.Push? {
      FrameLeaves(s, t, th.stack.top, th.stack.below, u);
    } else if th.exn.None? {
      WorkerLeaves(s, t, th.base.pc, u);
    }
  }

  // ---------------------------------------------------------------- shutdown joins every worker

  /** The workers before `n`, other than the joining thread itself, have exited. */
  ghost predicate ExitedBefore(s: System, self: nat, n: nat) {
    forall w: nat :: w < n && w < |s.queues| && w < |s.threads| && w != self ==> s.threads[w].base == Worker(Exited)
  }

  ghost predicate StackJoins(s: System, t: nat, k: Stack) {
    k.Push? ==>
      && (k.top.Joining? ==> k.top.self == t && ExitedBefore(s, t, k.top.next))
      && StackJoins(s, t, k.below)
  }

  function StackOf(s: System, t: nat): Stack {
    if t < |s.threads| then s.threads[t].stack else Empty
  }

  ghost predicate JoinsOk(s: System) {
    forall t: nat :: t < |s.threads| ==> StackJoins(s, t, s.threads[t].stack)
  }

  lemma {:induction false} JoinsKept(s: System, s': System, t: nat, k: Stack)
    requires |s'.threads| == |s.threads| && |s'.queues| == |s.queues| && StackJoins(s, t, k)
    requires forall w: nat :: w < |s.threads| ==>
      (s.threads[w].base == Worker(Exited) ==> s'.threads[w].base == Worker(Exited))
    ensures StackJoins(s', t, k)
    decreases k
  {
    if k.Push? { JoinsKept(s, s', t, k.below); }
  }

  lemma BodyJoins(s: System, t: nat, c: nat, pc: BodyPc, below: Stack)
    requires t < |s.threads| && CanRunBody(s, c, pc) && StackJoins(s, t, below)
    ensures StackJoins(s, t, StackOf(RunBody(s, t, c, pc, below), t))
  {
  }

  lemma RegisterJoins(s: System, t: nat, c: nat, below: Stack)
    requires t < |s.threads| && CanRegister(s, c) && StackJoins(s, t, below)
    ensures StackJoins(s, t, StackOf(RunRegister(s, t, c, below), t))
  {
  }

  lemma FrameJoins(s: System, t: nat, f: Frame, below: Stack)
    requires t < |s.threads| && CanRunFrame(s, f) && StackJoins(s, t, Push(f, below))
    ensures StackJoins(s, t, StackOf(RunFrame(s, t, f, below), t))
  {
    match f
    case Body(c, pc) => BodyJoins(s, t, c, pc, below);
    case Register(c) => RegisterJoins(s, t, c, below);
    case _ =>
  }

  lemma OwnStackJoins(s: System, t: nat, l: Label)
    requires Enabled(s, t, l) && StackJoins(s, t, s.threads[t].stack)
    ensures StackJoins(s, t, StackOf(Do(s, t, l), t))
  {
    var th := s.threads[t];
    if l.Own? && th.exn.None? && th.stack.Push? {
      FrameJoins(s, t, th.stack.top, th.stack.below);
    }
  }

  lemma Rejoin(s: System, s': System, t: nat)
    requires JoinsOk(s) && t < |s.threads| && StackJoins(s, t, StackOf(s', t))
    requires forall u: nat :: u < |s.threads| ==> Leaves(s, s', t, u)
    ensures JoinsOk(s')
  {
    assert Leaves(s, s', t, t);
    forall w: nat | w < |s.threads| && s.threads[w].base == Worker(Exited)
      ensures s'.threads[w].base == Worker(Exited)
    {
      assert Leaves(s, s', t, w);
    }
    forall u: nat | u < |s'.threads| ensures StackJoins(s', u, s'.threads[u].stack) {
      assert Leaves(s, s', t, u) && StackJoins(s, u, s.threads[u].stack);
      JoinsKept(s, s', u, s'.threads[u].stack);
    }
  }

  lemma StepKeepsJoins(s: System, t: nat, l: Label)
    requires JoinsOk(s) && Enabled(s, t, l)
    ensures JoinsOk(Do(s, t, l))
  {
    forall u: nat | u < |s.threads| ensures Leaves(s, Do(s, t, l), t, u) {
      StepLeaves(s, t, l, u);
    }
    assert StackJoins(s, t, s.threads[t].stack);
    OwnStackJoins(s, t, l);
    Rejoin(s, Do(s, t, l), t);
  }

  lemma ReachableJoins(s: System)
    requires Reachable(s)
    ensures JoinsOk(s)
  {
    var p := x => JoinsOk(x);
    forall x: System, t: nat, l: Label | p(x) && Enabled(x, t, l) ensures p(Do(x, t, l)) {
      StepKeepsJoins(x, t, l);
    }
    assert Inductive(p);
  }

  lemma {:induction false} ExitedForever(s: System, w: nat, more: seq<(nat, Label)>)
    requires After(s, more).Some? && w < |s.threads| && s.threads[w].base == Worker(Exited)
    ensures w < |After(s, more).value.threads| && After(s, more).value.threads[w].base == Worker(Exited)
    decreases |more|
  {
    if |more| > 0 {
      StepLeaves(s, more[0].0, more[0].1, w);
      ExitedForever(Do(s, more[0].0, more[0].1), w, more[1..]);
    }
  }

  /**
   When `shutdown` returns to a client thread every worker has left its loop, with no task in hand,
   and none runs again in any continuation.
   */
  lemma ShutdownReturns(s: System, t: nat, w: nat, more: seq<(nat, Label)>)
    requires Reachable(s) && |s.queues| <= t < |s.threads| && s.threads[t].exn.None?
    requires s.threads[t].stack.Push? && s.threads[t].stack.top.Joining? && Enabled(s, t, Own)
    requires Do(s, t, Own).threads[t].stack == s.threads[t].stack.below
    requires w < |s.queues| && After(s, more).Some?
    ensures s.shutdown && s.threads[w].base == Worker(Exited) && s.threads[w].stack.Empty?
    ensures w < |After(s, more).value.threads| && After(s, more).value.threads[w].base == Worker(Exited)
  {
    ReachableJoins(s);
    assert StackJoins(s, t, s.threads[t].stack);
    ShutdownBound(s, w);
    ExitedForever(s, w, more);
  }

  // ---------------------------------------------------------------- waiting for the pool inside a task

  /** At no point of the continuation are 2^64 tasks outstanding. */
  ghost predicate Fits(s: System, more: seq<(nat, Label)>)
    decreases |more|
  {
    && Outstanding(s) < WORD
    && (|more| > 0 && Enabled(s, more[0].0, more[0].1) ==> Fits(Do(s, more[0].0, more[0].1), more[1..]))
  }

  lemma StepReachable(s: System, t: nat, l: Label)
    requires Reachable(s) && Enabled(s, t, l)
    ensures Reachable(Do(s, t, l))
  {
    forall p: System -> bool | Inductive(p) ensures p(Do(s, t, l)) {
      assert p(s);
    }
  }

  /** A task that calls `wait` stays in it in every continuation of the run. */
  lemma {:induction false} WaitInsideTaskForever(s: System, t: nat, more: seq<(nat, Label)>)
    requires Reachable(s) && After(s, more).Some? && Fits(s, more)
    requires t < |s.queues| && t < |s.threads| && s.threads[t].stack.Push? && s.threads[t].stack.top.WaitIdle?
    ensures var s' := After(s, more).value;
      t < |s'.threads| && s'.threads[t] == s.threads[t] && forall l: Label :: !Enabled(s', t, l)
    decreases |more|
  {
    WaitInsideTaskNeverReturns(s, t);
    if |more| > 0 {
      StepLeaves(s, more[0].0, more[0].1, t);
      StepReachable(s, more[0].0, more[0].1);
      WaitInsideTaskForever(Do(s, more[0].0, more[0].1), t, more[1..]);
    }
  }

  // ---------------------------------------------------------------- waiting for a future inside a task

  /** `get` returns or throws the outcome the future must have. */
  lemma GetYieldsMeaning(s: System, t: nat, c: nat, below: Stack)
    requires Reachable(s) && t < |s.threads| && s.threads[t].exn.None?
    requires s.threads[t].stack == Push(Getting(c), below) && Enabled(s, t, Own)
    ensures CellsOk(s.cells) && c < |s.cells| && s.cells[c].state.promise == Some(Meaning(s.cells, c))
  {
    ReachableInv(s);
    assert CellOk(s.cells, c);
    CompletedMeans(s.cells, c);
  }

  /** The only worker waits for a future whose task is in its own deque. */
  ghost predicate WaitsForOwnDeque(s: System, c: nat, i: nat) {
    && |s.queues| == 1 && |s.threads| > 0 && s.threads[0].exn.None?
    && s.threads[0].stack.Push? && s.threads[0].stack.top == Getting(c)
    && i < |s.queues[0]| && s.queues[0][i].cell == c
  }

  lemma {:induction false} EntryCounts(q: seq<Entry>, i: nat, n: nat, c: nat)
    requires i < n <= |q| && q[i].cell == c
    ensures QueueM(q, n, Holding(c)) >= 1
  {
    if i < n - 1 { EntryCounts(q, i, n - 1, c); }
  }

  lemma QueuedIsIncomplete(s: System, w: nat, i: nat)
    requires Inv(s) && w < |s.queues| && i < |s.queues[w]|
    ensures s.queues[w][i].cell < |s.cells| && !s.cells[s.queues[w][i].cell].state.completed
  {
    var c := s.queues[w][i].cell;
    EntryCounts(s.queues[w], i, |s.queues[w]|, c);
    QueueCounts(s.queues, w, |s.queues|, Holding(c));
    assert Balanced(s, c);
    assert QueueOk(s, w);
    assert CellOk(s.cells, c);
  }

  /** Only the worker itself could take the task, so it stays queued. */
  lemma OwnDequeStep(s: System, c: nat, i: nat, t: nat, l: Label) returns (j: nat)
    requires Inv(s) && WaitsForOwnDeque(s, c, i) && Enabled(s, t, l)
    ensures WaitsForOwnDeque(Do(s, t, l), c, j)
  {
    QueuedIsIncomplete(s, 0, i);
    assert CellOk(s.cells, c);
    assert t != 0;
    assert ThreadOk(s, t);
    StepLeaves(s, t, l, 0);
    var s' := Do(s, t, l);
    j := if s'.queues[0] == s.queues[0] then i else i + 1;
  }

  /**
   A task that posts to a pool of one worker and waits for the result waits forever: neither `get`
   nor the task it waits for ever completes.
   */
  lemma {:induction false} GetInsideTaskForever(s: System, c: nat, i: nat, more: seq<(nat, Label)>)
    requires Inv(s) && WaitsForOwnDeque(s, c, i) && After(s, more).Some?
    ensures var s' := After(s, more).value;
      && c < |s'.cells| && !s'.cells[c].state.completed
      && |s'.threads| > 0 && s'.threads[0] == s.threads[0] && !Enabled(s', 0, Own)
    decreases |more|
  {
    QueuedIsIncomplete(s, 0, i);
    assert CellOk(s.cells, c);
    if |more| > 0 {
      var t, l := more[0].0, more[0].1;
      StepKeepsInv(s, t, l);
      StepLeaves(s, t, l, 0);
      var j := OwnDequeStep(s, c, i, t, l);
      GetInsideTaskForever(Do(s, t, l), c, j, more[1..]);
    }
  }

  /** A task under a waiting frame is still in its worker's hands. */
  lemma RunningIsIncomplete(s: System, t: nat, c: nat)
    requires Inv(s) && t < |s.threads| && s.threads[t].stack.Push? && Waiting(s.threads[t].stack.top)
    requires var k := s.threads[t].stack.below; k.Push? && Holds(k.top) && k.top.cell == c
    ensures c < |s.cells| && !s.cells[c].state.completed
  {
    assert ThreadOk(s, t);
    var k := s.threads[t].stack;
    assert StackM(k, Holding(c)) >= FrameM(k.below.top, Holding(c));
    ThreadCounts(s.threads, t, |s.threads|, Holding(c));
    assert Balanced(s, c);
    assert CellOk(s.cells, c);
  }
}
