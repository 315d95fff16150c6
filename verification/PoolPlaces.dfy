/**
 Where a task may run: what was posted, and what `then` chained, goes through a deque and is run as the
 outermost call of a worker; what `then_inline` chained never enters a deque and is run inside the call
 that completes its predecessor or registers it.
 */
module PoolPlaces {
  import opened Words
  import opened Wrappers
  import opened Outcomes
  import opened PoolModel
  import opened PoolLedger
  import opened PoolInvariant
  import opened PoolSteps
  import opened PoolGrowth
  import opened PoolWaiting

  /** The closure is meant for the pool: posted, detached, or chained by `then`. */
  predicate Pooled(cells: seq<Cell>, c: nat) {
    c < |cells| && !(cells[c].origin.Chained? && cells[c].origin.inline)
  }

  predicate FrameWhere(cells: seq<Cell>, workers: nat, t: nat, f: Frame, below: Stack) {
    match f
    case Choose(c) => Pooled(cells, c)
    case Count(c, _) => Pooled(cells, c)
    case PushTo(c, _) => Pooled(cells, c)
    case Register(_) => below.Push?
    case Body(c, _) => c < |cells| && if Pooled(cells, c) then below.Empty? && t < workers else below.Push?
    case _ => true
  }

  predicate StackWhere(cells: seq<Cell>, workers: nat, t: nat, k: Stack) {
    k.Push? ==> FrameWhere(cells, workers, t, k.top, k.below) && StackWhere(cells, workers, t, k.below)
  }

  predicate QueueWhere(cells: seq<Cell>, q: seq<Entry>) {
    forall i :: 0 <= i < |q| ==> Pooled(cells, q[i].cell)
  }

  ghost predicate Where(s: System) {
    && (forall t: nat :: t < |s.threads| ==> StackWhere(s.cells, |s.queues|, t, s.threads[t].stack))
    && (forall w: nat :: w < |s.queues| ==> QueueWhere(s.cells, s.queues[w]))
  }

  // ---------------------------------------------------------------- one step

  lemma {:induction false} StackWhereGrows(cells: seq<Cell>, cells': seq<Cell>, workers: nat, t: nat, k: Stack)
    requires Grows(cells, cells') && StackWhere(cells, workers, t, k)
    ensures StackWhere(cells', workers, t, k)
    decreases k
  {
    if k.Push? {
      var f := k.top;
      if !Waiting(f) && f.cell < |cells| { assert CellGrows(cells[f.cell], cells'[f.cell]); }
      StackWhereGrows(cells, cells', workers, t, k.below);
    }
  }

  lemma QueueWhereGrows(cells: seq<Cell>, cells': seq<Cell>, q: seq<Entry>)
    requires Grows(cells, cells') && QueueWhere(cells, q)
    ensures QueueWhere(cells', q)
  {
    forall i | 0 <= i < |q| ensures Pooled(cells', q[i].cell) {
      assert CellGrows(cells[q[i].cell], cells'[q[i].cell]);
    }
  }

  /** A continuation that is started goes to the pool, or runs on top of the starter, as it was chained. */
  lemma LaunchWhere(cells: seq<Cell>, workers: nat, t: nat, k: nat, below: Stack)
    requires k < |cells| && below.Push? && StackWhere(cells, workers, t, below)
    ensures StackWhere(cells, workers, t, Push(Launch(cells, k), below))
  {
  }

  lemma SettleWhere(s: System, t: nat, c: nat, o: Outcome, below: Stack)
    requires t < |s.threads| && CellsOk(s.cells) && c < |s.cells| && s.cells[c].state.promise.None?
    requires StackWhere(s.cells, |s.queues|, t, Push(Body(c, SettlingPc(o)), below))
    ensures StackWhere(s.cells, |s.queues|, t, StackOf(Settle(s, t, c, o, below), t))
  {
    SettleIs(s, t, c, o, below);
    assert CellOk(s.cells, c);
    var rest := Push(Body(c, Finishing(o.Value?)), below);
    if s.cells[c].state.continuation.Some? {
      LaunchWhere(s.cells, |s.queues|, t, s.cells[c].state.continuation.value, rest);
    }
  }

  lemma BodyWhere(s: System, t: nat, c: nat, pc: BodyPc, below: Stack)
    requires t < |s.threads| && CellsOk(s.cells) && CanRunBody(s, c, pc)
    requires pc.Setting? || pc.Catching? ==> s.cells[c].state.promise.None?
    requires StackWhere(s.cells, |s.queues|, t, Push(Body(c, pc), below))
    ensures StackWhere(s.cells, |s.queues|, t, StackOf(RunBody(s, t, c, pc, below), t))
  {
    match pc
    case Setting(v) => SettleWhere(s, t, c, Value(v), below);
    case Catching(e) => SettleWhere(s, t, c, Thrown(e), below);
    case _ =>
  }

  lemma RegisterWhere(s: System, t: nat, c: nat, below: Stack)
    requires t < |s.threads| && CanRegister(s, c)
    requires StackWhere(s.cells, |s.queues|, t, Push(Register(c), below))
    ensures StackWhere(s.cells, |s.queues|, t, StackOf(RunRegister(s, t, c, below), t))
  {
    LaunchWhere(s.cells, |s.queues|, t, c, below);
  }

  lemma FrameStackWhere(s: System, t: nat, f: Frame, below: Stack)
    requires Inv(s) && t < |s.threads| && s.threads[t].stack == Push(f, below) && CanRunFrame(s, f)
    requires StackWhere(s.cells, |s.queues|, t, Push(f, below))
    ensures StackWhere(s.cells, |s.queues|, t, StackOf(RunFrame(s, t, f, below), t))
  {
    match f
    case Body(c, pc) =>
      assert Balanced(s, c);
      if pc.Setting? || pc.Catching? { TopHolds(s, t); }
      BodyWhere(s, t, c, pc, below);
    case Register(c) => RegisterWhere(s, t, c, below);
    case _ =>
  }

  lemma WorkerStackWhere(s: System, t: nat, pc: WorkerPc)
    requires Where(s) && t < |s.threads| && t < |s.queues| && s.threads[t].stack.Empty?
    requires s.threads[t].base == Worker(pc) && CanRunWorker(s, t, pc)
    ensures StackWhere(s.cells, |s.queues|, t, StackOf(RunWorker(s, t, pc), t))
  {
  }

  lemma CreateWhere(s: System, t: nat, origin: Origin)
    requires t < |s.threads| && StackWhere(s.cells, |s.queues|, t, s.threads[t].stack)
    ensures var s' := Create(s, t, origin); StackWhere(s'.cells, |s.queues|, t, StackOf(s', t))
  {
    var s' := Create(s, t, origin);
    StackWhereGrows(s.cells, s'.cells, |s.queues|, t, s.threads[t].stack);
  }

  lemma OwnStackWhere(s: System, t: nat, l: Label)
    requires Inv(s) && Where(s) && Enabled(s, t, l)
    ensures StackWhere(Do(s, t, l).cells, |s.queues|, t, StackOf(Do(s, t, l), t))
  {
    var th := s.threads[t];
    assert ThreadOk(s, t) && StackWhere(s.cells, |s.queues|, t, th.stack);
    StepGrows(s, t, l);
    match l
    case CallPost(body) => CreateWhere(s, t, Posted(body));
    case CallDetach(body) => CreateWhere(s, t, Detached(body));
    case CallThen(p, fn, inline) => CreateWhere(s, t, Chained(p, fn, inline));
    case CallWait =>
    case CallGet(_) =>
    case CallShutdown =>
    case Own =>
      if th.exn.None? && th.stack.Push? {
        FrameStackWhere(s, t, th.stack.top, th.stack.below);
      } else if th.exn.None? {
        WorkerStackWhere(s, t, th.base.pc);
      } else {
        CrashSane(s, t);
      }
      StackWhereGrows(s.cells, Do(s, t, l).cells, |s.queues|, t, StackOf(Do(s, t, l), t));
  }

  /** A deque gains nothing but what a posting call pushes. */
  ghost predicate QueueGains(s: System, s': System, t: nat, w: nat)
    requires t < |s.threads| && w < |s.queues|
  {
    && |s'.queues| == |s.queues|
    && (forall i :: 0 <= i < |s'.queues[w]| ==>
          || s'.queues[w][i] in s.queues[w]
          || (StackOf(s, t).Push? && StackOf(s, t).top == PushTo(s'.queues[w][i].cell, w)))
  }

  lemma BodyQueues(s: System, t: nat, c: nat, pc: BodyPc, below: Stack)
    requires t < |s.threads| && CanRunBody(s, c, pc)
    ensures RunBody(s, t, c, pc, below).queues == s.queues
  {
  }

  lemma FrameQueues(s: System, t: nat, f: Frame, below: Stack, w: nat)
    requires t < |s.threads| && s.threads[t].stack == Push(f, below) && CanRunFrame(s, f) && w < |s.queues|
    ensures QueueGains(s, RunFrame(s, t, f, below), t, w)
  {
    match f
    case Body(c, pc) => BodyQueues(s, t, c, pc, below);
    case PushTo(c, v) =>
    case _ => assert RunFrame(s, t, f, below).queues == s.queues;
  }

  lemma WorkerQueues(s: System, t: nat, pc: WorkerPc, w: nat)
    requires t < |s.threads| && CanRunWorker(s, t, pc) && w < |s.queues|
    ensures QueueGains(s, RunWorker(s, t, pc), t, w)
  {
  }

  lemma StepQueues(s: System, t: nat, l: Label, w: nat)
    requires Enabled(s, t, l) && w < |s.queues|
    ensures QueueGains(s, Do(s, t, l), t, w)
  {
    var th := s.threads[t];
    if l.Own? && th.exn.None? && th.stack.Push? {
      FrameQueues(s, t, th.stack.top, th.stack.below, w);
    } else if l.Own? && th.exn.None? {
      WorkerQueues(s, t, th.base.pc, w);
    } else {
      assert Do(s, t, l).queues == s.queues;
    }
  }

  lemma StepQueueWhere(s: System, t: nat, l: Label, w: nat)
    requires Inv(s) && Where(s) && Enabled(s, t, l) && w < |s.queues|
    ensures |Do(s, t, l).queues| == |s.queues| && QueueWhere(Do(s, t, l).cells, Do(s, t, l).queues[w])
  {
    var s' := Do(s, t, l);
    StepQueues(s, t, l, w);
    StepGrows(s, t, l);
    assert StackWhere(s.cells, |s.queues|, t, s.threads[t].stack) && QueueWhere(s.cells, s.queues[w]);
    QueueWhereGrows(s.cells, s'.cells, s.queues[w]);
    StackWhereGrows(s.cells, s'.cells, |s.queues|, t, s.threads[t].stack);
    forall i | 0 <= i < |s'.queues[w]| ensures Pooled(s'.cells, s'.queues[w][i].cell) {
      var e := s'.queues[w][i];
      if e in s.queues[w] {
        var j :| 0 <= j < |s.queues[w]| && s.queues[w][j] == e;
      }
    }
  }

  lemma StepKeepsWhere(s: System, t: nat, l: Label)
    requires Inv(s) && Where(s) && Enabled(s, t, l)
    ensures Where(Do(s, t, l))
  {
    var s' := Do(s, t, l);
    StepLeaves(s, t, l, t);
    StepGrows(s, t, l);
    forall u: nat | u < |s'.threads| ensures StackWhere(s'.cells, |s'.queues|, u, s'.threads[u].stack) {
      StepLeaves(s, t, l, u);
      if u == t {
        OwnStackWhere(s, t, l);
      } else {
        assert StackWhere(s.cells, |s.queues|, u, s.threads[u].stack);
        StackWhereGrows(s.cells, s'.cells, |s.queues|, u, s.threads[u].stack);
      }
    }
    forall w: nat | w < |s'.queues| ensures QueueWhere(s'.cells, s'.queues[w]) {
      StepQueueWhere(s, t, l, w);
    }
  }

  ghost predicate Placed(s: System) { Reachable(s) && Where(s) }

  lemma InitWhere(s: System)
    requires Init(s)
    ensures Where(s)
  {
    forall t: nat | t < |s.threads| ensures StackWhere(s.cells, |s.queues|, t, s.threads[t].stack) {
      assert s.threads[t].stack == Empty;
    }
    forall w: nat | w < |s.queues| ensures QueueWhere(s.cells, s.queues[w]) {
      assert s.queues[w] == [];
    }
  }

  lemma InitPlaced(s: System)
    requires Init(s)
    ensures Placed(s)
  {
    forall p: System -> bool | Inductive(p) ensures p(s) {}
    InitWhere(s);
  }

  lemma StepKeepsPlaced(s: System, t: nat, l: Label)
    requires Placed(s) && Enabled(s, t, l)
    ensures Placed(Do(s, t, l))
  {
    ReachableInv(s);
    StepReachable(s, t, l);
    StepKeepsWhere(s, t, l);
  }

  lemma ReachableWhere(s: System)
    requires Reachable(s)
    ensures Where(s)
  {
    var p := x => Placed(x);
    forall x: System | Init(x) ensures p(x) {
      InitPlaced(x);
    }
    forall x: System, t: nat, l: Label | p(x) && Enabled(x, t, l) ensures p(Do(x, t, l)) {
      StepKeepsPlaced(x, t, l);
    }
    assert Inductive(p);
  }

  // ---------------------------------------------------------------- where closures run

  /** k is what is left of the stack below some of its frames. */
  predicate Within(k: Stack, whole: Stack) {
    k == whole || (whole.Push? && Within(k, whole.below))
  }

  lemma {:induction false} WithinWhere(cells: seq<Cell>, workers: nat, t: nat, k: Stack, whole: Stack)
    requires Within(k, whole) && StackWhere(cells, workers, t, whole)
    ensures StackWhere(cells, workers, t, k)
    decreases whole
  {
    if k != whole { WithinWhere(cells, workers, t, k, whole.below); }
  }

  /**
   Whatever runs, anywhere in any call stack: a posted or detached task, and a continuation chained by
   `then`, is the outermost call of a worker; one chained by `then_inline` runs inside another call.
   */
  lemma WhereItRuns(s: System, t: nat, c: nat, pc: BodyPc, below: Stack)
    requires Reachable(s) && t < |s.threads| && Within(Push(Body(c, pc), below), s.threads[t].stack)
    ensures c < |s.cells|
    ensures s.cells[c].origin.Chained? && s.cells[c].origin.inline ==> below.Push?
    ensures s.cells[c].origin.Chained? && !s.cells[c].origin.inline ==> below.Empty? && t < |s.queues|
    ensures !s.cells[c].origin.Chained? ==> below.Empty? && t < |s.queues|
  {
    ReachableWhere(s);
    WithinWhere(s.cells, |s.queues|, t, Push(Body(c, pc), below), s.threads[t].stack);
  }

  /** What `then_inline` chained is never in a deque. */
  lemma InlineIsNeverQueued(s: System, w: nat, i: nat)
    requires Reachable(s) && w < |s.queues| && i < |s.queues[w]|
    ensures s.queues[w][i].cell < |s.cells|
    ensures var o := s.cells[s.queues[w][i].cell].origin; o.Chained? ==> !o.inline
  {
    ReachableWhere(s);
    assert QueueWhere(s.cells, s.queues[w]);
  }

  // ---------------------------------------------------------------- re-posting

  /** n own steps of thread t. */
  function Alone(t: nat, n: nat): (more: seq<(nat, Label)>)
    ensures |more| == n
  {
    if n == 0 then [] else [(t, Own)] + Alone(t, n - 1)
  }

  lemma AloneStep(s: System, t: nat, n: nat)
    requires n > 0 && Enabled(s, t, Own)
    ensures After(s, Alone(t, n)) == After(Do(s, t, Own), Alone(t, n - 1))
  {
    assert Alone(t, n)[1..] == Alone(t, n - 1);
  }

  /** The task c was counted once and is the newest of the deque the ticket names; nothing else changed. */
  ghost predicate PostedBy(s: System, s': System, t: nat, c: nat, below: Stack)
    requires |s.queues| > 0
  {
    var w := s.round % |s.queues|;
    && s'.queues == s.queues[w := [Entry(c, s.pushes)] + s.queues[w]]
    && s'.unfinished == (s.unfinished + 1) % WORD && s'.round == (s.round + 1) % WORD
    && s'.cells == s.cells && s'.shutdown == s.shutdown && s'.crashed == s.crashed
    && t < |s.threads| == |s'.threads| && s'.threads[t] == s.threads[t].(stack := below)
    && (forall u :: 0 <= u < |s.threads| && u != t ==> s'.threads[u] == s.threads[u])
  }

  lemma Pushes(s: System, t: nat, c: nat, w: nat, below: Stack)
    requires !s.crashed && w < |s.queues| && t < |s.threads| && s.threads[t].exn.None?
    requires s.threads[t].stack == Push(PushTo(c, w), below)
    ensures Enabled(s, t, Own)
    ensures var s' := Do(s, t, Own);
      && s'.queues == s.queues[w := [Entry(c, s.pushes)] + s.queues[w]]
      && s' == SetStack(s.(queues := s'.queues, pushes := s.pushes + 1), t, below)
  {
  }

  lemma Tickets(s: System, t: nat, c: nat, below: Stack)
    requires !s.crashed && |s.queues| > 0 && t < |s.threads| && s.threads[t].exn.None?
    requires s.threads[t].stack == Push(Choose(c), below)
    ensures Enabled(s, t, Own)
    ensures Do(s, t, Own)
         == SetStack(s.(round := (s.round + 1) % WORD), t, Push(Count(c, s.round % |s.queues|), below))
  {
  }

  lemma Counts(s: System, t: nat, c: nat, w: nat, below: Stack)
    requires !s.crashed && t < |s.threads| && s.threads[t].exn.None?
    requires s.threads[t].stack == Push(Count(c, w), below)
    ensures Enabled(s, t, Own)
    ensures Do(s, t, Own) == SetStack(s.(unfinished := (s.unfinished + 1) % WORD), t, Push(PushTo(c, w), below))
  {
  }

  /** Three steps of a posting thread: ticket, count, push. */
  lemma Posts(s: System, t: nat, c: nat, below: Stack)
    requires !s.crashed && |s.queues| > 0 && t < |s.threads| && s.threads[t].exn.None?
    requires s.threads[t].stack == Push(Choose(c), below)
    ensures After(s, Alone(t, 3)).Some? && PostedBy(s, After(s, Alone(t, 3)).value, t, c, below)
  {
    var w := s.round % |s.queues|;
    Tickets(s, t, c, below);
    var s1 := Do(s, t, Own);
    Counts(s1, t, c, w, below);
    var s2 := Do(s1, t, Own);
    Pushes(s2, t, c, w, below);
    var s3 := Do(s2, t, Own);
    AloneStep(s, t, 3);
    AloneStep(s1, t, 2);
    AloneStep(s2, t, 1);
    assert After(s, Alone(t, 3)) == Some(s3);
  }

  /**
   Completing a future with a stored continuation.  One chained by `then` is posted by the next three
   steps of the same thread, before the call that completed the future goes on, so it is counted and
   queued before its predecessor's task is discounted; one chained by `then_inline` starts at once.
   */
  lemma CompletionReposts(s: System, t: nat, p: nat, k: nat, pc: BodyPc, below: Stack)
    requires Reachable(s) && Enabled(s, t, Own) && s.threads[t].exn.None?
    requires s.threads[t].stack == Push(Body(p, pc), below) && (pc.Setting? || pc.Catching?)
    requires p < |s.cells| && s.cells[p].state.continuation == Some(k)
    ensures k < |s.cells| && s.cells[k].origin.Chained? && |s.queues| > 0
    ensures
      var s1, rest := Do(s, t, Own), Push(Body(p, Finishing(pc.Setting?)), below);
      && t < |s1.threads| && p < |s1.cells| && s1.cells[p].state.completed
      && s1.threads[t].base == s.threads[t].base && s1.round == s.round && s1.unfinished == s.unfinished
      && s1.queues == s.queues && s1.pushes == s.pushes
      && (s.cells[k].origin.inline ==> s1.threads[t].stack == Push(Body(k, Begin), rest))
      && (!s.cells[k].origin.inline ==>
            After(s1, Alone(t, 3)).Some? && PostedBy(s1, After(s1, Alone(t, 3)).value, t, k, rest))
  {
    ReachableInv(s);
    assert CellOk(s.cells, p) && Balanced(s, p) && ThreadOk(s, t);
    TopHolds(s, t);
    var o := if pc.Setting? then Value(pc.v) else Thrown(pc.e);
    SettleIs(s, t, p, o, below);
    var s1 := Do(s, t, Own);
    assert s1 == Settle(s, t, p, o, below);
    if !s.cells[k].origin.inline {
      Posts(s1, t, k, Push(Body(p, Finishing(pc.Setting?)), below));
    }
  }

  /** Registering on a completed future that stored no continuation: the same choice, in the caller. */
  lemma RegistrationReposts(s: System, t: nat, c: nat, below: Stack)
    requires Reachable(s) && Enabled(s, t, Own) && s.threads[t].exn.None?
    requires s.threads[t].stack == Push(Register(c), below)
    requires c < |s.cells| && s.cells[c].origin.Chained? && s.cells[c].origin.parent < |s.cells|
    requires var before := s.cells[s.cells[c].origin.parent].state; before.completed && !before.continuationSet
    ensures |s.queues| > 0
    ensures
      var s1 := Do(s, t, Own);
      && t < |s1.threads|
      && s1.queues == s.queues && s1.round == s.round && s1.unfinished == s.unfinished && s1.pushes == s.pushes
      && (s.cells[c].origin.inline ==> s1.threads[t].stack == Push(Body(c, Begin), below))
      && (!s.cells[c].origin.inline ==>
            After(s1, Alone(t, 3)).Some? && PostedBy(s1, After(s1, Alone(t, 3)).value, t, c, below))
  {
    ReachableInv(s);
    var s1 := Do(s, t, Own);
    assert s1 == RunRegister(s, t, c, below);
    if !s.cells[c].origin.inline {
      Posts(s1, t, c, below);
    }
  }
}
