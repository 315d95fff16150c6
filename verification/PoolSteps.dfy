/**
 Every step of the pool keeps the invariant.  A step changes one call stack, at most one deque and
 at most one stored continuation, so its effect on every total is local; the `...Local` lemmas
 compute that effect and `StaysBalanced` lifts it to the whole ledger.
 */
module PoolSteps {
  import opened Words
  import opened Wrappers
  import opened Outcomes
  import opened SharedStates
  import opened PoolModel
  import opened PoolLedger
  import opened PoolInvariant

  // ---------------------------------------------------------------- the initial state

  lemma InitTotal(s: System, m: Measure)
    requires Init(s)
    ensures Total(s, m) == 0
  {
    forall t: nat | t < |s.threads| ensures ThreadM(s.threads[t], m) == 0 {
      assert s.threads[t].stack == Empty;
    }
    NoThreads(s.threads, |s.threads|, m);
    NoQueues(s.queues, |s.queues|, m);
  }

  lemma InitBalanced(s: System, c: nat)
    requires Init(s)
    ensures Balanced(s, c)
  {
    InitTotal(s, Holding(c));
    InitTotal(s, Registering(c));
    InitTotal(s, Returning(c));
    InitTotal(s, NotStarted(c));
  }

  lemma InitSane(s: System)
    requires Init(s)
    ensures Sane(s)
  {
    forall t: nat | t < |s.threads| ensures ThreadOk(s, t) {
      assert s.threads[t].stack == Empty;
    }
  }

  // ---------------------------------------------------------------- how totals move

  /** The part of a total that one thread, one deque and one state contribute. */
  function Local(s: System, t: nat, w: nat, c: nat, m: Measure): nat
    requires t < |s.threads|
  {
    ThreadM(s.threads[t], m)
    + (if w < |s.queues| then QueueM(s.queues[w], |s.queues[w]|, m) else 0)
    + (if c < |s.cells| then CellM(s.cells[c], m) else 0)
  }

  /** Apart from that thread, that deque and that stored continuation, nothing that is counted changed. */
  ghost predicate Touches(s: System, s': System, t: nat, w: nat, c: nat) {
    && t < |s.threads| == |s'.threads| && s'.threads == s.threads[t := s'.threads[t]]
    && |s'.queues| == |s.queues|
    && (if w < |s.queues| then s'.queues == s.queues[w := s'.queues[w]] else s'.queues == s.queues)
    && |s'.cells| == |s.cells|
    && (forall i :: 0 <= i < |s.cells| ==> s'.cells[i].origin == s.cells[i].origin)
    && (forall i :: 0 <= i < |s.cells| && i != c ==> s'.cells[i].state.continuation == s.cells[i].state.continuation)
  }

  lemma Moves(s: System, s': System, t: nat, w: nat, c: nat, m: Measure)
    requires Touches(s, s', t, w, c)
    ensures Total(s', m) + Local(s, t, w, c, m) == Total(s, m) + Local(s', t, w, c, m)
  {
    ThreadsUpdate(s.threads, t, s'.threads[t], |s.threads|, m);
    if w < |s.queues| {
      QueuesUpdate(s.queues, w, s'.queues[w], |s.queues|, m);
    }
    CellsUpdate(s.cells, s'.cells, c, |s.cells|, m);
  }

  /** The measures that do not care where an obligation is. */
  predicate PlaceFree(m: Measure) {
    m.Holding? || m.Returning? || m.Registering? || m.NotStarted? || m.Work?
  }

  /** What the history of state d has recorded. */
  function Settled(s: System, d: nat): nat {
    if d < |s.cells| then One(s.cells[d].state.promise.Some?) + One(s.cells[d].fate.Dropped?) else 0
  }

  function PublishedCount(s: System, d: nat): nat {
    if d < |s.cells| then One(s.cells[d].published) else 0
  }

  function Decided(s: System, d: nat): nat {
    if d < |s.cells| then One(!s.cells[d].fate.Undecided?) else 0
  }

  function Calls(s: System, d: nat): nat {
    if d < |s.cells| then s.cells[d].calls + One(s.cells[d].fate.Dropped?) else 0
  }

  /** What moved locally is what the history recorded; `work` counted tasks were added. */
  ghost predicate LocalStep(s: System, s': System, t: nat, w: nat, c: nat, d: nat, work: int) {
    && Touches(s, s', t, w, c)
    && Local(s', t, w, c, Holding(d)) + Settled(s', d) == Local(s, t, w, c, Holding(d)) + Settled(s, d)
    && Local(s', t, w, c, Returning(d)) + PublishedCount(s', d)
       == Local(s, t, w, c, Returning(d)) + PublishedCount(s, d)
    && Local(s', t, w, c, Registering(d)) + Decided(s', d) == Local(s, t, w, c, Registering(d)) + Decided(s, d)
    && Local(s', t, w, c, NotStarted(d)) + Calls(s', d) <= Local(s, t, w, c, NotStarted(d)) + Calls(s, d)
    && Local(s', t, w, c, Work) == Local(s, t, w, c, Work) + work
  }

  lemma StaysBalanced(s: System, s': System, t: nat, w: nat, c: nat, d: nat, work: int)
    requires LocalStep(s, s', t, w, c, d, work) && Balanced(s, d)
    ensures Balanced(s', d)
    ensures Total(s', Work) == Total(s, Work) + work
  {
    Moves(s, s', t, w, c, Holding(d));
    Moves(s, s', t, w, c, Registering(d));
    Moves(s, s', t, w, c, Returning(d));
    Moves(s, s', t, w, c, NotStarted(d));
    Moves(s, s', t, w, c, Work);
  }

  // ---------------------------------------------------------------- what the books say about a top frame

  /** The closure a thread holds is not settled. */
  lemma TopHolds(s: System, t: nat)
    requires t < |s.threads| && s.threads[t].stack.Push? && Holds(s.threads[t].stack.top)
    requires s.threads[t].stack.top.cell < |s.cells| && Balanced(s, s.threads[t].stack.top.cell)
    ensures var c := s.threads[t].stack.top.cell;
      s.cells[c].state.promise.None? && !s.cells[c].fate.Dropped?
  {
    ThreadCounts(s.threads, t, |s.threads|, Holding(s.threads[t].stack.top.cell));
  }

  lemma TopUndecided(s: System, t: nat)
    requires t < |s.threads| && s.threads[t].stack.Push? && s.threads[t].stack.top.Register?
    requires s.threads[t].stack.top.cell < |s.cells| && Balanced(s, s.threads[t].stack.top.cell)
    ensures s.cells[s.threads[t].stack.top.cell].fate.Undecided?
  {
    ThreadCounts(s.threads, t, |s.threads|, Registering(s.threads[t].stack.top.cell));
  }

  lemma TopReturning(s: System, t: nat)
    requires t < |s.threads| && s.threads[t].stack.Push? && s.threads[t].stack.top.Return?
    requires s.threads[t].stack.top.cell < |s.cells| && Balanced(s, s.threads[t].stack.top.cell)
    ensures !s.cells[s.threads[t].stack.top.cell].published
  {
    ThreadCounts(s.threads, t, |s.threads|, Returning(s.threads[t].stack.top.cell));
  }

  /** On a client thread the closure being run belongs to a call that has not returned. */
  lemma TopUnpublished(s: System, t: nat)
    requires t < |s.threads| && s.threads[t].stack.Push? && Holds(s.threads[t].stack.top)
    requires s.threads[t].stack.top.cell < |s.cells| && Balanced(s, s.threads[t].stack.top.cell)
    requires ClientOk(s.cells, s.threads[t].stack)
    ensures !s.cells[s.threads[t].stack.top.cell].published
  {
    var c := s.threads[t].stack.top.cell;
    ThreadCounts(s.threads, t, |s.threads|, Returning(c));
    assert StackM(s.threads[t].stack.below, Returning(c)) >= FrameM(Return(c), Returning(c));
  }

  // ---------------------------------------------------------------- creating a future state

  lemma CreateMoves(s: System, t: nat, origin: Origin, m: Measure)
    requires t < |s.threads|
    ensures Total(Create(s, t, origin), m) == Total(s, m)
      + FrameM(if origin.Chained? then Register(|s.cells|) else Choose(|s.cells|), m) + FrameM(Return(|s.cells|), m)
  {
    var s' := Create(s, t, origin);
    CellsPrefix(s.cells, FreshCell(origin), |s.cells|, m);
    ThreadsUpdate(s.threads, t, s'.threads[t], |s.threads|, m);
    var first := if origin.Chained? then Register(|s.cells|) else Choose(|s.cells|);
    var was := s.threads[t].stack;
    assert s'.threads == s.threads[t := s'.threads[t]];
    assert StackM(Push(first, Push(Return(|s.cells|), was)), m)
        == FrameM(first, m) + StackM(Push(Return(|s.cells|), was), m);
  }

  lemma CreateBalanced(s: System, t: nat, origin: Origin, d: nat)
    requires t < |s.threads| && Balanced(s, d)
    ensures Balanced(Create(s, t, origin), d)
    ensures Total(Create(s, t, origin), Work) == Total(s, Work)
  {
    CreateMoves(s, t, origin, Holding(d));
    CreateMoves(s, t, origin, Registering(d));
    CreateMoves(s, t, origin, Returning(d));
    CreateMoves(s, t, origin, NotStarted(d));
    CreateMoves(s, t, origin, Work);
  }

  lemma CreateSane(s: System, t: nat, origin: Origin)
    requires Sane(s) && t < |s.threads| && InUserCode(s.threads[t])
    requires origin.Chained? ==>
      origin.parent < |s.cells| && s.cells[origin.parent].published && !s.cells[origin.parent].origin.Detached?
    ensures Sane(Create(s, t, origin))
  {
    var c := |s.cells|;
    var cell := FreshCell(origin);
    var cells' := s.cells + [cell];
    var s' := Create(s, t, origin);
    assert ThreadOk(s, t);
    forall d: nat | d < |cells'| ensures CellOk(cells', d) {
      if d < c { CellOkGrows(s.cells, cells', d); }
    }
    StackOkGrows(s.cells, cells', |s.queues|, s.threads[t].stack);
    assert ThreadOk(s', t);
    Reassemble(s, s', t);
  }

  // ---------------------------------------------------------------- wait and shutdown

  function Enters(s: System, t: nat, f: Frame, down: bool): System
    requires t < |s.threads|
  {
    SetStack(s.(shutdown := down), t, Push(f, s.threads[t].stack))
  }

  lemma EntersSane(s: System, t: nat, f: Frame, down: bool)
    requires Sane(s) && t < |s.threads| && InUserCode(s.threads[t])
    requires Waiting(f) && (f.Getting? ==> f.awaited < |s.cells|)
    requires s.shutdown ==> down
    ensures Sane(Enters(s, t, f, down))
  {
    assert ThreadOk(s, t);
    Reassemble(s, Enters(s, t, f, down), t);
  }

  lemma EntersLocal(s: System, t: nat, f: Frame, down: bool, d: nat)
    requires t < |s.threads| && Waiting(f)
    ensures LocalStep(s, Enters(s, t, f, down), t, |s.queues|, |s.cells|, d, 0)
  {
  }

  // ---------------------------------------------------------------- posting

  lemma PostingSane(s: System, t: nat, f: Frame, below: Stack)
    requires Sane(s) && t < |s.threads| && s.threads[t].exn.None? && s.threads[t].stack == Push(f, below)
    requires Posting(f) && CanRunFrame(s, f)
    ensures Sane(RunFrame(s, t, f, below))
  {
    assert ThreadOk(s, t);
    var s' := RunFrame(s, t, f, below);
    if f.PushTo? {
      assert QueueOk(s, f.victim);
      assert QueueOk(s', f.victim);
    }
    assert ThreadOk(s', t);
    Reassemble(s, s', t);
  }

  lemma ChooseLocal(s: System, t: nat, c: nat, below: Stack, d: nat)
    requires t < |s.threads| && s.threads[t].stack == Push(Choose(c), below) && |s.queues| > 0
    ensures LocalStep(s, RunFrame(s, t, Choose(c), below), t, |s.queues|, |s.cells|, d, 0)
  {
  }

  lemma CountLocal(s: System, t: nat, c: nat, w: nat, below: Stack, d: nat)
    requires t < |s.threads| && s.threads[t].stack == Push(Count(c, w), below)
    ensures LocalStep(s, RunFrame(s, t, Count(c, w), below), t, |s.queues|, |s.cells|, d, 1)
  {
  }

  lemma PushToMeasure(s: System, t: nat, c: nat, w: nat, below: Stack, m: Measure)
    requires t < |s.threads| && s.threads[t].stack == Push(PushTo(c, w), below) && w < |s.queues|
    ensures Local(RunFrame(s, t, PushTo(c, w), below), t, w, |s.cells|, m) + FrameM(PushTo(c, w), m)
         == Local(s, t, w, |s.cells|, m) + EntryM(Entry(c, s.pushes), m)
  {
    QueuePushFront(s.queues[w], Entry(c, s.pushes), m);
  }

  lemma PushToLocal(s: System, t: nat, c: nat, w: nat, below: Stack, d: nat)
    requires t < |s.threads| && s.threads[t].stack == Push(PushTo(c, w), below) && w < |s.queues|
    ensures LocalStep(s, RunFrame(s, t, PushTo(c, w), below), t, w, |s.cells|, d, 0)
  {
    PushToMeasure(s, t, c, w, below, Holding(d));
    PushToMeasure(s, t, c, w, below, Returning(d));
    PushToMeasure(s, t, c, w, below, Registering(d));
    PushToMeasure(s, t, c, w, below, NotStarted(d));
    PushToMeasure(s, t, c, w, below, Work);
  }

  // ---------------------------------------------------------------- returning a future

  lemma ReturnSane(s: System, t: nat, c: nat, below: Stack)
    requires Sane(s) && t < |s.threads| && s.threads[t].exn.None? && s.threads[t].stack == Push(Return(c), below)
    requires c < |s.cells|
    ensures Sane(RunFrame(s, t, Return(c), below))
  {
    assert ThreadOk(s, t);
    var s' := RunFrame(s, t, Return(c), below);
    assert CellOk(s.cells, c);
    ReplaceCell(s.cells, c, s'.cells[c]);
    StackOkGrows(s.cells, s'.cells, |s.queues|, below);
    Reassemble(s, s', t);
  }

  lemma ReturnLocal(s: System, t: nat, c: nat, below: Stack, d: nat)
    requires t < |s.threads| && s.threads[t].stack == Push(Return(c), below)
    requires c < |s.cells| && !s.cells[c].published
    ensures LocalStep(s, RunFrame(s, t, Return(c), below), t, |s.queues|, |s.cells|, d, 0)
  {
  }

  // ---------------------------------------------------------------- running a callback

  lemma EnterSane(s: System, t: nat, c: nat, arg: int, below: Stack)
    requires Sane(s) && t < |s.threads| && s.threads[t].exn.None? && s.threads[t].stack == Push(Body(c, Begin), below)
    requires c < |s.cells| && Called(s.cells, c)
    requires s.cells[c].origin.Chained? ==> s.cells[s.cells[c].origin.parent].state.promise == Some(Value(arg))
    ensures Sane(Enter(s, t, c, arg, below))
  {
    assert ThreadOk(s, t);
    var s' := Enter(s, t, c, arg, below);
    assert CellOk(s.cells, c);
    ReplaceCell(s.cells, c, s'.cells[c]);
    StackOkGrows(s.cells, s'.cells, |s.queues|, Push(Body(c, Begin), below));
    Reassemble(s, s', t);
  }

  lemma EnterLocal(s: System, t: nat, c: nat, arg: int, below: Stack, d: nat)
    requires t < |s.threads| && s.threads[t].stack == Push(Body(c, Begin), below) && c < |s.cells|
    ensures LocalStep(s, Enter(s, t, c, arg, below), t, |s.queues|, |s.cells|, d, 0)
  {
  }

  /** A change of program counter inside one body that keeps the obligation where it is. */
  lemma StaySane(s: System, t: nat, c: nat, pc: BodyPc, pc': BodyPc, below: Stack)
    requires Sane(s) && t < |s.threads| && s.threads[t].exn.None? && s.threads[t].stack == Push(Body(c, pc), below)
    requires FrameOk(s.cells, |s.queues|, Body(c, pc')) && !pc.Finishing?
    ensures Sane(SetStack(s, t, Push(Body(c, pc'), below)))
  {
    assert ThreadOk(s, t);
    Reassemble(s, SetStack(s, t, Push(Body(c, pc'), below)), t);
  }

  lemma StayLocal(s: System, t: nat, c: nat, pc: BodyPc, pc': BodyPc, below: Stack, d: nat)
    requires t < |s.threads| && s.threads[t].stack == Push(Body(c, pc), below)
    requires !pc.Finishing? && !pc'.Finishing? && !pc'.Begin?
    ensures LocalStep(s, SetStack(s, t, Push(Body(c, pc'), below)), t, |s.queues|, |s.cells|, d, 0)
  {
  }

  /** A frame that holds nothing returns. */
  lemma PopSane(s: System, t: nat, f: Frame, below: Stack)
    requires Sane(s) && t < |s.threads| && s.threads[t].exn.None? && s.threads[t].stack == Push(f, below)
    ensures Sane(SetStack(s, t, below))
  {
    assert ThreadOk(s, t);
    Reassemble(s, SetStack(s, t, below), t);
  }

  lemma PopLocal(s: System, t: nat, f: Frame, below: Stack, d: nat)
    requires t < |s.threads| && s.threads[t].stack == Push(f, below)
    requires Waiting(f) || (f.Body? && f.pc.Finishing?)
    ensures LocalStep(s, SetStack(s, t, below), t, |s.queues|, |s.cells|, d, 0)
  {
  }

  /** One `join` returns, or throws on the caller's own thread. */
  lemma JoinSane(s: System, t: nat, f: Frame, below: Stack)
    requires Sane(s) && t < |s.threads| && s.threads[t].exn.None? && s.threads[t].stack == Push(f, below)
    requires f.Joining? && CanRunFrame(s, f)
    ensures Sane(RunFrame(s, t, f, below))
  {
    assert ThreadOk(s, t);
    Reassemble(s, RunFrame(s, t, f, below), t);
  }

  lemma JoinLocal(s: System, t: nat, f: Frame, below: Stack, d: nat)
    requires t < |s.threads| && s.threads[t].stack == Push(f, below)
    requires f.Joining? && CanRunFrame(s, f)
    ensures LocalStep(s, RunFrame(s, t, f, below), t, |s.queues|, |s.cells|, d, 0)
  {
  }

  lemma BeginSane(s: System, t: nat, c: nat, below: Stack)
    requires Sane(s) && t < |s.threads| && s.threads[t].exn.None? && s.threads[t].stack == Push(Body(c, Begin), below)
    requires CanRunBody(s, c, Begin)
    ensures Sane(RunBody(s, t, c, Begin, below))
  {
    assert ThreadOk(s, t);
    assert CellOk(s.cells, c);
    match s.cells[c].origin
    case Chained(p, _, _) =>
      match s.cells[p].state.promise.value {
        case Value(v) => EnterSane(s, t, c, v, below);
        case Thrown(e) => StaySane(s, t, c, Begin, Catching(e), below);
      }
    case Posted(_) => EnterSane(s, t, c, 0, below);
    case Detached(_) => EnterSane(s, t, c, 0, below);
  }

  lemma BeginLocal(s: System, t: nat, c: nat, below: Stack, d: nat)
    requires t < |s.threads| && s.threads[t].stack == Push(Body(c, Begin), below)
    requires CanRunBody(s, c, Begin)
    ensures LocalStep(s, RunBody(s, t, c, Begin, below), t, |s.queues|, |s.cells|, d, 0)
  {
    match s.cells[c].origin
    case Chained(p, _, _) =>
      match s.cells[p].state.promise.value {
        case Value(v) => EnterLocal(s, t, c, v, below, d);
        case Thrown(e) => StayLocal(s, t, c, Begin, Catching(e), below, d);
      }
    case Posted(_) => EnterLocal(s, t, c, 0, below, d);
    case Detached(_) => EnterLocal(s, t, c, 0, below, d);
  }

  lemma DetachedDoneSane(s: System, t: nat, c: nat, arg: int, below: Stack)
    requires Sane(s) && t < |s.threads| && s.threads[t].exn.None?
    requires s.threads[t].stack == Push(Body(c, InUser(arg)), below)
    requires c < |s.cells| && s.cells[c].origin.Detached? && s.cells[c].state.promise.None?
    ensures Sane(RunBody(s, t, c, InUser(arg), below))
  {
    assert ThreadOk(s, t);
    assert CellOk(s.cells, c);
    var s' := RunBody(s, t, c, InUser(arg), below);
    ReplaceCell(s.cells, c, s'.cells[c]);
    StackOkGrows(s.cells, s'.cells, |s.queues|, below);
    assert s'.cells[c].origin.Detached?;
    Reassemble(s, s', t);
  }

  lemma LeaveSane(s: System, t: nat, c: nat, arg: int, below: Stack)
    requires Sane(s) && t < |s.threads| && s.threads[t].exn.None?
    requires s.threads[t].stack == Push(Body(c, InUser(arg)), below)
    requires CanRunBody(s, c, InUser(arg)) && s.cells[c].state.promise.None?
    ensures Sane(RunBody(s, t, c, InUser(arg), below))
  {
    assert ThreadOk(s, t);
    assert CellOk(s.cells, c);
    var o := Result(s.cells[c].origin, arg);
    if s.cells[c].origin.Detached? {
      DetachedDoneSane(s, t, c, arg, below);
    } else {
      StaySane(s, t, c, InUser(arg), if o.Value? then Setting(o.v) else Catching(o.e), below);
    }
  }

  lemma DetachedDoneLocal(s: System, t: nat, c: nat, arg: int, below: Stack, d: nat)
    requires t < |s.threads| && s.threads[t].stack == Push(Body(c, InUser(arg)), below)
    requires c < |s.cells| && s.cells[c].state.promise.None? && s.cells[c].origin.Detached?
    requires s.cells[c].state.continuation.None?
    ensures LocalStep(s, Leave(s, t, c, Result(s.cells[c].origin, arg), below), t, |s.queues|, |s.cells|, d, 0)
  {
  }

  lemma LeaveLocal(s: System, t: nat, c: nat, arg: int, below: Stack, d: nat)
    requires t < |s.threads| && s.threads[t].stack == Push(Body(c, InUser(arg)), below)
    requires c < |s.cells| && s.cells[c].state.promise.None?
    requires s.cells[c].origin.Detached? ==> s.cells[c].state.continuation.None?
    ensures LocalStep(s, Leave(s, t, c, Result(s.cells[c].origin, arg), below), t, |s.queues|, |s.cells|, d, 0)
  {
    var o := Result(s.cells[c].origin, arg);
    if s.cells[c].origin.Detached? {
      DetachedDoneLocal(s, t, c, arg, below, d);
    } else {
      StayLocal(s, t, c, InUser(arg), if o.Value? then Setting(o.v) else Catching(o.e), below, d);
    }
  }

  // ---------------------------------------------------------------- completing a state

  /** The pc from which `set_value` or `set_exception` is entered. */
  function SettlingPc(o: Outcome): BodyPc {
    match o
    case Value(v) => Setting(v)
    case Thrown(e) => Catching(e)
  }

  function AfterSettle(s: System, c: nat, o: Outcome, below: Stack): Stack
    requires c < |s.cells|
  {
    var rest := Push(Body(c, Finishing(o.Value?)), below);
    if s.cells[c].state.continuation.Some? then Push(Launch(s.cells, s.cells[c].state.continuation.value), rest)
    else rest
  }

  function SettledCell(cell: Cell, o: Outcome): Cell {
    cell.(state := Record(Some(o), true, None, cell.state.continuationSet))
  }

  lemma SettleIs(s: System, t: nat, c: nat, o: Outcome, below: Stack)
    requires t < |s.threads| && c < |s.cells| && s.cells[c].state.promise.None?
    ensures Settle(s, t, c, o, below)
         == SetStack(SetCell(s, c, SettledCell(s.cells[c], o)), t, AfterSettle(s, c, o, below))
  {
  }

  lemma SettleCells(s: System, t: nat, c: nat, o: Outcome)
    requires Sane(s) && c < |s.cells| && s.cells[c].state.promise.None?
    requires FrameOk(s.cells, |s.queues|, Body(c, SettlingPc(o)))
    ensures var cells' := s.cells[c := SettledCell(s.cells[c], o)];
      Grows(s.cells, cells') && CellsOk(cells')
  {
    assert CellOk(s.cells, c);
    ReplaceCell(s.cells, c, SettledCell(s.cells[c], o));
  }

  /** The continuation handed out may start: its predecessor has just completed. */
  lemma SettleStack(s: System, c: nat, o: Outcome, below: Stack)
    requires Sane(s) && c < |s.cells| && s.cells[c].state.promise.None?
    requires StackOk(s.cells, |s.queues|, Push(Body(c, SettlingPc(o)), below))
    requires var cells' := s.cells[c := SettledCell(s.cells[c], o)]; Grows(s.cells, cells') && CellsOk(cells')
    ensures StackOk(s.cells[c := SettledCell(s.cells[c], o)], |s.queues|, AfterSettle(s, c, o, below))
  {
    assert CellOk(s.cells, c);
    StackOkGrows(s.cells, s.cells[c := SettledCell(s.cells[c], o)], |s.queues|, below);
  }

  lemma SettleSane(s: System, t: nat, c: nat, o: Outcome, below: Stack)
    requires Sane(s) && t < |s.threads| && s.threads[t].exn.None?
    requires s.threads[t].stack == Push(Body(c, SettlingPc(o)), below)
    requires c < |s.cells| && s.cells[c].state.promise.None?
    requires t >= |s.queues| ==> !s.cells[c].published
    ensures Sane(Settle(s, t, c, o, below))
  {
    assert ThreadOk(s, t);
    assert CellOk(s.cells, c);
    var s' := SetStack(SetCell(s, c, SettledCell(s.cells[c], o)), t, AfterSettle(s, c, o, below));
    SettleIs(s, t, c, o, below);
    SettleCells(s, t, c, o);
    SettleStack(s, c, o, below);
    StackOkGrows(s.cells, s'.cells, |s.queues|, below);
    assert ThreadOk(s', t);
    Reassemble(s, s', t);
  }

  lemma SettleMeasure(s: System, t: nat, c: nat, o: Outcome, below: Stack, m: Measure)
    requires t < |s.threads| && s.threads[t].stack == Push(Body(c, SettlingPc(o)), below)
    requires c < |s.cells| && s.cells[c].state.promise.None? && PlaceFree(m)
    ensures Local(Settle(s, t, c, o, below), t, |s.queues|, c, m) + FrameM(Body(c, SettlingPc(o)), m)
         == Local(s, t, |s.queues|, c, m)
  {
    SettleIs(s, t, c, o, below);
    var rest := Push(Body(c, Finishing(o.Value?)), below);
    assert StackM(rest, m) == StackM(below, m);
    assert StackM(AfterSettle(s, c, o, below), m) == StackM(below, m) + CellM(s.cells[c], m);
    assert CellM(SettledCell(s.cells[c], o), m) == 0;
  }

  lemma SettleLocal(s: System, t: nat, c: nat, o: Outcome, below: Stack, d: nat)
    requires t < |s.threads| && s.threads[t].stack == Push(Body(c, SettlingPc(o)), below)
    requires c < |s.cells| && s.cells[c].state.promise.None?
    ensures LocalStep(s, Settle(s, t, c, o, below), t, |s.queues|, c, d, 0)
  {
    SettleMeasure(s, t, c, o, below, Holding(d));
    SettleMeasure(s, t, c, o, below, Returning(d));
    SettleMeasure(s, t, c, o, below, Registering(d));
    SettleMeasure(s, t, c, o, below, NotStarted(d));
    SettleMeasure(s, t, c, o, below, Work);
    SettleIs(s, t, c, o, below);
  }

  // ---------------------------------------------------------------- registering a continuation

  function RegisteredCells(cells: seq<Cell>, c: nat, p: nat): seq<Cell>
    requires c < |cells| && p < |cells|
  {
    match Decide(cells[p].state)
    case Ignored => cells[c := cells[c].(fate := Dropped)]
    case RunNow => cells[c := cells[c].(fate := RanAfter)]
    case Kept =>
      cells[c := cells[c].(fate := StoredFirst)]
           [p := cells[p].(state := Registered(cells[p].state, c), first := Some(c))]
  }

  lemma RegisterCells(cells: seq<Cell>, c: nat)
    requires CellsOk(cells) && c < |cells|
    requires cells[c].origin.Chained? && cells[c].fate.Undecided?
    requires cells[c].origin.parent < c
    ensures var cells' := RegisteredCells(cells, c, cells[c].origin.parent);
      Grows(cells, cells') && CellsOk(cells')
  {
    var p := cells[c].origin.parent;
    var cells' := RegisteredCells(cells, c, p);
    assert CellOk(cells, c);
    assert CellOk(cells, p);
    forall d: nat | d < |cells'| ensures CellOk(cells', d) {
      assert CellOk(cells, d);
      if d != c && d != p {
        CellOkGrows(cells, cells', d);
      }
    }
  }

  lemma RegisterSane(s: System, t: nat, c: nat, below: Stack)
    requires Sane(s) && t < |s.threads| && s.threads[t].exn.None? && s.threads[t].stack == Push(Register(c), below)
    requires CanRegister(s, c) && s.cells[c].fate.Undecided?
    ensures Sane(RunRegister(s, t, c, below))
  {
    assert ThreadOk(s, t);
    var s' := RunRegister(s, t, c, below);
    RegisterCells(s.cells, c);
    assert s'.cells == RegisteredCells(s.cells, c, s.cells[c].origin.parent);
    StackOkGrows(s.cells, s'.cells, |s.queues|, below);
    assert CellOk(s.cells, s.cells[c].origin.parent);
    assert ThreadOk(s', t);
    Reassemble(s, s', t);
  }

  /** Ignored: the obligation disappears into the `Dropped` record. */
  lemma IgnoredLocal(s: System, t: nat, c: nat, below: Stack, d: nat)
    requires t < |s.threads| && s.threads[t].stack == Push(Register(c), below)
    requires CanRegister(s, c) && s.cells[c].fate.Undecided?
    requires Decide(s.cells[s.cells[c].origin.parent].state).Ignored?
    ensures LocalStep(s, RunRegister(s, t, c, below), t, |s.queues|, |s.cells|, d, 0)
  {
  }

  /** Run now: the obligation passes to the continuation's first frame. */
  lemma RunNowLocal(s: System, t: nat, c: nat, below: Stack, d: nat)
    requires t < |s.threads| && s.threads[t].stack == Push(Register(c), below)
    requires CanRegister(s, c) && s.cells[c].fate.Undecided?
    requires Decide(s.cells[s.cells[c].origin.parent].state).RunNow?
    ensures LocalStep(s, RunRegister(s, t, c, below), t, |s.queues|, |s.cells|, d, 0)
  {
  }

  lemma KeptMeasure(s: System, t: nat, c: nat, below: Stack, m: Measure)
    requires t < |s.threads| && s.threads[t].stack == Push(Register(c), below) && PlaceFree(m)
    requires CanRegister(s, c) && s.cells[s.cells[c].origin.parent].state.continuation.None?
    requires Decide(s.cells[s.cells[c].origin.parent].state).Kept?
    ensures var p := s.cells[c].origin.parent;
      Local(RunRegister(s, t, c, below), t, |s.queues|, p, m) + FrameM(Register(c), m)
      == Local(s, t, |s.queues|, p, m) + FrameM(Choose(c), m)
  {
    var p := s.cells[c].origin.parent;
    var s' := RunRegister(s, t, c, below);
    assert CellM(s'.cells[p], m) == FrameM(Choose(c), m);
  }

  /** Kept: the obligation moves into the predecessor's record. */
  lemma KeptLocal(s: System, t: nat, c: nat, below: Stack, d: nat)
    requires t < |s.threads| && s.threads[t].stack == Push(Register(c), below)
    requires CanRegister(s, c) && s.cells[c].fate.Undecided?
    requires s.cells[s.cells[c].origin.parent].state.continuation.None?
    requires Decide(s.cells[s.cells[c].origin.parent].state).Kept?
    ensures LocalStep(s, RunRegister(s, t, c, below), t, |s.queues|, s.cells[c].origin.parent, d, 0)
  {
    KeptMeasure(s, t, c, below, Holding(d));
    KeptMeasure(s, t, c, below, Returning(d));
    KeptMeasure(s, t, c, below, Registering(d));
    KeptMeasure(s, t, c, below, NotStarted(d));
    KeptMeasure(s, t, c, below, Work);
    var s' := RunRegister(s, t, c, below);
    assert s'.cells == RegisteredCells(s.cells, c, s.cells[c].origin.parent);
  }

  // ---------------------------------------------------------------- the worker loop

  /** A loop step that takes no task. */
  lemma LoopSane(s: System, t: nat, pc: WorkerPc)
    requires Sane(s) && t < |s.queues| && s.threads[t].exn.None? && s.threads[t].stack.Empty?
    requires s.threads[t].base == Worker(pc) && CanRunWorker(s, t, pc)
    requires pc.TryOwn? ==> |s.queues[t]| == 0
    requires pc.TrySteal? ==> |s.queues[pc.victim]| == 0
    ensures Sane(RunWorker(s, t, pc))
  {
    assert ThreadOk(s, t);
    Reassemble(s, RunWorker(s, t, pc), t);
  }

  lemma LoopLocal(s: System, t: nat, pc: WorkerPc, d: nat)
    requires t < |s.threads| && s.threads[t].stack.Empty?
    requires s.threads[t].base == Worker(pc) && CanRunWorker(s, t, pc)
    requires pc.TryOwn? ==> |s.queues[t]| == 0
    requires pc.TrySteal? ==> |s.queues[pc.victim]| == 0
    ensures LocalStep(s, RunWorker(s, t, pc), t, |s.queues|, |s.cells|, d, if pc.Discount? then -1 else 0)
  {
  }

  /** Taking the task at index i, the front for the owner and the back for a thief. */
  function Taken(s: System, t: nat, w: nat, i: nat): System
    requires t < |s.threads| && w < |s.queues| && i < |s.queues[w]|
  {
    StartTask(s.(queues := s.queues[w := s.queues[w][..i] + s.queues[w][i + 1..]]), t, s.queues[w][i])
  }

  lemma TakeSane(s: System, t: nat, w: nat, i: nat)
    requires Sane(s) && t < |s.queues| && s.threads[t].exn.None? && s.threads[t].stack.Empty?
    requires s.threads[t].base == Worker(TryOwn) || s.threads[t].base == Worker(TrySteal(w))
    requires w < |s.queues| && i < |s.queues[w]|
    ensures Sane(Taken(s, t, w, i))
  {
    assert ThreadOk(s, t);
    assert QueueOk(s, w);
    var s' := Taken(s, t, w, i);
    assert QueueOk(s', w);
    Reassemble(s, s', t);
  }

  lemma TakeQueue(q: seq<Entry>, i: nat, m: Measure)
    requires i < |q| && (i == 0 || i == |q| - 1)
    ensures var rest := q[..i] + q[i + 1..];
      QueueM(rest, |rest|, m) + EntryM(q[i], m) == QueueM(q, |q|, m)
  {
    if i == 0 {
      assert q[..i] + q[i + 1..] == q[1..];
      QueuePopFront(q, m);
    } else {
      assert q[..i] + q[i + 1..] == q[..|q| - 1];
      QueuePopBack(q, m);
    }
  }

  /** The task moves from the deque into the worker's hands, and stays counted. */
  lemma TakeMeasure(s: System, t: nat, w: nat, i: nat, m: Measure)
    requires t < |s.threads| && s.threads[t].stack.Empty? && w < |s.queues| && i < |s.queues[w]|
    requires i == 0 || i == |s.queues[w]| - 1
    requires s.threads[t].base.Worker? && !s.threads[t].base.pc.Running? && !s.threads[t].base.pc.Discount?
    requires PlaceFree(m)
    ensures Local(Taken(s, t, w, i), t, w, |s.cells|, m) == Local(s, t, w, |s.cells|, m)
  {
    TakeQueue(s.queues[w], i, m);
    var e := s.queues[w][i];
    assert StackM(Push(Body(e.cell, Begin), Empty), m) == FrameM(Body(e.cell, Begin), m);
    assert FrameM(Body(e.cell, Begin), m) + One(m.Work?) == EntryM(e, m);
  }

  lemma TakeLocal(s: System, t: nat, w: nat, i: nat, d: nat)
    requires t < |s.threads| && s.threads[t].stack.Empty? && w < |s.queues| && i < |s.queues[w]|
    requires i == 0 || i == |s.queues[w]| - 1
    requires s.threads[t].base.Worker? && !s.threads[t].base.pc.Running? && !s.threads[t].base.pc.Discount?
    ensures LocalStep(s, Taken(s, t, w, i), t, w, |s.cells|, d, 0)
  {
    TakeMeasure(s, t, w, i, Holding(d));
    TakeMeasure(s, t, w, i, Returning(d));
    TakeMeasure(s, t, w, i, Registering(d));
    TakeMeasure(s, t, w, i, NotStarted(d));
    TakeMeasure(s, t, w, i, Work);
  }

  /** The owner takes the front of its deque, a thief the back of the victim's. */
  lemma WorkerTakes(s: System, t: nat, pc: WorkerPc)
    requires t < |s.threads| && CanRunWorker(s, t, pc)
    ensures pc.TryOwn? && |s.queues[t]| > 0 ==> RunWorker(s, t, pc) == Taken(s, t, t, 0)
    ensures pc.TrySteal? && |s.queues[pc.victim]| > 0 ==>
      RunWorker(s, t, pc) == Taken(s, t, pc.victim, |s.queues[pc.victim]| - 1)
  {
    if pc.TryOwn? && |s.queues[t]| > 0 {
      var q := s.queues[t];
      assert q[..0] + q[1..] == q[1..];
    }
    if pc.TrySteal? && |s.queues[pc.victim]| > 0 {
      var q := s.queues[pc.victim];
      assert q[..|q| - 1] + q[|q|..] == q[..|q| - 1];
    }
  }

  // ---------------------------------------------------------------- one step

  /** How many counted tasks a step adds. */
  function WorkDelta(s: System, t: nat, l: Label): int
    requires t < |s.threads|
  {
    var th := s.threads[t];
    if !l.Own? || th.exn.Some? then 0
    else if th.stack.Push? then (if th.stack.top.Count? then 1 else 0)
    else if th.base == Worker(Discount) then -1 else 0
  }

  lemma BodySane(s: System, t: nat, c: nat, pc: BodyPc, below: Stack)
    requires Sane(s) && t < |s.threads| && s.threads[t].exn.None? && s.threads[t].stack == Push(Body(c, pc), below)
    requires CanRunBody(s, c, pc) && Balanced(s, c)
    ensures Sane(RunBody(s, t, c, pc, below))
  {
    assert ThreadOk(s, t);
    if !pc.Finishing? {
      TopHolds(s, t);
      if t >= |s.queues| {
        TopUnpublished(s, t);
      }
    }
    match pc
    case Begin => BeginSane(s, t, c, below);
    case InUser(arg) => LeaveSane(s, t, c, arg, below);
    case Setting(v) => SettleSane(s, t, c, Value(v), below);
    case Catching(e) => SettleSane(s, t, c, Thrown(e), below);
    case Finishing(_) => PopSane(s, t, Body(c, pc), below);
  }

  lemma FrameSane(s: System, t: nat, f: Frame, below: Stack)
    requires Sane(s) && t < |s.threads| && s.threads[t].exn.None? && s.threads[t].stack == Push(f, below)
    requires CanRunFrame(s, f) && AllBalanced(s)
    ensures Sane(RunFrame(s, t, f, below))
  {
    match f
    case Choose(_) => PostingSane(s, t, f, below);
    case Count(_, _) => PostingSane(s, t, f, below);
    case PushTo(_, _) => PostingSane(s, t, f, below);
    case Register(c) =>
      TopUndecided(s, t);
      RegisterSane(s, t, c, below);
    case Return(c) => ReturnSane(s, t, c, below);
    case Body(c, pc) => BodySane(s, t, c, pc, below);
    case WaitIdle => PopSane(s, t, f, below);
    case Joining(_, _) => JoinSane(s, t, f, below);
    case Getting(_) => PopSane(s, t, f, below);
  }

  lemma WorkerSane(s: System, t: nat, pc: WorkerPc)
    requires Sane(s) && t < |s.queues| && s.threads[t].exn.None? && s.threads[t].stack.Empty?
    requires s.threads[t].base == Worker(pc) && CanRunWorker(s, t, pc)
    ensures Sane(RunWorker(s, t, pc))
  {
    WorkerTakes(s, t, pc);
    if pc.TryOwn? && |s.queues[t]| > 0 {
      TakeSane(s, t, t, 0);
    } else if pc.TrySteal? && |s.queues[pc.victim]| > 0 {
      TakeSane(s, t, pc.victim, |s.queues[pc.victim]| - 1);
    } else {
      LoopSane(s, t, pc);
    }
  }

  lemma CrashSane(s: System, t: nat)
    requires Sane(s) && t < |s.threads| && s.threads[t].exn.Some?
    ensures Sane(Unwind(s, t, s.threads[t].exn.value))
    ensures Unwind(s, t, s.threads[t].exn.value) == s.(crashed := true)
  {
    assert ThreadOk(s, t);
    Reassemble(s, s.(crashed := true), t);
  }

  lemma StepSane(s: System, t: nat, l: Label)
    requires Inv(s) && Enabled(s, t, l)
    ensures Sane(Do(s, t, l))
  {
    assert ThreadOk(s, t);
    var th := s.threads[t];
    match l
    case CallPost(body) => CreateSane(s, t, Posted(body));
    case CallDetach(body) => CreateSane(s, t, Detached(body));
    case CallThen(p, fn, inline) => CreateSane(s, t, Chained(p, fn, inline));
    case CallWait => EntersSane(s, t, WaitIdle, s.shutdown);
    case CallGet(c) => EntersSane(s, t, Getting(c), s.shutdown);
    case CallShutdown => EntersSane(s, t, Joining(t, 0), true);
    case Own =>
      if th.exn.Some? {
        CrashSane(s, t);
      } else if th.stack.Push? {
        FrameSane(s, t, th.stack.top, th.stack.below);
      } else {
        WorkerSane(s, t, th.base.pc);
      }
  }

  lemma DetachedHasNoContinuation(s: System, c: nat)
    requires Sane(s) && c < |s.cells| && s.cells[c].origin.Detached?
    ensures s.cells[c].state.continuation.None?
  {
    assert CellOk(s.cells, c);
    var k := if s.cells[c].first.Some? then s.cells[c].first.value else c;
    assert CellOk(s.cells, k);
  }

  /** The local effect of a body step; `c'` is the state whose stored continuation it may move. */
  lemma BodyLocal(s: System, t: nat, c: nat, pc: BodyPc, below: Stack, d: nat) returns (c': nat)
    requires Sane(s) && t < |s.threads| && s.threads[t].stack == Push(Body(c, pc), below)
    requires CanRunBody(s, c, pc) && (pc.Finishing? || s.cells[c].state.promise.None?)
    ensures LocalStep(s, RunBody(s, t, c, pc, below), t, |s.queues|, c', d, 0)
  {
    c' := |s.cells|;
    match pc
    case Begin => BeginLocal(s, t, c, below, d);
    case InUser(arg) =>
      if s.cells[c].origin.Detached? { DetachedHasNoContinuation(s, c); }
      LeaveLocal(s, t, c, arg, below, d);
    case Setting(v) =>
      SettleLocal(s, t, c, Value(v), below, d);
      c' := c;
    case Catching(e) =>
      SettleLocal(s, t, c, Thrown(e), below, d);
      c' := c;
    case Finishing(_) => PopLocal(s, t, Body(c, pc), below, d);
  }

  lemma RegisterLocal(s: System, t: nat, c: nat, below: Stack, d: nat) returns (c': nat)
    requires Sane(s) && t < |s.threads| && s.threads[t].stack == Push(Register(c), below)
    requires CanRegister(s, c) && s.cells[c].fate.Undecided?
    ensures LocalStep(s, RunRegister(s, t, c, below), t, |s.queues|, c', d, 0)
  {
    var p := s.cells[c].origin.parent;
    assert CellOk(s.cells, p);
    c' := |s.cells|;
    match Decide(s.cells[p].state)
    case Ignored => IgnoredLocal(s, t, c, below, d);
    case RunNow => RunNowLocal(s, t, c, below, d);
    case Kept =>
      KeptLocal(s, t, c, below, d);
      c' := p;
  }

  lemma FrameLocal(s: System, t: nat, f: Frame, below: Stack, d: nat) returns (w: nat, c': nat)
    requires Sane(s) && t < |s.threads| && s.threads[t].stack == Push(f, below) && CanRunFrame(s, f)
    requires f.Register? ==> s.cells[f.cell].fate.Undecided?
    requires f.Return? ==> !s.cells[f.cell].published
    requires f.Body? && !f.pc.Finishing? ==> s.cells[f.cell].state.promise.None?
    ensures LocalStep(s, RunFrame(s, t, f, below), t, w, c', d, One(f.Count?))
  {
    w, c' := |s.queues|, |s.cells|;
    match f
    case Choose(c) => ChooseLocal(s, t, c, below, d);
    case Count(c, v) => CountLocal(s, t, c, v, below, d);
    case PushTo(c, v) =>
      PushToLocal(s, t, c, v, below, d);
      w := v;
    case Register(c) => c' := RegisterLocal(s, t, c, below, d);
    case Return(c) => ReturnLocal(s, t, c, below, d);
    case Body(c, pc) => c' := BodyLocal(s, t, c, pc, below, d);
    case WaitIdle => PopLocal(s, t, f, below, d);
    case Joining(_, _) => JoinLocal(s, t, f, below, d);
    case Getting(_) => PopLocal(s, t, f, below, d);
  }

  lemma FrameBooks(s: System, t: nat, d: nat)
    requires Inv(s) && t < |s.threads| && s.threads[t].stack.Push? && CanRunFrame(s, s.threads[t].stack.top)
    ensures var f := s.threads[t].stack.top;
      var s' := RunFrame(s, t, f, s.threads[t].stack.below);
      Balanced(s', d) && Total(s', Work) == Total(s, Work) + One(f.Count?)
  {
    var f := s.threads[t].stack.top;
    if !Waiting(f) {
      assert ThreadOk(s, t);
      assert Balanced(s, f.cell);
      if f.Return? {
        TopReturning(s, t);
      } else if f.Register? {
        TopUndecided(s, t);
      } else if Holds(f) {
        TopHolds(s, t);
      }
    }
    var w, c' := FrameLocal(s, t, f, s.threads[t].stack.below, d);
    assert Balanced(s, d);
    StaysBalanced(s, RunFrame(s, t, f, s.threads[t].stack.below), t, w, c', d, One(f.Count?));
  }

  lemma WorkerLocal(s: System, t: nat, pc: WorkerPc, d: nat) returns (w: nat)
    requires t < |s.queues| && t < |s.threads| && s.threads[t].stack.Empty?
    requires s.threads[t].base == Worker(pc) && CanRunWorker(s, t, pc)
    ensures LocalStep(s, RunWorker(s, t, pc), t, w, |s.cells|, d, if pc.Discount? then -1 else 0)
  {
    WorkerTakes(s, t, pc);
    if pc.TryOwn? && |s.queues[t]| > 0 {
      TakeLocal(s, t, t, 0, d);
      w := t;
    } else if pc.TrySteal? && |s.queues[pc.victim]| > 0 {
      TakeLocal(s, t, pc.victim, |s.queues[pc.victim]| - 1, d);
      w := pc.victim;
    } else {
      LoopLocal(s, t, pc, d);
      w := |s.queues|;
    }
  }

  lemma WorkerBooks(s: System, t: nat, pc: WorkerPc, d: nat)
    requires t < |s.queues| && t < |s.threads| && s.threads[t].stack.Empty?
    requires s.threads[t].base == Worker(pc) && CanRunWorker(s, t, pc) && Balanced(s, d)
    ensures var s' := RunWorker(s, t, pc);
      Balanced(s', d) && Total(s', Work) == Total(s, Work) - One(pc.Discount?)
  {
    var w := WorkerLocal(s, t, pc, d);
    StaysBalanced(s, RunWorker(s, t, pc), t, w, |s.cells|, d, if pc.Discount? then -1 else 0);
  }

  lemma EntersBooks(s: System, t: nat, f: Frame, down: bool, d: nat)
    requires t < |s.threads| && Waiting(f) && Balanced(s, d)
    ensures Balanced(Enters(s, t, f, down), d)
    ensures Total(Enters(s, t, f, down), Work) == Total(s, Work)
  {
    EntersLocal(s, t, f, down, d);
    StaysBalanced(s, Enters(s, t, f, down), t, |s.queues|, |s.cells|, d, 0);
  }

  lemma CallBooks(s: System, t: nat, l: Label, d: nat)
    requires Balanced(s, d) && Enabled(s, t, l) && !l.Own?
    ensures Balanced(Call(s, t, l), d)
    ensures Total(Call(s, t, l), Work) == Total(s, Work)
  {
    match l
    case CallPost(body) => CreateBalanced(s, t, Posted(body), d);
    case CallDetach(body) => CreateBalanced(s, t, Detached(body), d);
    case CallThen(p, fn, inline) => CreateBalanced(s, t, Chained(p, fn, inline), d);
    case CallWait => EntersBooks(s, t, WaitIdle, s.shutdown, d);
    case CallGet(c) => EntersBooks(s, t, Getting(c), s.shutdown, d);
    case CallShutdown => EntersBooks(s, t, Joining(t, 0), true, d);
  }

  lemma StepBooks(s: System, t: nat, l: Label, d: nat)
    requires Inv(s) && Enabled(s, t, l)
    ensures Balanced(Do(s, t, l), d)
    ensures Total(Do(s, t, l), Work) == Total(s, Work) + WorkDelta(s, t, l)
  {
    assert ThreadOk(s, t);
    assert Balanced(s, d);
    var th := s.threads[t];
    if !l.Own? {
      CallBooks(s, t, l, d);
    } else if th.exn.Some? {
      CrashSane(s, t);
    } else if th.stack.Push? {
      FrameBooks(s, t, d);
    } else {
      WorkerBooks(s, t, th.base.pc, d);
    }
  }

  /** The atomic counter moves exactly with the counted work. */
  lemma UnfinishedMoves(s: System, t: nat, l: Label)
    requires Sane(s) && Enabled(s, t, l)
    ensures Do(s, t, l).unfinished == (if WorkDelta(s, t, l) == 0 then s.unfinished
                                       else (s.unfinished + WORD + WorkDelta(s, t, l)) % WORD)
  {
    assert ThreadOk(s, t);
    var th := s.threads[t];
    if l.Own? && th.exn.None? && th.stack.Push? && th.stack.top.Register? {
      assert RunRegister(s, t, th.stack.top.cell, th.stack.below).unfinished == s.unfinished;
    }
  }

  lemma StepAllBalanced(s: System, t: nat, l: Label)
    requires Inv(s) && Enabled(s, t, l)
    ensures AllBalanced(Do(s, t, l))
  {
    forall d: nat ensures Balanced(Do(s, t, l), d) {
      StepBooks(s, t, l, d);
    }
  }

  lemma StepWorkCounted(s: System, t: nat, l: Label)
    requires Inv(s) && Enabled(s, t, l)
    ensures WorkCounted(Do(s, t, l))
  {
    StepBooks(s, t, l, 0);
    UnfinishedMoves(s, t, l);
    WrapAround(Total(s, Work), WorkDelta(s, t, l));
  }

  lemma WrapAround(total: nat, delta: int)
    requires -1 <= delta <= 1 && total + delta >= 0
    ensures (total % WORD + WORD + delta) % WORD == (total + delta) % WORD
    ensures (total % WORD) % WORD == total % WORD
  {
  }

  lemma StepKeepsInv(s: System, t: nat, l: Label)
    requires Inv(s) && Enabled(s, t, l)
    ensures Inv(Do(s, t, l))
  {
    StepSane(s, t, l);
    StepAllBalanced(s, t, l);
    StepWorkCounted(s, t, l);
  }

  lemma InitInv(s: System)
    requires Init(s)
    ensures Inv(s)
  {
    InitSane(s);
    forall c: nat ensures Balanced(s, c) { InitBalanced(s, c); }
    InitTotal(s, Work);
  }

  /** The invariant holds in every reachable state. */
  lemma ReachableInv(s: System)
    requires Reachable(s)
    ensures Inv(s)
  {
    var p := x => Inv(x);
    forall x: System | Init(x) ensures p(x) {
      InitInv(x);
    }
    forall x: System, t: nat, l: Label | p(x) && Enabled(x, t, l) ensures p(Do(x, t, l)) {
      StepKeepsInv(x, t, l);
    }
    assert Inductive(p);
  }

  lemma {:induction false} LastReachable(r: Run)
    requires IsRun(r)
    ensures Reachable(Last(r))
    decreases r
  {
    forall p: System -> bool | Inductive(p) ensures p(Last(r)) {
      match r
      case Start(s) =>
      case Then(q, t, l) => LastReachable(q);
    }
  }

  ghost predicate EndsARun(s: System) {
    exists r: Run :: IsRun(r) && Last(r) == s
  }

  lemma StartEnds(s: System)
    requires Init(s)
    ensures EndsARun(s)
  {
    assert IsRun(Start(s)) && Last(Start(s)) == s;
  }

  lemma ThenEnds(s: System, t: nat, l: Label)
    requires EndsARun(s) && Enabled(s, t, l)
    ensures EndsARun(Do(s, t, l))
  {
    var r: Run :| IsRun(r) && Last(r) == s;
    assert IsRun(Then(r, t, l)) && Last(Then(r, t, l)) == Do(s, t, l);
  }

  /** The reachable states are exactly the last states of finite runs. */
  lemma ReachableByRun(s: System)
    ensures Reachable(s) <==> EndsARun(s)
  {
    if EndsARun(s) {
      var r: Run :| IsRun(r) && Last(r) == s;
      LastReachable(r);
    }
    if Reachable(s) {
      var p := x => EndsARun(x);
      forall x: System | Init(x) ensures p(x) {
        StartEnds(x);
      }
      forall x: System, t: nat, l: Label | p(x) && Enabled(x, t, l) ensures p(Do(x, t, l)) {
        ThenEnds(x, t, l);
      }
      assert Inductive(p);
    }
  }
}
