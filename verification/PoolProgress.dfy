/**
 What threads get done: an idle worker finds queued work by its own steps, calls that wait return
 exactly when what they wait for has happened, and a shut-down worker starts at most one more task.
 */
module PoolProgress {
  import opened Words
  import opened Wrappers
  import opened Outcomes
  import opened SharedStates
  import opened PoolModel
  import opened PoolLedger
  import opened PoolInvariant
  import opened PoolSteps
  import opened PoolGrowth
  import opened PoolTheorems
  import opened PoolWaiting
  import opened PoolPlaces

  // ---------------------------------------------------------------- calls that wait

  /** `wait` returns to a thread exactly when no counted work is left, and changes nothing else. */
  lemma WaitReturnsIff(s: System, t: nat, below: Stack)
    requires Reachable(s) && !s.crashed && Outstanding(s) < WORD
    requires t < |s.threads| && s.threads[t].exn.None? && s.threads[t].stack == Push(WaitIdle, below)
    ensures Enabled(s, t, Own) <==> s.unfinished == 0
    ensures Enabled(s, t, Own) <==> Outstanding(s) == 0
    ensures Enabled(s, t, Own) ==> Do(s, t, Own) == s.(threads := s.threads[t := s.threads[t].(stack := below)])
  {
    WorkAccounting(s);
  }

  /** When `wait` returns, a chain each of whose futures got one `then` is complete and folded. */
  lemma WaitReturnsAfterChain(s: System, t: nat, ids: seq<nat>)
    requires Reachable(s) && Outstanding(s) < WORD && Enabled(s, t, Own)
    requires s.threads[t].exn.None? && s.threads[t].stack.Push? && s.threads[t].stack.top.WaitIdle?
    requires IsChain(s.cells, ids) && IsLinear(s.cells, ids) && s.cells[ids[|ids| - 1]].published
    ensures var s' := Do(s, t, Own);
      && s'.cells == s.cells
      && s'.cells[ids[|ids| - 1]].state.promise == Some(ChainFold(s.cells, ids))
      && forall k :: 0 <= k < |ids| ==> s'.cells[ids[k]].state.completed
  {
    WaitReturnsIff(s, t, s.threads[t].stack.below);
    WaitCoversChain(s, ids);
  }

  /** `get` returns, or rethrows, exactly when the future is completed: with a value or an exception. */
  lemma GetReturnsIff(s: System, t: nat, c: nat, below: Stack)
    requires Reachable(s) && !s.crashed
    requires t < |s.threads| && s.threads[t].exn.None? && s.threads[t].stack == Push(Getting(c), below)
    ensures c < |s.cells|
    ensures Enabled(s, t, Own) <==> s.cells[c].state.completed
    ensures Enabled(s, t, Own) ==> Do(s, t, Own) == s.(threads := s.threads[t := s.threads[t].(stack := below)])
  {
    ReachableInv(s);
    assert ThreadOk(s, t) && CellOk(s.cells, c);
  }

  /**
   Inside `shutdown` one worker after another is joined: each join returns exactly when that worker has
   exited, and the call is over after the last, or when it comes to its own thread.
   */
  lemma JoinReturnsIff(s: System, t: nat, w: nat, below: Stack)
    requires !s.crashed
    requires t < |s.threads| && s.threads[t].exn.None? && s.threads[t].stack == Push(Joining(t, w), below)
    ensures Enabled(s, t, Own) <==>
      w >= |s.queues| || w == t || (w < |s.threads| && s.threads[w].base == Worker(Exited))
    ensures Enabled(s, t, Own) ==>
      var k := if w >= |s.queues| || w == t then below else Push(Joining(t, w + 1), below);
      Do(s, t, Own) == s.(threads := s.threads[t := s.threads[t].(stack := k)])
  {
  }

  /**
   The calls themselves: user code may always call `wait` or `shutdown`, and `get` on any future it was
   given; the caller is then held until the pool is idle, the future completed, or, for `shutdown`, the
   flag set and the workers gone.
   */
  lemma WaitingCalls(s: System, t: nat, c: nat)
    requires Reachable(s) && !s.crashed && Outstanding(s) < WORD
    requires t < |s.threads| && InUserCode(s.threads[t])
    requires c < |s.cells| && s.cells[c].published && !s.cells[c].origin.Detached?
    ensures Enabled(s, t, CallWait) && Enabled(s, t, CallGet(c)) && Enabled(s, t, CallShutdown)
    ensures var w := Do(s, t, CallWait);
      && (Enabled(w, t, Own) <==> Outstanding(s) == 0)
      && (Enabled(w, t, Own) ==> Do(w, t, Own) == s)
    ensures var g := Do(s, t, CallGet(c));
      && (Enabled(g, t, Own) <==> s.cells[c].state.completed)
      && (Enabled(g, t, Own) ==> Do(g, t, Own) == s)
    ensures var j := Do(s, t, CallShutdown);
      && j.shutdown && t < |j.threads| && j.threads[t].stack == Push(Joining(t, 0), s.threads[t].stack)
  {
    ReachableInv(s);
    OutstandingIsWork(s);
    assert CellOk(s.cells, c);
    assert s.threads[t := s.threads[t].(stack := s.threads[t].stack)] == s.threads;
    Returns(s, t, WaitIdle);
    Returns(s, t, Getting(c));
  }

  /** The call made the future c = |s.cells| and is about to run `first`, then to return that future. */
  ghost predicate CallBegun(s: System, s': System, t: nat, origin: Origin, first: Frame) {
    && t < |s.threads| == |s'.threads|
    && s' == s.(cells := s.cells + [Cell(Fresh(), origin, Undecided, None, false, 0)], threads := s'.threads)
    && s'.threads
       == s.threads[t := s.threads[t].(stack := Push(first, Push(Return(|s.cells|), s.threads[t].stack)))]
  }

  /**
   User code may always post, and chain on any future it was given, before and after completion, before
   and after shutdown.
   */
  lemma PostingCalls(s: System, t: nat, body: () -> Outcome, p: nat, fn: Callback, inline: bool)
    requires !s.crashed && t < |s.threads| && InUserCode(s.threads[t])
    requires p < |s.cells| && s.cells[p].published && !s.cells[p].origin.Detached?
    ensures var c := |s.cells|;
      && Enabled(s, t, CallPost(body)) && CallBegun(s, Do(s, t, CallPost(body)), t, Posted(body), Choose(c))
      && Enabled(s, t, CallDetach(body)) && CallBegun(s, Do(s, t, CallDetach(body)), t, Detached(body), Choose(c))
      && Enabled(s, t, CallThen(p, fn, inline))
      && CallBegun(s, Do(s, t, CallThen(p, fn, inline)), t, Chained(p, fn, inline), Register(c))
  {
  }

  /** A posting call, left to itself, is over in four more steps: the task is queued, the future returned. */
  lemma PostReturns(s: System, s1: System, t: nat, origin: Origin)
    requires !s.crashed && |s.queues| > 0 && t < |s.threads| && InUserCode(s.threads[t])
    requires !origin.Chained? && CallBegun(s, s1, t, origin, Choose(|s.cells|))
    ensures After(s1, Alone(t, 4)).Some?
    ensures var s5, c, w := After(s1, Alone(t, 4)).value, |s.cells|, s.round % |s.queues|;
      && s5.queues == s.queues[w := [Entry(c, s.pushes)] + s.queues[w]]
      && s5.unfinished == (s.unfinished + 1) % WORD && s5.threads == s.threads
      && s5.cells == s.cells + [Cell(Fresh(), origin, Undecided, None, true, 0)]
  {
    var c, k := |s.cells|, s.threads[t].stack;
    Posts(s1, t, c, Push(Return(c), k));
    var s4 := After(s1, Alone(t, 3)).value;
    assert s4.threads == s.threads[t := s.threads[t].(stack := Push(Return(c), k))];
    var s5 := Do(s4, t, Own);
    AloneStep(s4, t, 1);
    assert Alone(t, 0) == [];
    AloneSplit(s1, t, 3);
    assert s5.threads == s.threads;
  }

  lemma {:induction false} AloneSplit(s: System, t: nat, n: nat)
    requires After(s, Alone(t, n)).Some?
    ensures After(s, Alone(t, n + 1)) == After(After(s, Alone(t, n)).value, Alone(t, 1))
    decreases n
  {
    if n > 0 {
      assert Alone(t, n)[0] == (t, Own);
      AloneStep(s, t, n);
      AloneStep(s, t, n + 1);
      AloneSplit(Do(s, t, Own), t, n - 1);
    } else {
      assert Alone(t, 0) == [];
    }
  }

  /** Entering a waiting call and leaving it again changes nothing. */
  lemma Returns(s: System, t: nat, f: Frame)
    requires t < |s.threads|
    ensures var s1 := SetStack(s, t, Push(f, s.threads[t].stack));
      t < |s1.threads| && s1.threads[t].stack == Push(f, s.threads[t].stack)
      && s1.threads[t].exn == s.threads[t].exn && SetStack(s1, t, s.threads[t].stack) == s
  {
    var s1 := SetStack(s, t, Push(f, s.threads[t].stack));
    assert SetStack(s1, t, s.threads[t].stack).threads == s.threads;
  }

  // ---------------------------------------------------------------- an idle worker finds work

  /** The worker is between tasks. */
  predicate Idling(s: System, t: nat) {
    && !s.crashed && !s.shutdown && s.unfinished > 0 && s.round < WORD
    && t < |s.queues| <= |s.threads| && s.threads[t].exn.None? && s.threads[t].stack.Empty?
    && s.threads[t].base.Worker?
    && match s.threads[t].base.pc
       case TrySteal(v) => v < |s.queues|
       case Running => false
       case Discount => false
       case Exited => false
       case _ => true
  }

  /** The worker has just taken a task. */
  predicate Started(s: System, t: nat) {
    t < |s.threads| && s.threads[t].stack.Push? && s.threads[t].stack.top.Body? && s.threads[t].stack.top.pc.Begin?
  }

  /** One own step of an idle worker: it takes a task if the deque it looks at has one, and goes on otherwise. */
  lemma IdleStep(s: System, t: nat)
    requires Idling(s, t)
    ensures Enabled(s, t, Own)
    ensures var s', pc := Do(s, t, Own), s.threads[t].base.pc;
      && (Started(s', t) || (Idling(s', t) && s'.queues == s.queues))
      && (pc.TryOwn? && s.queues[t] != [] ==> Started(s', t))
      && (pc.TrySteal? && s.queues[pc.victim] != [] ==> Started(s', t))
      && (!Started(s', t) ==>
            && s'.threads[t].base.pc == (match pc
                 case CheckShutdown => TryOwn
                 case TryOwn => if |s.queues| > 1 then ChooseVictim else Sleeping
                 case ChooseVictim => TrySteal(StealVictim(s.round, t, |s.queues|))
                 case Sleeping => CheckShutdown
                 case _ => Sleeping)
            && s'.round == if pc.ChooseVictim? then (s.round + 1) % WORD else s.round)
  {
  }

  /** How far the worker is from its next look at its own deque. */
  function ToOwn(pc: WorkerPc): nat {
    match pc
    case TryOwn => 0
    case CheckShutdown => 1
    case Sleeping => 2
    case TrySteal(_) => 3
    case _ => 4
  }

  lemma {:induction false} FindsOwn(s: System, t: nat) returns (n: nat)
    requires Idling(s, t) && s.queues[t] != []
    ensures After(s, Alone(t, n)).Some? && Started(After(s, Alone(t, n)).value, t)
    decreases ToOwn(s.threads[t].base.pc)
  {
    IdleStep(s, t);
    var s' := Do(s, t, Own);
    if Started(s', t) {
      n := 1;
      assert Alone(t, 0) == [];
    } else {
      var m := FindsOwn(s', t);
      n := m + 1;
    }
    AloneStep(s, t, n);
  }

  /** How many tickets remain until the ticket v itself is drawn. */
  function TicketsLeft(round: nat, v: nat): nat { (v + WORD - round % WORD) % WORD }

  lemma TicketDrawn(round: nat, v: nat)
    requires round < WORD && v < WORD
    ensures TicketsLeft(round, v) == 0 <==> round == v
    ensures round != v ==> TicketsLeft((round + 1) % WORD, v) == TicketsLeft(round, v) - 1
  {
    assert TicketsLeft(round, v) == if round <= v then v - round else v + WORD - round;
    if round + 1 == WORD {
      assert (round + 1) % WORD == 0;
    } else {
      assert (round + 1) % WORD == round + 1;
    }
  }

  /** How far the worker is from drawing its next ticket. */
  function ToTicket(pc: WorkerPc): nat {
    match pc
    case ChooseVictim => 0
    case TryOwn => 1
    case CheckShutdown => 2
    case Sleeping => 3
    case _ => 4
  }

  /** A worker that draws ticket v looks at deque v next, and starts its oldest task. */
  lemma TicketHits(s: System, t: nat, v: nat)
    requires Idling(s, t) && v < |s.queues| <= WORD && s.queues[v] != [] && v != t
    requires s.threads[t].base.pc.ChooseVictim? && s.round == v
    ensures After(s, Alone(t, 2)).Some? && Started(After(s, Alone(t, 2)).value, t)
  {
    TicketNames(v, t, |s.queues|);
    IdleStep(s, t);
    var s' := Do(s, t, Own);
    assert s'.threads[t].base.pc == TrySteal(v);
    StealStarts(s', t, v);
    AloneStep(s, t, 2);
  }

  lemma TicketNames(v: nat, t: nat, workers: nat)
    requires v < workers && v != t
    ensures StealVictim(v, t, workers) == v
  {
    assert v % workers == v;
  }

  lemma StealStarts(s: System, t: nat, v: nat)
    requires Idling(s, t) && s.threads[t].base.pc == TrySteal(v) && s.queues[v] != []
    ensures After(s, Alone(t, 1)).Some? && Started(After(s, Alone(t, 1)).value, t)
  {
    IdleStep(s, t);
    AloneStep(s, t, 1);
    assert Alone(t, 0) == [];
  }

  /** The worker's distance from a task in deque v: tickets to draw, then steps to the next draw. */
  lemma IdleComesNearer(s: System, t: nat, v: nat)
    requires Idling(s, t) && v < |s.queues| <= WORD
    requires !(s.threads[t].base.pc.ChooseVictim? && s.round == v)
    requires Enabled(s, t, Own) && !Started(Do(s, t, Own), t)
    requires |s.queues| > 1
    ensures var s' := Do(s, t, Own);
      && Idling(s', t) && s'.queues == s.queues
      && (TicketsLeft(s'.round, v) < TicketsLeft(s.round, v)
          || (TicketsLeft(s'.round, v) == TicketsLeft(s.round, v)
              && ToTicket(s'.threads[t].base.pc) < ToTicket(s.threads[t].base.pc)))
  {
    IdleStep(s, t);
    TicketDrawn(s.round, v);
  }

  lemma {:induction false} FindsOther(s: System, t: nat, v: nat) returns (n: nat)
    requires Idling(s, t) && v < |s.queues| <= WORD && s.queues[v] != [] && v != t
    ensures After(s, Alone(t, n)).Some? && Started(After(s, Alone(t, n)).value, t)
    decreases TicketsLeft(s.round, v), ToTicket(s.threads[t].base.pc)
  {
    if s.threads[t].base.pc.ChooseVictim? && s.round == v {
      TicketHits(s, t, v);
      return 2;
    }
    IdleStep(s, t);
    var s' := Do(s, t, Own);
    if Started(s', t) {
      n := 1;
      assert Alone(t, 0) == [];
    } else {
      IdleComesNearer(s, t, v);
      var m := FindsOther(s', t, v);
      n := m + 1;
    }
    AloneStep(s, t, n);
  }

  lemma RoundInRange(s: System)
    requires Reachable(s)
    ensures s.round < WORD
  {
    var p := x => RoundOk(x);
    forall x: System, t: nat, l: Label | p(x) && Enabled(x, t, l) ensures p(Do(x, t, l)) {
      StepKeepsRound(x, t, l);
    }
    assert Inductive(p);
  }

  predicate RoundOk(s: System) { s.round < WORD }

  lemma BodyKeepsRound(s: System, t: nat, c: nat, pc: BodyPc, below: Stack)
    requires t < |s.threads| && CanRunBody(s, c, pc)
    ensures RunBody(s, t, c, pc, below).round == s.round
  {
  }

  lemma StepKeepsRound(s: System, t: nat, l: Label)
    requires RoundOk(s) && Enabled(s, t, l)
    ensures RoundOk(Do(s, t, l))
  {
    var th := s.threads[t];
    if l.Own? && th.exn.None? && th.stack.Push? && th.stack.top.Body? {
      BodyKeepsRound(s, t, th.stack.top.cell, th.stack.top.pc, th.stack.below);
    }
  }

  /**
   Work conservation: while the pool is running and any deque holds a task, an idle worker left to
   itself starts a task after finitely many of its own steps, whichever deque that task is in.
   */
  lemma IdleWorkerFindsWork(s: System, t: nat, v: nat)
    requires Reachable(s) && !s.crashed && !s.shutdown && Outstanding(s) < WORD
    requires v < |s.queues| <= WORD && s.queues[v] != []
    requires t < |s.queues| && t < |s.threads| && s.threads[t].exn.None? && s.threads[t].stack.Empty?
    requires s.threads[t].base != Worker(Running) && s.threads[t].base != Worker(Discount)
    ensures exists n: nat :: After(s, Alone(t, n)).Some? && Started(After(s, Alone(t, n)).value, t)
  {
    ReachableInv(s);
    assert ThreadOk(s, t);
    RoundInRange(s);
    WorkAccounting(s);
    QueueLengthCounts(s.queues, v, |s.queues|);
    if v == t {
      var n := FindsOwn(s, t);
    } else {
      var n := FindsOther(s, t, v);
    }
  }

  /** A worker that finds its own deque empty looks at another worker's, and takes the oldest task there. */
  lemma IdleWorkerSteals(s: System, t: nat) returns (v: nat)
    requires Reachable(s) && !s.crashed && t < |s.queues| && t < |s.threads| && |s.queues| > 1
    requires s.threads[t].exn.None? && s.threads[t].stack.Empty? && s.threads[t].base == Worker(TryOwn)
    requires s.queues[t] == []
    ensures v < |s.queues| && v != t && After(s, Alone(t, 2)).Some?
    ensures var s2 := After(s, Alone(t, 2)).value;
      s2.queues == s.queues && t < |s2.threads| && s2.threads[t].base == Worker(TrySteal(v))
    ensures s.queues[v] != [] ==>
      var q := s.queues[v];
      && After(s, Alone(t, 3)).Some?
      && var s3 := After(s, Alone(t, 3)).value;
         && s3.queues == s.queues[v := q[..|q| - 1]]
         && t < |s3.threads| && s3.threads[t].stack == Push(Body(q[|q| - 1].cell, Begin), Empty)
  {
    v := StealVictim(s.round, t, |s.queues|);
    VictimIsAnother(s.round, t, |s.queues|);
    var s1 := Do(s, t, Own);
    assert s1 == SetPc(s, t, ChooseVictim);
    var s2 := Do(s1, t, Own);
    assert s2.threads[t].base == Worker(TrySteal(v)) && s2.queues == s.queues;
    assert Alone(t, 0) == [];
    AloneStep(s, t, 2);
    AloneStep(s1, t, 1);
    if s.queues[v] != [] {
      AloneStep(s, t, 3);
      AloneStep(s1, t, 2);
      AloneStep(s2, t, 1);
    }
  }

  // ---------------------------------------------------------------- shutdown over runs

  /** The step takes a task out of a deque and starts it. */
  predicate TakesTask(s: System, t: nat, l: Label)
    requires Enabled(s, t, l)
  {
    && l.Own? && s.threads[t].exn.None? && s.threads[t].stack.Empty?
    && t < |Do(s, t, l).threads| && Do(s, t, l).threads[t].stack.Push?
  }

  /** The step discounts a task that has returned. */
  predicate EndsTask(s: System, t: nat, l: Label)
    requires Enabled(s, t, l)
  {
    l.Own? && s.threads[t].exn.None? && s.threads[t].stack.Empty? && s.threads[t].base == Worker(Discount)
  }

  /** How many tasks thread t takes in the steps `more`. */
  function TasksTaken(s: System, t: nat, more: seq<(nat, Label)>): nat
    decreases |more|
  {
    if |more| == 0 || !Enabled(s, more[0].0, more[0].1) then 0
    else
      One(more[0].0 == t && TakesTask(s, t, more[0].1))
      + TasksTaken(Do(s, more[0].0, more[0].1), t, more[1..])
  }

  function TasksEnded(s: System, t: nat, more: seq<(nat, Label)>): nat
    decreases |more|
  {
    if |more| == 0 || !Enabled(s, more[0].0, more[0].1) then 0
    else
      One(more[0].0 == t && EndsTask(s, t, more[0].1))
      + TasksEnded(Do(s, more[0].0, more[0].1), t, more[1..])
  }

  /** The late counters of thread t after a step of its own. */
  ghost predicate LateMoves(s: System, s': System, t: nat, taken: bool, ended: bool)
    requires t < |s.threads|
  {
    && t < |s'.threads|
    && s'.threads[t].lateStarts == s.threads[t].lateStarts + One(taken)
    && s'.threads[t].lateEnds == s.threads[t].lateEnds + One(ended)
  }

  lemma BodyLate(s: System, t: nat, c: nat, pc: BodyPc, below: Stack)
    requires t < |s.threads| && CanRunBody(s, c, pc)
    ensures LateMoves(s, RunBody(s, t, c, pc, below), t, false, false)
  {
  }

  lemma FrameLate(s: System, t: nat, f: Frame, below: Stack)
    requires t < |s.threads| && CanRunFrame(s, f)
    ensures LateMoves(s, RunFrame(s, t, f, below), t, false, false)
  {
    if f.Body? { BodyLate(s, t, f.cell, f.pc, below); }
  }

  lemma WorkerLate(s: System, t: nat)
    requires s.shutdown && Enabled(s, t, Own) && s.threads[t].exn.None? && s.threads[t].stack.Empty?
    ensures LateMoves(s, Do(s, t, Own), t, TakesTask(s, t, Own), EndsTask(s, t, Own))
  {
  }

  lemma OwnLate(s: System, t: nat, l: Label)
    requires s.shutdown && Enabled(s, t, l)
    ensures LateMoves(s, Do(s, t, l), t, TakesTask(s, t, l), EndsTask(s, t, l))
  {
    var th := s.threads[t];
    if l.Own? && th.exn.None? {
      if th.stack.Push? {
        FrameLate(s, t, th.stack.top, th.stack.below);
      } else {
        WorkerLate(s, t);
      }
    }
  }

  lemma {:induction false} LateCounts(s: System, t: nat, more: seq<(nat, Label)>)
    requires Reachable(s) && s.shutdown && t < |s.threads| && After(s, more).Some?
    ensures var s' := After(s, more).value;
      && Reachable(s') && |s'.queues| == |s.queues| && t < |s'.threads|
      && s'.threads[t].lateStarts == s.threads[t].lateStarts + TasksTaken(s, t, more)
      && s'.threads[t].lateEnds == s.threads[t].lateEnds + TasksEnded(s, t, more)
    decreases |more|
  {
    if |more| > 0 {
      var u, l := more[0].0, more[0].1;
      StepReachable(s, u, l);
      StepLeaves(s, u, l, t);
      StepKeepsShutdown(s, u, l);
      if u == t { OwnLate(s, t, l); }
      LateCounts(Do(s, u, l), t, more[1..]);
    }
  }

  lemma StepKeepsShutdown(s: System, t: nat, l: Label)
    requires s.shutdown && Enabled(s, t, l)
    ensures Do(s, t, l).shutdown
  {
  }

  /** Once the flag is set, whatever follows, a worker takes at most one more task and ends at most one more. */
  lemma ShutdownBoundOverRuns(s: System, t: nat, more: seq<(nat, Label)>)
    requires Reachable(s) && s.shutdown && t < |s.queues| && After(s, more).Some?
    ensures TasksTaken(s, t, more) <= 1 && TasksEnded(s, t, more) <= 1
  {
    ReachableInv(s);
    LateCounts(s, t, more);
    ShutdownBound(After(s, more).value, t);
  }
}
