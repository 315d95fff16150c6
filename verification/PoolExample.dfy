/**
 A second continuation on one future, registered before completion, is dropped: `wait` returns with
 the future it handed out incomplete, and it stays so.  One worker and one client suffice.
 */
module PoolExample {
  import opened Wrappers
  import opened Outcomes
  import opened SharedStates
  import opened PoolModel
  import PoolSteps
  import PoolGrowth
  import PoolWaiting

  /** A pool of any positive number of workers, beside any number of client threads. */
  lemma Constructed(workers: nat, clients: nat) returns (s: System)
    requires workers > 0
    ensures Reachable(s) && |s.queues| == workers && |s.threads| == workers + clients && s.round == 0
    ensures s.unfinished == 0 && s.cells == [] && !s.shutdown
  {
    var threads := seq(workers + clients, t =>
      Thread(if t < workers then Worker(CheckShutdown) else Client, Empty, None, 0, 0));
    s := System(threads, [], seq(workers, w => []), 0, 0, 0, false, false);
    assert Init(s);
  }

  const WORKER := Thread(Worker(CheckShutdown), Empty, None, 0, 0)

  function At(k: Stack, cells: seq<Cell>, q: seq<Entry>, u: nat, r: nat, p: nat): System {
    System([WORKER, Thread(Client, k, None, 0, 0)], cells, [q], u, r, p, false, false)
  }

  ghost predicate Moves(s: System, t: nat, l: Label, s': System) {
    Enabled(s, t, l) && Do(s, t, l) == s'
  }

  lemma Extend(s: System, t: nat, l: Label, s': System)
    requires Reachable(s) && Moves(s, t, l, s')
    ensures Reachable(s')
  {
    forall p: System -> bool | Inductive(p) ensures p(s') {
      assert p(s);
    }
  }

  lemma Begins() returns (s: System)
    ensures Reachable(s) && s == At(Empty, [], [], 0, 0, 0)
  {
    s := At(Empty, [], [], 0, 0, 0);
    assert Init(s);
  }

  function PostLabel(origin: Origin): Label
    requires !origin.Chained?
  {
    if origin.Posted? then CallPost(origin.body) else CallDetach(origin.body)
  }

  /** `post` or `post_detach` by the client, up to the counted task. */
  lemma Counts(origin: Origin) returns (s: System)
    requires !origin.Chained?
    ensures Reachable(s)
    ensures s == At(Push(PushTo(0, 0), Push(Return(0), Empty)), [FreshCell(origin)], [], 1, 1, 0)
  {
    var s0 := Begins();
    var cells := [FreshCell(origin)];
    var ret := Push(Return(0), Empty);
    var s1 := At(Push(Choose(0), ret), cells, [], 0, 0, 0);
    Extend(s0, 1, PostLabel(origin), s1);
    var s2 := At(Push(Count(0, 0), ret), cells, [], 0, 1, 0);
    Extend(s1, 1, Own, s2);
    s := At(Push(PushTo(0, 0), ret), cells, [], 1, 1, 0);
    Extend(s2, 1, Own, s);
  }

  /** The rest of the call, up to its return. */
  lemma Posts(origin: Origin) returns (s: System)
    requires !origin.Chained?
    ensures Reachable(s)
    ensures s == At(Empty, [FreshCell(origin).(published := true)], [Entry(0, 0)], 1, 1, 1)
  {
    var s3 := Counts(origin);
    var c := FreshCell(origin);
    var s4 := At(Push(Return(0), Empty), [c], [Entry(0, 0)], 1, 1, 1);
    assert PushTask(s3, 0, 0).queues == [[Entry(0, 0)]] by {
      assert [Entry(0, 0)] + s3.queues[0] == [Entry(0, 0)];
    }
    Extend(s3, 1, Own, s4);
    s := At(Empty, [c.(published := true)], [Entry(0, 0)], 1, 1, 1);
    Extend(s4, 1, Own, s);
  }

  /** The three futures: the task, the accepted continuation f and the dropped one g. */
  function Cells(body: () -> Outcome, f: Callback, g: Callback): seq<Cell> {
    [Cell(Record(None, false, Some(1), true), Posted(body), Undecided, Some(1), true, 0),
     Cell(Fresh(), Chained(0, f, true), StoredFirst, None, true, 0),
     Cell(Fresh(), Chained(0, g, true), Dropped, None, true, 0)]
  }

  /** A second `then_inline` before the task ran: its future is returned, its registration dropped. */
  lemma SecondThenIsDropped(body: () -> Outcome, f: Callback, g: Callback) returns (s: System)
    ensures Reachable(s) && s == At(Empty, Cells(body, f, g), [Entry(0, 0)], 1, 1, 1)
    ensures s.cells[2].published && s.cells[2].fate.Dropped? && !s.cells[0].state.completed
  {
    var s0 := Posts(Posted(body));
    var q := [Entry(0, 0)];
    var c0 := FreshCell(Posted(body)).(published := true);
    var c1, c2 := FreshCell(Chained(0, f, true)), FreshCell(Chained(0, g, true));
    var s1 := At(Push(Register(1), Push(Return(1), Empty)), [c0, c1], q, 1, 1, 1);
    Extend(s0, 1, CallThen(0, f, true), s1);
    var d0 := c0.(state := Record(None, false, Some(1), true), first := Some(1));
    var d1 := c1.(fate := StoredFirst);
    var s2 := At(Push(Return(1), Empty), [d0, d1], q, 1, 1, 1);
    Extend(s1, 1, Own, s2);
    var e1 := d1.(published := true);
    var s3 := At(Empty, [d0, e1], q, 1, 1, 1);
    Extend(s2, 1, Own, s3);
    var s4 := At(Push(Register(2), Push(Return(2), Empty)), [d0, e1, c2], q, 1, 1, 1);
    Extend(s3, 1, CallThen(0, g, true), s4);
    var d2 := c2.(fate := Dropped);
    var s5 := At(Push(Return(2), Empty), [d0, e1, d2], q, 1, 1, 1);
    Extend(s4, 1, Own, s5);
    s := At(Empty, [d0, e1, d2.(published := true)], q, 1, 1, 1);
    Extend(s5, 1, Own, s);
  }

  /** The worker with program counter pc and stack k; the client is idle. */
  function Working(pc: WorkerPc, k: Stack, cells: seq<Cell>, q: seq<Entry>, u: nat): System {
    System([Thread(Worker(pc), k, None, 0, 0), Thread(Client, Empty, None, 0, 0)], cells, [q], u, 1, 1, false, false)
  }

  /** The worker takes the task and runs its body. */
  lemma TaskRuns(body: () -> Outcome, f: Callback, g: Callback, v: int) returns (s: System)
    requires body() == Value(v)
    ensures Reachable(s)
    ensures var cells := Cells(body, f, g);
      s == Working(Running, Push(Body(0, Setting(v)), Empty), cells[0 := cells[0].(calls := 1)], [], 1)
  {
    var s0 := SecondThenIsDropped(body, f, g);
    var cells := Cells(body, f, g);
    var q := [Entry(0, 0)];
    assert s0 == Working(CheckShutdown, Empty, cells, q, 1);
    var s1 := Working(TryOwn, Empty, cells, q, 1);
    Extend(s0, 0, Own, s1);
    var s2 := Working(Running, Push(Body(0, Begin), Empty), cells, [], 1);
    assert q[1..] == [];
    Extend(s1, 0, Own, s2);
    var entered := cells[0 := cells[0].(calls := 1)];
    var s3 := Working(Running, Push(Body(0, InUser(0)), Empty), entered, [], 1);
    Extend(s2, 0, Own, s3);
    s := Working(Running, Push(Body(0, Setting(v)), Empty), entered, [], 1);
    Extend(s3, 0, Own, s);
  }

  /** The three futures when both callbacks that were accepted have run. */
  function Done(body: () -> Outcome, f: Callback, g: Callback, v: int, w: int): seq<Cell> {
    [Cell(Record(Some(Value(v)), true, None, true), Posted(body), Undecided, Some(1), true, 1),
     Cell(Record(Some(Value(w)), true, None, false), Chained(0, f, true), StoredFirst, None, true, 1),
     Cell(Fresh(), Chained(0, g, true), Dropped, None, true, 0)]
  }

  /** `set_value` runs f inline and returns. */
  lemma ContinuationRuns(body: () -> Outcome, f: Callback, g: Callback, v: int, w: int) returns (s: System)
    requires body() == Value(v) && f(v) == Value(w)
    ensures Reachable(s)
    ensures s == Working(Running, Push(Body(1, Finishing(true)), Push(Body(0, Finishing(true)), Empty)),
                         Done(body, f, g, v, w), [], 1)
  {
    var s0 := TaskRuns(body, f, g, v);
    var done := Done(body, f, g, v, w);
    var rest := Push(Body(0, Finishing(true)), Empty);
    var cells := Cells(body, f, g)[0 := done[0]];
    var s1 := Working(Running, Push(Body(1, Begin), rest), cells, [], 1);
    Extend(s0, 0, Own, s1);
    var entered := cells[1 := cells[1].(calls := 1)];
    var s2 := Working(Running, Push(Body(1, InUser(v)), rest), entered, [], 1);
    Extend(s1, 0, Own, s2);
    var s3 := Working(Running, Push(Body(1, Setting(w)), rest), entered, [], 1);
    Extend(s2, 0, Own, s3);
    s := Working(Running, Push(Body(1, Finishing(true)), rest), done, [], 1);
    assert entered[1 := done[1]] == done;
    Extend(s3, 0, Own, s);
  }

  /** The worker discounts the task and is back at the top of its loop. */
  lemma PoolIsIdle(body: () -> Outcome, f: Callback, g: Callback, v: int, w: int) returns (s: System)
    requires body() == Value(v) && f(v) == Value(w)
    ensures Reachable(s) && s == Working(CheckShutdown, Empty, Done(body, f, g, v, w), [], 0)
  {
    var s0 := ContinuationRuns(body, f, g, v, w);
    var done := Done(body, f, g, v, w);
    var s1 := Working(Running, Push(Body(0, Finishing(true)), Empty), done, [], 1);
    Extend(s0, 0, Own, s1);
    var s2 := Working(Running, Empty, done, [], 1);
    Extend(s1, 0, Own, s2);
    var s3 := Working(Discount, Empty, done, [], 1);
    Extend(s2, 0, Own, s3);
    s := Working(CheckShutdown, Empty, done, [], 0);
    Extend(s3, 0, Own, s);
  }

  /**
   `wait` can return, the task and its first continuation are complete with their values, and the
   future returned for the second continuation is incomplete, now and after whatever may follow.
   */
  lemma SecondThenNeverCompletes(body: () -> Outcome, f: Callback, g: Callback, v: int, w: int) returns (s: System)
    requires body() == Value(v) && f(v) == Value(w)
    ensures Reachable(s) && s.unfinished == 0 && |s.cells| == 3
    ensures s.cells[0].state.promise == Some(Value(v)) && s.cells[1].state.promise == Some(Value(w))
    ensures s.cells[2].published && s.cells[2].origin == Chained(0, g, true)
    ensures forall more: seq<(nat, Label)> :: PoolGrowth.After(s, more).Some? ==>
      var s' := PoolGrowth.After(s, more).value;
      2 < |s'.cells| && !s'.cells[2].state.completed && s'.cells[2].calls == 0
  {
    s := PoolIsIdle(body, f, g, v, w);
    forall more: seq<(nat, Label)> | PoolGrowth.After(s, more).Some?
      ensures var s' := PoolGrowth.After(s, more).value;
        2 < |s'.cells| && !s'.cells[2].state.completed && s'.cells[2].calls == 0
    {
      PoolGrowth.DroppedForever(s, 2, more);
    }
  }

  // ---------------------------------------------------------------- get inside a task

  function OneWorker(k: Stack, cells: seq<Cell>, q: seq<Entry>, u: nat, r: nat, p: nat): System {
    System([Thread(Worker(Running), k, None, 0, 0), Thread(Client, Empty, None, 0, 0)],
           cells, [q], u, r, p, false, false)
  }

  /** The only worker is inside the body of task 0. */
  lemma InsideTask(origin: Origin) returns (s: System)
    requires !origin.Chained?
    ensures Reachable(s)
    ensures s == OneWorker(Push(Body(0, InUser(0)), Empty),
                           [FreshCell(origin).(published := true, calls := 1)], [], 1, 1, 1)
  {
    var s0 := Posts(origin);
    var c := FreshCell(origin).(published := true);
    var q := [Entry(0, 0)];
    assert s0 == Working(CheckShutdown, Empty, [c], q, 1);
    var s1 := Working(TryOwn, Empty, [c], q, 1);
    Extend(s0, 0, Own, s1);
    var s2 := Working(Running, Push(Body(0, Begin), Empty), [c], [], 1);
    assert q[1..] == [];
    Extend(s1, 0, Own, s2);
    s := OneWorker(Push(Body(0, InUser(0)), Empty), [c.(calls := 1)], [], 1, 1, 1);
    Extend(s2, 0, Own, s);
  }

  /** A detached task's exception has no handler: it ends the process. */
  lemma DetachedThrowEndsProcess(body: () -> Outcome, e: Exn) returns (s: System)
    requires body() == Thrown(e)
    ensures Reachable(s) && s.crashed && |s.cells| == 1 && s.cells[0].origin == Detached(body)
    ensures forall t: nat, l: Label :: !Enabled(s, t, l)
  {
    var s0 := InsideTask(Detached(body));
    assert PoolGrowth.DetachedThrows(s0, 0);
    PoolGrowth.NoExceptionEscapes(s0, 0, Own, 0);
    var s1 := Do(s0, 0, Own);
    Extend(s0, 0, Own, s1);
    s := Do(s1, 0, Own);
    PoolGrowth.NoExceptionEscapes(s0, 0, Own, 1);
    PoolGrowth.NoExceptionEscapes(s1, 0, Own, 1);
    Extend(s1, 0, Own, s);
  }

  /**
   The task posts another and calls `get` on its future.  Both futures were handed out, neither is
   complete, and neither ever will be: the worker that would run the inner task is waiting for it.
   */
  lemma GetInsideTaskDeadlocks(outer: () -> Outcome, inner: () -> Outcome) returns (s: System)
    ensures Reachable(s) && |s.cells| == 2 && s.cells[0].published && s.cells[1].published
    ensures forall more: seq<(nat, Label)> :: PoolGrowth.After(s, more).Some? ==>
      var s' := PoolGrowth.After(s, more).value;
      1 < |s'.cells| && !s'.cells[0].state.completed && !s'.cells[1].state.completed
  {
    var s0 := InsideTask(Posted(outer));
    var user := Push(Body(0, InUser(0)), Empty);
    var ret := Push(Return(1), user);
    var c0, c1 := s0.cells[0], FreshCell(Posted(inner));
    var s1 := OneWorker(Push(Choose(1), ret), [c0, c1], [], 1, 1, 1);
    Extend(s0, 0, CallPost(inner), s1);
    var s2 := OneWorker(Push(Count(1, 0), ret), [c0, c1], [], 1, 2, 1);
    Extend(s1, 0, Own, s2);
    var s3 := OneWorker(Push(PushTo(1, 0), ret), [c0, c1], [], 2, 2, 1);
    Extend(s2, 0, Own, s3);
    var q := [Entry(1, 1)];
    var s4 := OneWorker(ret, [c0, c1], q, 2, 2, 2);
    assert PushTask(s3, 0, 1).queues == [q] by {
      assert [Entry(1, 1)] + s3.queues[0] == q;
    }
    Extend(s3, 0, Own, s4);
    var s5 := OneWorker(user, [c0, c1.(published := true)], q, 2, 2, 2);
    Extend(s4, 0, Own, s5);
    s := OneWorker(Push(Getting(1), user), [c0, c1.(published := true)], q, 2, 2, 2);
    Extend(s5, 0, CallGet(1), s);
    BothWait(s);
  }

  lemma BothWait(s: System)
    requires Reachable(s) && PoolWaiting.WaitsForOwnDeque(s, 1, 0)
    requires s.threads[0].stack.below == Push(Body(0, InUser(0)), Empty)
    ensures forall more: seq<(nat, Label)> :: PoolGrowth.After(s, more).Some? ==>
      var s' := PoolGrowth.After(s, more).value;
      1 < |s'.cells| && !s'.cells[0].state.completed && !s'.cells[1].state.completed
  {
    PoolSteps.ReachableInv(s);
    forall more: seq<(nat, Label)> | PoolGrowth.After(s, more).Some?
      ensures var s' := PoolGrowth.After(s, more).value;
        1 < |s'.cells| && !s'.cells[0].state.completed && !s'.cells[1].state.completed
    {
      PoolWaiting.GetInsideTaskForever(s, 1, 0, more);
      PoolGrowth.GrowsForever(s, more);
      PoolWaiting.RunningIsIncomplete(PoolGrowth.After(s, more).value, 0, 0);
    }
  }
}
