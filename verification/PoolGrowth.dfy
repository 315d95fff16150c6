/**
 What the future states keep from one step to the next, and hence over every continuation of a run:
 a value once stored, a registration once decided and a future once handed out stay as they are.
 */
module PoolGrowth {
  import opened Wrappers
  import opened Outcomes
  import opened SharedStates
  import opened PoolModel
  import opened PoolLedger
  import opened PoolInvariant
  import opened PoolSteps

  // ---------------------------------------------------------------- one step

  lemma OneCellGrows(cells: seq<Cell>, c: nat, cell: Cell)
    requires c < |cells| && CellGrows(cells[c], cell)
    ensures Grows(cells, cells[c := cell])
  {
  }

  lemma SettleGrows(s: System, t: nat, c: nat, o: Outcome, below: Stack)
    requires t < |s.threads| && c < |s.cells|
    ensures Grows(s.cells, Settle(s, t, c, o, below).cells)
  {
    var done := Complete(s.cells[c].state, o);
    if !done.threw {
      OneCellGrows(s.cells, c, s.cells[c].(state := done.after));
    }
  }

  lemma BodyGrows(s: System, t: nat, c: nat, pc: BodyPc, below: Stack)
    requires t < |s.threads| && CanRunBody(s, c, pc)
    ensures Grows(s.cells, RunBody(s, t, c, pc, below).cells)
  {
    match pc
    case Begin => OneCellGrows(s.cells, c, s.cells[c].(calls := s.cells[c].calls + 1));
    case InUser(arg) =>
      var o := Result(s.cells[c].origin, arg);
      OneCellGrows(s.cells, c, s.cells[c].(state := Complete(s.cells[c].state, o).after));
    case Setting(v) => SettleGrows(s, t, c, Value(v), below);
    case Catching(e) => SettleGrows(s, t, c, Thrown(e), below);
    case Finishing(_) =>
  }

  lemma RegisterGrows(s: System, t: nat, c: nat, below: Stack)
    requires Inv(s) && t < |s.threads| && s.threads[t].stack == Push(Register(c), below) && CanRegister(s, c)
    ensures Grows(s.cells, RunRegister(s, t, c, below).cells)
  {
    assert Balanced(s, c);
    TopUndecided(s, t);
    RegisterCells(s.cells, c);
    assert RunRegister(s, t, c, below).cells == RegisteredCells(s.cells, c, s.cells[c].origin.parent);
  }

  lemma FrameGrows(s: System, t: nat, f: Frame, below: Stack)
    requires Inv(s) && t < |s.threads| && s.threads[t].stack == Push(f, below) && CanRunFrame(s, f)
    ensures Grows(s.cells, RunFrame(s, t, f, below).cells)
  {
    match f
    case Register(c) => RegisterGrows(s, t, c, below);
    case Return(c) => OneCellGrows(s.cells, c, s.cells[c].(published := true));
    case Body(c, pc) => BodyGrows(s, t, c, pc, below);
    case _ => assert RunFrame(s, t, f, below).cells == s.cells;
  }

  lemma CallGrows(s: System, t: nat, l: Label)
    requires Enabled(s, t, l) && !l.Own?
    ensures Grows(s.cells, Call(s, t, l).cells)
  {
  }

  /** No step takes back a value, a decision, a returned future or a stored continuation's name. */
  lemma StepGrows(s: System, t: nat, l: Label)
    requires Inv(s) && Enabled(s, t, l)
    ensures Grows(s.cells, Do(s, t, l).cells)
  {
    var th := s.threads[t];
    if !l.Own? {
      CallGrows(s, t, l);
    } else if th.exn.None? && th.stack.Push? {
      FrameGrows(s, t, th.stack.top, th.stack.below);
    }
  }

  // ---------------------------------------------------------------- every continuation of a run

  /** Where further steps lead, if all of them are possible. */
  function After(s: System, more: seq<(nat, Label)>): Option<System>
    decreases |more|
  {
    if |more| == 0 then Some(s)
    else if Enabled(s, more[0].0, more[0].1) then After(Do(s, more[0].0, more[0].1), more[1..])
    else None
  }

  lemma GrowsTrans(a: seq<Cell>, b: seq<Cell>, c: seq<Cell>)
    requires Grows(a, b) && Grows(b, c)
    ensures Grows(a, c)
  {
    forall d: nat | d < |a| ensures CellGrows(a[d], c[d]) {
      assert CellGrows(a[d], b[d]) && CellGrows(b[d], c[d]);
    }
  }

  lemma {:induction false} GrowsForever(s: System, more: seq<(nat, Label)>)
    requires Inv(s) && After(s, more).Some?
    ensures Inv(After(s, more).value) && Grows(s.cells, After(s, more).value.cells)
    decreases |more|
  {
    if |more| > 0 {
      var t, l := more[0].0, more[0].1;
      StepKeepsInv(s, t, l);
      StepGrows(s, t, l);
      GrowsForever(Do(s, t, l), more[1..]);
      GrowsTrans(s.cells, Do(s, t, l).cells, After(s, more).value.cells);
    }
  }

  /** A completed future keeps its outcome in every continuation of the run. */
  lemma CompletedForever(s: System, c: nat, more: seq<(nat, Label)>)
    requires Reachable(s) && After(s, more).Some?
    requires c < |s.cells| && s.cells[c].state.completed
    ensures var s' := After(s, more).value;
      c < |s'.cells| && s'.cells[c].state.completed && s'.cells[c].state.promise == s.cells[c].state.promise
  {
    ReachableInv(s);
    GrowsForever(s, more);
    assert CellOk(s.cells, c);
    assert CellGrows(s.cells[c], After(s, more).value.cells[c]);
  }

  lemma DroppedNeverStarts(s: System, c: nat)
    requires Inv(s) && c < |s.cells| && s.cells[c].fate.Dropped?
    ensures s.cells[c].calls == 0 && s.cells[c].state.promise.None? && !s.cells[c].state.completed
  {
    assert Balanced(s, c);
    assert CellOk(s.cells, c);
  }

  /** A dropped continuation is never entered and its future never completed, whatever follows. */
  lemma DroppedForever(s: System, c: nat, more: seq<(nat, Label)>)
    requires Reachable(s) && After(s, more).Some?
    requires c < |s.cells| && s.cells[c].fate.Dropped?
    ensures var s' := After(s, more).value;
      && c < |s'.cells| && s'.cells[c].fate.Dropped?
      && s'.cells[c].calls == 0 && s'.cells[c].state.promise.None? && !s'.cells[c].state.completed
  {
    ReachableInv(s);
    GrowsForever(s, more);
    var s' := After(s, more).value;
    assert CellGrows(s.cells[c], s'.cells[c]);
    DroppedNeverStarts(s', c);
  }

  // ---------------------------------------------------------------- exceptions

  /** The thread is inside the body of a detached task, and that body will throw. */
  predicate DetachedThrows(s: System, t: nat) {
    && t < |s.threads| && s.threads[t].stack.Push? && s.threads[t].stack.top.Body?
    && var f := s.threads[t].stack.top;
       && f.pc.InUser? && f.cell < |s.cells| && s.cells[f.cell].origin.Detached?
       && s.cells[f.cell].origin.body().Thrown?
  }

  lemma BodyKeepsExceptions(s: System, t: nat, c: nat, pc: BodyPc, below: Stack)
    requires Inv(s) && t < |s.threads| && s.threads[t].exn.None?
    requires s.threads[t].stack == Push(Body(c, pc), below) && CanRunBody(s, c, pc)
    ensures RunBody(s, t, c, pc, below).threads[t].exn.Some? <==> DetachedThrows(s, t)
  {
    assert ThreadOk(s, t);
    if pc.Setting? || pc.Catching? {
      assert Balanced(s, c);
      TopHolds(s, t);
    }
  }

  /**
   An exception leaves a frame exactly when the body of a detached task throws it, and the next step of
   that thread then ends the process.  In particular none leaves a posted task's or a continuation's
   body, whatever else has thrown before.
   */
  lemma NoExceptionEscapes(s: System, t: nat, l: Label, u: nat)
    requires Reachable(s) && Enabled(s, t, l) && u < |s.threads| && s.threads[u].exn.None?
    ensures u < |Do(s, t, l).threads|
    ensures Do(s, t, l).threads[u].exn.Some? <==> u == t && l.Own? && DetachedThrows(s, t)
    ensures Do(s, t, l).crashed <==> l.Own? && s.threads[t].exn.Some?
  {
    ReachableInv(s);
    assert ThreadOk(s, t);
    var th := s.threads[t];
    if l.Own? && th.exn.None? && th.stack.Push? {
      FrameKeepsExceptions(s, t, u);
    }
  }

  lemma FrameKeepsExceptions(s: System, t: nat, u: nat)
    requires Inv(s) && t < |s.threads| && s.threads[t].exn.None? && !s.crashed
    requires s.threads[t].stack.Push? && CanRunFrame(s, s.threads[t].stack.top)
    requires u < |s.threads| && s.threads[u].exn.None?
    ensures var s' := RunFrame(s, t, s.threads[t].stack.top, s.threads[t].stack.below);
      && u < |s'.threads| && !s'.crashed
      && (s'.threads[u].exn.Some? <==> u == t && DetachedThrows(s, t))
  {
    var f, below := s.threads[t].stack.top, s.threads[t].stack.below;
    match f
    case Body(c, pc) => BodyKeepsExceptions(s, t, c, pc, below);
    case _ =>
  }
}
