/** The invariant of the pool: what every step of every thread keeps. */
module PoolInvariant {
  import opened Wrappers
  import opened Outcomes
  import opened PoolModel
  import opened PoolLedger

  // ---------------------------------------------------------------- future states

  /** The predecessor of a chained closure has completed; posted work is always ready. */
  predicate Ready(cells: seq<Cell>, c: nat) {
    && c < |cells|
    && match cells[c].origin
       case Chained(p, _, _) => p < |cells| && cells[p].state.promise.Some?
       case _ => true
  }

  /** What completing c must store, once its predecessor is known. */
  function Expected(cells: seq<Cell>, c: nat): Option<Outcome>
    requires c < |cells|
  {
    match cells[c].origin
    case Posted(body) => Some(body())
    case Detached(body) => Some(body())
    case Chained(p, fn, _) =>
      if p < |cells| && cells[p].state.promise.Some? then Some(Bind(cells[p].state.promise.value, fn)) else None
  }

  /** The callback of c is due: its predecessor, if any, completed with a value. */
  predicate Called(cells: seq<Cell>, c: nat)
    requires c < |cells|
  {
    match cells[c].origin
    case Chained(p, _, _) => p < |cells| && cells[p].state.promise.Some? && cells[p].state.promise.value.Value?
    case _ => true
  }

  ghost predicate FateOk(cells: seq<Cell>, c: nat)
    requires c < |cells|
  {
    match cells[c].origin
    case Chained(p, _, _) =>
      && p < c && cells[p].published && !cells[p].origin.Detached?
      && (cells[c].fate.StoredFirst? ==> cells[p].first == Some(c))
      && (cells[c].fate.RanAfter? ==> cells[p].state.completed && !cells[p].state.continuationSet)
      && (cells[c].fate.Dropped? ==> cells[p].state.continuationSet)
    case _ => true
  }

  ghost predicate FirstOk(cells: seq<Cell>, c: nat)
    requires c < |cells|
  {
    var cell := cells[c];
    && (cell.state.continuationSet <==> cell.first.Some?)
    && cell.state.continuation == (if cell.state.completed then None else cell.first)
    && (cell.first.Some? ==>
          var k := cell.first.value;
          && cell.published && k < |cells|
          && cells[k].origin.Chained? && cells[k].origin.parent == c && cells[k].fate.StoredFirst?)
  }

  ghost predicate CellOk(cells: seq<Cell>, c: nat)
    requires c < |cells|
  {
    var cell := cells[c];
    && (cell.state.completed <==> cell.state.promise.Some?)
    && (cell.state.promise.Some? ==> Expected(cells, c) == cell.state.promise)
    && (cell.state.promise.Some? && Called(cells, c) ==> cell.calls >= 1)
    && (cell.calls >= 1 ==> Called(cells, c))
    && FateOk(cells, c)
    && FirstOk(cells, c)
  }

  ghost predicate CellsOk(cells: seq<Cell>) {
    forall c: nat :: c < |cells| ==> CellOk(cells, c)
  }

  // ---------------------------------------------------------------- threads

  ghost predicate FrameOk(cells: seq<Cell>, workers: nat, f: Frame) {
    match f
    case Choose(c) => Ready(cells, c)
    case Count(c, w) => Ready(cells, c) && w < workers
    case PushTo(c, w) => Ready(cells, c) && w < workers
    case Register(c) => c < |cells| && cells[c].origin.Chained? && cells[c].origin.parent < c
    case Return(c) => c < |cells|
    case Body(c, pc) =>
      && Ready(cells, c)
      && (match pc
          case Begin => true
          case InUser(a) =>
            && cells[c].calls >= 1
            && (cells[c].origin.Chained? ==> cells[cells[c].origin.parent].state.promise == Some(Value(a)))
          case Setting(v) => !cells[c].origin.Detached? && cells[c].calls >= 1 && Expected(cells, c) == Some(Value(v))
          case Catching(e) =>
            && !cells[c].origin.Detached? && Expected(cells, c) == Some(Thrown(e))
            && (Called(cells, c) ==> cells[c].calls >= 1)
          case Finishing(_) => true)
    case WaitIdle => true
    case Joining(_, _) => true
    case Getting(c) => c < |cells|
  }

  /** Every frame is well formed, and a posted task's body is always the outermost call of a worker. */
  ghost predicate StackOk(cells: seq<Cell>, workers: nat, k: Stack) {
    k.Push? ==>
      && FrameOk(cells, workers, k.top)
      && (k.top.Body? && !cells[k.top.cell].origin.Chained? ==> k.below.Empty?)
      && StackOk(cells, workers, k.below)
  }

  /**
   On a thread that is not a worker, an obligation is always held directly above the frame that
   will return its future, and only chained closures are run.
   */
  ghost predicate ClientOk(cells: seq<Cell>, k: Stack) {
    k.Push? ==>
      && (Holds(k.top) ==> k.below.Push? && k.below.top == Return(k.top.cell))
      && (k.top.Body? ==> k.top.cell < |cells| && cells[k.top.cell].origin.Chained?)
      && ClientOk(cells, k.below)
  }

  ghost predicate DetachedThrew(cells: seq<Cell>) {
    exists c: nat :: c < |cells| && cells[c].origin.Detached? &&
      cells[c].state.promise.Some? && cells[c].state.promise.value.Thrown?
  }

  /** After the flag is set a worker starts at most one more task, and finishes at most one more. */
  predicate LateOk(th: Thread)
    requires th.base.Worker?
  {
    var pc := th.base.pc;
    var searching := pc.TryOwn? || pc.ChooseVictim? || pc.TrySteal?;
    && th.lateStarts + One(searching) <= 1
    && th.lateEnds + One(searching || pc.Running? || pc.Discount?) <= 1
  }

  ghost predicate ThreadOk(s: System, t: nat)
    requires t < |s.threads|
  {
    var th := s.threads[t];
    && StackOk(s.cells, |s.queues|, th.stack)
    && (th.exn.Some? ==> th.stack.Empty? && DetachedThrew(s.cells))
    && (if t < |s.queues| then
          && th.base.Worker? && LateOk(th)
          && (th.stack.Push? ==> th.base.pc.Running?)
          && (th.base.pc.TrySteal? ==> th.base.pc.victim < |s.queues|)
          && (th.base.pc.Exited? ==> s.shutdown)
        else
          th.base.Client? && ClientOk(s.cells, th.stack))
    && (!s.shutdown ==> th.lateStarts == 0 && th.lateEnds == 0)
  }

  // ---------------------------------------------------------------- deques

  /** Newest first by push time. */
  ghost predicate NewestFirst(q: seq<Entry>) {
    forall i, j :: 0 <= i < j < |q| ==> q[i].stamp > q[j].stamp
  }

  ghost predicate QueueOk(s: System, w: nat)
    requires w < |s.queues|
  {
    && NewestFirst(s.queues[w])
    && (forall i :: 0 <= i < |s.queues[w]| ==>
          s.queues[w][i].stamp < s.pushes && Ready(s.cells, s.queues[w][i].cell))
  }

  // ---------------------------------------------------------------- the invariant

  ghost predicate Sane(s: System) {
    && 0 < |s.queues| <= |s.threads|
    && CellsOk(s.cells)
    && (forall t: nat :: t < |s.threads| ==> ThreadOk(s, t))
    && (forall w: nat :: w < |s.queues| ==> QueueOk(s, w))
    && (s.crashed ==> DetachedThrew(s.cells))
  }

  ghost predicate AllBalanced(s: System) {
    forall c: nat :: Balanced(s, c)
  }

  ghost predicate Inv(s: System) {
    Sane(s) && AllBalanced(s) && WorkCounted(s)
  }

  // ---------------------------------------------------------------- monotone growth of states

  ghost predicate CellGrows(a: Cell, b: Cell) {
    && a.origin == b.origin
    && (a.state.promise.Some? ==> b.state.promise == a.state.promise)
    && (a.state.completed ==> b.state.completed && b.state.continuationSet == a.state.continuationSet)
    && (a.published ==> b.published)
    && (a.first.Some? ==> b.first == a.first)
    && (a.state.continuationSet ==> b.state.continuationSet)
    && (!a.fate.Undecided? ==> b.fate == a.fate)
    && a.calls <= b.calls
  }

  ghost predicate Grows(cells: seq<Cell>, cells': seq<Cell>) {
    && |cells| <= |cells'|
    && forall c: nat :: c < |cells| ==> CellGrows(cells[c], cells'[c])
  }

  lemma CellOkGrows(cells: seq<Cell>, cells': seq<Cell>, c: nat)
    requires Grows(cells, cells') && c < |cells| && cells'[c] == cells[c]
    requires CellOk(cells, c)
    ensures CellOk(cells', c)
  {
    if cells[c].origin.Chained? {
      assert CellGrows(cells[cells[c].origin.parent], cells'[cells[c].origin.parent]);
    }
    if cells[c].first.Some? {
      assert CellGrows(cells[cells[c].first.value], cells'[cells[c].first.value]);
    }
  }

  lemma FrameOkGrows(cells: seq<Cell>, cells': seq<Cell>, workers: nat, f: Frame)
    requires Grows(cells, cells') && FrameOk(cells, workers, f)
    ensures FrameOk(cells', workers, f)
  {
    if !Waiting(f) {
      assert CellGrows(cells[f.cell], cells'[f.cell]);
      if cells[f.cell].origin.Chained? && cells[f.cell].origin.parent < |cells| {
        assert CellGrows(cells[cells[f.cell].origin.parent], cells'[cells[f.cell].origin.parent]);
      }
    }
  }

  lemma {:induction false} StackOkGrows(cells: seq<Cell>, cells': seq<Cell>, workers: nat, k: Stack)
    requires Grows(cells, cells') && StackOk(cells, workers, k)
    ensures StackOk(cells', workers, k)
    ensures ClientOk(cells, k) ==> ClientOk(cells', k)
    decreases k
  {
    if k.Push? {
      FrameOkGrows(cells, cells', workers, k.top);
      StackOkGrows(cells, cells', workers, k.below);
    }
  }

  lemma DetachedThrewGrows(cells: seq<Cell>, cells': seq<Cell>)
    requires Grows(cells, cells') && DetachedThrew(cells)
    ensures DetachedThrew(cells')
  {
    var c: nat :| c < |cells| && cells[c].origin.Detached? &&
      cells[c].state.promise.Some? && cells[c].state.promise.value.Thrown?;
    assert CellGrows(cells[c], cells'[c]);
  }

  /** Everything except thread t and the queues is sane again once the states have only grown. */
  lemma Reassemble(s: System, s': System, t: nat)
    requires Sane(s) && t < |s.threads|
    requires |s'.threads| == |s.threads| && |s'.queues| == |s.queues|
    requires forall u :: 0 <= u < |s.threads| && u != t ==> s'.threads[u] == s.threads[u]
    requires Grows(s.cells, s'.cells) && CellsOk(s'.cells)
    requires s.shutdown ==> s'.shutdown
    requires s'.crashed ==> s.crashed || DetachedThrew(s'.cells)
    requires ThreadOk(s', t)
    requires s.pushes <= s'.pushes
    requires forall w: nat :: w < |s.queues| ==> s'.queues[w] == s.queues[w] || QueueOk(s', w)
    ensures Sane(s')
  {
    forall u: nat | u < |s'.threads| ensures ThreadOk(s', u) {
      if u != t {
        assert ThreadOk(s, u);
        StackOkGrows(s.cells, s'.cells, |s.queues|, s.threads[u].stack);
        if s.threads[u].exn.Some? {
          DetachedThrewGrows(s.cells, s'.cells);
        }
      }
    }
    forall w: nat | w < |s'.queues| ensures QueueOk(s', w) {
      assert QueueOk(s, w);
      if s'.queues[w] == s.queues[w] {
        forall i | 0 <= i < |s'.queues[w]| ensures Ready(s'.cells, s'.queues[w][i].cell) {
          FrameOkGrows(s.cells, s'.cells, |s.queues|, Choose(s.queues[w][i].cell));
        }
      }
    }
    if s.crashed {
      DetachedThrewGrows(s.cells, s'.cells);
    }
  }

  /** One state changed, by growing into something that is still well formed. */
  lemma ReplaceCell(cells: seq<Cell>, c: nat, cell: Cell)
    requires CellsOk(cells) && c < |cells| && CellGrows(cells[c], cell)
    requires CellOk(cells[c := cell], c)
    ensures Grows(cells, cells[c := cell]) && CellsOk(cells[c := cell])
  {
    var cells' := cells[c := cell];
    forall d: nat | d < |cells'| ensures CellOk(cells', d) {
      if d != c {
        CellOkGrows(cells, cells', d);
      }
    }
  }
}
