/**
 The work-stealing pool and its futures as a transition system.

 Every thread is a call stack.  One step of a thread is one atomic operation, one critical
 section, or one return; steps of different threads interleave arbitrarily.  The closure that a
 `post` or a `then` creates is identified with the future state (`Cell`) it will complete.
 */
module PoolModel {
  import opened Words
  import opened Wrappers
  import opened Outcomes
  import opened SharedStates

  /** Who created a future state, and with which callback. */
  datatype Origin =
    | Posted(body: () -> Outcome)
    | Detached(body: () -> Outcome)
    | Chained(parent: nat, fn: Callback, inline: bool)

  /** What the critical section of `set_continuation` did with a chained closure. */
  datatype Fate = Undecided | StoredFirst | RanAfter | Dropped

  /**
   A future state together with its history: its origin, the fate of its own registration, the
   child whose closure was stored in it, whether the creating call has returned its future, and how
   often its callback was entered.  For a detached task the state is history only.
   */
  datatype Cell = Cell(
    state: Record<nat>, origin: Origin, fate: Fate, first: Option<nat>, published: bool, calls: nat)

  datatype BodyPc =
    | Begin                        // at the `try`, before `current_future.get()`
    | InUser(arg: int)             // inside the user's callback
    | Setting(v: int)              // about to enter `set_value`
    | Catching(e: Exn)             // in the handler, about to enter `set_exception`
    | Finishing(guarded: bool)     // the setter has run; `guarded` if still inside the `try`

  datatype Frame =
    | Choose(cell: nat)                  // posting: before `round_index_.fetch_add`
    | Count(cell: nat, victim: nat)      // posting: before `unfinished_.fetch_add`
    | PushTo(cell: nat, victim: nat)     // posting: counted, not yet in the deque
    | Register(cell: nat)                // chaining: before the critical section of `set_continuation`
    | Return(cell: nat)                  // about to hand the future to the caller
    | Body(cell: nat, pc: BodyPc)        // running a task or a continuation
    | WaitIdle                           // inside `wait`
    | Joining(self: nat, next: nat)      // inside `shutdown` on thread `self`, about to join worker `next`
    | Getting(awaited: nat)              // inside `Future::get`

  /** The thread waits: for the counter, for another thread, or for a future. */
  predicate Waiting(f: Frame) { f.WaitIdle? || f.Joining? || f.Getting? }

  datatype Stack = Empty | Push(top: Frame, below: Stack)

  datatype WorkerPc =
    | CheckShutdown
    | TryOwn
    | ChooseVictim
    | TrySteal(victim: nat)
    | Sleeping
    | Running          // inside `task()`
    | Discount         // `task()` returned, `unfinished_` not yet decremented
    | Exited

  datatype Base = Client | Worker(pc: WorkerPc)

  /** A thread; `exn` is an exception in flight, the two counters record work after shutdown. */
  datatype Thread = Thread(base: Base, stack: Stack, exn: Option<Exn>, lateStarts: nat, lateEnds: nat)

  /** A queued package; `stamp` is the global number of its push. */
  datatype Entry = Entry(cell: nat, stamp: nat)

  datatype System = System(
    threads: seq<Thread>, cells: seq<Cell>, queues: seq<seq<Entry>>,
    unfinished: nat, round: nat, pushes: nat, shutdown: bool, crashed: bool)

  /** What a thread does next: its own next instruction, or an API call made by user code. */
  datatype Label =
    | Own
    | CallPost(body: () -> Outcome)
    | CallDetach(body: () -> Outcome)
    | CallThen(parent: nat, fn: Callback, inline: bool)
    | CallWait
    | CallGet(awaited: nat)
    | CallShutdown

  // ---------------------------------------------------------------- states

  function FreshCell(origin: Origin): Cell {
    Cell(Fresh(), origin, Undecided, None, false, 0)
  }

  /** After construction: all workers launched, some client threads, nothing posted. */
  ghost predicate Init(s: System) {
    && 0 < |s.queues| <= |s.threads|
    && (forall t :: 0 <= t < |s.threads| ==>
          s.threads[t] == Thread(if t < |s.queues| then Worker(CheckShutdown) else Client, Empty, None, 0, 0))
    && s.cells == []
    && (forall w :: 0 <= w < |s.queues| ==> s.queues[w] == [])
    && s.unfinished == 0 && 0 <= s.round < WORD && s.pushes == 0
    && !s.shutdown && !s.crashed
  }

  function SetThread(s: System, t: nat, th: Thread): System
    requires t < |s.threads|
  {
    s.(threads := s.threads[t := th])
  }

  function SetStack(s: System, t: nat, k: Stack): System
    requires t < |s.threads|
  {
    SetThread(s, t, s.threads[t].(stack := k))
  }

  function SetPc(s: System, t: nat, pc: WorkerPc): System
    requires t < |s.threads|
  {
    SetThread(s, t, s.threads[t].(base := Worker(pc)))
  }

  function SetCell(s: System, c: nat, cell: Cell): System
    requires c < |s.cells|
  {
    s.(cells := s.cells[c := cell])
  }

  function Incremented(n: nat): nat { (n + 1) % WORD }

  function Decremented(n: nat): nat { (n + WORD - 1) % WORD }

  // ---------------------------------------------------------------- API calls

  /** The thread executes user code and may call into the pool. */
  predicate InUserCode(th: Thread) {
    && th.exn.None?
    && match th.stack
       case Empty => th.base.Client?
       case Push(Body(_, InUser(_)), _) => true
       case _ => false
  }

  /** `post`, `post_detach` and `then` begin by creating the state and its closure. */
  function Create(s: System, t: nat, origin: Origin): System
    requires t < |s.threads|
  {
    var c := |s.cells|;
    var first := if origin.Chained? then Register(c) else Choose(c);
    SetStack(s.(cells := s.cells + [FreshCell(origin)]), t, Push(first, Push(Return(c), s.threads[t].stack)))
  }

  predicate CanCall(s: System, t: nat, l: Label)
    requires t < |s.threads|
  {
    && InUserCode(s.threads[t])
    && (l.CallThen? ==> HasFuture(s.cells, l.parent))
    && (l.CallGet? ==> HasFuture(s.cells, l.awaited))
  }

  /** The caller was given a future of this state. */
  predicate HasFuture(cells: seq<Cell>, c: nat) {
    c < |cells| && cells[c].published && !cells[c].origin.Detached?
  }

  function Call(s: System, t: nat, l: Label): System
    requires t < |s.threads| && !l.Own? && CanCall(s, t, l)
  {
    match l
    case CallPost(body) => Create(s, t, Posted(body))
    case CallDetach(body) => Create(s, t, Detached(body))
    case CallThen(p, fn, inline) => Create(s, t, Chained(p, fn, inline))
    case CallWait => SetStack(s, t, Push(WaitIdle, s.threads[t].stack))
    case CallGet(c) => SetStack(s, t, Push(Getting(c), s.threads[t].stack))
    case CallShutdown =>
      SetStack(s.(shutdown := true), t, Push(Joining(t, 0), s.threads[t].stack))
  }

  // ---------------------------------------------------------------- running closures

  /** Starting a continuation: inline, or by posting it as a detached task. */
  function Launch(cells: seq<Cell>, k: nat): Frame {
    if k < |cells| && cells[k].origin.Chained? && cells[k].origin.inline then Body(k, Begin) else Choose(k)
  }

  predicate CanRunBody(s: System, c: nat, pc: BodyPc) {
    && c < |s.cells|
    && match s.cells[c].origin
       case Chained(p, _, _) => p < |s.cells| && (pc.Begin? ==> s.cells[p].state.promise.Some?)
       case _ => true
  }

  /** The callback's own result on the argument it was entered with. */
  function Result(origin: Origin, arg: int): Outcome {
    match origin
    case Posted(body) => body()
    case Detached(body) => body()
    case Chained(_, fn, _) => fn(arg)
  }

  function Enter(s: System, t: nat, c: nat, arg: int, below: Stack): System
    requires t < |s.threads| && c < |s.cells|
  {
    SetStack(SetCell(s, c, s.cells[c].(calls := s.cells[c].calls + 1)), t, Push(Body(c, InUser(arg)), below))
  }

  /** `set_value` or `set_exception`, up to and including the start of the continuation handed out. */
  function Settle(s: System, t: nat, c: nat, o: Outcome, below: Stack): System
    requires t < |s.threads| && c < |s.cells|
  {
    var done := Complete(s.cells[c].state, o);
    var guarded := o.Value?;
    if done.threw then
      if guarded then SetStack(s, t, Push(Body(c, Catching(PromiseAlreadySatisfied)), below))
      else SetThread(s, t, s.threads[t].(stack := below, exn := Some(PromiseAlreadySatisfied)))
    else
      var s1 := SetCell(s, c, s.cells[c].(state := done.after));
      var rest := Push(Body(c, Finishing(guarded)), below);
      SetStack(s1, t, if done.run.Some? then Push(Launch(s.cells, done.run.value), rest) else rest)
  }

  /** The callback returns or throws. */
  function Leave(s: System, t: nat, c: nat, o: Outcome, below: Stack): System
    requires t < |s.threads| && c < |s.cells|
  {
    if s.cells[c].origin.Detached? then
      var s1 := SetCell(s, c, s.cells[c].(state := Complete(s.cells[c].state, o).after));
      SetThread(s1, t, s.threads[t].(stack := below, exn := if o.Thrown? then Some(o.e) else None))
    else
      SetStack(s, t, Push(Body(c, if o.Value? then Setting(o.v) else Catching(o.e)), below))
  }

  function RunBody(s: System, t: nat, c: nat, pc: BodyPc, below: Stack): System
    requires t < |s.threads| && CanRunBody(s, c, pc)
  {
    match pc
    case Begin =>
      (match s.cells[c].origin
       case Chained(p, _, _) =>
         (match s.cells[p].state.promise.value
          case Value(v) => Enter(s, t, c, v, below)
          case Thrown(e) => SetStack(s, t, Push(Body(c, Catching(e)), below)))
       case _ => Enter(s, t, c, 0, below))
    case InUser(arg) => Leave(s, t, c, Result(s.cells[c].origin, arg), below)
    case Setting(v) => Settle(s, t, c, Value(v), below)
    case Catching(e) => Settle(s, t, c, Thrown(e), below)
    case Finishing(_) => SetStack(s, t, below)
  }

  // ---------------------------------------------------------------- posting and chaining

  predicate CanRegister(s: System, c: nat) {
    c < |s.cells| && s.cells[c].origin.Chained? && s.cells[c].origin.parent < c
  }

  function RunRegister(s: System, t: nat, c: nat, below: Stack): System
    requires t < |s.threads| && CanRegister(s, c)
  {
    var p := s.cells[c].origin.parent;
    var parent := s.cells[p];
    match Decide(parent.state)
    case Ignored =>
      SetStack(SetCell(s, c, s.cells[c].(fate := Dropped)), t, below)
    case RunNow =>
      SetStack(SetCell(s, c, s.cells[c].(fate := RanAfter)), t, Push(Launch(s.cells, c), below))
    case Kept =>
      var s1 := SetCell(s, c, s.cells[c].(fate := StoredFirst));
      SetStack(SetCell(s1, p, parent.(state := Registered(parent.state, c), first := Some(c))), t, below)
  }

  /** `push_front` under the victim's lock. */
  function PushTask(s: System, w: nat, c: nat): System
    requires w < |s.queues|
  {
    s.(queues := s.queues[w := [Entry(c, s.pushes)] + s.queues[w]], pushes := s.pushes + 1)
  }

  /**
   `join` waits for a worker's exit, but throws at once when a thread joins itself: `shutdown` is then
   left by that exception, which the task that called it is assumed to handle.
   */
  predicate CanRunFrame(s: System, f: Frame) {
    match f
    case Choose(_) => |s.queues| > 0
    case Count(_, _) => true
    case PushTo(_, w) => w < |s.queues|
    case Register(c) => CanRegister(s, c)
    case Return(c) => c < |s.cells|
    case Body(c, pc) => CanRunBody(s, c, pc)
    case WaitIdle => s.unfinished == 0
    case Joining(self, w) => w < |s.queues| && w != self ==> w < |s.threads| && s.threads[w].base == Worker(Exited)
    case Getting(c) => c < |s.cells| && s.cells[c].state.promise.Some?
  }

  function RunFrame(s: System, t: nat, f: Frame, below: Stack): System
    requires t < |s.threads| && CanRunFrame(s, f)
  {
    match f
    case Choose(c) =>
      SetStack(s.(round := Incremented(s.round)), t, Push(Count(c, s.round % |s.queues|), below))
    case Count(c, w) =>
      SetStack(s.(unfinished := Incremented(s.unfinished)), t, Push(PushTo(c, w), below))
    case PushTo(c, w) => SetStack(PushTask(s, w, c), t, below)
    case Register(c) => RunRegister(s, t, c, below)
    case Return(c) => SetStack(SetCell(s, c, s.cells[c].(published := true)), t, below)
    case Body(c, pc) => RunBody(s, t, c, pc, below)
    case WaitIdle => SetStack(s, t, below)
    case Joining(self, w) =>
      SetStack(s, t, if w < |s.queues| && w != self then Push(Joining(self, w + 1), below) else below)
    case Getting(_) => SetStack(s, t, below)
  }

  // ---------------------------------------------------------------- the worker loop

  /** A worker starts the task it took out of a deque. */
  function StartTask(s: System, t: nat, e: Entry): System
    requires t < |s.threads|
  {
    SetThread(s, t, s.threads[t].(base := Worker(Running), stack := Push(Body(e.cell, Begin), Empty),
                                  lateStarts := s.threads[t].lateStarts + if s.shutdown then 1 else 0))
  }

  predicate CanRunWorker(s: System, t: nat, pc: WorkerPc) {
    match pc
    case TryOwn => t < |s.queues|
    case ChooseVictim => |s.queues| > 0
    case TrySteal(w) => w < |s.queues|
    case Sleeping => s.shutdown || s.unfinished > 0
    case Exited => false
    case _ => true
  }

  function StealVictim(round: nat, mine: nat, workers: nat): nat
    requires workers > 0
  {
    if round % workers == mine then (round % workers + 1) % workers else round % workers
  }

  function RunWorker(s: System, t: nat, pc: WorkerPc): System
    requires t < |s.threads| && CanRunWorker(s, t, pc)
  {
    match pc
    case CheckShutdown => SetPc(s, t, if s.shutdown then Exited else TryOwn)
    case TryOwn =>
      var q := s.queues[t];
      if |q| > 0 then StartTask(s.(queues := s.queues[t := q[1..]]), t, q[0])
      else SetPc(s, t, if |s.queues| > 1 then ChooseVictim else Sleeping)
    case ChooseVictim =>
      SetPc(s.(round := Incremented(s.round)), t, TrySteal(StealVictim(s.round, t, |s.queues|)))
    case TrySteal(w) =>
      var q := s.queues[w];
      if |q| > 0 then StartTask(s.(queues := s.queues[w := q[..|q| - 1]]), t, q[|q| - 1])
      else SetPc(s, t, Sleeping)
    case Sleeping => SetPc(s, t, CheckShutdown)
    case Running => SetPc(s, t, Discount)
    case Discount =>
      SetThread(s.(unfinished := Decremented(s.unfinished)), t,
                s.threads[t].(base := Worker(CheckShutdown),
                              lateEnds := s.threads[t].lateEnds + if s.shutdown then 1 else 0))
    case Exited => s
  }

  // ---------------------------------------------------------------- exceptions in flight

  /** An exception leaves the called frame and reaches the caller's `try`, or the thread's start. */
  function Unwind(s: System, t: nat, e: Exn): System
    requires t < |s.threads|
  {
    var th := s.threads[t];
    match th.stack
    case Empty => s.(crashed := true)
    case Push(Body(c, Finishing(true)), below) =>
      SetThread(s, t, th.(stack := Push(Body(c, Catching(e)), below), exn := None))
    case Push(Body(c, InUser(_)), below) =>
      if c < |s.cells| && s.cells[c].origin.Detached? then SetStack(s, t, below)
      else SetThread(s, t, th.(stack := Push(Body(c, Catching(e)), below), exn := None))
    case Push(_, below) => SetStack(s, t, below)
  }

  // ---------------------------------------------------------------- steps and runs

  /** The thread's own next instruction is not blocked. */
  predicate CanRun(s: System, t: nat)
    requires t < |s.threads|
  {
    var th := s.threads[t];
    th.exn.None? ==>
      match th.stack
      case Push(f, _) => CanRunFrame(s, f)
      case Empty => th.base.Worker? && CanRunWorker(s, t, th.base.pc)
  }

  function RunThread(s: System, t: nat): System
    requires t < |s.threads| && CanRun(s, t)
  {
    var th := s.threads[t];
    if th.exn.Some? then Unwind(s, t, th.exn.value)
    else
      match th.stack
      case Push(f, below) => RunFrame(s, t, f, below)
      case Empty => RunWorker(s, t, th.base.pc)
  }

  predicate Enabled(s: System, t: nat, l: Label) {
    && t < |s.threads| && !s.crashed
    && if l.Own? then CanRun(s, t) else CanCall(s, t, l)
  }

  function Do(s: System, t: nat, l: Label): System
    requires Enabled(s, t, l)
  {
    if l.Own? then RunThread(s, t) else Call(s, t, l)
  }

  /** The predicate holds of every constructed pool and is kept by every step of every thread. */
  ghost predicate Inductive(p: System -> bool) {
    && (forall s: System :: Init(s) ==> p(s))
    && (forall s: System, t: nat, l: Label :: p(s) && Enabled(s, t, l) ==> p(Do(s, t, l)))
  }

  /** Reachable states: those of which every inductive predicate holds. */
  ghost predicate Reachable(s: System) {
    forall p: System -> bool :: Inductive(p) ==> p(s)
  }

  /** A finite run: an initial state and the steps the scheduler picked. */
  datatype Run = Start(s: System) | Then(prev: Run, t: nat, l: Label)

  function Last(r: Run): System {
    match r
    case Start(s) => s
    case Then(p, t, l) => if Enabled(Last(p), t, l) then Do(Last(p), t, l) else Last(p)
  }

  ghost predicate IsRun(r: Run) {
    match r
    case Start(s) => Init(s)
    case Then(p, t, l) => IsRun(p) && Enabled(Last(p), t, l)
  }
}
