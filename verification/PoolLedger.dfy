/**
 Counting over a whole pool state: how many frames, queue entries and stored continuations hold
 the obligation to complete a given future, and how much counted work exists.  Every count is one
 `Measure`, so one update law per container serves them all.
 */
module PoolLedger {
  import opened Words
  import opened Wrappers
  import opened PoolModel

  datatype Measure =
    | Holding(c: nat)     // anywhere: the sum of the next five
    | Pending(c: nat)     // in a posting frame, not yet in a deque
    | Queued(c: nat)      // in some deque
    | InHands(c: nat)     // being executed by some thread
    | Stored(c: nat)      // stored as another state's continuation
    | Registering(c: nat) // closure made, registration not yet decided
    | Returning(c: nat)   // the creating call has not returned yet
    | NotStarted(c: nat)  // anywhere, with its callback not yet entered
    | Work                // what `unfinished_` is meant to count

  function One(b: bool): nat { if b then 1 else 0 }

  /** The frame holds the obligation to complete `f.cell`. */
  predicate Holds(f: Frame) {
    f.Choose? || f.Count? || f.PushTo? || f.Register? || (f.Body? && !f.pc.Finishing?)
  }

  predicate Posting(f: Frame) { f.Choose? || f.Count? || f.PushTo? }

  function FrameM(f: Frame, m: Measure): nat {
    if Waiting(f) then 0 else
    match m
    case Holding(c) => One(Holds(f) && f.cell == c)
    case Pending(c) => One(Posting(f) && f.cell == c)
    case InHands(c) => One(f.Body? && !f.pc.Finishing? && f.cell == c)
    case Registering(c) => One(f.Register? && f.cell == c)
    case Returning(c) => One(f.Return? && f.cell == c)
    case NotStarted(c) => One((Posting(f) || f.Register? || (f.Body? && f.pc.Begin?)) && f.cell == c)
    case Work => One(f.PushTo?)
    case Queued(_) => 0
    case Stored(_) => 0
  }

  function StackM(k: Stack, m: Measure): nat {
    match k
    case Empty => 0
    case Push(f, below) => FrameM(f, m) + StackM(below, m)
  }

  function ThreadM(th: Thread, m: Measure): nat {
    One(m.Work? && th.base.Worker? && (th.base.pc.Running? || th.base.pc.Discount?)) + StackM(th.stack, m)
  }

  /** The sum over the first n threads. */
  function ThreadsM(ths: seq<Thread>, n: nat, m: Measure): nat
    requires n <= |ths|
  {
    if n == 0 then 0 else ThreadsM(ths, n - 1, m) + ThreadM(ths[n - 1], m)
  }

  function EntryM(e: Entry, m: Measure): nat {
    match m
    case Holding(c) => One(e.cell == c)
    case Queued(c) => One(e.cell == c)
    case NotStarted(c) => One(e.cell == c)
    case Work => 1
    case _ => 0
  }

  function QueueM(q: seq<Entry>, n: nat, m: Measure): nat
    requires n <= |q|
  {
    if n == 0 then 0 else QueueM(q, n - 1, m) + EntryM(q[n - 1], m)
  }

  function QueuesM(qs: seq<seq<Entry>>, n: nat, m: Measure): nat
    requires n <= |qs|
  {
    if n == 0 then 0 else QueuesM(qs, n - 1, m) + QueueM(qs[n - 1], |qs[n - 1]|, m)
  }

  function CellM(cell: Cell, m: Measure): nat {
    match m
    case Holding(c) => One(cell.state.continuation == Some(c))
    case Stored(c) => One(cell.state.continuation == Some(c))
    case NotStarted(c) => One(cell.state.continuation == Some(c))
    case _ => 0
  }

  function CellsM(cells: seq<Cell>, n: nat, m: Measure): nat
    requires n <= |cells|
  {
    if n == 0 then 0 else CellsM(cells, n - 1, m) + CellM(cells[n - 1], m)
  }

  function Total(s: System, m: Measure): nat {
    ThreadsM(s.threads, |s.threads|, m) + QueuesM(s.queues, |s.queues|, m) + CellsM(s.cells, |s.cells|, m)
  }

  // ---------------------------------------------------------------- update laws

  lemma {:induction false} ThreadsUpdate(ths: seq<Thread>, t: nat, th: Thread, n: nat, m: Measure)
    requires t < |ths| && n <= |ths|
    ensures ThreadsM(ths[t := th], n, m) + (if t < n then ThreadM(ths[t], m) else 0)
         == ThreadsM(ths, n, m) + (if t < n then ThreadM(th, m) else 0)
  {
    if n > 0 {
      ThreadsUpdate(ths, t, th, n - 1, m);
    }
  }

  lemma {:induction false} QueuesUpdate(qs: seq<seq<Entry>>, w: nat, q: seq<Entry>, n: nat, m: Measure)
    requires w < |qs| && n <= |qs|
    ensures QueuesM(qs[w := q], n, m) + (if w < n then QueueM(qs[w], |qs[w]|, m) else 0)
         == QueuesM(qs, n, m) + (if w < n then QueueM(q, |q|, m) else 0)
  {
    if n > 0 {
      QueuesUpdate(qs, w, q, n - 1, m);
    }
  }

  /** Only the continuation stored in state c may differ. */
  lemma {:induction false} CellsUpdate(cells: seq<Cell>, cells': seq<Cell>, c: nat, n: nat, m: Measure)
    requires n <= |cells| == |cells'|
    requires forall i :: 0 <= i < |cells| && i != c ==> cells'[i].state.continuation == cells[i].state.continuation
    ensures CellsM(cells', n, m) + (if c < n then CellM(cells[c], m) else 0)
         == CellsM(cells, n, m) + (if c < n then CellM(cells'[c], m) else 0)
  {
    if n > 0 {
      CellsUpdate(cells, cells', c, n - 1, m);
    }
  }

  lemma {:induction false} CellsPrefix(cells: seq<Cell>, cell: Cell, n: nat, m: Measure)
    requires n <= |cells|
    ensures CellsM(cells + [cell], n, m) == CellsM(cells, n, m)
  {
    if n > 0 {
      CellsPrefix(cells, cell, n - 1, m);
    }
  }

  /** A deque's sum, its first element split off. */
  lemma {:induction false} QueueShift(q: seq<Entry>, n: nat, m: Measure)
    requires 0 < n <= |q|
    ensures QueueM(q, n, m) == EntryM(q[0], m) + QueueM(q[1..], n - 1, m)
  {
    if n > 1 {
      QueueShift(q, n - 1, m);
    }
  }

  lemma {:induction false} QueuePrefix(q: seq<Entry>, k: nat, n: nat, m: Measure)
    requires n <= k <= |q|
    ensures QueueM(q[..k], n, m) == QueueM(q, n, m)
  {
    if n > 0 {
      QueuePrefix(q, k, n - 1, m);
    }
  }

  lemma QueuePushFront(q: seq<Entry>, e: Entry, m: Measure)
    ensures QueueM([e] + q, |q| + 1, m) == EntryM(e, m) + QueueM(q, |q|, m)
  {
    QueueShift([e] + q, |q| + 1, m);
    assert ([e] + q)[1..] == q;
  }

  lemma QueuePopFront(q: seq<Entry>, m: Measure)
    requires |q| > 0
    ensures QueueM(q, |q|, m) == EntryM(q[0], m) + QueueM(q[1..], |q| - 1, m)
  {
    QueueShift(q, |q|, m);
  }

  lemma QueuePopBack(q: seq<Entry>, m: Measure)
    requires |q| > 0
    ensures QueueM(q, |q|, m) == QueueM(q[..|q| - 1], |q| - 1, m) + EntryM(q[|q| - 1], m)
  {
    QueuePrefix(q, |q| - 1, |q| - 1, m);
  }

  // ---------------------------------------------------------------- single items are counted

  lemma {:induction false} ThreadCounts(ths: seq<Thread>, t: nat, n: nat, m: Measure)
    requires t < n <= |ths|
    ensures ThreadM(ths[t], m) <= ThreadsM(ths, n, m)
  {
    if t < n - 1 {
      ThreadCounts(ths, t, n - 1, m);
    }
  }

  lemma {:induction false} QueueCounts(qs: seq<seq<Entry>>, w: nat, n: nat, m: Measure)
    requires w < n <= |qs|
    ensures QueueM(qs[w], |qs[w]|, m) <= QueuesM(qs, n, m)
  {
    if w < n - 1 {
      QueueCounts(qs, w, n - 1, m);
    }
  }

  lemma {:induction false} QueueLength(q: seq<Entry>, n: nat)
    requires n <= |q|
    ensures QueueM(q, n, Work) == n
  {
    if n > 0 {
      QueueLength(q, n - 1);
    }
  }

  // ---------------------------------------------------------------- a positive count has a witness

  lemma {:induction false} ThreadWitness(ths: seq<Thread>, n: nat, m: Measure) returns (t: nat)
    requires n <= |ths| && ThreadsM(ths, n, m) > 0
    ensures t < n && ThreadM(ths[t], m) > 0
  {
    if ThreadM(ths[n - 1], m) > 0 {
      t := n - 1;
    } else {
      t := ThreadWitness(ths, n - 1, m);
    }
  }

  lemma {:induction false} CellWitness(cells: seq<Cell>, n: nat, m: Measure) returns (c: nat)
    requires n <= |cells| && CellsM(cells, n, m) > 0
    ensures c < n && CellM(cells[c], m) > 0
  {
    if CellM(cells[n - 1], m) > 0 {
      c := n - 1;
    } else {
      c := CellWitness(cells, n - 1, m);
    }
  }

  // ---------------------------------------------------------------- the initial ledger is empty

  lemma {:induction false} NoThreads(ths: seq<Thread>, n: nat, m: Measure)
    requires n <= |ths| && forall t :: 0 <= t < |ths| ==> ThreadM(ths[t], m) == 0
    ensures ThreadsM(ths, n, m) == 0
  {
    if n > 0 {
      NoThreads(ths, n - 1, m);
    }
  }

  lemma {:induction false} NoQueues(qs: seq<seq<Entry>>, n: nat, m: Measure)
    requires n <= |qs| && forall w :: 0 <= w < |qs| ==> qs[w] == []
    ensures QueuesM(qs, n, m) == 0
  {
    if n > 0 {
      NoQueues(qs, n - 1, m);
    }
  }

  lemma {:induction false} NoCells(cells: seq<Cell>, n: nat, m: Measure)
    requires n <= |cells| && forall c :: 0 <= c < |cells| ==> CellM(cells[c], m) == 0
    ensures CellsM(cells, n, m) == 0
  {
    if n > 0 {
      NoCells(cells, n - 1, m);
    }
  }

  // ---------------------------------------------------------------- the ledger

  /**
   The books balance for state c: its obligation is in exactly one place until it is completed or
   dropped; its creating call returns once; its registration is decided once; its callback is
   entered at most once, and never after it was dropped.
   */
  ghost predicate Balanced(s: System, c: nat) {
    if c < |s.cells| then
      var cell := s.cells[c];
      && Total(s, Holding(c)) + One(cell.state.promise.Some?) + One(cell.fate.Dropped?) == 1
      && Total(s, Returning(c)) + One(cell.published) == 1
      && Total(s, Registering(c)) + One(!cell.fate.Undecided?) == One(cell.origin.Chained?)
      && Total(s, NotStarted(c)) + cell.calls + One(cell.fate.Dropped?) <= 1
    else
      && Total(s, Holding(c)) == 0 && Total(s, Registering(c)) == 0
      && Total(s, Returning(c)) == 0 && Total(s, NotStarted(c)) == 0
  }

  /** `unfinished_` is the number of counted tasks, as an atomic 64-bit word. */
  ghost predicate WorkCounted(s: System) {
    s.unfinished == Total(s, Work) % WORD
  }
}
