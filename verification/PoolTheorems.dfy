/** What the pool promises its users, in every reachable state under every schedule. */
module PoolTheorems {
  import opened Words
  import opened Wrappers
  import opened Outcomes
  import opened PoolModel
  import opened PoolLedger
  import opened PoolInvariant
  import opened PoolSteps
  import PoolGrowth

  // ---------------------------------------------------------------- the invariant, piece by piece

  lemma ThreadFacts(s: System, t: nat)
    requires Reachable(s) && t < |s.threads|
    ensures ThreadOk(s, t) && 0 < |s.queues| <= |s.threads|
  {
    ReachableInv(s);
  }

  lemma CellFacts(s: System, c: nat)
    requires Reachable(s) && c < |s.cells|
    ensures CellOk(s.cells, c) && Balanced(s, c)
  {
    ReachableInv(s);
  }

  lemma QueueFacts(s: System, w: nat)
    requires Reachable(s) && w < |s.queues|
    ensures QueueOk(s, w) && |s.queues| <= |s.threads|
  {
    ReachableInv(s);
  }

  // ---------------------------------------------------------------- work accounting

  /** Frames of posting calls that have counted their task and not pushed it yet. */
  function CountedFrames(k: Stack): nat {
    match k
    case Empty => 0
    case Push(f, below) => (if f.PushTo? then 1 else 0) + CountedFrames(below)
  }

  function CountedNotPushed(ths: seq<Thread>, n: nat): nat
    requires n <= |ths|
  {
    if n == 0 then 0 else CountedNotPushed(ths, n - 1) + CountedFrames(ths[n - 1].stack)
  }

  function QueueLengths(qs: seq<seq<Entry>>, n: nat): nat
    requires n <= |qs|
  {
    if n == 0 then 0 else QueueLengths(qs, n - 1) + |qs[n - 1]|
  }

  /** Workers between taking a task and decrementing the counter. */
  function BusyWorkers(ths: seq<Thread>, n: nat): nat
    requires n <= |ths|
  {
    if n == 0 then 0
    else
      BusyWorkers(ths, n - 1)
      + (if ths[n - 1].base == Worker(Running) || ths[n - 1].base == Worker(Discount) then 1 else 0)
  }

  function Outstanding(s: System): nat {
    CountedNotPushed(s.threads, |s.threads|) + QueueLengths(s.queues, |s.queues|) + BusyWorkers(s.threads, |s.threads|)
  }

  lemma {:induction false} StackWork(k: Stack)
    ensures StackM(k, Work) == CountedFrames(k)
    decreases k
  {
    if k.Push? { StackWork(k.below); }
  }

  lemma {:induction false} ThreadsWork(ths: seq<Thread>, n: nat)
    requires n <= |ths|
    ensures ThreadsM(ths, n, Work) == CountedNotPushed(ths, n) + BusyWorkers(ths, n)
  {
    if n > 0 {
      ThreadsWork(ths, n - 1);
      StackWork(ths[n - 1].stack);
    }
  }

  lemma {:induction false} QueuesWork(qs: seq<seq<Entry>>, n: nat)
    requires n <= |qs|
    ensures QueuesM(qs, n, Work) == QueueLengths(qs, n)
  {
    if n > 0 {
      QueuesWork(qs, n - 1);
      QueueLength(qs[n - 1], |qs[n - 1]|);
    }
  }

  lemma {:induction false} CellsWork(cells: seq<Cell>, n: nat)
    requires n <= |cells|
    ensures CellsM(cells, n, Work) == 0
  {
    if n > 0 { CellsWork(cells, n - 1); }
  }

  lemma OutstandingIsWork(s: System)
    ensures Total(s, Work) == Outstanding(s)
  {
    ThreadsWork(s.threads, |s.threads|);
    QueuesWork(s.queues, |s.queues|);
    CellsWork(s.cells, |s.cells|);
  }

  /** The atomic counter is the number of counted tasks, modulo its own width. */
  lemma WorkAccounting(s: System)
    requires Reachable(s)
    ensures s.unfinished == Outstanding(s) % WORD
  {
    ReachableInv(s);
    OutstandingIsWork(s);
  }

  lemma {:induction false} QueueLengthCounts(qs: seq<seq<Entry>>, w: nat, n: nat)
    requires w < n <= |qs|
    ensures |qs[w]| <= QueueLengths(qs, n)
  {
    if w < n - 1 { QueueLengthCounts(qs, w, n - 1); }
  }

  lemma {:induction false} BusyCounts(ths: seq<Thread>, t: nat, n: nat)
    requires t < n <= |ths|
    requires ths[t].base == Worker(Running) || ths[t].base == Worker(Discount)
    ensures BusyWorkers(ths, n) >= 1
  {
    if t < n - 1 { BusyCounts(ths, t, n - 1); }
  }

  /** A sleeping worker's predicate holds whenever some deque has work. */
  lemma SleepersSeeWork(s: System, w: nat, t: nat)
    requires Reachable(s) && Outstanding(s) < WORD
    requires w < |s.queues| && |s.queues[w]| > 0
    requires t < |s.threads| && s.threads[t].stack.Empty? && s.threads[t].exn.None?
    requires s.threads[t].base == Worker(Sleeping)
    ensures CanRun(s, t)
  {
    WorkAccounting(s);
    QueueLengthCounts(s.queues, w, |s.queues|);
  }

  /** A sleeping worker may go on exactly when there is counted work, queued or not, or the flag is set. */
  lemma SleeperWakesIff(s: System, t: nat)
    requires Reachable(s) && Outstanding(s) < WORD && !s.crashed
    requires t < |s.threads| && s.threads[t].stack.Empty? && s.threads[t].exn.None?
    requires s.threads[t].base == Worker(Sleeping)
    ensures Enabled(s, t, Own) <==> s.shutdown || Outstanding(s) > 0
  {
    WorkAccounting(s);
  }

  /** The decrement of `unfinished_` never underflows. */
  lemma NoUnderflow(s: System, t: nat)
    requires Reachable(s) && Outstanding(s) < WORD
    requires t < |s.threads| && s.threads[t].base == Worker(Discount) && Enabled(s, t, Own)
    requires s.threads[t].stack.Empty? && s.threads[t].exn.None?
    ensures s.unfinished >= 1 && Do(s, t, Own).unfinished == s.unfinished - 1
  {
    WorkAccounting(s);
    BusyCounts(s.threads, t, |s.threads|);
    DecrementExact(s.unfinished);
  }

  lemma DecrementExact(n: nat)
    requires 1 <= n < WORD
    ensures Decremented(n) == n - 1
  {
  }

  // ---------------------------------------------------------------- places of a task

  lemma {:induction false} StackSplit(k: Stack, c: nat)
    ensures StackM(k, Holding(c))
         == StackM(k, Pending(c)) + StackM(k, InHands(c)) + StackM(k, Registering(c))
    ensures StackM(k, Queued(c)) == 0 && StackM(k, Stored(c)) == 0
    decreases k
  {
    if k.Push? { StackSplit(k.below, c); }
  }

  lemma {:induction false} ThreadsSplit(ths: seq<Thread>, n: nat, c: nat)
    requires n <= |ths|
    ensures ThreadsM(ths, n, Holding(c))
         == ThreadsM(ths, n, Pending(c)) + ThreadsM(ths, n, InHands(c)) + ThreadsM(ths, n, Registering(c))
    ensures ThreadsM(ths, n, Queued(c)) == 0 && ThreadsM(ths, n, Stored(c)) == 0
  {
    if n > 0 {
      ThreadsSplit(ths, n - 1, c);
      StackSplit(ths[n - 1].stack, c);
    }
  }

  lemma {:induction false} QueueSplit(q: seq<Entry>, n: nat, c: nat)
    requires n <= |q|
    ensures QueueM(q, n, Holding(c)) == QueueM(q, n, Queued(c))
    ensures QueueM(q, n, Pending(c)) == 0 && QueueM(q, n, InHands(c)) == 0
    ensures QueueM(q, n, Registering(c)) == 0 && QueueM(q, n, Stored(c)) == 0
  {
    if n > 0 { QueueSplit(q, n - 1, c); }
  }

  lemma {:induction false} QueuesSplit(qs: seq<seq<Entry>>, n: nat, c: nat)
    requires n <= |qs|
    ensures QueuesM(qs, n, Holding(c)) == QueuesM(qs, n, Queued(c))
    ensures QueuesM(qs, n, Pending(c)) == 0 && QueuesM(qs, n, InHands(c)) == 0
    ensures QueuesM(qs, n, Registering(c)) == 0 && QueuesM(qs, n, Stored(c)) == 0
  {
    if n > 0 {
      QueuesSplit(qs, n - 1, c);
      QueueSplit(qs[n - 1], |qs[n - 1]|, c);
    }
  }

  lemma {:induction false} CellsSplit(cells: seq<Cell>, n: nat, c: nat)
    requires n <= |cells|
    ensures CellsM(cells, n, Holding(c)) == CellsM(cells, n, Stored(c))
    ensures CellsM(cells, n, Pending(c)) == 0 && CellsM(cells, n, InHands(c)) == 0
    ensures CellsM(cells, n, Registering(c)) == 0 && CellsM(cells, n, Queued(c)) == 0
  {
    if n > 0 { CellsSplit(cells, n - 1, c); }
  }

  /** The five places partition the holders of an obligation. */
  lemma HoldingSplit(s: System, c: nat)
    ensures Total(s, Holding(c)) == Total(s, Pending(c)) + Total(s, Queued(c)) + Total(s, InHands(c))
                                  + Total(s, Stored(c)) + Total(s, Registering(c))
  {
    ThreadsSplit(s.threads, |s.threads|, c);
    QueuesSplit(s.queues, |s.queues|, c);
    CellsSplit(s.cells, |s.cells|, c);
  }

  /** Only a chained closure is ever stored as somebody's continuation. */
  lemma StoredIsChained(s: System, c: nat)
    requires Inv(s) && c < |s.cells| && !s.cells[c].origin.Chained?
    ensures Total(s, Stored(c)) == 0
  {
    ThreadsSplit(s.threads, |s.threads|, c);
    QueuesSplit(s.queues, |s.queues|, c);
    forall p | 0 <= p < |s.cells| ensures CellM(s.cells[p], Stored(c)) == 0 {
      assert CellOk(s.cells, p);
    }
    NoCells(s.cells, |s.cells|, Stored(c));
  }

  /**
   Every task, whether posted or re-posted as a continuation, is in exactly one place: a posting
   call, one deque, one thread's hands, one predecessor's record, an undecided registration, done,
   or dropped.  Its callback is entered at most once.  Only a chained one can be stored, registering
   or dropped.
   */
  lemma TaskInOnePlace(s: System, c: nat)
    requires Reachable(s) && c < |s.cells|
    ensures Total(s, Pending(c)) + Total(s, Queued(c)) + Total(s, InHands(c)) + Total(s, Stored(c))
          + Total(s, Registering(c)) + One(s.cells[c].state.completed) + One(s.cells[c].fate.Dropped?) == 1
    ensures s.cells[c].calls <= 1
    ensures !s.cells[c].origin.Chained? ==>
      Total(s, Stored(c)) == 0 && Total(s, Registering(c)) == 0 && !s.cells[c].fate.Dropped?
  {
    ReachableInv(s);
    assert Balanced(s, c);
    assert CellOk(s.cells, c);
    HoldingSplit(s, c);
    if !s.cells[c].origin.Chained? {
      StoredIsChained(s, c);
    }
  }

  // ---------------------------------------------------------------- no double completion

  /**
   Wherever a thread is about to satisfy a promise, the promise is empty.  So no body but that of a
   detached task throws out of its frame: a step puts an exception in flight only if it is such a
   body's own, and only an exception in flight ends the process.
   */
  lemma NoDoubleCompletion(s: System, t: nat)
    requires Reachable(s) && t < |s.threads|
    ensures var k := s.threads[t].stack;
      k.Push? && k.top.Body? && (k.top.pc.Setting? || k.top.pc.Catching?) ==>
        k.top.cell < |s.cells| && s.cells[k.top.cell].state.promise.None?
    ensures s.threads[t].exn.Some? || s.crashed ==> DetachedThrew(s.cells)
    ensures forall l: Label :: Enabled(s, t, l) && s.threads[t].exn.None? && !PoolGrowth.DetachedThrows(s, t) ==>
      t < |Do(s, t, l).threads| && Do(s, t, l).threads[t].exn.None? && !Do(s, t, l).crashed
  {
    ReachableInv(s);
    assert ThreadOk(s, t);
    forall l: Label | Enabled(s, t, l) && s.threads[t].exn.None? && !PoolGrowth.DetachedThrows(s, t)
      ensures t < |Do(s, t, l).threads| && Do(s, t, l).threads[t].exn.None? && !Do(s, t, l).crashed
    {
      PoolGrowth.NoExceptionEscapes(s, t, l, t);
    }
    var k := s.threads[t].stack;
    if k.Push? && k.top.Body? && (k.top.pc.Setting? || k.top.pc.Catching?) {
      assert Balanced(s, k.top.cell);
      TopHolds(s, t);
    }
  }

  // ---------------------------------------------------------------- meaning of chains

  /** The outcome a future must have, by the way it was created. */
  ghost function Meaning(cells: seq<Cell>, c: nat): Outcome
    requires CellsOk(cells) && c < |cells|
    decreases c
  {
    match cells[c].origin
    case Posted(body) => body()
    case Detached(body) => body()
    case Chained(p, fn, _) =>
      assert CellOk(cells, c);
      Bind(Meaning(cells, p), fn)
  }

  lemma {:induction false} CompletedMeans(cells: seq<Cell>, c: nat)
    requires CellsOk(cells) && c < |cells| && cells[c].state.promise.Some?
    ensures cells[c].state.promise.value == Meaning(cells, c)
    decreases c
  {
    assert CellOk(cells, c);
    if cells[c].origin.Chained? {
      CompletedMeans(cells, cells[c].origin.parent);
    }
  }

  /** `post(f0).then(f1)...`: each state was chained on the one before. */
  ghost predicate IsChain(cells: seq<Cell>, ids: seq<nat>) {
    && |ids| > 0
    && (forall i :: 0 <= i < |ids| ==> ids[i] < |cells|)
    && cells[ids[0]].origin.Posted?
    && (forall i :: 1 <= i < |ids| ==>
          cells[ids[i]].origin.Chained? && cells[ids[i]].origin.parent == ids[i - 1])
  }

  /** The callbacks f1..fk of a chain. */
  function Callbacks(cells: seq<Cell>, ids: seq<nat>): seq<Callback>
    requires IsChain(cells, ids)
  {
    seq(|ids| - 1, i requires 0 <= i < |ids| - 1 => cells[ids[i + 1]].origin.fn)
  }

  function ChainFold(cells: seq<Cell>, ids: seq<nat>): Outcome
    requires IsChain(cells, ids)
  {
    Fold(cells[ids[0]].origin.body(), Callbacks(cells, ids))
  }

  lemma {:induction false} ChainMeans(cells: seq<Cell>, ids: seq<nat>)
    requires CellsOk(cells) && IsChain(cells, ids)
    ensures Meaning(cells, ids[|ids| - 1]) == ChainFold(cells, ids)
    decreases |ids|
  {
    var n := |ids| - 1;
    if n > 0 {
      var front := ids[..n];
      assert IsChain(cells, front);
      ChainMeans(cells, front);
      var f := cells[ids[n]].origin.fn;
      assert Callbacks(cells, ids) == Callbacks(cells, front) + [f];
      FoldSnoc(cells[ids[0]].origin.body(), Callbacks(cells, front), f);
      assert cells[ids[n]].origin.parent == ids[n - 1];
    }
  }

  /**
   Chain meaning: under every schedule, and whichever links were inline, a completed end of a chain
   holds the fold of the callbacks in the result-or-exception monad.
   */
  lemma ChainMeaning(s: System, ids: seq<nat>)
    requires Reachable(s) && IsChain(s.cells, ids) && s.cells[ids[|ids| - 1]].state.promise.Some?
    ensures s.cells[ids[|ids| - 1]].state.promise.value == ChainFold(s.cells, ids)
  {
    ReachableInv(s);
    CompletedMeans(s.cells, ids[|ids| - 1]);
    ChainMeans(s.cells, ids);
  }

  /** A link that threw decides the whole chain: its fold is that exception. */
  lemma ThrowDecides(s: System, ids: seq<nat>, j: nat)
    requires Reachable(s) && IsChain(s.cells, ids) && j < |ids|
    requires s.cells[ids[j]].state.promise.Some? && s.cells[ids[j]].state.promise.value.Thrown?
    ensures ChainFold(s.cells, ids) == s.cells[ids[j]].state.promise.value
  {
    var front := ids[..j + 1];
    assert IsChain(s.cells, front) && front[|front| - 1] == ids[j];
    ChainMeaning(s, front);
    var fs, all := Callbacks(s.cells, front), Callbacks(s.cells, ids);
    assert all == fs + all[j..];
    FoldSplit(s.cells[ids[0]].origin.body(), fs, all[j..]);
    FoldThrown(s.cells[ids[j]].state.promise.value.e, all[j..]);
  }

  /** After a callback (or a propagated exception) threw at link j, no later callback is ever entered. */
  lemma {:induction false} NoCallAfterThrow(s: System, ids: seq<nat>, j: nat, k: nat)
    requires Reachable(s) && IsChain(s.cells, ids) && j < k < |ids|
    requires s.cells[ids[j]].state.promise.Some? && s.cells[ids[j]].state.promise.value.Thrown?
    ensures s.cells[ids[k]].calls == 0
    ensures s.cells[ids[k]].state.promise.Some? ==> s.cells[ids[k]].state.promise == s.cells[ids[j]].state.promise
    ensures ChainFold(s.cells, ids) == s.cells[ids[j]].state.promise.value
    decreases k
  {
    ReachableInv(s);
    assert CellOk(s.cells, ids[k]);
    assert s.cells[ids[k]].origin.parent == ids[k - 1];
    ThrowDecides(s, ids, j);
    if k - 1 > j {
      NoCallAfterThrow(s, ids, j, k - 1);
    }
  }

  // ---------------------------------------------------------------- the continuation race

  /**
   One completer against any number of registrars.  If a continuation was stored before completion
   then it alone is ever started and every other decided registration was dropped; otherwise every
   decided registration came after completion.  No callback runs twice, and none before its
   predecessor has completed.
   */
  lemma ContinuationRace(s: System, p: nat, c: nat, c': nat)
    requires Reachable(s) && p < |s.cells| && c < |s.cells| && c' < |s.cells|
    requires s.cells[c].origin.Chained? && s.cells[c].origin.parent == p
    requires s.cells[c'].origin.Chained? && s.cells[c'].origin.parent == p
    ensures s.cells[c].fate.StoredFirst? && c' != c ==> s.cells[c'].fate.Undecided? || s.cells[c'].fate.Dropped?
    ensures s.cells[c].fate.Dropped? ==> s.cells[p].first.Some? && s.cells[c].calls == 0 && !s.cells[c].state.completed
    ensures s.cells[c].fate.RanAfter? ==>
      s.cells[p].state.completed && !s.cells[c'].fate.StoredFirst? && !s.cells[c'].fate.Dropped?
    ensures s.cells[c].calls <= 1
    ensures s.cells[c].calls == 1 || s.cells[c].state.completed ==> s.cells[p].state.completed
  {
    ReachableInv(s);
    assert CellOk(s.cells, p);
    assert CellOk(s.cells, c);
    assert CellOk(s.cells, c');
    assert Balanced(s, c);
    if s.cells[c].fate.Dropped? {
      PoolGrowth.DroppedNeverStarts(s, c);
    }
  }

  /** The guard of each branch of `set_continuation`, read off the predecessor before the step. */
  lemma RegistrationDecides(s: System, t: nat, c: nat, below: Stack)
    requires Enabled(s, t, Own) && s.threads[t].exn.None?
    requires s.threads[t].stack == Push(Register(c), below)
    ensures c < |s.cells| && s.cells[c].origin.Chained? && s.cells[c].origin.parent < c
    ensures var before := s.cells[s.cells[c].origin.parent].state;
      var cells' := Do(s, t, Own).cells;
      && |cells'| == |s.cells|
      && (cells'[c].fate.Dropped? <==> before.continuationSet)
      && (cells'[c].fate.RanAfter? <==> !before.continuationSet && before.completed)
      && (cells'[c].fate.StoredFirst? <==> !before.continuationSet && !before.completed)
  {
  }

  /** A decided registration was dropped exactly when its predecessor stored another continuation. */
  lemma DroppedIff(s: System, c: nat, p: nat)
    requires Reachable(s) && c < |s.cells| && p < |s.cells|
    requires s.cells[c].origin.Chained? && s.cells[c].origin.parent == p && !s.cells[c].fate.Undecided?
    ensures s.cells[c].fate.Dropped? <==> s.cells[p].first.Some? && s.cells[p].first != Some(c)
  {
    ReachableInv(s);
    assert CellOk(s.cells, p);
    assert CellOk(s.cells, c);
  }

  // ---------------------------------------------------------------- quiescence

  /** Neither this registration nor any it was chained on was dropped. */
  ghost predicate Accepted(cells: seq<Cell>, c: nat)
    requires CellsOk(cells) && c < |cells|
    decreases c
  {
    && !cells[c].fate.Dropped?
    && match cells[c].origin
       case Chained(p, _, _) =>
         assert CellOk(cells, c);
         Accepted(cells, p)
       case _ => true
  }

  lemma {:induction false} ClientReturns(cells: seq<Cell>, k: Stack, c: nat)
    requires ClientOk(cells, k) && StackM(k, Holding(c)) > 0
    ensures StackM(k, Returning(c)) > 0
    decreases k
  {
    if Holds(k.top) && k.top.cell == c {
      assert FrameM(k.below.top, Returning(c)) == 1;
    } else {
      ClientReturns(cells, k.below, c);
    }
  }

  /** With no counted work, no thread holds a state whose creating call has returned. */
  lemma NobodyHolds(s: System, t: nat, c: nat)
    requires Inv(s) && Outstanding(s) == 0 && t < |s.threads|
    requires c < |s.cells| && s.cells[c].published
    ensures ThreadM(s.threads[t], Holding(c)) == 0
  {
    assert ThreadOk(s, t);
    var th := s.threads[t];
    if StackM(th.stack, Holding(c)) > 0 {
      if t < |s.queues| {
        BusyCounts(s.threads, t, |s.threads|);
      } else {
        assert Balanced(s, c);
        ThreadCounts(s.threads, t, |s.threads|, Returning(c));
        ClientReturns(s.cells, th.stack, c);
      }
    }
  }

  lemma NoQueueHolds(s: System, w: nat)
    requires Outstanding(s) == 0 && w < |s.queues|
    ensures s.queues[w] == []
  {
    QueueLengthCounts(s.queues, w, |s.queues|);
  }

  /** An unsettled published state must then be stored as the continuation of an unsettled parent. */
  lemma OnlyStored(s: System, c: nat) returns (p: nat)
    requires Inv(s) && Outstanding(s) == 0
    requires c < |s.cells| && s.cells[c].published && !s.cells[c].state.completed && !s.cells[c].fate.Dropped?
    ensures s.cells[c].origin.Chained? && p == s.cells[c].origin.parent && p < c
    ensures s.cells[p].published && !s.cells[p].state.completed
  {
    assert CellOk(s.cells, c);
    assert Balanced(s, c);
    forall t | 0 <= t < |s.threads| ensures ThreadM(s.threads[t], Holding(c)) == 0 {
      NobodyHolds(s, t, c);
    }
    NoThreads(s.threads, |s.threads|, Holding(c));
    forall w | 0 <= w < |s.queues| ensures s.queues[w] == [] {
      NoQueueHolds(s, w);
    }
    NoQueues(s.queues, |s.queues|, Holding(c));
    p := CellWitness(s.cells, |s.cells|, Holding(c));
    assert CellOk(s.cells, p);
  }

  lemma {:induction false} QuiescentCompleted(s: System, c: nat)
    requires Inv(s) && Outstanding(s) == 0
    requires c < |s.cells| && s.cells[c].published && Accepted(s.cells, c)
    ensures s.cells[c].state.completed
    decreases c
  {
    if !s.cells[c].state.completed {
      var p := OnlyStored(s, c);
      QuiescentCompleted(s, p);
    }
  }

  lemma {:induction false} CompletedAccepted(s: System, c: nat)
    requires Inv(s) && c < |s.cells| && s.cells[c].state.completed
    ensures Accepted(s.cells, c)
    decreases c
  {
    assert CellOk(s.cells, c);
    assert Balanced(s, c);
    if s.cells[c].origin.Chained? {
      assert CellOk(s.cells, s.cells[c].origin.parent);
      CompletedAccepted(s, s.cells[c].origin.parent);
    }
  }

  /** Of a completed state the callback has run exactly once if it was due, and never otherwise. */
  lemma CompletedCalls(s: System, c: nat)
    requires Inv(s) && c < |s.cells| && s.cells[c].state.completed
    ensures s.cells[c].calls == One(Called(s.cells, c))
  {
    assert CellOk(s.cells, c);
    assert Balanced(s, c);
  }

  /**
   Quiescence: when the counter reads 0, nothing is counted, queued or running, and a future that was
   handed to a caller is completed if and only if neither its registration nor one it was chained on
   was dropped.  A completed future has its meaning, and its callback ran exactly when due.  So a
   returning `wait` covers whole chains, including links re-posted or registered by other threads.
   */
  lemma Quiescence(s: System, c: nat)
    requires Reachable(s) && s.unfinished == 0 && Outstanding(s) < WORD
    requires c < |s.cells| && s.cells[c].published
    ensures Outstanding(s) == 0
    ensures forall w: nat :: w < |s.queues| ==> s.queues[w] == []
    ensures CellsOk(s.cells)
    ensures s.cells[c].state.completed <==> Accepted(s.cells, c)
    ensures s.cells[c].state.completed ==>
      s.cells[c].state.promise == Some(Meaning(s.cells, c)) && s.cells[c].calls == One(Called(s.cells, c))
  {
    ReachableInv(s);
    WorkAccounting(s);
    forall w: nat | w < |s.queues| ensures s.queues[w] == [] {
      NoQueueHolds(s, w);
    }
    if Accepted(s.cells, c) {
      QuiescentCompleted(s, c);
    }
    if s.cells[c].state.completed {
      CompletedAccepted(s, c);
      assert CellOk(s.cells, c);
      CompletedMeans(s.cells, c);
      CompletedCalls(s, c);
    }
  }

  // ---------------------------------------------------------------- quiescence in the caller's terms

  /** No other continuation was ever asked for on the future c was chained on, and so on up. */
  ghost predicate Sole(cells: seq<Cell>, c: nat)
    requires CellsOk(cells) && c < |cells|
    decreases c
  {
    match cells[c].origin
    case Chained(p, _, _) =>
      assert CellOk(cells, c);
      && (forall d: nat :: d < |cells| && d != c ==> !ChainedOn(cells, d, p))
      && Sole(cells, p)
    case _ => true
  }

  predicate ChainedOn(cells: seq<Cell>, d: nat, p: nat)
    requires d < |cells|
  {
    cells[d].origin.Chained? && cells[d].origin.parent == p
  }

  /** A future on whose chain every `then` was the only one of its predecessor is never dropped. */
  lemma {:induction false} SoleAccepted(s: System, c: nat)
    requires Reachable(s) && CellsOk(s.cells) && c < |s.cells| && Sole(s.cells, c)
    ensures Accepted(s.cells, c)
    decreases c
  {
    if s.cells[c].origin.Chained? {
      var p := s.cells[c].origin.parent;
      assert CellOk(s.cells, c) && CellOk(s.cells, p);
      if s.cells[c].fate.Dropped? {
        DroppedIff(s, c, p);
        assert ChainedOn(s.cells, s.cells[p].first.value, p);
      }
      SoleAccepted(s, p);
    } else {
      ReachableInv(s);
      assert Balanced(s, c);
    }
  }

  /** Each future of the chain got one `then` or `then_inline`, the next link's. */
  ghost predicate IsLinear(cells: seq<Cell>, ids: seq<nat>)
    requires IsChain(cells, ids)
  {
    forall i: nat, d: nat :: i + 1 < |ids| && d < |cells| && ChainedOn(cells, d, ids[i]) ==> d == ids[i + 1]
  }

  lemma {:induction false} LinearIsSole(cells: seq<Cell>, ids: seq<nat>, k: nat)
    requires CellsOk(cells) && IsChain(cells, ids) && IsLinear(cells, ids) && k < |ids|
    ensures Sole(cells, ids[k])
  {
    if k > 0 {
      LinearIsSole(cells, ids, k - 1);
      var i := k - 1;
      assert cells[ids[k]].origin.parent == ids[i];
    }
  }

  /** `wait` covers a chain: if each future got one `then`, the whole chain is complete and folded. */
  lemma WaitCoversChain(s: System, ids: seq<nat>)
    requires Reachable(s) && s.unfinished == 0 && Outstanding(s) < WORD
    requires IsChain(s.cells, ids) && IsLinear(s.cells, ids)
    requires s.cells[ids[|ids| - 1]].published
    ensures s.cells[ids[|ids| - 1]].state.promise == Some(ChainFold(s.cells, ids))
    ensures forall k :: 0 <= k < |ids| ==> s.cells[ids[k]].state.completed
  {
    var last := ids[|ids| - 1];
    ReachableInv(s);
    LinearIsSole(s.cells, ids, |ids| - 1);
    SoleAccepted(s, last);
    Quiescence(s, last);
    assert CellOk(s.cells, last);
    ChainMeaning(s, ids);
    forall k | 0 <= k < |ids| ensures s.cells[ids[k]].state.completed {
      CompletedAbove(s.cells, ids, k);
    }
  }

  lemma {:induction false} CompletedAbove(cells: seq<Cell>, ids: seq<nat>, k: nat)
    requires CellsOk(cells) && IsChain(cells, ids) && k < |ids| && cells[ids[|ids| - 1]].state.completed
    ensures cells[ids[k]].state.completed
    decreases |ids| - k
  {
    if k < |ids| - 1 {
      CompletedAbove(cells, ids, k + 1);
      assert CellOk(cells, ids[k + 1]) && CellOk(cells, ids[k]);
      assert cells[ids[k + 1]].origin.parent == ids[k];
    }
  }

  /** No registration on c's chain came second: each predecessor stored that link, or none. */
  ghost predicate Unopposed(cells: seq<Cell>, c: nat)
    requires CellsOk(cells) && c < |cells|
    decreases c
  {
    match cells[c].origin
    case Chained(p, _, _) =>
      assert CellOk(cells, c);
      && (cells[p].state.continuationSet ==> cells[p].first == Some(c))
      && Unopposed(cells, p)
    case _ => true
  }

  lemma {:induction false} AcceptedIffUnopposed(s: System, c: nat)
    requires Reachable(s) && Inv(s) && Outstanding(s) == 0 && c < |s.cells| && s.cells[c].published
    ensures Accepted(s.cells, c) <==> Unopposed(s.cells, c)
    decreases c
  {
    assert CellOk(s.cells, c);
    if s.cells[c].origin.Chained? {
      var p := s.cells[c].origin.parent;
      assert CellOk(s.cells, p);
      AcceptedIffUnopposed(s, p);
      PublishedDecided(s, c);
      DroppedIff(s, c, p);
    } else {
      assert Balanced(s, c);
    }
  }

  /** A `then` that returned has run its critical section, once no task is running. */
  lemma PublishedDecided(s: System, c: nat)
    requires Inv(s) && Outstanding(s) == 0
    requires c < |s.cells| && s.cells[c].published && s.cells[c].origin.Chained?
    ensures !s.cells[c].fate.Undecided?
  {
    assert Balanced(s, c);
    if s.cells[c].fate.Undecided? {
      HoldingSplit(s, c);
      RegisteringOnThreads(s, c);
      var t := ThreadWitness(s.threads, |s.threads|, Registering(c));
      StackSplit(s.threads[t].stack, c);
      NobodyHolds(s, t, c);
    }
  }

  lemma RegisteringOnThreads(s: System, c: nat)
    ensures Total(s, Registering(c)) == ThreadsM(s.threads, |s.threads|, Registering(c))
  {
    QueuesSplit(s.queues, |s.queues|, c);
    CellsSplit(s.cells, |s.cells|, c);
  }

  /**
   When the counter reads 0, a returned future is completed exactly when no future on its chain had
   already stored another continuation: the flag `continuation_set_` and whose it is decide.
   */
  lemma QuiescentIff(s: System, c: nat)
    requires Reachable(s) && s.unfinished == 0 && Outstanding(s) < WORD
    requires c < |s.cells| && s.cells[c].published
    ensures CellsOk(s.cells)
    ensures s.cells[c].state.completed <==> Unopposed(s.cells, c)
  {
    Quiescence(s, c);
    ReachableInv(s);
    AcceptedIffUnopposed(s, c);
  }

  /** A task that waits for the pool to become idle waits for itself: it is blocked for as long as it is inside. */
  lemma WaitInsideTaskNeverReturns(s: System, t: nat)
    requires Reachable(s) && Outstanding(s) < WORD && t < |s.queues|
    requires t < |s.threads| && s.threads[t].stack.Push? && s.threads[t].stack.top.WaitIdle?
    ensures !Enabled(s, t, Own) && forall l: Label :: !Enabled(s, t, l)
  {
    ReachableInv(s);
    WorkAccounting(s);
    assert ThreadOk(s, t);
    BusyCounts(s.threads, t, |s.threads|);
  }

  // ---------------------------------------------------------------- nothing blocks

  /** A continuation that has started never waits for its predecessor. */
  lemma ContinuationNeverBlocks(s: System, t: nat)
    requires Reachable(s) && t < |s.threads| && s.threads[t].stack.Push? && s.threads[t].stack.top.Body?
    ensures CanRun(s, t)
  {
    ThreadFacts(s, t);
    CellFacts(s, s.threads[t].stack.top.cell);
  }

  /**
   No worker is ever stuck: while counted work exists and the pool is not shut down, every worker
   has a next instruction it can execute, unless its task itself is waiting: inside
   `wait`, inside `shutdown`, or inside the `get` of some future.
   */
  lemma WorkersNeverStuck(s: System, t: nat)
    requires Reachable(s) && !s.shutdown && 0 < Outstanding(s) < WORD && t < |s.queues|
    ensures t < |s.threads|
    ensures CanRun(s, t) || (s.threads[t].stack.Push? && Waiting(s.threads[t].stack.top))
  {
    QueueFacts(s, t);
    ThreadFacts(s, t);
    WorkAccounting(s);
    var k := s.threads[t].stack;
    if k.Push? && k.top.Body? {
      ContinuationNeverBlocks(s, t);
    }
  }

  // ---------------------------------------------------------------- shutdown and order

  /** After the flag is set a worker starts at most one more task and finishes at most one more. */
  lemma ShutdownBound(s: System, t: nat)
    requires Reachable(s) && t < |s.queues|
    ensures t < |s.threads| && s.threads[t].lateStarts <= 1 && s.threads[t].lateEnds <= 1
    ensures s.threads[t].base == Worker(Exited) ==> s.shutdown && s.threads[t].stack.Empty?
  {
    QueueFacts(s, t);
    ThreadFacts(s, t);
  }

  /** The owner starts the newest task left in its deque. */
  lemma OwnerTakesNewest(s: System, t: nat, i: nat)
    requires Reachable(s) && t < |s.queues| && Enabled(s, t, Own)
    requires s.threads[t].stack.Empty? && s.threads[t].exn.None? && s.threads[t].base == Worker(TryOwn)
    requires 0 < i < |s.queues[t]|
    ensures s.queues[t][0].stamp > s.queues[t][i].stamp
    ensures Do(s, t, Own).threads[t].stack == Push(Body(s.queues[t][0].cell, Begin), Empty)
    ensures Do(s, t, Own).queues == s.queues[t := s.queues[t][1..]]
  {
    QueueFacts(s, t);
  }

  /** A thief starts the oldest task of its victim's deque. */
  lemma ThiefTakesOldest(s: System, t: nat, w: nat, i: nat)
    requires Reachable(s) && Enabled(s, t, Own) && w < |s.queues|
    requires s.threads[t].stack.Empty? && s.threads[t].exn.None? && s.threads[t].base == Worker(TrySteal(w))
    requires i + 1 < |s.queues[w]|
    ensures var last := |s.queues[w]| - 1;
      && s.queues[w][last].stamp < s.queues[w][i].stamp
      && Do(s, t, Own).threads[t].stack == Push(Body(s.queues[w][last].cell, Begin), Empty)
      && Do(s, t, Own).queues == s.queues[w := s.queues[w][..last]]
  {
    QueueFacts(s, w);
  }

  /** A thief never picks itself. */
  lemma VictimIsAnother(round: nat, mine: nat, workers: nat)
    requires workers > 1 && mine < workers
    ensures StealVictim(round, mine, workers) < workers && StealVictim(round, mine, workers) != mine
  {
    if round % workers == mine && mine + 1 == workers {
      assert (mine + 1) % workers == 0;
    } else if round % workers == mine {
      assert (mine + 1) % workers == mine + 1;
    }
  }
}
