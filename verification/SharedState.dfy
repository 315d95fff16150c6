/** What a task or a callback ends with, and how results travel down a chain of futures. */
module Outcomes {
  datatype Exn = UserError(code: int) | PromiseAlreadySatisfied

  datatype Outcome = Value(v: int) | Thrown(e: Exn)

  /** A user callback: it returns a value or throws. */
  type Callback = int -> Outcome

  /** `func(current_future.get())`: an exception of the predecessor skips the callback. */
  function Bind(o: Outcome, f: Callback): Outcome {
    match o
    case Value(v) => f(v)
    case Thrown(_) => o
  }

  /** The result-or-exception monad's fold of callbacks, applied from the left. */
  function Fold(start: Outcome, fs: seq<Callback>): Outcome
    decreases |fs|
  {
    if |fs| == 0 then start else Fold(Bind(start, fs[0]), fs[1..])
  }

  lemma {:induction false} FoldSnoc(start: Outcome, fs: seq<Callback>, f: Callback)
    ensures Fold(start, fs + [f]) == Bind(Fold(start, fs), f)
    decreases |fs|
  {
    if |fs| == 0 {
      assert fs + [f] == [f];
    } else {
      assert (fs + [f])[1..] == fs[1..] + [f];
      FoldSnoc(Bind(start, fs[0]), fs[1..], f);
    }
  }

  lemma {:induction false} FoldSplit(start: Outcome, fs: seq<Callback>, gs: seq<Callback>)
    ensures Fold(start, fs + gs) == Fold(Fold(start, fs), gs)
    decreases |fs|
  {
    if |fs| == 0 {
      assert fs + gs == gs;
    } else {
      assert (fs + gs)[1..] == fs[1..] + gs;
      FoldSplit(Bind(start, fs[0]), fs[1..], gs);
    }
  }

  /** Once something was thrown, the rest of the chain does not matter. */
  lemma {:induction false} FoldThrown(e: Exn, fs: seq<Callback>)
    ensures Fold(Thrown(e), fs) == Thrown(e)
    decreases |fs|
  {
    if |fs| != 0 {
      FoldThrown(e, fs[1..]);
    }
  }
}

/**
 The completion/registration state behind a future.  Each method is one critical section under
 `mtx_`; the continuation it hands out is run by the caller after the lock is released.
 A continuation is represented by an identifier of type K.
 */
module SharedStates {
  import opened Wrappers
  import opened Outcomes

  datatype Record<K> = Record(promise: Option<Outcome>, completed: bool, continuation: Option<K>, continuationSet: bool)

  function Fresh<K>(): Record<K> {
    Record(None, false, None, false)
  }

  /** The state after a completion attempt, whether it threw, and the continuation to run next. */
  datatype Completion<K> = Completion(after: Record<K>, threw: bool, run: Option<K>)

  function Complete<K>(r: Record<K>, o: Outcome): Completion<K> {
    if r.promise.Some? then Completion(r, true, None)
    else Completion(Record(Some(o), true, None, r.continuationSet), false, r.continuation)
  }

  datatype Decision = Ignored | RunNow | Kept

  function Decide<K>(r: Record<K>): Decision {
    if r.continuationSet then Ignored else if r.completed then RunNow else Kept
  }

  function Registered<K>(r: Record<K>, k: K): Record<K> {
    if Decide(r).Kept? then r.(continuation := Some(k), continuationSet := true) else r
  }

  class SharedState<K> {
    var promise: Option<Outcome>
    var completed: bool
    var continuation: Option<K>
    var continuationSet: bool

    function View(): Record<K>
      reads this
    {
      Record(promise, completed, continuation, continuationSet)
    }

    constructor ()
      ensures View() == Fresh()
    {
      promise, completed, continuation, continuationSet := None, false, None, false;
    }

    method SetValue(v: int) returns (threw: bool, run: Option<K>)
      modifies this
      ensures Completion(View(), threw, run) == Complete(old(View()), Value(v))
    {
      threw, run := Settle(Value(v));
    }

    method SetException(e: Exn) returns (threw: bool, run: Option<K>)
      modifies this
      ensures Completion(View(), threw, run) == Complete(old(View()), Thrown(e))
    {
      threw, run := Settle(Thrown(e));
    }

    /** The body shared by both setters: satisfy the promise, then move the continuation out. */
    method Settle(o: Outcome) returns (threw: bool, run: Option<K>)
      modifies this
      ensures Completion(View(), threw, run) == Complete(old(View()), o)
    {
      if promise.Some? {
        return true, None;
      }
      promise := Some(o);
      completed := true;
      run := continuation;
      continuation := None;
      threw := false;
    }

    method SetContinuation(k: K) returns (runNow: bool)
      modifies this
      ensures View() == Registered(old(View()), k)
      ensures runNow == Decide(old(View())).RunNow?
    {
      runNow := false;
      if continuationSet {
        return;
      }
      if completed {
        runNow := true;
      } else {
        continuation := Some(k);
        continuationSet := true;
      }
    }
  }
}
