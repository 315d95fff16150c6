/**
 The pool object itself: the atomics and the workers' deques, with one method for each atomic
 operation or critical section.  Each method carries out exactly what one step of the transition
 system does to the shared fields; `PostDetach` and `TakeTask` are the methods' own sequences.
 */
module Pools {
  import opened Wrappers
  import opened PoolModel
  import PoolTheorems

  datatype Shared = Shared(queues: seq<seq<Entry>>, unfinished: nat, round: nat, pushes: nat, shutdown: bool)

  function SharedOf(s: System): Shared {
    Shared(s.queues, s.unfinished, s.round, s.pushes, s.shutdown)
  }

  class Pool {
    var queues: seq<seq<Entry>>
    var unfinished: nat
    var round: nat
    var pushes: nat
    var shutdown: bool

    function View(): Shared
      reads this
    {
      Shared(queues, unfinished, round, pushes, shutdown)
    }

    constructor (size: nat)
      requires size > 0
      ensures View() == Shared(seq(size, _ => []), 0, 0, 0, false)
    {
      queues := seq(size, _ => []);
      unfinished, round, pushes, shutdown := 0, 0, 0, false;
    }

    /** `round_index_.fetch_add(1) % workers_.size()` in a posting call. */
    method ChooseVictim(ghost s: System, ghost t: nat, ghost c: nat, ghost below: Stack) returns (w: nat)
      requires View() == SharedOf(s) && |queues| > 0
      requires t < |s.threads| && s.threads[t].stack == Push(Choose(c), below)
      modifies this
      ensures View() == SharedOf(RunFrame(s, t, Choose(c), below))
      ensures RunFrame(s, t, Choose(c), below).threads[t].stack == Push(Count(c, w), below)
      ensures w == old(round) % |old(queues)| && queues == old(queues)
    {
      w := round % |queues|;
      round := Incremented(round);
    }

    /** `unfinished_.fetch_add(1)`. */
    method CountTask(ghost s: System, ghost t: nat, ghost c: nat, ghost w: nat, ghost below: Stack)
      requires View() == SharedOf(s)
      requires t < |s.threads| && s.threads[t].stack == Push(Count(c, w), below)
      modifies this`unfinished
      ensures View() == SharedOf(RunFrame(s, t, Count(c, w), below))
    {
      unfinished := Incremented(unfinished);
    }

    /** `push_front` under the victim's lock. */
    method PushFront(w: nat, c: nat, ghost s: System, ghost t: nat, ghost below: Stack)
      requires View() == SharedOf(s) && w < |queues|
      requires t < |s.threads| && s.threads[t].stack == Push(PushTo(c, w), below)
      modifies this
      ensures View() == SharedOf(RunFrame(s, t, PushTo(c, w), below))
    {
      queues := queues[w := [Entry(c, pushes)] + queues[w]];
      pushes := pushes + 1;
    }

    /** The body of `post_detach`, uninterrupted: three consecutive steps of the calling thread. */
    method PostDetach(c: nat, ghost s: System, ghost t: nat, ghost below: Stack) returns (w: nat)
      requires View() == SharedOf(s) && |queues| > 0 && !s.crashed
      requires t < |s.threads| && s.threads[t].exn.None? && s.threads[t].stack == Push(Choose(c), below)
      modifies this
      ensures
        var s1 := RunFrame(s, t, Choose(c), below);
        var s2 := RunFrame(s1, t, Count(c, w), below);
        && w == old(round) % |old(queues)| && |queues| == |old(queues)|
        && View() == SharedOf(RunFrame(s2, t, PushTo(c, w), below))
      ensures queues[w] == [Entry(c, old(pushes))] + old(queues)[w]
      ensures forall v :: 0 <= v < |queues| && v != w ==> queues[v] == old(queues)[v]
      ensures unfinished == Incremented(old(unfinished))
    {
      w := ChooseVictim(s, t, c, below);
      ghost var s1 := RunFrame(s, t, Choose(c), below);
      CountTask(s1, t, c, w, below);
      ghost var s2 := RunFrame(s1, t, Count(c, w), below);
      PushFront(w, c, s2, t, below);
    }

    /** The owner's critical section: pop the front, if any. */
    method TakeOwn(mine: nat, ghost s: System) returns (e: Option<Entry>)
      requires View() == SharedOf(s) && mine < |queues| && mine < |s.threads|
      modifies this`queues
      ensures View() == SharedOf(RunWorker(s, mine, TryOwn))
      ensures e == if |old(queues)[mine]| > 0 then Some(old(queues)[mine][0]) else None
      ensures e.Some? ==>
        RunWorker(s, mine, TryOwn).threads[mine].stack == Push(Body(e.value.cell, Begin), Empty)
    {
      e := None;
      if |queues[mine]| > 0 {
        e := Some(queues[mine][0]);
        queues := queues[mine := queues[mine][1..]];
      }
    }

    /** `round_index_.fetch_add(1)` and the choice of a victim other than oneself. */
    method ChooseSteal(mine: nat, ghost s: System) returns (v: nat)
      requires View() == SharedOf(s) && mine < |queues| && mine < |s.threads| && |queues| > 1
      modifies this`round
      ensures View() == SharedOf(RunWorker(s, mine, PoolModel.ChooseVictim))
      ensures v == StealVictim(old(round), mine, |queues|) && v < |queues|
    {
      v := round % |queues|;
      round := Incremented(round);
      if v == mine {
        v := (v + 1) % |queues|;
      }
    }

    /** The thief's critical section: pop the victim's back, if any. */
    method Steal(mine: nat, v: nat, ghost s: System) returns (e: Option<Entry>)
      requires View() == SharedOf(s) && v < |queues| && mine < |s.threads|
      modifies this`queues
      ensures View() == SharedOf(RunWorker(s, mine, TrySteal(v)))
      ensures e == if |old(queues)[v]| > 0 then Some(old(queues)[v][|old(queues)[v]| - 1]) else None
      ensures e.Some? ==>
        RunWorker(s, mine, TrySteal(v)).threads[mine].stack == Push(Body(e.value.cell, Begin), Empty)
    {
      e := None;
      var q := queues[v];
      if |q| > 0 {
        e := Some(q[|q| - 1]);
        queues := queues[v := q[..|q| - 1]];
      }
    }

    /**
     One uninterrupted search of the worker loop: its own front first, then the back of one other
     worker's deque.  It removes nothing but the task it returns, and fails only if its own deque and,
     if there is another worker, that one's were empty.
     */
    method TakeTask(mine: nat, ghost s: System) returns (e: Option<Entry>, ghost w: nat)
      requires View() == SharedOf(s) && mine < |queues| <= |s.threads|
      modifies this`queues, this`round
      ensures |queues| == |old(queues)| && w < |queues|
      ensures forall v :: 0 <= v < |queues| && (v != w || e.None?) ==> queues[v] == old(queues)[v]
      ensures |old(queues)[mine]| > 0 ==>
        w == mine && e == Some(old(queues)[mine][0]) && queues[w] == old(queues)[w][1..]
      ensures e.Some? && w != mine ==>
        |old(queues)[mine]| == 0 && old(queues)[w] == queues[w] + [e.value]
      ensures e.None? ==> |old(queues)[mine]| == 0 && |old(queues)[w]| == 0
      ensures |old(queues)[mine]| == 0 && |queues| > 1 ==>
        w == (if old(round) % |queues| != mine then old(round) % |queues| else (mine + 1) % |queues|) && w != mine
      ensures |queues| == 2 && e.None? ==> old(queues) == [[], []]
      ensures unfinished == old(unfinished) && pushes == old(pushes) && shutdown == old(shutdown)
    {
      w := mine;
      e := TakeOwn(mine, s);
      if e.None? && |queues| > 1 {
        ghost var s1 := RunWorker(s, mine, TryOwn);
        PoolTheorems.VictimIsAnother(round, mine, |queues|);
        var v := ChooseSteal(mine, s1);
        w := v;
        e := Steal(mine, v, RunWorker(s1, mine, PoolModel.ChooseVictim));
      }
    }

    /** `unfinished_.fetch_sub(1)` after the task returned. */
    method FinishTask(mine: nat, ghost s: System)
      requires View() == SharedOf(s) && mine < |s.threads|
      modifies this`unfinished
      ensures View() == SharedOf(RunWorker(s, mine, Discount))
    {
      unfinished := Decremented(unfinished);
    }

    /** `shutdown_.store(true)`. */
    method SetShutdown(ghost s: System, ghost t: nat)
      requires View() == SharedOf(s) && t < |s.threads| && CanCall(s, t, CallShutdown)
      modifies this`shutdown
      ensures View() == SharedOf(Call(s, t, CallShutdown))
    {
      shutdown := true;
    }
  }
}
