/** Ownership and representation independence of the callable, over any sequence of operations. */
module CallableTheorems {
  import opened Wrappers
  import opened Callables

  /** Performs the operations from left to right; None as soon as one names a wrapper that does not exist. */
  function Perform<S>(run: S -> Effect<S>, w: World<S>, ops: seq<Op<S>>): Option<(World<S>, seq<Outcome>)>
    decreases |ops|
  {
    if |ops| == 0 then Some((w, []))
    else
      match Perform(run, w, ops[..|ops| - 1])
      case None => None
      case Some((w1, outs)) =>
        var op := ops[|ops| - 1];
        if CanDo(w1, op) && Designates(w1) then
          var (w2, out) := Do(run, w1, op);
          Some((w2, outs + [out]))
        else None
  }

  // ---------------------------------------------------------------- conservation

  function Destructions<S>(os: seq<Object<S>>, n: nat): nat
    requires n <= |os|
  {
    if n == 0 then 0 else Destructions(os, n - 1) + os[n - 1].destroyed
  }

  function NonEmpty(ws: seq<Wrapper>, n: nat): nat
    requires n <= |ws|
  {
    if n == 0 then 0 else NonEmpty(ws, n - 1) + if ws[n - 1].table.Null? then 0 else 1
  }

  lemma {:induction false} DestructionsUpdate<S>(os: seq<Object<S>>, o: nat, x: Object<S>, n: nat)
    requires o < |os| && n <= |os|
    ensures Destructions(os[o := x], n) + (if o < n then os[o].destroyed else 0)
         == Destructions(os, n) + (if o < n then x.destroyed else 0)
  {
    if n > 0 { DestructionsUpdate(os, o, x, n - 1); }
  }

  lemma {:induction false} DestructionsPrefix<S>(os: seq<Object<S>>, x: Object<S>, n: nat)
    requires n <= |os|
    ensures Destructions(os + [x], n) == Destructions(os, n)
  {
    if n > 0 { DestructionsPrefix(os, x, n - 1); }
  }

  function Full(x: Wrapper): nat { if x.table.Null? then 0 else 1 }

  lemma {:induction false} NonEmptyUpdate(ws: seq<Wrapper>, i: nat, x: Wrapper, n: nat)
    requires i < |ws| && n <= |ws|
    ensures NonEmpty(ws[i := x], n) + (if i < n then Full(ws[i]) else 0)
         == NonEmpty(ws, n) + (if i < n then Full(x) else 0)
  {
    if n > 0 { NonEmptyUpdate(ws, i, x, n - 1); }
  }

  lemma {:induction false} NonEmptyPrefix(ws: seq<Wrapper>, x: Wrapper, n: nat)
    requires n <= |ws|
    ensures NonEmpty(ws + [x], n) == NonEmpty(ws, n)
  {
    if n > 0 { NonEmptyPrefix(ws, x, n - 1); }
  }

  /** Constructions minus destructions equals the number of non-empty wrappers. */
  ghost predicate Conserved<S>(w: World<S>) {
    |w.objects| == Destructions(w.objects, |w.objects|) + NonEmpty(w.wrappers, |w.wrappers|)
  }

  lemma DestroyConserves<S>(w: World<S>, i: nat)
    requires Conserved(w) && i < |w.wrappers| && Designates(w)
    ensures Conserved(Destroy(w, i))
  {
    if !IsEmpty(w, i) {
      var o := w.wrappers[i].obj;
      DestructionsUpdate(w.objects, o, Destroyed(w.objects[o]), |w.objects|);
      NonEmptyUpdate(w.wrappers, i, w.wrappers[i].(table := Null), |w.wrappers|);
    }
  }

  lemma MoveConserves<S>(w: World<S>, dst: nat, src: nat)
    requires Conserved(w) && Designates(w) && dst < |w.wrappers| && src < |w.wrappers| && IsEmpty(w, dst)
    ensures Conserved(MoveFrom(w, dst, src))
  {
    var from := w.wrappers[src];
    if !from.table.Null? {
      var x := if from.table.HeapTable? then Wrapper(HeapTable, from.obj) else Wrapper(StackTable, |w.objects|);
      NonEmptyUpdate(w.wrappers, dst, x, |w.wrappers|);
      NonEmptyUpdate(w.wrappers[dst := x], src, from.(table := Null), |w.wrappers|);
      if from.table.StackTable? {
        var o := w.objects[from.obj];
        var os := w.objects[from.obj := Destroyed(o)];
        DestructionsUpdate(w.objects, from.obj, Destroyed(o), |w.objects|);
        DestructionsPrefix(os, Object(o.state, false, 0), |os|);
      }
    }
  }

  lemma AppendConserves<S>(w: World<S>, x: Wrapper, os: seq<Object<S>>)
    requires Conserved(w) && |os| == Full(x) && (|os| == 1 ==> os[0].destroyed == 0)
    ensures Conserved(World(w.wrappers + [x], w.objects + os))
  {
    NonEmptyPrefix(w.wrappers, x, |w.wrappers|);
    if |os| == 1 {
      assert os == [os[0]];
      DestructionsPrefix(w.objects, os[0], |w.objects|);
    } else {
      assert w.objects + os == w.objects;
    }
  }

  lemma DoConserves<S>(run: S -> Effect<S>, w: World<S>, op: Op<S>)
    requires Owned(w) && Conserved(w) && CanDo(w, op)
    ensures Conserved(Do(run, w, op).0)
  {
    match op
    case MakeEmpty =>
      AppendConserves(w, Wrapper(Null, 0), []);
      assert w.objects + [] == w.objects;
    case Make(onHeap, init) =>
      AppendConserves(w, Wrapper(if onHeap then HeapTable else StackTable, |w.objects|), [Object(init, onHeap, 0)]);
    case MoveConstruct(s) =>
      AppendConserves(w, Wrapper(Null, 0), []);
      assert w.objects + [] == w.objects;
      MoveConserves(w.(wrappers := w.wrappers + [Wrapper(Null, 0)]), |w.wrappers|, s);
    case MoveAssign(d, s) =>
      if d != s { AssignConserves(w, d, s); }
    case Assign(d, s) => AssignConserves(w, d, s);
    case AssignNull(d) => DestroyConserves(w, d);
    case Drop(d) => DestroyConserves(w, d);
    case Invoke(d) =>
      if !IsEmpty(w, d) {
        var o := w.wrappers[d].obj;
        DestructionsUpdate(w.objects, o, w.objects[o].(state := run(w.objects[o].state).state), |w.objects|);
      }
  }

  lemma AssignConserves<S>(w: World<S>, d: nat, s: nat)
    requires Owned(w) && Conserved(w) && d < |w.wrappers| && s < |w.wrappers|
    ensures Conserved(Assigned(w, d, s))
  {
    DestroyConserves(w, d);
    DestroyKeepsOwned(w, d);
    MoveConserves(Destroy(w, d), d, s);
  }

  /** Single ownership and conservation hold after any sequence of operations on any set of wrappers. */
  lemma {:induction false} OwnershipOverRuns<S>(run: S -> Effect<S>, ops: seq<Op<S>>)
    ensures var r := Perform(run, World([], []), ops);
      r.Some? ==> Owned(r.value.0) && Conserved(r.value.0)
    decreases |ops|
  {
    if |ops| > 0 {
      var front := ops[..|ops| - 1];
      OwnershipOverRuns(run, front);
      var r := Perform(run, World([], []), front);
      if r.Some? && CanDo(r.value.0, ops[|ops| - 1]) {
        DoKeepsOwned(run, r.value.0, ops[|ops| - 1]);
        DoConserves(run, r.value.0, ops[|ops| - 1]);
      }
    }
  }

  ghost predicate AllEmpty<S>(w: World<S>) {
    forall i: nat :: i < |w.wrappers| ==> IsEmpty(w, i)
  }

  /** When every wrapper is empty, every callable ever constructed has been destroyed exactly once. */
  lemma AllDestroyedOnce<S>(run: S -> Effect<S>, ops: seq<Op<S>>, w: World<S>, outs: seq<Outcome>, o: nat)
    requires Perform(run, World([], []), ops) == Some((w, outs))
    requires AllEmpty(w) && o < |w.objects|
    ensures w.objects[o].destroyed == 1
  {
    OwnershipOverRuns(run, ops);
    EmptyMeansDestroyed(w, o);
  }

  lemma EmptyMeansDestroyed<S>(w: World<S>, o: nat)
    requires Owned(w) && AllEmpty(w) && o < |w.objects|
    ensures w.objects[o].destroyed == 1
  {
    assert Accounted(w, o);
    forall i: nat | i < |w.wrappers| ensures !Holds(w, i, o) {
      assert IsEmpty(w, i);
    }
  }

  // ---------------------------------------------------------------- representation independence

  /** What a user can see: per wrapper, the state of its callable or nothing. */
  function Visible<S>(w: World<S>): (v: seq<Option<S>>)
    requires Designates(w)
    ensures |v| == |w.wrappers|
  {
    seq(|w.wrappers|, i requires 0 <= i < |w.wrappers| =>
      if w.wrappers[i].table.Null? then None else Some(w.objects[w.wrappers[i].obj].state))
  }

  /** The operations on plain optional callables, with no notion of storage. */
  function Ideal<S>(run: S -> Effect<S>, v: seq<Option<S>>, op: Op<S>): (seq<Option<S>>, Outcome)
    requires CanDo(World(seq(|v|, _ => Wrapper(Null, 0)), []), op)
  {
    match op
    case MakeEmpty => (v + [None], Nothing)
    case Make(_, init) => (v + [Some(init)], Nothing)
    case MoveConstruct(s) => (v[s := None] + [v[s]], Nothing)
    case MoveAssign(d, s) => (if d == s then v else v[d := v[s]][s := None], Nothing)
    case Assign(d, s) => (v[d := v[s]][s := None], Nothing)
    case AssignNull(d) => (v[d := None], Nothing)
    case Drop(d) => (v[d := None], Nothing)
    case Invoke(d) =>
      if v[d].None? then (v, InvalidFunction)
      else (v[d := Some(run(v[d].value).state)], Gave(run(v[d].value).out))
  }

  lemma DestroyVisible<S>(w: World<S>, i: nat)
    requires Owned(w) && i < |w.wrappers|
    ensures Owned(Destroy(w, i)) && Visible(Destroy(w, i)) == Visible(w)[i := None]
  {
    DestroyKeepsOwned(w, i);
    var v' := Visible(Destroy(w, i));
    forall j | 0 <= j < |w.wrappers| ensures v'[j] == Visible(w)[i := None][j] {}
  }

  lemma MoveVisible<S>(w: World<S>, dst: nat, src: nat)
    requires Owned(w) && dst < |w.wrappers| && src < |w.wrappers| && IsEmpty(w, dst)
    ensures Owned(MoveFrom(w, dst, src))
    ensures Visible(MoveFrom(w, dst, src)) == Visible(w)[dst := Visible(w)[src]][src := None]
  {
    MoveKeepsOwned(w, dst, src);
    var v, v' := Visible(w), Visible(MoveFrom(w, dst, src));
    forall j | 0 <= j < |w.wrappers| ensures v'[j] == v[dst := v[src]][src := None][j] {}
  }

  lemma AssignVisible<S>(w: World<S>, d: nat, s: nat)
    requires Owned(w) && d < |w.wrappers| && s < |w.wrappers|
    ensures Owned(Assigned(w, d, s)) && Visible(Assigned(w, d, s)) == Visible(w)[d := Visible(w)[s]][s := None]
  {
    DestroyVisible(w, d);
    DestroyKeepsOwned(w, d);
    MoveVisible(Destroy(w, d), d, s);
    var v := Visible(w);
    var moved := if d == s then None else v[s];
    assert v[d := None][d := moved][s := None] == v[d := v[s]][s := None];
  }

  lemma AppendVisible<S>(w: World<S>, x: Wrapper, os: seq<Object<S>>)
    requires Owned(w) && (x.table.Null? || (|os| == 1 && x.obj == |w.objects|))
    ensures var w' := World(w.wrappers + [x], w.objects + os);
      Designates(w') && Visible(w') == Visible(w) + [if x.table.Null? then None else Some(os[0].state)]
  {
  }

  lemma InvokeVisible<S>(run: S -> Effect<S>, w: World<S>, d: nat)
    requires Owned(w) && d < |w.wrappers|
    ensures var r := Do(run, w, Invoke(d)); Designates(r.0) && (Visible(r.0), r.1) == Ideal(run, Visible(w), Invoke(d))
  {
    var r := Do(run, w, Invoke(d));
    var i := Ideal(run, Visible(w), Invoke(d));
    forall j: nat | j < |w.wrappers| ensures Visible(r.0)[j] == i.0[j] {
      if j != d && !IsEmpty(w, j) && !IsEmpty(w, d) {
        assert w.wrappers[j].obj != w.wrappers[d].obj;
      }
    }
    assert Visible(r.0) == i.0;
  }

  /** Every operation on the real representation is the ideal one, with the same outcome. */
  lemma RefinesIdeal<S>(run: S -> Effect<S>, w: World<S>, op: Op<S>)
    requires Owned(w) && CanDo(w, op)
    ensures Owned(Do(run, w, op).0)
    ensures (Visible(Do(run, w, op).0), Do(run, w, op).1) == Ideal(run, Visible(w), op)
  {
    DoKeepsOwned(run, w, op);
    match op
    case MakeEmpty =>
      AppendVisible(w, Wrapper(Null, 0), []);
      assert w.objects + [] == w.objects;
    case Make(onHeap, init) =>
      AppendVisible(w, Wrapper(if onHeap then HeapTable else StackTable, |w.objects|), [Object(init, onHeap, 0)]);
    case MoveConstruct(s) =>
      AppendKeepsOwned(w, Wrapper(Null, 0), []);
      AppendVisible(w, Wrapper(Null, 0), []);
      assert w.objects + [] == w.objects;
      var w1 := w.(wrappers := w.wrappers + [Wrapper(Null, 0)]);
      MoveVisible(w1, |w.wrappers|, s);
      var v := Visible(w);
      assert Visible(w1) == v + [None];
      assert (v + [None])[|v| := v[s]][s := None] == v[s := None] + [v[s]];
    case MoveAssign(d, s) => if d != s { AssignVisible(w, d, s); }
    case Assign(d, s) => AssignVisible(w, d, s);
    case AssignNull(d) => DestroyVisible(w, d);
    case Drop(d) => DestroyVisible(w, d);
    case Invoke(d) => InvokeVisible(run, w, d);
  }

  /** Same operations, up to where the callables are stored. */
  ghost predicate SameBut<S>(a: Op<S>, b: Op<S>) {
    match a
    case Make(_, init) => b.Make? && b.init == init
    case _ => a == b
  }

  /**
   Representation independence: two runs that differ only in which callables are stored inline and
   which on the heap give the same outcomes and leave every wrapper with the same callable state.
   */
  lemma {:induction false} RepresentationIndependence<S>(run: S -> Effect<S>, ops: seq<Op<S>>, ops': seq<Op<S>>)
    requires |ops| == |ops'| && forall k :: 0 <= k < |ops| ==> SameBut(ops[k], ops'[k])
    ensures var r, r' := Perform(run, World([], []), ops), Perform(run, World([], []), ops');
      && (r.Some? <==> r'.Some?)
      && (r.Some? ==>
            && Designates(r.value.0) && Designates(r'.value.0)
            && Visible(r.value.0) == Visible(r'.value.0) && r.value.1 == r'.value.1)
    decreases |ops|
  {
    OwnershipOverRuns(run, ops);
    OwnershipOverRuns(run, ops');
    if |ops| > 0 {
      var n := |ops| - 1;
      RepresentationIndependence(run, ops[..n], ops'[..n]);
      OwnershipOverRuns(run, ops[..n]);
      OwnershipOverRuns(run, ops'[..n]);
      var r, r' := Perform(run, World([], []), ops[..n]), Perform(run, World([], []), ops'[..n]);
      assert SameBut(ops[n], ops'[n]);
      if r.Some? {
        assert |r.value.0.wrappers| == |Visible(r.value.0)|;
        if CanDo(r.value.0, ops[n]) {
          RefinesIdeal(run, r.value.0, ops[n]);
          RefinesIdeal(run, r'.value.0, ops'[n]);
        }
      }
    }
  }

  // ---------------------------------------------------------------- a callable's life

  /** Operations are refused only for naming a wrapper that does not exist. */
  lemma PerformsIff<S>(run: S -> Effect<S>, ops: seq<Op<S>>, op: Op<S>)
    ensures var r, r' := Perform(run, World([], []), ops), Perform(run, World([], []), ops + [op]);
      && (r'.Some? <==> r.Some? && CanDo(r.value.0, op))
      && (r'.Some? ==>
            && Designates(r.value.0)
            && r'.value == (Do(run, r.value.0, op).0, r.value.1 + [Do(run, r.value.0, op).1]))
  {
    assert (ops + [op])[..|ops|] == ops;
    OwnershipOverRuns(run, ops);
  }

  /** The operations leave this to be seen, and had these outcomes. */
  ghost predicate Shows<S(!new)>(run: S -> Effect<S>, ops: seq<Op<S>>, v: seq<Option<S>>, outs: seq<Outcome>) {
    var r := Perform(run, World([], []), ops);
    r.Some? && Owned(r.value.0) && Visible(r.value.0) == v && r.value.1 == outs
  }

  /** n wrappers, of which at most the i-th holds a callable. */
  function Only<S>(n: nat, i: nat, x: Option<S>): (v: seq<Option<S>>)
    ensures |v| == n
  {
    seq(n, j => if j == i then x else None)
  }

  /** What each operation does to a single callable x, in terms of where it is. */
  lemma IdealOnly<S>(run: S -> Effect<S>, n: nat, i: nat, x: S, d: nat)
    requires i < n && d < n
    ensures Ideal(run, Only(n, i, Some(x)), MakeEmpty) == (Only(n + 1, i, Some(x)), Nothing)
    ensures Ideal(run, Only(n, i, Some(x)), MoveConstruct(i)) == (Only(n + 1, n, Some(x)), Nothing)
    ensures Ideal(run, Only(n, i, Some(x)), MoveAssign(d, i)) == (Only(n, d, Some(x)), Nothing)
    ensures d != i ==> Ideal(run, Only(n, i, Some(x)), Assign(d, i)) == (Only(n, d, Some(x)), Nothing)
    ensures Ideal(run, Only(n, i, Some(x)), AssignNull(i)) == (Only(n, i, None), Nothing)
    ensures Ideal(run, Only(n, i, Some(x)), Invoke(i)) == (Only(n, i, Some(run(x).state)), Gave(run(x).out))
    ensures d != i ==> Ideal(run, Only(n, i, Some(x)), Invoke(d)) == (Only(n, i, Some(x)), InvalidFunction)
    ensures Ideal(run, Only(n, i, None), Invoke(d)) == (Only(n, i, None), InvalidFunction)
  {
    var v := Only(n, i, Some(x));
    assert v + [None] == Only(n + 1, i, Some(x));
    assert v[i := None] + [v[i]] == Only(n + 1, n, Some(x));
    assert d != i ==> v[d := v[i]][i := None] == Only(n, d, Some(x));
    assert v[i := None] == Only(n, i, None);
    assert v[i := Some(run(x).state)] == Only(n, i, Some(run(x).state));
  }

  lemma ShowsNext<S(!new)>(
    run: S -> Effect<S>, ops: seq<Op<S>>, v: seq<Option<S>>, outs: seq<Outcome>, op: Op<S>,
    v': seq<Option<S>>, out: Outcome)
    requires Shows(run, ops, v, outs)
    requires CanDo(World(seq(|v|, _ => Wrapper(Null, 0)), []), op) && Ideal(run, v, op) == (v', out)
    ensures Shows(run, ops + [op], v', outs + [out])
  {
    var w := Perform(run, World([], []), ops).value.0;
    assert |w.wrappers| == |Visible(w)|;
    PerformsIff(run, ops, op);
    RefinesIdeal(run, w, op);
  }

  lemma Made<S(!new)>(run: S -> Effect<S>, onHeap: bool, init: S)
    ensures Shows(run, [Make(onHeap, init)], Only(1, 0, Some(init)), [Nothing])
  {
    var nothing: World<S> := World([], []);
    assert Owned(nothing) && Visible(nothing) == [];
    assert Shows(run, [], [], []);
    var v: seq<Option<S>> := [];
    assert v + [Some(init)] == Only(1, 0, Some(init));
    ShowsNext(run, [], v, [], Make(onHeap, init), Only(1, 0, Some(init)), Nothing);
    assert [] + [Make(onHeap, init)] == [Make(onHeap, init)] && [] + [Nothing] == [Nothing];
  }

  /** A callable made inline or on the heap, moved by each of the three moves, ends up in wrapper 3. */
  lemma Moved<S(!new)>(run: S -> Effect<S>, onHeap: bool, init: S)
    ensures Shows(run, [Make(onHeap, init)] + [MoveConstruct(0)] + [MakeEmpty] + [MoveAssign(2, 1)]
                       + [MakeEmpty] + [Assign(3, 2)],
                  Only(4, 3, Some(init)), [Nothing] + [Nothing] + [Nothing] + [Nothing] + [Nothing] + [Nothing])
  {
    var x := Some(init);
    Made(run, onHeap, init);
    var ops, outs := [Make(onHeap, init)], [Nothing];
    IdealOnly(run, 1, 0, init, 0);
    ShowsNext(run, ops, Only(1, 0, x), outs, MoveConstruct(0), Only(2, 1, x), Nothing);
    ops, outs := ops + [MoveConstruct(0)], outs + [Nothing];
    IdealOnly(run, 2, 1, init, 0);
    ShowsNext(run, ops, Only(2, 1, x), outs, MakeEmpty, Only(3, 1, x), Nothing);
    ops, outs := ops + [MakeEmpty], outs + [Nothing];
    IdealOnly(run, 3, 1, init, 2);
    ShowsNext(run, ops, Only(3, 1, x), outs, MoveAssign(2, 1), Only(3, 2, x), Nothing);
    ops, outs := ops + [MoveAssign(2, 1)], outs + [Nothing];
    IdealOnly(run, 3, 2, init, 2);
    ShowsNext(run, ops, Only(3, 2, x), outs, MakeEmpty, Only(4, 2, x), Nothing);
    ops, outs := ops + [MakeEmpty], outs + [Nothing];
    IdealOnly(run, 4, 2, init, 3);
    ShowsNext(run, ops, Only(4, 2, x), outs, Assign(3, 2), Only(4, 3, x), Nothing);
  }

  /** Then it is called twice, an emptied wrapper is called, and the last one is emptied and called. */
  lemma CalledAndDropped<S(!new)>(run: S -> Effect<S>, ops: seq<Op<S>>, outs: seq<Outcome>, x: S)
    requires Shows(run, ops, Only(4, 3, Some(x)), outs)
    ensures Shows(run, ops + [Invoke(3)] + [Invoke(3)] + [Invoke(0)] + [AssignNull(3)] + [Invoke(3)],
                  Only(4, 3, None),
                  outs + [Gave(run(x).out)] + [Gave(run(run(x).state).out)]
                  + [InvalidFunction] + [Nothing] + [InvalidFunction])
  {
    var y, z := run(x).state, run(run(x).state).state;
    IdealOnly(run, 4, 3, x, 0);
    ShowsNext(run, ops, Only(4, 3, Some(x)), outs, Invoke(3), Only(4, 3, Some(y)), Gave(run(x).out));
    IdealOnly(run, 4, 3, y, 0);
    var ops1, outs1 := ops + [Invoke(3)], outs + [Gave(run(x).out)];
    ShowsNext(run, ops1, Only(4, 3, Some(y)), outs1, Invoke(3), Only(4, 3, Some(z)), Gave(run(y).out));
    IdealOnly(run, 4, 3, z, 0);
    var ops2, outs2 := ops1 + [Invoke(3)], outs1 + [Gave(run(y).out)];
    ShowsNext(run, ops2, Only(4, 3, Some(z)), outs2, Invoke(0), Only(4, 3, Some(z)), InvalidFunction);
    var ops3, outs3 := ops2 + [Invoke(0)], outs2 + [InvalidFunction];
    ShowsNext(run, ops3, Only(4, 3, Some(z)), outs3, AssignNull(3), Only(4, 3, None), Nothing);
    IdealOnly(run, 4, 3, z, 3);
    ShowsNext(run, ops3 + [AssignNull(3)], Only(4, 3, None), outs3 + [Nothing],
              Invoke(3), Only(4, 3, None), InvalidFunction);
  }

  /**
   However it is stored and moved, the callable keeps its state from call to call, the wrappers it left
   give the error outcome, and once the last one is emptied every object made for it has been destroyed
   exactly once.
   */
  lemma CallableLives<S(!new)>(run: S -> Effect<S>, onHeap: bool, init: S, o: nat)
    ensures
      var ops := [Make(onHeap, init), MoveConstruct(0), MakeEmpty, MoveAssign(2, 1), MakeEmpty, Assign(3, 2),
                  Invoke(3), Invoke(3), Invoke(0), AssignNull(3), Invoke(3)];
      var r := Perform(run, World([], []), ops);
      && r.Some?
      && r.value.1 == [Nothing, Nothing, Nothing, Nothing, Nothing, Nothing,
                       Gave(run(init).out), Gave(run(run(init).state).out), InvalidFunction, Nothing, InvalidFunction]
      && (o < |r.value.0.objects| ==> r.value.0.objects[o].destroyed == 1)
  {
    Moved(run, onHeap, init);
    var first := [Make(onHeap, init)] + [MoveConstruct(0)] + [MakeEmpty] + [MoveAssign(2, 1)]
                 + [MakeEmpty] + [Assign(3, 2)];
    var quiet := [Nothing] + [Nothing] + [Nothing] + [Nothing] + [Nothing] + [Nothing];
    CalledAndDropped(run, first, quiet, init);
    var ops := [Make(onHeap, init), MoveConstruct(0), MakeEmpty, MoveAssign(2, 1), MakeEmpty, Assign(3, 2),
                Invoke(3), Invoke(3), Invoke(0), AssignNull(3), Invoke(3)];
    assert ops == first + [Invoke(3)] + [Invoke(3)] + [Invoke(0)] + [AssignNull(3)] + [Invoke(3)];
    EmptiedIsGone(run, ops, 4, 3, o);
  }

  lemma EmptiedIsGone<S(!new)>(run: S -> Effect<S>, ops: seq<Op<S>>, n: nat, i: nat, o: nat)
    requires exists outs :: Shows(run, ops, Only(n, i, None), outs)
    ensures var r := Perform(run, World([], []), ops);
      r.Some? && (o < |r.value.0.objects| ==> r.value.0.objects[o].destroyed == 1)
  {
    var w := Perform(run, World([], []), ops).value.0;
    forall j: nat | j < |w.wrappers| ensures IsEmpty(w, j) {
      assert Visible(w)[j] == None;
    }
    if o < |w.objects| { EmptyMeansDestroyed(w, o); }
  }
}
