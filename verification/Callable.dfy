/**
 The type-erased move-only callable.  A wrapper is a table pointer and a storage; a null table means
 empty, whatever the storage still contains.  Small callables live in the storage, and moving them
 constructs a new object and destroys the old one; large ones live on the heap, and moving them
 copies the pointer.  S is the state inside a callable.
 */
module Callables {

  datatype Table = Null | StackTable | HeapTable

  /** `obj` is the object in the inline storage, or the one its first word points to. */
  datatype Wrapper = Wrapper(table: Table, obj: nat)

  /** A callable object; `destroyed` counts its destructor calls. */
  datatype Object<S> = Object(state: S, onHeap: bool, destroyed: nat)

  datatype World<S> = World(wrappers: seq<Wrapper>, objects: seq<Object<S>>)

  /** What one invocation does to the callable's state, and what it gives the caller. */
  datatype Effect<S> = Effect(state: S, out: int)

  datatype Outcome = Nothing | Gave(out: int) | InvalidFunction

  datatype Op<S> =
    | MakeEmpty
    | Make(onHeap: bool, init: S)
    | MoveConstruct(src: nat)
    | MoveAssign(dst: nat, src: nat)
    | Assign(dst: nat, src: nat)
    | AssignNull(dst: nat)
    | Drop(dst: nat)
    | Invoke(dst: nat)

  predicate IsEmpty<S>(w: World<S>, i: nat)
    requires i < |w.wrappers|
  {
    w.wrappers[i].table.Null?
  }

  /** The storage of every non-empty wrapper designates an existing object. */
  predicate Designates<S>(w: World<S>) {
    forall i :: 0 <= i < |w.wrappers| && !w.wrappers[i].table.Null? ==> w.wrappers[i].obj < |w.objects|
  }

  function Destroyed<S>(o: Object<S>): Object<S> {
    o.(destroyed := o.destroyed + 1)
  }

  /** `destory`: nothing on an empty wrapper. */
  function Destroy<S>(w: World<S>, i: nat): World<S>
    requires i < |w.wrappers| && Designates(w)
  {
    if IsEmpty(w, i) then w
    else
      var o := w.wrappers[i].obj;
      w.(objects := w.objects[o := Destroyed(w.objects[o])], wrappers := w.wrappers[i := w.wrappers[i].(table := Null)])
  }

  /** `move_from`: the destination is taken to be empty. */
  function MoveFrom<S>(w: World<S>, dst: nat, src: nat): World<S>
    requires dst < |w.wrappers| && src < |w.wrappers| && Designates(w)
  {
    var from := w.wrappers[src];
    match from.table
    case Null => w
    case HeapTable =>
      w.(wrappers := w.wrappers[dst := Wrapper(HeapTable, from.obj)][src := from.(table := Null)])
    case StackTable =>
      var o := w.objects[from.obj];
      World(w.wrappers[dst := Wrapper(StackTable, |w.objects|)][src := from.(table := Null)],
            w.objects[from.obj := Destroyed(o)] + [Object(o.state, false, 0)])
  }

  function Assigned<S>(w: World<S>, dst: nat, src: nat): World<S>
    requires dst < |w.wrappers| && src < |w.wrappers| && Designates(w)
  {
    MoveFrom(Destroy(w, dst), dst, src)
  }

  predicate CanDo<S>(w: World<S>, op: Op<S>) {
    match op
    case MakeEmpty => true
    case Make(_, _) => true
    case MoveConstruct(s) => s < |w.wrappers|
    case MoveAssign(d, s) => d < |w.wrappers| && s < |w.wrappers|
    case Assign(d, s) => d < |w.wrappers| && s < |w.wrappers|
    case AssignNull(d) => d < |w.wrappers|
    case Drop(d) => d < |w.wrappers|
    case Invoke(d) => d < |w.wrappers|
  }

  function Do<S>(run: S -> Effect<S>, w: World<S>, op: Op<S>): (World<S>, Outcome)
    requires CanDo(w, op) && Designates(w)
  {
    match op
    case MakeEmpty => (w.(wrappers := w.wrappers + [Wrapper(Null, 0)]), Nothing)
    case Make(onHeap, init) =>
      (World(w.wrappers + [Wrapper(if onHeap then HeapTable else StackTable, |w.objects|)],
             w.objects + [Object(init, onHeap, 0)]), Nothing)
    case MoveConstruct(s) =>
      (MoveFrom(w.(wrappers := w.wrappers + [Wrapper(Null, 0)]), |w.wrappers|, s), Nothing)
    case MoveAssign(d, s) => (if d == s then w else Assigned(w, d, s), Nothing)
    case Assign(d, s) => (Assigned(w, d, s), Nothing)
    case AssignNull(d) => (Destroy(w, d), Nothing)
    case Drop(d) => (Destroy(w, d), Nothing)
    case Invoke(d) =>
      if IsEmpty(w, d) then (w, InvalidFunction)
      else
        var o := w.wrappers[d].obj;
        var e := run(w.objects[o].state);
        (w.(objects := w.objects[o := w.objects[o].(state := e.state)]), Gave(e.out))
  }

  // ---------------------------------------------------------------- the program

  /** All wrappers and callables of a program; each method is one member function of the wrapper. */
  class Memory<S> {
    var wrappers: seq<Wrapper>
    var objects: seq<Object<S>>

    function View(): World<S>
      reads this
    {
      World(wrappers, objects)
    }

    constructor ()
      ensures View() == World([], [])
    {
      wrappers, objects := [], [];
    }

    method DestroyAt(i: nat)
      requires i < |wrappers| && Designates(View())
      modifies this
      ensures View() == Destroy(old(View()), i)
    {
      if !wrappers[i].table.Null? {
        var o := wrappers[i].obj;
        objects := objects[o := Destroyed(objects[o])];
        wrappers := wrappers[i := wrappers[i].(table := Null)];
      }
    }

    method MoveInto(dst: nat, src: nat)
      requires dst < |wrappers| && src < |wrappers| && Designates(View())
      modifies this
      ensures View() == MoveFrom(old(View()), dst, src)
    {
      var from := wrappers[src];
      if from.table.HeapTable? {
        wrappers := wrappers[dst := Wrapper(HeapTable, from.obj)];
        wrappers := wrappers[src := from.(table := Null)];
      } else if from.table.StackTable? {
        var moved := objects[from.obj];
        objects := objects[from.obj := Destroyed(moved)] + [Object(moved.state, false, 0)];
        wrappers := wrappers[dst := Wrapper(StackTable, |objects| - 1)];
        wrappers := wrappers[src := from.(table := Null)];
      }
    }

    method AssignFrom(dst: nat, src: nat)
      requires dst < |wrappers| && src < |wrappers| && Designates(View())
      modifies this
      ensures View() == Assigned(old(View()), dst, src)
    {
      if !wrappers[dst].table.Null? {
        DestroyAt(dst);
      }
      MoveInto(dst, src);
    }

    method Perform(run: S -> Effect<S>, op: Op<S>) returns (out: Outcome)
      requires CanDo(View(), op) && Designates(View())
      modifies this
      ensures (View(), out) == Do(run, old(View()), op)
    {
      out := Nothing;
      match op {
        case MakeEmpty => wrappers := wrappers + [Wrapper(Null, 0)];
        case Make(onHeap, init) =>
          objects := objects + [Object(init, onHeap, 0)];
          wrappers := wrappers + [Wrapper(if onHeap then HeapTable else StackTable, |objects| - 1)];
        case MoveConstruct(s) =>
          wrappers := wrappers + [Wrapper(Null, 0)];
          MoveInto(|wrappers| - 1, s);
        case MoveAssign(d, s) =>
          if d != s {
            AssignFrom(d, s);
          }
        case Assign(d, s) => AssignFrom(d, s);
        case AssignNull(d) => DestroyAt(d);
        case Drop(d) => DestroyAt(d);
        case Invoke(d) =>
          if wrappers[d].table.Null? {
            out := InvalidFunction;
          } else {
            var o := wrappers[d].obj;
            var e := run(objects[o].state);
            objects := objects[o := objects[o].(state := e.state)];
            out := Gave(e.out);
          }
      }
    }
  }

  // ---------------------------------------------------------------- ownership

  /** The object is held by wrapper i. */
  predicate Holds<S>(w: World<S>, i: nat, o: nat)
    requires i < |w.wrappers|
  {
    !w.wrappers[i].table.Null? && w.wrappers[i].obj == o
  }

  /**
   Single ownership: no two wrappers share an object; an object is alive exactly while one wrapper
   holds it, and it is destroyed exactly once after that; the table fits the object's place.
   */
  ghost predicate Owned<S>(w: World<S>) {
    && Designates(w)
    && (forall i: nat, j: nat {:trigger w.wrappers[i], w.wrappers[j]} ::
          i < j < |w.wrappers| && !IsEmpty(w, i) && !IsEmpty(w, j) ==> w.wrappers[i].obj != w.wrappers[j].obj)
    && (forall i: nat :: i < |w.wrappers| && !IsEmpty(w, i) ==>
          && w.objects[w.wrappers[i].obj].destroyed == 0
          && (w.wrappers[i].table.HeapTable? <==> w.objects[w.wrappers[i].obj].onHeap))
    && (forall o: nat :: o < |w.objects| ==> Accounted(w, o))
  }

  /** An object is dead and was destroyed once, or alive and held. */
  ghost predicate Accounted<S>(w: World<S>, o: nat)
    requires o < |w.objects|
  {
    w.objects[o].destroyed == 1 || (w.objects[o].destroyed == 0 && exists i: nat :: i < |w.wrappers| && Holds(w, i, o))
  }

  lemma DestroyKeepsOwned<S>(w: World<S>, i: nat)
    requires Owned(w) && i < |w.wrappers|
    ensures Owned(Destroy(w, i)) && IsEmpty(Destroy(w, i), i)
  {
    var w' := Destroy(w, i);
    if !IsEmpty(w, i) {
      forall o: nat | o < |w'.objects| ensures Accounted(w', o) {
        assert Accounted(w, o);
        if o != w.wrappers[i].obj && w.objects[o].destroyed == 0 {
          var j: nat :| j < |w.wrappers| && Holds(w, j, o);
          assert Holds(w', j, o);
        }
      }
    }
  }

  lemma MoveHeapKeepsOwned<S>(w: World<S>, dst: nat, src: nat)
    requires Owned(w) && dst < |w.wrappers| && src < |w.wrappers| && IsEmpty(w, dst)
    requires w.wrappers[src].table.HeapTable?
    ensures Owned(MoveFrom(w, dst, src))
  {
    var w' := MoveFrom(w, dst, src);
    forall o: nat | o < |w'.objects| ensures Accounted(w', o) {
      assert Accounted(w, o);
      if o == w.wrappers[src].obj {
        assert Holds(w', dst, o);
      } else if w.objects[o].destroyed == 0 {
        var j: nat :| j < |w.wrappers| && Holds(w, j, o);
        assert Holds(w', j, o);
      }
    }
  }

  lemma MoveStackKeepsOwned<S>(w: World<S>, dst: nat, src: nat)
    requires Owned(w) && dst < |w.wrappers| && src < |w.wrappers| && IsEmpty(w, dst)
    requires w.wrappers[src].table.StackTable?
    ensures Owned(MoveFrom(w, dst, src))
  {
    var w' := MoveFrom(w, dst, src);
    forall o: nat | o < |w'.objects| ensures Accounted(w', o) {
      if o == |w.objects| {
        assert Holds(w', dst, o);
      } else {
        assert Accounted(w, o);
        if o != w.wrappers[src].obj && w.objects[o].destroyed == 0 {
          var j: nat :| j < |w.wrappers| && Holds(w, j, o);
          assert Holds(w', j, o);
        }
      }
    }
  }

  lemma MoveKeepsOwned<S>(w: World<S>, dst: nat, src: nat)
    requires Owned(w) && dst < |w.wrappers| && src < |w.wrappers| && IsEmpty(w, dst)
    ensures Owned(MoveFrom(w, dst, src))
  {
    match w.wrappers[src].table
    case Null =>
    case HeapTable => MoveHeapKeepsOwned(w, dst, src);
    case StackTable => MoveStackKeepsOwned(w, dst, src);
  }

  lemma AppendKeepsOwned<S>(w: World<S>, x: Wrapper, os: seq<Object<S>>)
    requires Owned(w) && |os| <= 1
    requires if |os| == 0 then x.table.Null?
             else
                && !x.table.Null? && x.obj == |w.objects|
                && os[0].destroyed == 0 && (x.table.HeapTable? <==> os[0].onHeap)
    ensures Owned(World(w.wrappers + [x], w.objects + os))
  {
    var w' := World(w.wrappers + [x], w.objects + os);
    forall o: nat | o < |w'.objects| ensures Accounted(w', o) {
      if o < |w.objects| { assert Accounted(w, o); }
      if o < |w.objects| {
        if w.objects[o].destroyed == 0 {
          var j: nat :| j < |w.wrappers| && Holds(w, j, o);
          assert Holds(w', j, o);
        }
      } else {
        assert Holds(w', |w.wrappers|, o);
      }
    }
  }

  lemma InvokeKeepsOwned<S>(run: S -> Effect<S>, w: World<S>, d: nat)
    requires Owned(w) && d < |w.wrappers|
    ensures Owned(Do(run, w, Invoke(d)).0)
  {
    var w' := Do(run, w, Invoke(d)).0;
    forall o: nat | o < |w'.objects| ensures Accounted(w', o) {
      if o < |w.objects| { assert Accounted(w, o); }
      if w.objects[o].destroyed == 0 {
        var j: nat :| j < |w.wrappers| && Holds(w, j, o);
        assert Holds(w', j, o);
      }
    }
  }

  lemma DoKeepsOwned<S>(run: S -> Effect<S>, w: World<S>, op: Op<S>)
    requires Owned(w) && CanDo(w, op)
    ensures Owned(Do(run, w, op).0)
  {
    match op
    case MakeEmpty =>
      AppendKeepsOwned(w, Wrapper(Null, 0), []);
      assert w.objects + [] == w.objects;
    case Make(onHeap, init) =>
      AppendKeepsOwned(w, Wrapper(if onHeap then HeapTable else StackTable, |w.objects|), [Object(init, onHeap, 0)]);
    case MoveConstruct(s) =>
      AppendKeepsOwned(w, Wrapper(Null, 0), []);
      assert w.objects + [] == w.objects;
      MoveKeepsOwned(w.(wrappers := w.wrappers + [Wrapper(Null, 0)]), |w.wrappers|, s);
    case MoveAssign(d, s) =>
      if d != s {
        DestroyKeepsOwned(w, d);
        MoveKeepsOwned(Destroy(w, d), d, s);
      }
    case Assign(d, s) =>
      DestroyKeepsOwned(w, d);
      MoveKeepsOwned(Destroy(w, d), d, s);
    case AssignNull(d) => DestroyKeepsOwned(w, d);
    case Drop(d) => DestroyKeepsOwned(w, d);
    case Invoke(d) => InvokeKeepsOwned(run, w, d);
  }
}
