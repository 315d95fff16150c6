/**
 Calls do complete: from any quiet moment a call can run to its end and returns what the server's
 function gives; a call can always be given up; and what a late answer does to the call after it.
 */
module CallRuns {
  import opened Framing
  import opened Sessions
  import Conversations
  import opened Rpc
  import opened Calls
  import CT = ConversationTheorems
  import Delivery

  lemma StartReachable<A(!new), R(!new)>(v: Service<A, R>)
    ensures Reachable(v, System(1, [], Slot([], false), [], [], Conversations.CONNECTED))
  {
    var s: System<A, R> := System(1, [], Slot([], false), [], [], Conversations.CONNECTED);
    forall p: System<A, R> -> bool | Inductive(v, p) ensures p(s) {
      assert Initial(s);
    }
  }

  lemma StepReachable<A(!new), R(!new)>(v: Service<A, R>, s: System<A, R>, e: Event<A>)
    requires Reachable(v, s) && Enabled(v, s, e)
    ensures Reachable(v, Do(v, s, e))
  {
    forall p: System<A, R> -> bool | Inductive(v, p) ensures p(Do(v, s, e)) {
      assert p(s);
    }
  }

  ghost predicate AllBelow(more: seq<(bool, Conversations.Action)>) {
    forall k :: 0 <= k < |more| ==> Below(more[k].1)
  }

  /** The network may do whatever it can, while callers and server wait. */
  lemma {:induction false} NetRuns<A(!new), R(!new)>(
    v: Service<A, R>, s: System<A, R>, more: seq<(bool, Conversations.Action)>)
    requires Reachable(v, s) && AllBelow(more) && Conversations.After(s.net, more).Some?
    ensures Reachable(v, s.(net := Conversations.After(s.net, more).value))
    decreases |more|
  {
    if |more| == 0 {
      assert s.(net := s.net) == s;
    } else {
      var l, a := more[0].0, more[0].1;
      assert Below(a);
      StepReachable(v, s, Net(l, a));
      var s1 := Do(v, s, Net(l, a));
      NetRuns(v, s1, more[1..]);
      var net := Conversations.After(s.net, more).value;
      assert s1.(net := net) == s.(net := net);
    }
  }

  /** The connection with m complete in the receiver's read buffer, on its way from the side `onLeft`. */
  function Holding(c: Conversations.Conversation, onLeft: bool, m: Message): Conversations.Conversation {
    var w, r := CT.WritingSide(c, onLeft), CT.WritingSide(c, !onLeft);
    Delivery.Between(onLeft, w.(out := Delivery.Carried(w.out, m)),
                     r.(end := STARTED.(phase := ReadingBody(|m|), buffer := m)))
  }

  /** The connection after that message was handed over. */
  function Handed(c: Conversations.Conversation, onLeft: bool, m: Message): Conversations.Conversation {
    var w, r := CT.WritingSide(c, onLeft), CT.WritingSide(c, !onLeft);
    var p := Delivery.Carried(w.out, m);
    Delivery.Between(onLeft, w.(out := p.(delivered := p.delivered + [m])), r)
  }

  lemma HandedOver(c: Conversations.Conversation, onLeft: bool, m: Message)
    requires Delivery.Quiet(c)
    ensures Conversations.CanAct(Holding(c, onLeft, m), !onLeft, Conversations.RunBody)
    ensures Conversations.Act(Holding(c, onLeft, m), !onLeft, Conversations.RunBody) == Handed(c, onLeft, m)
    ensures Delivery.Quiet(Handed(c, onLeft, m))
  {
  }

  lemma FerryIsBelow(onLeft: bool, m: Message)
    ensures AllBelow(Delivery.Ferry(onLeft, m))
  {
  }

  /** A request posted on a quiet connection reaches the server's read buffer. */
  lemma RequestCrosses<A(!new), R(!new)>(v: Service<A, R>, s: System<A, R>, m: Message)
    requires Reachable(v, s) && Delivery.Quiet(s.net) && s.clientOutbox == [m] && ValidLength(|m|)
    ensures Reachable(v, s.(clientOutbox := [], net := Holding(s.net, true, m)))
  {
    StepReachable(v, s, RunPost(true));
    var s1 := Do(v, s, RunPost(true));
    assert s.clientOutbox[1..] == [];
    assert s1 == s.(clientOutbox := [], net := Conversations.Act(s.net, true, Conversations.Post(m)));
    Delivery.Ferries(s.net, true, m);
    FerryIsBelow(true, m);
    NetRuns(v, s1, Delivery.Ferry(true, m));
  }

  lemma AnswerCrosses<A(!new), R(!new)>(v: Service<A, R>, s: System<A, R>, m: Message)
    requires Reachable(v, s) && Delivery.Quiet(s.net) && s.serverOutbox == [m] && ValidLength(|m|)
    ensures Reachable(v, s.(serverOutbox := [], net := Holding(s.net, false, m)))
  {
    StepReachable(v, s, RunPost(false));
    var s1 := Do(v, s, RunPost(false));
    assert s.serverOutbox[1..] == [];
    assert s1 == s.(serverOutbox := [], net := Conversations.Act(s.net, false, Conversations.Post(m)));
    Delivery.Ferries(s.net, false, m);
    FerryIsBelow(false, m);
    NetRuns(v, s1, Delivery.Ferry(false, m));
  }

  /** Nothing is under way between client and server. */
  predicate AtRest<A, R>(s: System<A, R>) {
    Delivery.Quiet(s.net) && s.clientOutbox == [] && s.serverOutbox == []
  }

  /** The bytes of the next call's request, and of its answer. */
  function NextRequest<A, R>(v: Service<A, R>, s: System<A, R>, a: A): Message {
    v.encodeRequest(RequestFor(v, a, s.nextId))
  }

  /** A caller starts, finds the session open, clears the slot and posts its request. */
  function Asked<A, R>(v: Service<A, R>, s: System<A, R>, a: A): System<A, R> {
    s.(nextId := NextId(s.nextId), callers := s.callers + [Caller(a, s.nextId, Sent)], slot := Slot([], false),
       clientOutbox := s.clientOutbox + [NextRequest(v, s, a)])
  }

  lemma Asks<A(!new), R(!new)>(v: Service<A, R>, s: System<A, R>, a: A)
    requires Reachable(v, s) && s.net.left.end.open
    ensures Reachable(v, Asked(v, s, a))
  {
    var i := |s.callers|;
    StepReachable(v, s, Begin(a));
    var s1 := Do(v, s, Begin(a));
    StepReachable(v, s1, CheckOpen(i));
    var s2 := Do(v, s1, CheckOpen(i));
    StepReachable(v, s2, Arm(i));
    var s3 := Do(v, s2, Arm(i));
    StepReachable(v, s3, Send(i));
    assert Do(v, s3, Send(i)).callers == s.callers + [Caller(a, s.nextId, Sent)];
  }

  /** The request crosses, the server answers, and the answer reaches the client's read buffer. */
  lemma AnswerArrives<A(!new), R(!new)>(v: Service<A, R>, s: System<A, R>, a: A)
    requires Reachable(v, s) && AtRest(s) && Deliverable(v, NextRequest(v, s, a))
    ensures var q := NextRequest(v, s, a);
      var net := Holding(Handed(s.net, true, q), false, Reply(v, q));
      Reachable(v, Asked(v, s, a).(clientOutbox := [], net := net))
  {
    var q := NextRequest(v, s, a);
    Asks(v, s, a);
    assert [] + [q] == [q];
    var s1 := Asked(v, s, a);
    RequestCrosses(v, s1, q);
    var s2 := s1.(clientOutbox := [], net := Holding(s.net, true, q));
    HandedOver(s.net, true, q);
    StepReachable(v, s2, ServerReceives);
    var s3 := Do(v, s2, ServerReceives);
    assert s3 == s2.(serverOutbox := [Reply(v, q)], net := Handed(s.net, true, q));
    AnswerCrosses(v, s3, Reply(v, q));
    var s4 := s3.(serverOutbox := [], net := Holding(s3.net, false, Reply(v, q)));
    assert s4 == s1.(clientOutbox := [], net := Holding(Handed(s.net, true, q), false, Reply(v, q)));
  }

  /** What a call must end with, by what the server's function does on its arguments. */
  ghost predicate EndsWith<A, R>(v: Service<A, R>, a: A, result: CallResult<R>) {
    match v.invoke(a)
    case Returned(value) => result == Accepted(value)
    case Threw(what) => result == Raised(ServerError(if what == "" then "rpc request failed" else what))
    case ThrewOther => result == Raised(ServerError("unknown rpc invoke error"))
  }

  /**
   From any reachable state with nothing under way, one more call can run to its end: it returns the
   function's value, or raises its error, and leaves the connection at rest for the next call.
   */
  lemma CallCompletes<A(!new), R(!new)>(v: Service<A, R>, s: System<A, R>, a: A) returns (s': System<A, R>)
    requires RoundTrips(v) && Reachable(v, s) && AtRest(s)
    requires Serializable(v, a) && Deliverable(v, NextRequest(v, s, a))
    ensures Reachable(v, s') && AtRest(s') && |s'.callers| == |s.callers| + 1
    ensures s'.callers[..|s.callers|] == s.callers && s'.callers[|s.callers|].args == a
    ensures s'.callers[|s.callers|].pc.Finished? && EndsWith(v, a, s'.callers[|s.callers|].pc.result)
  {
    var q, i := NextRequest(v, s, a), |s.callers|;
    AnswerArrives(v, s, a);
    var net1 := Handed(s.net, true, q);
    var s1 := Asked(v, s, a).(clientOutbox := [], net := Holding(net1, false, Reply(v, q)));
    HandedOver(s.net, true, q);
    HandedOver(net1, false, Reply(v, q));
    StepReachable(v, s1, ClientReceives);
    var s2 := Do(v, s1, ClientReceives);
    StepReachable(v, s2, Wake(i));
    var s3 := Do(v, s2, Wake(i));
    StepReachable(v, s3, Finish(i));
    s' := Do(v, s3, Finish(i));
    OwnAnswer(v, a, s.nextId);
  }

  /** So the very first call of a client can return its value. */
  lemma FirstCallReturns<A(!new), R(!new)>(v: Service<A, R>, a: A, r: R) returns (s: System<A, R>)
    requires RoundTrips(v) && Serializable(v, a) && v.invoke(a) == Returned(r)
    requires Deliverable(v, v.encodeRequest(RequestFor(v, a, 1)))
    ensures Reachable(v, s) && |s.callers| == 1
    ensures s.callers[0].args == a && s.callers[0].pc == Finished(Accepted(r))
  {
    StartReachable(v);
    s := CallCompletes(v, System(1, [], Slot([], false), [], [], Conversations.CONNECTED), a);
  }

  // ---------------------------------------------------------------- giving up, and late answers

  function Rank<R>(pc: CallPc<R>): nat {
    match pc
    case HasId => 5
    case Checked => 4
    case Armed => 3
    case Sent => 2
    case Got(_) => 1
    case Finished(_) => 0
  }

  /**
   No call is ever stuck: whatever the network does, a caller can finish by its own steps; one that is
   waiting can time out at any moment, even when its answer is there.
   */
  lemma {:induction false} CallCanFinish<A(!new), R(!new)>(v: Service<A, R>, s: System<A, R>, i: nat)
    returns (s': System<A, R>)
    requires Reachable(v, s) && i < |s.callers|
    ensures Reachable(v, s') && |s'.callers| == |s.callers| && s'.net == s.net && s'.nextId == s.nextId
    ensures s'.callers[i].pc.Finished? && (s.callers[i].pc.Finished? ==> s' == s)
    ensures forall j :: 0 <= j < |s.callers| && j != i ==> s'.callers[j] == s.callers[j]
    ensures s.callers[i].pc.Sent? ==> s'.callers[i].pc.result == Raised(TimedOutOrClosed)
    ensures s.callers[i].pc.HasId? && !s.net.left.end.open ==> s'.callers[i].pc.result == Raised(TimedOutOrClosed)
    decreases Rank(s.callers[i].pc)
  {
    var e: Event<A> := match s.callers[i].pc
      case HasId => if s.net.left.end.open then CheckOpen(i) else NotOpen(i)
      case Checked => Arm(i)
      case Armed => Send(i)
      case Sent => Timeout(i)
      case _ => Finish(i);
    if s.callers[i].pc.Finished? {
      s' := s;
    } else {
      StepReachable(v, s, e);
      s' := CallCanFinish(v, Do(v, s, e), i);
    }
  }

  /**
   What may happen at any moment: new calls, other users of the connection clearing the slot or sending
   what no server can parse, and everything the network does.  A call is refused exactly when it finds
   the session closed, and woken only by a set slot.
   */
  lemma OthersAreFree<A(!new), R(!new)>(v: Service<A, R>, s: System<A, R>, bytes: Message, a: A)
    ensures Enabled(v, s, Begin(a)) && Enabled(v, s, ClearSlot)
    ensures forall i: nat :: i < |s.callers| && s.callers[i].pc.HasId? ==>
      && (Enabled(v, s, CheckOpen(i)) <==> s.net.left.end.open)
      && (Enabled(v, s, NotOpen(i)) <==> !s.net.left.end.open)
    ensures forall i: nat :: i < |s.callers| && s.callers[i].pc.Sent? ==> (Enabled(v, s, Wake(i)) <==> s.slot.received)
    ensures !Do(v, s, ClearSlot).slot.received && Do(v, s, ClearSlot).callers == s.callers
    ensures v.decodeRequest(bytes).None? ==>
      && Enabled(v, s, SendRaw(bytes))
      && Do(v, s, SendRaw(bytes)).clientOutbox == s.clientOutbox + [bytes]
    ensures forall l: bool, x: Conversations.Action :: Conversations.CanAct(s.net, l, x) && Below(x) ==>
      Enabled(v, s, Net(l, x)) && Do(v, s, Net(l, x)).net == Conversations.Act(s.net, l, x)
    ensures forall i: nat :: i < |s.callers| && s.callers[i].pc.Sent? ==>
      && Enabled(v, s, Timeout(i))
      && Do(v, s, Timeout(i)).callers[i].pc == Finished(Raised(TimedOutOrClosed))
  {
  }

  /**
   A late answer: the first of two calls times out, its answer arrives while the second waits, and the
   second is woken by it and fails on the id, before its own request has left the client.
   */
  lemma LateAnswerFailsNextCall<A(!new), R(!new)>(v: Service<A, R>, s: System<A, R>, a: A, b: A)
    returns (s': System<A, R>)
    requires RoundTrips(v) && Reachable(v, s) && AtRest(s) && Deliverable(v, NextRequest(v, s, a))
    ensures Reachable(v, s') && |s'.callers| == |s.callers| + 2
    ensures s'.callers[|s.callers|].args == a && s'.callers[|s.callers| + 1].args == b
    ensures s'.callers[|s.callers|].pc == Finished(Raised(TimedOutOrClosed))
    ensures s'.callers[|s.callers| + 1].pc == Finished(Raised(IdMismatch))
  {
    var q, i := NextRequest(v, s, a), |s.callers|;
    AnswerArrives(v, s, a);
    var net1 := Handed(s.net, true, q);
    var s1 := Asked(v, s, a).(clientOutbox := [], net := Holding(net1, false, Reply(v, q)));
    HandedOver(s.net, true, q);
    HandedOver(net1, false, Reply(v, q));
    StepReachable(v, s1, Timeout(i));
    var s2 := Do(v, s1, Timeout(i));
    Asks(v, s2, b);
    var s3 := Asked(v, s2, b);
    StepReachable(v, s3, ClientReceives);
    var s4 := Do(v, s3, ClientReceives);
    assert s4.slot == Slot(Reply(v, q), true);
    WokenByAnother(v, s4, i + 1, q);
    s' := Do(v, Do(v, s4, Wake(i + 1)), Finish(i + 1));
    OtherId(v, s, a, b);
  }

  lemma WokenByAnother<A(!new), R(!new)>(v: Service<A, R>, s: System<A, R>, j: nat, q: Message)
    requires Reachable(v, s) && j < |s.callers| && s.callers[j].pc.Sent? && s.slot == Slot(Reply(v, q), true)
    ensures Enabled(v, s, Wake(j)) && Enabled(v, Do(v, s, Wake(j)), Finish(j))
    ensures Reachable(v, Do(v, Do(v, s, Wake(j)), Finish(j)))
  {
    StepReachable(v, s, Wake(j));
    StepReachable(v, Do(v, s, Wake(j)), Finish(j));
  }

  lemma OtherId<A(!new), R(!new)>(v: Service<A, R>, s: System<A, R>, a: A, b: A)
    requires RoundTrips(v) && Deliverable(v, NextRequest(v, s, a))
    ensures Check(v, b, NextId(s.nextId), Reply(v, NextRequest(v, s, a))) == Raised(IdMismatch)
  {
    AnswerEchoes(v, NextRequest(v, s, a));
    assert NextId(s.nextId) != s.nextId;
  }
}
