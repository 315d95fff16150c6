/**
 Remote calls end to end: any number of concurrent callers on one client, one shared response slot,
 timeouts at any moment, and a server, all on top of a framed conversation.  The client is the left
 side of the conversation, the server the right.
 */
module Calls {
  import opened Words
  import opened Framing
  import opened Conversations
  import opened Rpc

  datatype CallPc<R> =
    | HasId                        // after next_request_id_.fetch_add
    | Checked                      // is_open() was true
    | Armed                        // the slot has been cleared
    | Sent                         // async_write called; waiting
    | Got(bytes: Message)          // the slot was copied out
    | Finished(result: CallResult<R>)

  datatype Caller<A, R> = Caller(args: A, id: UInt64, pc: CallPc<R>)

  /** `response_buffer_` and `response_received_`. */
  datatype Slot = Slot(buffer: Message, received: bool)

  /** The two `outbox`es are strand handlers posted by async_write and not run yet. */
  datatype System<A, R> = System(
    nextId: UInt64, callers: seq<Caller<A, R>>, slot: Slot,
    clientOutbox: seq<Message>, serverOutbox: seq<Message>, net: Conversation)

  datatype Event<A> =
    | Begin(args: A)
    | NotOpen(i: nat)              // send_and_wait finds the session closed
    | CheckOpen(i: nat)            // it finds the session open
    | Arm(i: nat)                  // and clears the slot, even if the session has closed since
    | Send(i: nat)
    | Wake(i: nat)
    | Timeout(i: nat)
    | Finish(i: nat)
    | SendRaw(bytes: Message)      // other users of the connection
    | ClearSlot
    | Net(onLeft: bool, a: Action) // everything below the message level
    | RunPost(onLeft: bool)        // the strand runs the next posted async_write handler
    | ServerReceives
    | ClientReceives

  ghost predicate Initial<A(!new), R(!new)>(s: System<A, R>) {
    s == System(1, [], Slot([], false), [], [], CONNECTED)
  }

  function NextId(id: UInt64): UInt64 { (id + 1) % WORD }

  predicate Below(a: Action) { !a.Post? && !a.RunBody? }

  predicate Enabled<A, R>(v: Service<A, R>, s: System<A, R>, e: Event<A>) {
    match e
    case Begin(_) => true
    case NotOpen(i) => i < |s.callers| && s.callers[i].pc.HasId? && !s.net.left.end.open
    case CheckOpen(i) => i < |s.callers| && s.callers[i].pc.HasId? && s.net.left.end.open
    case Arm(i) => i < |s.callers| && s.callers[i].pc.Checked?
    case Send(i) => i < |s.callers| && s.callers[i].pc.Armed?
    case Wake(i) => i < |s.callers| && s.callers[i].pc.Sent? && s.slot.received
    case Timeout(i) => i < |s.callers| && s.callers[i].pc.Sent?
    case Finish(i) => i < |s.callers| && s.callers[i].pc.Got?
    case SendRaw(bytes) => v.decodeRequest(bytes).None?
    case ClearSlot => true
    case Net(onLeft, a) => Below(a) && CanAct(s.net, onLeft, a)
    case RunPost(onLeft) => (if onLeft then s.clientOutbox else s.serverOutbox) != []
    case ServerReceives => CanAct(s.net, false, RunBody)
    case ClientReceives => CanAct(s.net, true, RunBody)
  }

  function SetPc<A, R>(s: System<A, R>, i: nat, pc: CallPc<R>): System<A, R>
    requires i < |s.callers|
  {
    s.(callers := s.callers[i := s.callers[i].(pc := pc)])
  }

  function Do<A, R>(v: Service<A, R>, s: System<A, R>, e: Event<A>): System<A, R>
    requires Enabled(v, s, e)
  {
    match e
    case Begin(args) =>
      s.(nextId := NextId(s.nextId), callers := s.callers + [Caller(args, s.nextId, HasId)])
    case NotOpen(i) => SetPc(s, i, Finished(Raised(TimedOutOrClosed)))
    case CheckOpen(i) => SetPc(s, i, Checked)
    case Arm(i) => SetPc(s.(slot := Slot([], false)), i, Armed)
    case Send(i) =>
      var c := s.callers[i];
      SetPc(s.(clientOutbox := s.clientOutbox + [v.encodeRequest(RequestFor(v, c.args, c.id))]), i, Sent)
    case Wake(i) => SetPc(s, i, Got(s.slot.buffer))
    case Timeout(i) => SetPc(s, i, Finished(Raised(TimedOutOrClosed)))
    case Finish(i) =>
      var c := s.callers[i];
      SetPc(s, i, Finished(Check(v, c.args, c.id, c.pc.bytes)))
    case SendRaw(bytes) => s.(clientOutbox := s.clientOutbox + [bytes])
    case ClearSlot => s.(slot := Slot([], false))
    case Net(onLeft, a) => s.(net := Act(s.net, onLeft, a))
    case RunPost(true) =>
      s.(clientOutbox := s.clientOutbox[1..], net := Act(s.net, true, Post(s.clientOutbox[0])))
    case RunPost(false) =>
      s.(serverOutbox := s.serverOutbox[1..], net := Act(s.net, false, Post(s.serverOutbox[0])))
    case ServerReceives =>
      s.(serverOutbox := s.serverOutbox + [Reply(v, s.net.right.end.buffer)], net := Act(s.net, false, RunBody))
    case ClientReceives =>
      s.(slot := Slot(s.net.left.end.buffer, true), net := Act(s.net, true, RunBody))
  }

  /** The predicate holds of a fresh client and server and is kept by every event. */
  ghost predicate Inductive<A(!new), R(!new)>(v: Service<A, R>, p: System<A, R> -> bool) {
    && (forall s: System<A, R> :: Initial(s) ==> p(s))
    && (forall s: System<A, R>, e: Event<A> :: p(s) && Enabled(v, s, e) ==> p(Do(v, s, e)))
  }

  /** Reachable states: those of which every inductive predicate holds. */
  ghost predicate Reachable<A(!new), R(!new)>(v: Service<A, R>, s: System<A, R>) {
    forall p: System<A, R> -> bool :: Inductive(v, p) ==> p(s)
  }

  // ---------------------------------------------------------------- invariant

  /** What a client message may be: the request of some call, or something no server can parse. */
  ghost predicate Explained<A, R>(v: Service<A, R>, callers: seq<Caller<A, R>>, m: Message) {
    || v.decodeRequest(m).None?
    || exists i: nat :: i < |callers| && m == v.encodeRequest(RequestFor(v, callers[i].args, callers[i].id))
  }

  ghost predicate AllExplained<A, R>(v: Service<A, R>, callers: seq<Caller<A, R>>, ms: seq<Message>) {
    forall k: nat :: k < |ms| ==> Explained(v, callers, ms[k])
  }

  function Replies<A, R>(v: Service<A, R>, ms: seq<Message>): (rs: seq<Message>)
    ensures |rs| == |ms|
  {
    seq(|ms|, k requires 0 <= k < |ms| => Reply(v, ms[k]))
  }

  function IdOf(n: nat): UInt64 { (n + 1) % WORD }

  ghost predicate CallerOk<A, R>(v: Service<A, R>, s: System<A, R>, i: nat)
    requires i < |s.callers|
  {
    var c := s.callers[i];
    && c.id == IdOf(i)
    && (c.pc.Got? ==> c.pc.bytes in s.net.right.out.delivered)
    && (c.pc.Finished? && c.pc.result.Accepted? ==>
          exists m: Message :: m in s.net.right.out.delivered && Check(v, c.args, c.id, m) == c.pc.result)
  }

  ghost predicate Inv<A(!new), R(!new)>(v: Service<A, R>, s: System<A, R>) {
    && Conversations.Reachable(s.net)
    && s.nextId == IdOf(|s.callers|)
    && (forall i: nat :: i < |s.callers| ==> CallerOk(v, s, i))
    && AllExplained(v, s.callers, s.net.left.out.posted + s.clientOutbox)
    && s.net.right.out.posted + s.serverOutbox == Replies(v, s.net.left.out.delivered)
    && SlotOk(s.slot, s.net.right.out.delivered)
  }

  /** A set slot holds the last message received; a cleared one is empty. */
  predicate SlotOk(slot: Slot, received: seq<Message>) {
    if slot.received then received != [] && slot.buffer == received[|received| - 1] else slot.buffer == []
  }
}
