/**
 The client object: the id counter and the shared response slot, one method for each atomic
 operation or critical section of `call`, `send_and_wait` and the message callback.
 */
module ClientStubs {
  import opened Words
  import opened Wrappers
  import opened Framing
  import opened Sessions
  import opened Rpc
  import opened Calls

  class ClientStub {
    var nextRequestId: UInt64
    var responseBuffer: Message
    var responseReceived: bool

    function SlotView(): Slot
      reads this
    {
      Slot(responseBuffer, responseReceived)
    }

    constructor ()
      ensures nextRequestId == IdOf(0) && SlotView() == Slot([], false)
    {
      nextRequestId := 1;
      responseBuffer, responseReceived := [], false;
    }

    /** `next_request_id_.fetch_add(1)`. */
    method FetchId<A, R>(ghost v: Service<A, R>, ghost s: System<A, R>, ghost args: A) returns (id: UInt64)
      requires nextRequestId == s.nextId
      modifies this`nextRequestId
      ensures nextRequestId == Do(v, s, Begin(args)).nextId
      ensures Do(v, s, Begin(args)).callers == s.callers + [Caller(args, id, HasId)]
      ensures id == old(nextRequestId) && nextRequestId == NextId(id)
    {
      id := nextRequestId;
      nextRequestId := (id + 1) % WORD;
    }

    /** The first critical section of `send_and_wait`. */
    method ArmSlot<A, R>(ghost v: Service<A, R>, ghost s: System<A, R>, ghost i: nat)
      requires Enabled(v, s, Arm(i))
      modifies this`responseBuffer, this`responseReceived
      ensures SlotView() == Do(v, s, Arm(i)).slot
      ensures SlotView() == Slot([], false)
    {
      responseReceived := false;
      responseBuffer := [];
    }

    /** The callback given to `start`: the last message received wins. */
    method OnMessage<A, R>(data: Message, ghost v: Service<A, R>, ghost s: System<A, R>)
      requires Enabled(v, s, ClientReceives) && data == s.net.left.end.buffer
      modifies this`responseBuffer, this`responseReceived
      ensures SlotView() == Do(v, s, ClientReceives).slot
      ensures SlotView() == Slot(data, true)
    {
      responseBuffer := data;
      responseReceived := true;
    }

    /** What the waiter sees when it holds the mutex: the slot is copied and stays set. */
    method TryWake<A, R>(ghost v: Service<A, R>, ghost s: System<A, R>, ghost i: nat)
      returns (response: Option<Message>)
      requires SlotView() == s.slot && i < |s.callers| && s.callers[i].pc.Sent?
      ensures response.Some? <==> Enabled(v, s, Wake(i))
      ensures response.Some? ==>
        Do(v, s, Wake(i)).callers[i].pc == Got(response.value) && Do(v, s, Wake(i)).slot == SlotView()
      ensures response == if responseReceived then Some(responseBuffer) else None
    {
      if responseReceived {
        response := Some(responseBuffer);
      } else {
        response := None;
      }
    }

    /** The client's fields are the model's after the caller's steps up to the posted request. */
    ghost predicate Follows<A, R>(v: Service<A, R>, s: System<A, R>, args: A)
      reads this
    {
      var i, s1 := |s.callers|, Do(v, s, Begin(args));
      && Enabled(v, s1, CheckOpen(i))
      && var s2 := Do(v, s1, CheckOpen(i));
         && Enabled(v, s2, Arm(i))
         && var s3 := Do(v, s2, Arm(i));
            && Enabled(v, s3, Send(i))
            && var s4 := Do(v, s3, Send(i));
               && nextRequestId == s4.nextId && SlotView() == s4.slot
               && s4.clientOutbox == s.clientOutbox + [v.encodeRequest(RequestFor(v, args, s.nextId))]
    }

    /** `call` up to the wait: a fresh id, the slot cleared, the request written to the session. */
    method SendRequest<A, R>(v: Service<A, R>, args: A, session: Session, ghost s: System<A, R>)
      returns (id: Option<UInt64>)
      requires (this as object) != session
      requires nextRequestId == s.nextId && session.View() == s.net.left.end
      modifies this, session
      ensures old(session.isOpen) ==> Follows(v, s, args)
      ensures nextRequestId == NextId(old(nextRequestId))
      ensures id == if old(session.isOpen) then Some(old(nextRequestId)) else None
      ensures old(session.isOpen) ==> SlotView() == Slot([], false)
      ensures old(session.isOpen) ==>
        session.View() == Enqueued(old(session.View()), v.encodeRequest(RequestFor(v, args, old(nextRequestId))))
      ensures !old(session.isOpen) ==> SlotView() == old(SlotView()) && session.View() == old(session.View())
    {
      var body := v.serializeArgs(args);
      var requestId := FetchId(v, s, args);
      ghost var i, s1 := |s.callers|, Do(v, s, Begin(args));
      var request := Request(requestId, v.methodOf(args), body);
      var payload := v.encodeRequest(request);
      if !session.isOpen {
        return None;
      }
      ghost var s2 := Do(v, s1, CheckOpen(i));
      ArmSlot(v, s2, i);
      session.Enqueue(payload);
      id := Some(requestId);
    }
  }

  /** The checks of `call` after a response arrived, in the order they are made. */
  method AcceptResponse<A, R>(v: Service<A, R>, args: A, id: UInt64, bytes: Message) returns (result: CallResult<R>)
    ensures result == Check(v, args, id, bytes)
    ensures result.Accepted? ==>
      && v.decodeResponse(bytes).Some? && v.decodeResponse(bytes).value.id == id
      && v.decodeResponse(bytes).value.kind == v.methodOf(args) && v.decodeResponse(bytes).value.status == STATUS_OK
      && v.parseResult(v.methodOf(args), v.decodeResponse(bytes).value.body) == Some(result.value)
  {
    var decoded := v.decodeResponse(bytes);
    if decoded.None? {
      return Raised(UnparsableResponse);
    }
    var response := decoded.value;
    if response.id != id {
      return Raised(IdMismatch);
    }
    if response.kind != v.methodOf(args) {
      return Raised(TypeMismatch);
    }
    if response.status != STATUS_OK {
      var message := response.error;
      if message == "" {
        message := "rpc request failed";
      }
      return Raised(ServerError(message));
    }
    var parsed := v.parseResult(v.methodOf(args), response.body);
    if parsed.None? {
      return Raised(UnparsableResult);
    }
    result := Accepted(parsed.value);
  }
}
