/**
 The request/response envelope and the server's dispatch.  Serialization and the business functions
 are a parameter (`Service`); what is assumed of them is exactly `RoundTrips`.
 */
module Rpc {
  import opened Words
  import opened Wrappers
  import opened Framing
  import opened Sessions

  /** Numbers of `MethodType`; an open enumeration, so any 32-bit number may arrive. */
  const MET_UNKNOW: Int32 := 0
  const MET_ADD: Int32 := 1
  const MET_DIV: Int32 := 2
  const MET_CALC_MATRIX: Int32 := 3

  datatype Status =
    | STATUS_UNKNOWN | STATUS_OK | STATUS_BAD_REQUEST | STATUS_METHOD_NOT_FOUND
    | STATUS_PARSE_ERROR | STATUS_INVOKE_ERROR | STATUS_INTERNAL_ERROR

  datatype Request = Request(id: UInt64, kind: Int32, body: seq<Byte>)

  datatype Response = Response(id: UInt64, status: Status, kind: Int32, body: seq<Byte>, error: string)

  /** How a business function ends: a result, a `std::exception` with its text, or anything else thrown. */
  datatype Invocation<R> = Returned(value: R) | Threw(what: string) | ThrewOther

  /**
   Serialization of the envelope, the per-method traits, and the business functions.  `argsFit` and
   `resultFits` say that the value's own message is within the serializer's 2 GiB limit.
   */
  datatype Service<!A, !R> = Service(
    encodeRequest: Request -> Message,
    decodeRequest: Message -> Option<Request>,
    encodeResponse: Response -> Message,
    decodeResponse: Message -> Option<Response>,
    methodOf: A -> Int32,
    argsFit: A -> bool,
    resultFits: R -> bool,
    serializeArgs: A -> seq<Byte>,
    parseArgs: (Int32, seq<Byte>) -> Option<A>,
    invoke: A -> Invocation<R>,
    serializeResult: (Int32, R) -> seq<Byte>,
    parseResult: (Int32, seq<Byte>) -> Option<R>)

  predicate Registered(kind: Int32) {
    kind == MET_ADD || kind == MET_DIV || kind == MET_CALC_MATRIX
  }

  /**
   Whatever was serialized is parsed back: envelopes as far as a session can deliver them, arguments
   and results as far as the serializer takes them.  Nothing is assumed of other bytes.
   */
  ghost predicate RoundTrips<A(!new), R(!new)>(s: Service<A, R>) {
    && (forall q: Request :: ValidLength(|s.encodeRequest(q)|) ==> s.decodeRequest(s.encodeRequest(q)) == Some(q))
    && (forall r: Response :: ValidLength(|s.encodeResponse(r)|) ==> s.decodeResponse(s.encodeResponse(r)) == Some(r))
    && (forall a: A :: Registered(s.methodOf(a)))
    && (forall a: A :: s.argsFit(a) ==> s.parseArgs(s.methodOf(a), s.serializeArgs(a)) == Some(a))
    && (forall a: A, r: R :: s.invoke(a) == Returned(r) && s.resultFits(r) ==>
          s.parseResult(s.methodOf(a), s.serializeResult(s.methodOf(a), r)) == Some(r))
  }

  function MakeErrorResponse(id: UInt64, kind: Int32, status: Status, message: string): Response {
    Response(id, status, kind, [], message)
  }

  function DispatchOne<A, R>(s: Service<A, R>, request: Request): Response {
    match s.parseArgs(request.kind, request.body)
    case None =>
      MakeErrorResponse(request.id, request.kind, STATUS_PARSE_ERROR, "failed to parse rpc request body")
    case Some(args) =>
      match s.invoke(args)
      case Returned(value) =>
        Response(request.id, STATUS_OK, request.kind, s.serializeResult(request.kind, value), "")
      case Threw(what) => MakeErrorResponse(request.id, request.kind, STATUS_INVOKE_ERROR, what)
      case ThrewOther =>
        MakeErrorResponse(request.id, request.kind, STATUS_INTERNAL_ERROR, "unknown rpc invoke error")
  }

  function Dispatch<A, R>(s: Service<A, R>, request: Request): Response {
    if Registered(request.kind) then DispatchOne(s, request)
    else MakeErrorResponse(request.id, request.kind, STATUS_METHOD_NOT_FOUND, "rpc method not found")
  }

  function Answer<A, R>(s: Service<A, R>, data: Message): Response {
    match s.decodeRequest(data)
    case None => MakeErrorResponse(0, MET_UNKNOW, STATUS_PARSE_ERROR, "failed to parse rpc request")
    case Some(request) => Dispatch(s, request)
  }

  /** What `handle_request` replies to one delivered frame. */
  function Reply<A, R>(s: Service<A, R>, data: Message): Message {
    s.encodeResponse(Answer(s, data))
  }

  /** The server's handler: exactly one response is written to the session the request came from. */
  method HandleRequest<A, R>(s: Service<A, R>, data: Message, session: Session)
    modifies session
    ensures session.View() == Enqueued(old(session.View()), Reply(s, data))
  {
    var decoded := s.decodeRequest(data);
    if decoded.None? {
      var failure := MakeErrorResponse(0, MET_UNKNOW, STATUS_PARSE_ERROR, "failed to parse rpc request");
      session.Enqueue(s.encodeResponse(failure));
      return;
    }
    var response := Dispatch(s, decoded.value);
    session.Enqueue(s.encodeResponse(response));
  }

  /** Every answer carries the request's id and type, or 0 and unknown when it could not be parsed. */
  lemma AnswerEchoes<A(!new), R(!new)>(s: Service<A, R>, data: Message)
    requires RoundTrips(s)
    ensures ValidLength(|Reply(s, data)|) ==> s.decodeResponse(Reply(s, data)) == Some(Answer(s, data))
    ensures s.decodeRequest(data).Some? ==>
      Answer(s, data).id == s.decodeRequest(data).value.id && Answer(s, data).kind == s.decodeRequest(data).value.kind
    ensures s.decodeRequest(data).None? ==>
      Answer(s, data).id == 0 && Answer(s, data).kind == MET_UNKNOW && Answer(s, data).status == STATUS_PARSE_ERROR
  {
  }

  /** `STATUS_OK` is answered exactly when the method is known, its body parses, and the function returns. */
  lemma OkIff<A(!new), R(!new)>(s: Service<A, R>, data: Message)
    ensures Answer(s, data).status == STATUS_OK <==>
      var q := s.decodeRequest(data);
      && q.Some? && Registered(q.value.kind)
      && s.parseArgs(q.value.kind, q.value.body).Some?
      && s.invoke(s.parseArgs(q.value.kind, q.value.body).value).Returned?
  {
  }

  /**
   What every delivered frame is answered with, case by case: the status, that only STATUS_OK comes
   with a body, and the text of the error.
   */
  lemma AnswerByCase<A(!new), R(!new)>(s: Service<A, R>, data: Message)
    requires RoundTrips(s) && ValidLength(|Reply(s, data)|)
    ensures s.decodeResponse(Reply(s, data)).Some?
    ensures var answer := s.decodeResponse(Reply(s, data)).value;
      match s.decodeRequest(data)
      case None => answer == Response(0, STATUS_PARSE_ERROR, 0, [], "failed to parse rpc request")
      case Some(q) =>
        && answer.id == q.id && answer.kind == q.kind
        && if !(1 <= q.kind <= 3) then
             answer.status == STATUS_METHOD_NOT_FOUND && answer.body == [] && answer.error == "rpc method not found"
           else
             match s.parseArgs(q.kind, q.body)
             case None =>
               answer.status == STATUS_PARSE_ERROR && answer.body == []
               && answer.error == "failed to parse rpc request body"
             case Some(args) =>
               match s.invoke(args)
               case Returned(value) =>
                 answer.status == STATUS_OK && answer.body == s.serializeResult(q.kind, value) && answer.error == ""
               case Threw(what) =>
                 answer.status == STATUS_INVOKE_ERROR && answer.body == [] && answer.error == what
               case ThrewOther =>
                 answer.status == STATUS_INTERNAL_ERROR && answer.body == []
                 && answer.error == "unknown rpc invoke error"
  {
  }

  /** The request `call` sends for arguments a. */
  function RequestFor<A, R>(s: Service<A, R>, a: A, id: UInt64): Request {
    Request(id, s.methodOf(a), s.serializeArgs(a))
  }

  // ---------------------------------------------------------------- what the client accepts

  datatype Failure =
    | TimedOutOrClosed | UnparsableResponse | IdMismatch | TypeMismatch
    | ServerError(message: string) | UnparsableResult

  datatype CallResult<R> = Accepted(value: R) | Raised(failure: Failure)

  function Check<A, R>(s: Service<A, R>, a: A, id: UInt64, bytes: Message): CallResult<R> {
    match s.decodeResponse(bytes)
    case None => Raised(UnparsableResponse)
    case Some(r) =>
      if r.id != id then Raised(IdMismatch)
      else if r.kind != s.methodOf(a) then Raised(TypeMismatch)
      else if r.status != STATUS_OK then
        Raised(ServerError(if r.error == "" then "rpc request failed" else r.error))
      else
        match s.parseResult(s.methodOf(a), r.body)
        case None => Raised(UnparsableResult)
        case Some(v) => Accepted(v)
  }

  /** The arguments can be serialized, and so can the result if there is one. */
  predicate Serializable<A, R>(s: Service<A, R>, a: A) {
    s.argsFit(a) && (s.invoke(a).Returned? ==> s.resultFits(s.invoke(a).value))
  }

  /** A response is accepted exactly when it parses, is this call's, is OK, and carries a result. */
  lemma AcceptedIff<A(!new), R(!new)>(s: Service<A, R>, a: A, id: UInt64, bytes: Message, value: R)
    ensures Check(s, a, id, bytes) == Accepted(value) <==>
      exists body: seq<Byte>, error: string ::
        && s.decodeResponse(bytes) == Some(Response(id, STATUS_OK, s.methodOf(a), body, error))
        && s.parseResult(s.methodOf(a), body) == Some(value)
  {
    if Check(s, a, id, bytes) == Accepted(value) {
      var r := s.decodeResponse(bytes).value;
      assert s.decodeResponse(bytes) == Some(Response(id, STATUS_OK, s.methodOf(a), r.body, r.error));
    }
  }

  /** Why a response that parses is refused: the first of the four checks it fails. */
  lemma RefusedBecause<A(!new), R(!new)>(s: Service<A, R>, a: A, id: UInt64, bytes: Message, r: Response)
    requires s.decodeResponse(bytes) == Some(r)
    ensures Check(s, a, id, bytes) == Raised(IdMismatch) <==> r.id != id
    ensures Check(s, a, id, bytes) == Raised(TypeMismatch) <==> r.id == id && r.kind != s.methodOf(a)
    ensures (exists text :: Check(s, a, id, bytes) == Raised(ServerError(text))) <==>
      r.id == id && r.kind == s.methodOf(a) && r.status != STATUS_OK
    ensures Check(s, a, id, bytes) == Raised(UnparsableResult) <==>
      r.id == id && r.kind == s.methodOf(a) && r.status == STATUS_OK && s.parseResult(r.kind, r.body).None?
    ensures r.id == id && r.kind == s.methodOf(a) && r.status != STATUS_OK && r.error != "" ==>
      Check(s, a, id, bytes) == Raised(ServerError(r.error))
  {
    var text := if r.error == "" then "rpc request failed" else r.error;
    assert r.id == id && r.kind == s.methodOf(a) && r.status != STATUS_OK ==>
      Check(s, a, id, bytes) == Raised(ServerError(text));
  }

  /** Neither the request nor its answer is too large for a session, or empty. */
  predicate Deliverable<A, R>(s: Service<A, R>, data: Message) {
    ValidLength(|data|) && ValidLength(|Reply(s, data)|)
  }

  /** An answer to some request is accepted only by a call with the same id and type, with its own value. */
  lemma AcceptedAnswer<A(!new), R(!new)>(s: Service<A, R>, a: A, id: UInt64, a': A, id': UInt64)
    requires RoundTrips(s) && Deliverable(s, s.encodeRequest(RequestFor(s, a', id')))
    ensures var bytes := Reply(s, s.encodeRequest(RequestFor(s, a', id')));
      Check(s, a, id, bytes).Accepted? ==>
        && id == id' && s.methodOf(a) == s.methodOf(a')
        && (Serializable(s, a') ==> s.invoke(a') == Returned(Check(s, a, id, bytes).value))
  {
    var data := s.encodeRequest(RequestFor(s, a', id'));
    AnswerEchoes(s, data);
    OkIff(s, data);
    if s.argsFit(a') {
      assert s.parseArgs(s.methodOf(a'), s.serializeArgs(a')) == Some(a');
    }
  }

  /** A call accepts the answer to its own request exactly when the function returned. */
  lemma OwnAnswer<A(!new), R(!new)>(s: Service<A, R>, a: A, id: UInt64)
    requires RoundTrips(s) && Serializable(s, a) && Deliverable(s, s.encodeRequest(RequestFor(s, a, id)))
    ensures var bytes := Reply(s, s.encodeRequest(RequestFor(s, a, id)));
      match s.invoke(a)
      case Returned(v) => Check(s, a, id, bytes) == Accepted(v)
      case Threw(what) =>
        Check(s, a, id, bytes) == Raised(ServerError(if what == "" then "rpc request failed" else what))
      case ThrewOther => Check(s, a, id, bytes) == Raised(ServerError("unknown rpc invoke error"))
  {
    var data := s.encodeRequest(RequestFor(s, a, id));
    AnswerEchoes(s, data);
    assert s.parseArgs(s.methodOf(a), s.serializeArgs(a)) == Some(a);
  }

  /** An unparsable request's answer is accepted by no call. */
  lemma GarbageAnswerRejected<A(!new), R(!new)>(s: Service<A, R>, a: A, id: UInt64, data: Message)
    requires RoundTrips(s) && s.decodeRequest(data).None? && ValidLength(|Reply(s, data)|)
    ensures Check(s, a, id, Reply(s, data)).Raised?
  {
    AnswerEchoes(s, data);
  }
}
