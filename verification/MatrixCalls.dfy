/**
 The three registered methods as one service, and what a remote call of them returns.  The byte
 encoding of each protobuf message stays a parameter; everything between it and the caller's values
 is the program's own.
 */
module MatrixCalls {
  import opened Words
  import opened Wrappers
  import opened Framing
  import opened Rpc
  import Calls
  import CallTheorems
  import CallRuns
  import Matrices
  import opened MatrixService

  datatype Args =
    | Add(x: Int32, y: Int32)
    | Div(x: Int32, y: Int32)
    | Calc(left: IntMatrix, right: IntMatrix, times: Int32)

  datatype Value = Number(n: Int32) | Table(rows: IntMatrix)

  /**
   Serializing and parsing each message, and the sizes of those that can grow; `add` and `div` carry
   the same two fields.
   */
  datatype Codec = Codec(
    encodeRequest: Request -> Message, decodeRequest: Message -> Option<Request>,
    encodeResponse: Response -> Message, decodeResponse: Message -> Option<Response>,
    encodePair: (Int32, Int32) -> seq<Byte>, decodePair: seq<Byte> -> Option<(Int32, Int32)>,
    sizeOfCalc: CalcRequest -> nat, sizeOfRows: seq<IntList> -> nat,
    encodeCalc: CalcRequest -> seq<Byte>, decodeCalc: seq<Byte> -> Option<CalcRequest>,
    encodeNumber: Int32 -> seq<Byte>, decodeNumber: seq<Byte> -> Option<Int32>,
    encodeRows: seq<IntList> -> seq<Byte>, decodeRows: seq<Byte> -> Option<seq<IntList>>)

  /** Each message is parsed back, up to what a session delivers and the serializer takes. */
  ghost predicate Faithful(k: Codec) {
    && (forall q: Request :: ValidLength(|k.encodeRequest(q)|) ==> k.decodeRequest(k.encodeRequest(q)) == Some(q))
    && (forall r: Response :: ValidLength(|k.encodeResponse(r)|) ==> k.decodeResponse(k.encodeResponse(r)) == Some(r))
    && (forall x: Int32, y: Int32 :: k.decodePair(k.encodePair(x, y)) == Some((x, y)))
    && (forall q: CalcRequest :: k.sizeOfCalc(q) <= INT_MAX ==> k.decodeCalc(k.encodeCalc(q)) == Some(q))
    && (forall n: Int32 :: k.decodeNumber(k.encodeNumber(n)) == Some(n))
    && (forall rows: seq<IntList> :: k.sizeOfRows(rows) <= INT_MAX ==> k.decodeRows(k.encodeRows(rows)) == Some(rows))
  }

  function MethodOf(a: Args): Int32 {
    match a
    case Add(_, _) => MET_ADD
    case Div(_, _) => MET_DIV
    case Calc(_, _, _) => MET_CALC_MATRIX
  }

  function SerializeArgs(k: Codec, a: Args): seq<Byte> {
    match a
    case Add(x, y) => k.encodePair(x, y)
    case Div(x, y) => k.encodePair(x, y)
    case Calc(left, right, times) => k.encodeCalc(CalcMessage(left, right, times))
  }

  function ParseArgs(k: Codec, kind: Int32, bytes: seq<Byte>): Option<Args> {
    if kind == MET_CALC_MATRIX then
      match k.decodeCalc(bytes)
      case None => None
      case Some(q) => Some(Calc(Unwrapped(q.left), Unwrapped(q.right), ToSigned(q.times)))
    else
      match k.decodePair(bytes)
      case None => None
      case Some((x, y)) => Some(if kind == MET_ADD then Add(x, y) else Div(x, y))
  }

  predicate ArgsFit(k: Codec, a: Args) {
    a.Calc? ==> k.sizeOfCalc(CalcMessage(a.left, a.right, a.times)) <= INT_MAX
  }

  predicate ResultFits(k: Codec, value: Value) {
    value.Table? ==> k.sizeOfRows(Wrapped(value.rows)) <= INT_MAX
  }

  function SerializeResult(k: Codec, value: Value): seq<Byte> {
    match value
    case Number(n) => k.encodeNumber(n)
    case Table(rows) => k.encodeRows(Wrapped(rows))
  }

  function ParseResult(k: Codec, kind: Int32, bytes: seq<Byte>): Option<Value> {
    if kind == MET_CALC_MATRIX then
      match k.decodeRows(bytes)
      case None => None
      case Some(rows) => Some(Table(Unwrapped(rows)))
    else
      match k.decodeNumber(bytes)
      case None => None
      case Some(n) => Some(Number(n))
  }

  // ---------------------------------------------------------------- the business functions

  /** Division rounding towards zero: the remainder is smaller than y and has the sign of x. */
  function Quotient(x: int, y: int): (q: int)
    requires y != 0
    ensures Matrices.Abs(x - q * y) < Matrices.Abs(y)
    ensures if x < 0 then x - q * y <= 0 else x - q * y >= 0
  {
    if x < 0 then -((-x) / y) else x / y
  }

  /** The arguments on which the functions are defined: no overflow, no division by 0, no bad index. */
  ghost predicate Defined(a: Args) {
    match a
    case Add(x, y) => Fits(x + y)
    case Div(x, y) => y != 0 && Fits(Quotient(x, y))
    case Calc(left, right, times) => Computable(left, right, times)
  }

  ghost predicate Correct(a: Args, value: Value)
    requires Defined(a)
  {
    match a
    case Add(x, y) => value.Number? && value.n == x + y
    case Div(x, y) => value.Number? && value.n == Quotient(x, y)
    case Calc(left, right, times) => value.Table? && value.rows == CalcResult(left, right, times)
  }

  /** Where the functions are defined they return the right value; elsewhere anything of the right type. */
  ghost predicate Implements(business: Args -> Invocation<Value>) {
    forall a: Args ::
      && (Defined(a) ==> business(a).Returned? && Correct(a, business(a).value))
      && (business(a).Returned? ==> (business(a).value.Table? <==> a.Calc?))
  }

  function Operations(k: Codec, business: Args -> Invocation<Value>): Service<Args, Value> {
    Service(
      k.encodeRequest, k.decodeRequest, k.encodeResponse, k.decodeResponse,
      a => MethodOf(a), a => ArgsFit(k, a), value => ResultFits(k, value),
      a => SerializeArgs(k, a), (kind, bytes) => ParseArgs(k, kind, bytes),
      business, (kind, value) => SerializeResult(k, value), (kind, bytes) => ParseResult(k, kind, bytes))
  }

  // ---------------------------------------------------------------- theorems

  /** Matrices, `times` and numbers survive their messages, so the service is what the calls need. */
  lemma OperationsRoundTrip(k: Codec, business: Args -> Invocation<Value>)
    requires Faithful(k) && Implements(business)
    ensures RoundTrips(Operations(k, business))
  {
    var v := Operations(k, business);
    forall a: Args | v.argsFit(a)
      ensures v.parseArgs(v.methodOf(a), v.serializeArgs(a)) == Some(a)
    {
      if a.Calc? { TimesSurvives(a.times); }
    }
    forall a: Args, r: Value | v.invoke(a) == Returned(r) && v.resultFits(r)
      ensures v.parseResult(v.methodOf(a), v.serializeResult(v.methodOf(a), r)) == Some(r)
    {
      assert business(a) == Returned(r);
    }
  }

  /**
   Over all runs: the value a remote `add`, `div` or `calc_matrix` returns is the right one for the
   call's own arguments, if the function is defined on them.
   */
  lemma RemoteCallCorrect(k: Codec, business: Args -> Invocation<Value>, s: Calls.System<Args, Value>, i: nat)
    requires Faithful(k) && Implements(business) && Calls.Reachable(Operations(k, business), s)
    requires Framed(s.net.left.out.posted) && Framed(s.net.right.out.posted)
    requires i < |s.callers| <= WORD && Defined(s.callers[i].args)
    requires Serializable(Operations(k, business), s.callers[i].args)
    requires s.callers[i].pc.Finished? && s.callers[i].pc.result.Accepted?
    ensures Correct(s.callers[i].args, s.callers[i].pc.result.value)
  {
    OperationsRoundTrip(k, business);
    CallTheorems.CallSafety(Operations(k, business), s, i);
    assert business(s.callers[i].args).Returned?;
  }

  /** A remote `calc_matrix` on square matrices that returns, returns left * right^times. */
  lemma RemotePower(
    k: Codec, business: Args -> Invocation<Value>, s: Calls.System<Args, Value>, i: nat,
    left: IntMatrix, right: IntMatrix, times: Int32)
    requires Faithful(k) && Implements(business) && Calls.Reachable(Operations(k, business), s)
    requires Framed(s.net.left.out.posted) && Framed(s.net.right.out.posted)
    requires i < |s.callers| <= WORD && s.callers[i].args == Calc(left, right, times)
    requires times >= 0 && Matrices.Square(left, |left|) && Matrices.Square(right, |left|)
    requires Computable(left, right, times) && Serializable(Operations(k, business), Calc(left, right, times))
    requires s.callers[i].pc.Finished? && s.callers[i].pc.result.Accepted?
    ensures s.callers[i].pc.result.value.Table?
    ensures s.callers[i].pc.result.value.rows
         == Matrices.Product(left, Matrices.Power(right, |left|, times), |left|)
  {
    RemoteCallCorrect(k, business, s, i);
    CalcMatrixIsPower(left, right, times);
  }

  /** Some run of a fresh client returns the right value, where the function is defined. */
  lemma RemoteCallReturns(k: Codec, business: Args -> Invocation<Value>, a: Args)
    returns (s: Calls.System<Args, Value>, value: Value)
    requires Faithful(k) && Implements(business) && Defined(a) && Serializable(Operations(k, business), a)
    requires var v := Operations(k, business); Deliverable(v, v.encodeRequest(RequestFor(v, a, 1)))
    ensures Calls.Reachable(Operations(k, business), s) && |s.callers| == 1
    ensures s.callers[0].args == a && s.callers[0].pc == Calls.Finished(Accepted(value)) && Correct(a, value)
  {
    assert business(a).Returned? && Correct(a, business(a).value);
    OperationsRoundTrip(k, business);
    value := business(a).value;
    s := CallRuns.FirstCallReturns(Operations(k, business), a, value);
  }

  /** So a first `calc_matrix` on square matrices returns left * right^times in some run. */
  lemma RemotePowerReturns(
    k: Codec, business: Args -> Invocation<Value>, left: IntMatrix, right: IntMatrix, times: Int32)
    returns (s: Calls.System<Args, Value>, rows: IntMatrix)
    requires Faithful(k) && Implements(business)
    requires times >= 0 && Matrices.Square(left, |left|) && Matrices.Square(right, |left|)
    requires Computable(left, right, times) && k.sizeOfCalc(CalcMessage(left, right, times)) <= INT_MAX
    requires forall m: IntMatrix :: business(Calc(left, right, times)) == Returned(Table(m)) ==>
      k.sizeOfRows(Wrapped(m)) <= INT_MAX
    requires var v := Operations(k, business);
      Deliverable(v, v.encodeRequest(RequestFor(v, Calc(left, right, times), 1)))
    ensures Calls.Reachable(Operations(k, business), s) && |s.callers| == 1
    ensures s.callers[0].args == Calc(left, right, times)
    ensures s.callers[0].pc == Calls.Finished(Accepted(Table(rows)))
    ensures rows == Matrices.Product(left, Matrices.Power(right, |left|, times), |left|)
  {
    var a := Calc(left, right, times);
    assert Defined(a) && business(a).Returned? && Correct(a, business(a).value);
    var value;
    s, value := RemoteCallReturns(k, business, a);
    rows := value.rows;
    CalcMatrixIsPower(left, right, times);
  }

  /** And a first `add` or `div` returns the sum or the truncated quotient, unless it overflows or y is 0. */
  lemma RemoteNumberReturns(k: Codec, business: Args -> Invocation<Value>, a: Args, n: Int32)
    returns (s: Calls.System<Args, Value>)
    requires Faithful(k) && Implements(business)
    requires match a
             case Add(x, y) => n == x + y
             case Div(x, y) => y != 0 && n == Quotient(x, y)
             case Calc(_, _, _) => false
    requires var v := Operations(k, business); Deliverable(v, v.encodeRequest(RequestFor(v, a, 1)))
    ensures Calls.Reachable(Operations(k, business), s) && |s.callers| == 1
    ensures s.callers[0].args == a && s.callers[0].pc == Calls.Finished(Accepted(Number(n)))
  {
    assert Defined(a) && business(a).Returned? && Correct(a, business(a).value);
    var value;
    s, value := RemoteCallReturns(k, business, a);
  }
}
