/**
 Two sessions joined by two byte pipes, one in each direction.  Strand handlers, partial writes,
 arrivals of any chunk, errors and closes interleave arbitrarily.
 */
module Conversations {
  import opened Wrappers
  import opened Framing
  import opened Sessions

  /** The bytes of one direction, with its history: what was posted, popped, sent, read and delivered. */
  datatype Pipe = Pipe(
    posted: seq<Message>, popped: seq<Message>, sent: seq<Byte>,
    wire: seq<Byte>, consumed: seq<Byte>, delivered: seq<Message>)

  /** `out` is the pipe this side writes to. */
  datatype Side = Side(end: Endpoint, out: Pipe)

  datatype Conversation = Conversation(left: Side, right: Side)

  datatype Action =
    | Post(m: Message)       // the strand runs an async_write handler
    | Transmit(k: nat)       // k bytes of the outstanding write enter the network
    | WriteFails             // the outstanding write will complete with an error
    | RunWritten             // the strand runs the write's handler
    | Arrive(k: nat)         // k bytes reach the outstanding read
    | RunHeader              // the strand runs a header handler
    | RunBody                // the strand runs a body handler
    | ReadFails              // the outstanding read completes with an error
    | CloseSocket            // close()

  // ---------------------------------------------------------------- one action at one side

  /** Is action a possible at `me`, reading from the pipe `from`? */
  predicate Possible(me: Side, from: Pipe, a: Action) {
    match a
    case Post(_) => true
    case Transmit(k) => me.end.open && me.end.op.Writing? && 0 < k <= |me.end.op.rest|
    case WriteFails => me.end.op.Writing?
    case RunWritten => me.end.op.Written? && (me.end.op.ok ==> me.end.queue != [])
    case Arrive(k) => me.end.open && 0 < k <= |from.wire| && |me.end.buffer| + k <= Needed(me.end)
    case RunHeader => me.end.phase.ReadingHeader? && |me.end.buffer| == 4
    case RunBody => me.end.phase.ReadingBody? && |me.end.buffer| == me.end.phase.length
    case ReadFails => |me.end.buffer| < Needed(me.end)
    case CloseSocket => true
  }

  /** The acting side afterwards. */
  function Acted(me: Side, from: Pipe, a: Action): Side
    requires Possible(me, from, a)
  {
    var e := me.end;
    match a
    case Post(m) => Side(Enqueued(e, m), me.out.(posted := me.out.posted + [m]))
    case Transmit(k) =>
      var rest := e.op.rest[k..];
      Side(e.(op := if rest == [] then Written(true) else Writing(rest)),
           me.out.(sent := me.out.sent + e.op.rest[..k], wire := me.out.wire + e.op.rest[..k]))
    case WriteFails => me.(end := e.(op := Written(false)))
    case RunWritten =>
      Side(WriteFinished(e), if e.op.ok then me.out.(popped := me.out.popped + [e.queue[0]]) else me.out)
    case Arrive(k) => me.(end := e.(buffer := e.buffer + from.wire[..k]))
    case RunHeader => me.(end := HeaderRead(e))
    case RunBody => me.(end := BodyRead(e))
    case ReadFails => me.(end := ReadFailed(e))
    case CloseSocket => me.(end := e.(open := false))
  }

  /** The pipe the acting side reads from, afterwards. */
  function Drained(me: Side, from: Pipe, a: Action): Pipe
    requires Possible(me, from, a)
  {
    match a
    case Arrive(k) => from.(wire := from.wire[k..], consumed := from.consumed + from.wire[..k])
    case RunBody => from.(delivered := from.delivered + [me.end.buffer])
    case _ => from
  }

  predicate CanAct(c: Conversation, onLeft: bool, a: Action) {
    if onLeft then Possible(c.left, c.right.out, a) else Possible(c.right, c.left.out, a)
  }

  function Act(c: Conversation, onLeft: bool, a: Action): Conversation
    requires CanAct(c, onLeft, a)
  {
    if onLeft then
      Conversation(Acted(c.left, c.right.out, a), c.right.(out := Drained(c.left, c.right.out, a)))
    else
      Conversation(c.left.(out := Drained(c.right, c.left.out, a)), Acted(c.right, c.left.out, a))
  }

  const EMPTY_PIPE := Pipe([], [], [], [], [], [])

  const CONNECTED := Conversation(Side(STARTED, EMPTY_PIPE), Side(STARTED, EMPTY_PIPE))

  /** The predicate holds of the fresh connection and is kept by every action of either side. */
  ghost predicate Inductive(p: Conversation -> bool) {
    && p(CONNECTED)
    && (forall c: Conversation, l: bool, a: Action :: p(c) && CanAct(c, l, a) ==> p(Act(c, l, a)))
  }

  /** Reachable states: those of which every inductive predicate holds. */
  ghost predicate Reachable(c: Conversation) {
    forall p: Conversation -> bool :: Inductive(p) ==> p(c)
  }

  /** Where further actions lead, if all of them are possible. */
  function After(c: Conversation, more: seq<(bool, Action)>): Option<Conversation>
    decreases |more|
  {
    if |more| == 0 then Some(c)
    else if CanAct(c, more[0].0, more[0].1) then After(Act(c, more[0].0, more[0].1), more[1..])
    else None
  }

  // ---------------------------------------------------------------- the writer's invariant

  /** Bytes of the front message's frame that have been handed to the network. */
  ghost predicate Progress(w: Side, done: seq<Byte>) {
    match w.end.op
    case Writing(rest) => w.end.queue != [] && rest != [] && done + rest == FrameOf(w.end.queue[0])
    case Written(true) => w.end.queue != [] && done == FrameOf(w.end.queue[0])
    case Written(false) => w.end.queue != [] && done <= FrameOf(w.end.queue[0])
    case Idle =>
      if w.end.failed then w.end.queue != [] && !w.end.open && done <= FrameOf(w.end.queue[0])
      else w.end.queue == [] && done == []
  }

  /**
   At most one write is outstanding; until a write error there is one exactly when the queue is
   non-empty; the bytes sent are the frames of the popped messages and a prefix of the front's frame.
   */
  ghost predicate WriterOk(w: Side) {
    && w.out.posted == w.out.popped + w.end.queue
    && (w.end.failed ==> w.end.op.Idle?)
    && exists done: seq<Byte> :: Progress(w, done) && w.out.sent == Stream(w.out.popped) + done
  }

  // ---------------------------------------------------------------- the reader's invariant

  /** The bytes consumed since the last complete message; `rest` is the header while a body is read. */
  function Tail(e: Endpoint, rest: seq<Byte>): seq<Byte> {
    match e.phase
    case ReadingHeader => e.buffer
    case ReadingBody(n) => rest + e.buffer
    case Stopped(_) => rest
  }

  ghost predicate PhaseOk(e: Endpoint, rest: seq<Byte>) {
    match e.phase
    case ReadingHeader => |e.buffer| <= 4
    case ReadingBody(n) => |rest| == 4 && Length(rest) == n && ValidLength(n) && |e.buffer| <= n
    case Stopped(bad) => Parse(rest) == Parsed([], rest, bad)
  }

  ghost predicate ReaderOk(e: Endpoint, p: Pipe) {
    && p.sent == p.consumed + p.wire
    && AllValid(p.delivered)
    && exists rest: seq<Byte> :: PhaseOk(e, rest) && p.consumed == Stream(p.delivered) + Tail(e, rest)
  }

  ghost predicate Inv(c: Conversation) {
    && WriterOk(c.left) && ReaderOk(c.right.end, c.left.out)
    && WriterOk(c.right) && ReaderOk(c.left.end, c.right.out)
  }
}
