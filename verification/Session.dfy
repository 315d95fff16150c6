/**
 One end of a connection: the queued single writer and the alternating header/body reader that share
 a socket.  Every method is one handler run on the strand.
 */
module Sessions {
  import opened Framing

  /** The outstanding `async_write`: bytes not yet handed to the network, or its handler queued. */
  datatype WriteOp = Idle | Writing(rest: seq<Byte>) | Written(ok: bool)

  /** What the outstanding `async_read` is for; a stopped reader says whether a bad length stopped it. */
  datatype Phase = ReadingHeader | ReadingBody(length: nat) | Stopped(bad: bool)

  /** `buffer` holds the bytes the outstanding read has received; `failed` records a write error. */
  datatype Endpoint = Endpoint(
    queue: seq<Message>, op: WriteOp, failed: bool, open: bool, phase: Phase, buffer: seq<Byte>)

  const STARTED := Endpoint([], Idle, false, true, ReadingHeader, [])

  /** How many bytes the outstanding read waits for. */
  function Needed(e: Endpoint): nat {
    match e.phase
    case ReadingHeader => 4
    case ReadingBody(n) => n
    case Stopped(_) => 0
  }

  /** `async_write` on a closed socket completes with an error. */
  function DoWrite(e: Endpoint): Endpoint {
    if e.queue == [] then e
    else e.(op := if e.open then Writing(FrameOf(e.queue[0])) else Written(false))
  }

  function Enqueued(e: Endpoint, m: Message): Endpoint {
    var e1 := e.(queue := e.queue + [m]);
    if e.queue == [] then DoWrite(e1) else e1
  }

  function WriteFinished(e: Endpoint): Endpoint
    requires e.op.Written? && (e.op.ok ==> e.queue != [])
  {
    if e.op.ok then DoWrite(e.(queue := e.queue[1..], op := Idle))
    else e.(op := Idle, failed := true, open := false)
  }

  function HeaderRead(e: Endpoint): Endpoint
    requires e.phase.ReadingHeader? && |e.buffer| == 4
  {
    var n := Length(e.buffer);
    if ValidLength(n) then e.(phase := ReadingBody(n), buffer := [])
    else e.(phase := Stopped(true), open := false)
  }

  function BodyRead(e: Endpoint): Endpoint
    requires e.phase.ReadingBody? && |e.buffer| == e.phase.length
  {
    e.(phase := ReadingHeader, buffer := [])
  }

  function ReadFailed(e: Endpoint): Endpoint {
    e.(phase := Stopped(false), open := false)
  }

  class Session {
    var writeQueue: seq<Message>
    var op: WriteOp
    var failed: bool
    var isOpen: bool
    var phase: Phase
    var readBuffer: seq<Byte>

    function View(): Endpoint
      reads this
    {
      Endpoint(writeQueue, op, failed, isOpen, phase, readBuffer)
    }

    /** A connected socket on which `start` has requested the first header. */
    constructor ()
      ensures View() == STARTED
    {
      writeQueue, op, failed, isOpen := [], Idle, false, true;
      phase, readBuffer := ReadingHeader, [];
    }

    method StartWrite()
      modifies this`op
      ensures View() == DoWrite(old(View()))
    {
      if writeQueue == [] {
        return;
      }
      if isOpen {
        var body := writeQueue[0];
        var message: seq<Byte> := Header(|body|);
        message := message + body;
        op := Writing(message);
      } else {
        op := Written(false);
      }
    }

    /** The handler posted by `async_write`. */
    method Enqueue(data: Message)
      modifies this`writeQueue, this`op
      ensures View() == Enqueued(old(View()), data)
    {
      var inProgress := writeQueue != [];
      writeQueue := writeQueue + [data];
      if !inProgress {
        StartWrite();
      }
    }

    /** The completion handler of the outstanding `async_write`. */
    method OnWritten()
      requires op.Written? && (op.ok ==> writeQueue != [])
      modifies this
      ensures View() == WriteFinished(old(View()))
    {
      if op.ok {
        writeQueue := writeQueue[1..];
        op := Idle;
        if writeQueue != [] {
          StartWrite();
        }
      } else {
        op := Idle;
        failed := true;
        Close();
      }
    }

    /** The completion handler of a header read; the result says whether `on_error_` is called. */
    method OnHeader() returns (bad: bool)
      requires phase.ReadingHeader? && |readBuffer| == 4
      modifies this
      ensures View() == HeaderRead(old(View()))
      ensures bad <==> !ValidLength(Length(old(readBuffer)))
    {
      var n := Length(readBuffer);
      if 0 < n && n <= MAX_BODY {
        phase := ReadingBody(n);
        readBuffer := [];
        bad := false;
      } else {
        Close();
        phase := Stopped(true);
        bad := true;
      }
    }

    /** The completion handler of a body read: the buffer is moved out to `on_message_`. */
    method OnBody() returns (message: Message)
      requires phase.ReadingBody? && |readBuffer| == phase.length
      modifies this
      ensures View() == BodyRead(old(View())) && message == old(readBuffer)
    {
      message := readBuffer;
      readBuffer := [];
      phase := ReadingHeader;
    }

    method OnReadError()
      modifies this
      ensures View() == ReadFailed(old(View()))
    {
      Close();
      phase := Stopped(false);
    }

    method Close()
      modifies this`isOpen
      ensures View() == old(View()).(open := false)
    {
      isOpen := false;
    }
  }
}
