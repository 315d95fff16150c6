/** What a framed conversation guarantees in every reachable state. */
module ConversationTheorems {
  import opened Framing
  import opened Sessions
  import opened Conversations

  // ---------------------------------------------------------------- the writer

  lemma StartsWriting(w: Side)
    requires !w.end.failed && w.end.op.Idle?
    requires w.out.posted == w.out.popped + w.end.queue && w.out.sent == Stream(w.out.popped)
    ensures WriterOk(w.(end := DoWrite(w.end)))
  {
    var w' := w.(end := DoWrite(w.end));
    assert Progress(w', []) && w'.out.sent == Stream(w'.out.popped) + [] by {
      if w.end.queue != [] {
        assert [] + FrameOf(w.end.queue[0]) == FrameOf(w.end.queue[0]);
      }
    }
  }

  lemma PostKeepsWriter(w: Side, m: Message)
    requires WriterOk(w)
    ensures WriterOk(Side(Enqueued(w.end, m), w.out.(posted := w.out.posted + [m])))
  {
    var done: seq<Byte> :| Progress(w, done) && w.out.sent == Stream(w.out.popped) + done;
    var w1 := Side(w.end.(queue := w.end.queue + [m]), w.out.(posted := w.out.posted + [m]));
    assert w1.out.posted == w1.out.popped + w1.end.queue;
    if w.end.queue == [] {
      StartsWriting(w1);
    } else {
      assert w1.end.queue[0] == w.end.queue[0];
      assert Progress(w1, done);
    }
  }

  lemma TransmitKeepsWriter(w: Side, from: Pipe, k: nat)
    requires WriterOk(w) && Possible(w, from, Transmit(k))
    ensures WriterOk(Acted(w, from, Transmit(k)))
  {
    var done: seq<Byte> :| Progress(w, done) && w.out.sent == Stream(w.out.popped) + done;
    var w' := Acted(w, from, Transmit(k));
    var rest := w.end.op.rest;
    var done' := done + rest[..k];
    assert done' + rest[k..] == done + rest;
    assert w'.out.sent == Stream(w.out.popped) + done';
    if rest[k..] == [] {
      assert done' == done' + rest[k..];
    }
    assert Progress(w', done');
  }

  lemma FinishKeepsWriter(w: Side, from: Pipe)
    requires WriterOk(w) && Possible(w, from, RunWritten)
    ensures WriterOk(Acted(w, from, RunWritten))
  {
    var done: seq<Byte> :| Progress(w, done) && w.out.sent == Stream(w.out.popped) + done;
    var w' := Acted(w, from, RunWritten);
    if w.end.op.ok {
      var m := w.end.queue[0];
      StreamAppend(w.out.popped, m);
      var w1 := Side(w.end.(queue := w.end.queue[1..], op := Idle), w'.out);
      assert w.out.popped + w.end.queue == w.out.popped + [m] + w.end.queue[1..];
      StartsWriting(w1);
    } else {
      assert Progress(w', done);
    }
  }

  lemma FailKeepsWriter(w: Side)
    requires WriterOk(w) && w.end.op.Writing?
    ensures WriterOk(w.(end := w.end.(op := Written(false))))
  {
    var done: seq<Byte> :| Progress(w, done) && w.out.sent == Stream(w.out.popped) + done;
    assert done <= done + w.end.op.rest;
    assert Progress(w.(end := w.end.(op := Written(false))), done);
  }

  /** What the writer does not look at: the reader's fields, and whether a healthy socket is open. */
  lemma ReaderActionsKeepWriter(w: Side, e: Endpoint)
    requires WriterOk(w)
    requires e.queue == w.end.queue && e.op == w.end.op && e.failed == w.end.failed
    requires e.open ==> w.end.open
    ensures WriterOk(w.(end := e))
  {
    var done: seq<Byte> :| Progress(w, done) && w.out.sent == Stream(w.out.popped) + done;
    assert Progress(w.(end := e), done);
  }

  lemma WriterKeeps(w: Side, from: Pipe, a: Action)
    requires WriterOk(w) && Possible(w, from, a)
    ensures WriterOk(Acted(w, from, a))
  {
    match a
    case Post(m) => PostKeepsWriter(w, m);
    case Transmit(k) => TransmitKeepsWriter(w, from, k);
    case WriteFails => FailKeepsWriter(w);
    case RunWritten => FinishKeepsWriter(w, from);
    case Arrive(k) => ReaderActionsKeepWriter(w, Acted(w, from, a).end);
    case RunHeader => ReaderActionsKeepWriter(w, Acted(w, from, a).end);
    case RunBody => ReaderActionsKeepWriter(w, Acted(w, from, a).end);
    case ReadFails => ReaderActionsKeepWriter(w, Acted(w, from, a).end);
    case CloseSocket => ReaderActionsKeepWriter(w, Acted(w, from, a).end);
  }

  /** Reading from a pipe does not disturb its writer. */
  lemma DrainKeepsWriter(w: Side, p: Pipe)
    requires WriterOk(w)
    requires p.posted == w.out.posted && p.popped == w.out.popped && p.sent == w.out.sent
    ensures WriterOk(w.(out := p))
  {
    var done: seq<Byte> :| Progress(w, done) && w.out.sent == Stream(w.out.popped) + done;
    assert Progress(w.(out := p), done);
  }

  // ---------------------------------------------------------------- the reader

  lemma TailGrows(e: Endpoint, chunk: seq<Byte>, rest: seq<Byte>)
    requires PhaseOk(e, rest) && |chunk| > 0 && |e.buffer| + |chunk| <= Needed(e)
    ensures var e' := e.(buffer := e.buffer + chunk);
      PhaseOk(e', rest) && Tail(e', rest) == Tail(e, rest) + chunk
  {
    if e.phase.ReadingBody? {
      assert rest + (e.buffer + chunk) == rest + e.buffer + chunk;
    }
  }

  lemma Reassociate(a: seq<Byte>, b: seq<Byte>, c: seq<Byte>)
    ensures a + b + c == a + (b + c)
  {
  }

  lemma MoveBytes(consumed: seq<Byte>, wire: seq<Byte>, k: nat)
    requires k <= |wire|
    ensures consumed + wire == consumed + wire[..k] + wire[k..]
  {
    assert wire == wire[..k] + wire[k..];
  }

  lemma ArriveKeepsReader(r: Side, p: Pipe, k: nat)
    requires ReaderOk(r.end, p) && Possible(r, p, Arrive(k))
    ensures ReaderOk(Acted(r, p, Arrive(k)).end, Drained(r, p, Arrive(k)))
  {
    var rest: seq<Byte> :| PhaseOk(r.end, rest) && p.consumed == Stream(p.delivered) + Tail(r.end, rest);
    var chunk := p.wire[..k];
    var e', p' := Acted(r, p, Arrive(k)).end, Drained(r, p, Arrive(k));
    TailGrows(r.end, chunk, rest);
    MoveBytes(p.consumed, p.wire, k);
    Reassociate(Stream(p.delivered), Tail(r.end, rest), chunk);
    assert PhaseOk(e', rest) && p'.consumed == Stream(p'.delivered) + Tail(e', rest);
  }

  lemma HeaderKeepsReader(r: Side, p: Pipe)
    requires ReaderOk(r.end, p) && Possible(r, p, RunHeader)
    ensures ReaderOk(HeaderRead(r.end), p)
  {
    var rest: seq<Byte> :| PhaseOk(r.end, rest) && p.consumed == Stream(p.delivered) + Tail(r.end, rest);
    var e' := HeaderRead(r.end);
    var h := r.end.buffer;
    assert h[..4] == h && h + [] == h;
    assert PhaseOk(e', h) && Tail(e', h) == h;
  }

  lemma BodyKeepsReader(r: Side, p: Pipe)
    requires ReaderOk(r.end, p) && Possible(r, p, RunBody)
    ensures ReaderOk(BodyRead(r.end), Drained(r, p, RunBody))
  {
    var rest: seq<Byte> :| PhaseOk(r.end, rest) && p.consumed == Stream(p.delivered) + Tail(r.end, rest);
    var e', p' := BodyRead(r.end), Drained(r, p, RunBody);
    StreamAppend(p.delivered, r.end.buffer);
    HeaderOfLength(rest);
    assert Tail(e', []) == [];
    assert p'.consumed == Stream(p'.delivered) + [];
    assert PhaseOk(e', []);
  }

  lemma ReadFailKeepsReader(r: Side, p: Pipe)
    requires ReaderOk(r.end, p) && Possible(r, p, ReadFails)
    ensures ReaderOk(ReadFailed(r.end), p)
  {
    var rest: seq<Byte> :| PhaseOk(r.end, rest) && p.consumed == Stream(p.delivered) + Tail(r.end, rest);
    var tail := Tail(r.end, rest);
    if r.end.phase.ReadingBody? {
      ParseIncomplete(rest, r.end.buffer);
    }
    assert PhaseOk(ReadFailed(r.end), tail) && Tail(ReadFailed(r.end), tail) == tail;
  }

  /** What the reader does not look at: the writer's fields and the socket's state. */
  lemma WriterActionsKeepReader(e: Endpoint, e': Endpoint, p: Pipe)
    requires ReaderOk(e, p) && e'.phase == e.phase && e'.buffer == e.buffer
    ensures ReaderOk(e', p)
  {
    var rest: seq<Byte> :| PhaseOk(e, rest) && p.consumed == Stream(p.delivered) + Tail(e, rest);
    assert PhaseOk(e', rest) && Tail(e', rest) == Tail(e, rest);
  }

  lemma ReaderKeeps(r: Side, p: Pipe, a: Action)
    requires ReaderOk(r.end, p) && Possible(r, p, a)
    ensures ReaderOk(Acted(r, p, a).end, Drained(r, p, a))
  {
    match a
    case Arrive(k) => ArriveKeepsReader(r, p, k);
    case RunHeader => HeaderKeepsReader(r, p);
    case RunBody => BodyKeepsReader(r, p);
    case ReadFails => ReadFailKeepsReader(r, p);
    case Post(_) => WriterActionsKeepReader(r.end, Acted(r, p, a).end, p);
    case Transmit(_) => WriterActionsKeepReader(r.end, Acted(r, p, a).end, p);
    case WriteFails => WriterActionsKeepReader(r.end, Acted(r, p, a).end, p);
    case RunWritten => WriterActionsKeepReader(r.end, Acted(r, p, a).end, p);
    case CloseSocket => WriterActionsKeepReader(r.end, Acted(r, p, a).end, p);
  }

  /** Sending into a pipe does not disturb its reader. */
  lemma SendKeepsReader(e: Endpoint, p: Pipe, p': Pipe)
    requires ReaderOk(e, p)
    requires p'.delivered == p.delivered && p'.consumed == p.consumed && p'.sent == p.consumed + p'.wire
    ensures ReaderOk(e, p')
  {
    var rest: seq<Byte> :| PhaseOk(e, rest) && p.consumed == Stream(p.delivered) + Tail(e, rest);
    assert PhaseOk(e, rest) && p'.consumed == Stream(p'.delivered) + Tail(e, rest);
  }

  lemma ActedPipe(w: Side, from: Pipe, a: Action)
    requires Possible(w, from, a) && w.out.sent == w.out.consumed + w.out.wire
    ensures var p, p' := w.out, Acted(w, from, a).out;
      p'.delivered == p.delivered && p'.consumed == p.consumed && p'.sent == p.consumed + p'.wire
  {
    if a.Transmit? {
      var k := a.k;
      assert w.out.sent + w.end.op.rest[..k] == w.out.consumed + (w.out.wire + w.end.op.rest[..k]);
    }
  }

  // ---------------------------------------------------------------- every run

  /** One side acts: both directions stay in order. */
  lemma SideKeeps(me: Side, other: Side, a: Action)
    requires WriterOk(me) && ReaderOk(other.end, me.out)
    requires WriterOk(other) && ReaderOk(me.end, other.out)
    requires Possible(me, other.out, a)
    ensures var me', from' := Acted(me, other.out, a), Drained(me, other.out, a);
      && WriterOk(me') && ReaderOk(other.end, me'.out)
      && WriterOk(other.(out := from')) && ReaderOk(me'.end, from')
  {
    WriterKeeps(me, other.out, a);
    ReaderKeeps(me, other.out, a);
    DrainKeepsWriter(other, Drained(me, other.out, a));
    ActedPipe(me, other.out, a);
    SendKeepsReader(other.end, me.out, Acted(me, other.out, a).out);
  }

  lemma ConnectedOk()
    ensures Inv(CONNECTED)
  {
    var w := CONNECTED.left;
    assert Progress(w, []) && w.out.sent == Stream(w.out.popped) + [];
    assert PhaseOk(w.end, []) && Tail(w.end, []) == [];
  }

  lemma StepKeepsInv(c: Conversation, onLeft: bool, a: Action)
    requires Inv(c) && CanAct(c, onLeft, a)
    ensures Inv(Act(c, onLeft, a))
  {
    if onLeft {
      SideKeeps(c.left, c.right, a);
    } else {
      SideKeeps(c.right, c.left, a);
    }
  }

  lemma ReachableInv(c: Conversation)
    requires Reachable(c)
    ensures Inv(c)
  {
    var p := x => Inv(x);
    ConnectedOk();
    forall x: Conversation, l: bool, a: Action | p(x) && CanAct(x, l, a) ensures p(Act(x, l, a)) {
      StepKeepsInv(x, l, a);
    }
    assert Inductive(p);
  }

  lemma StartReachable()
    ensures Reachable(CONNECTED)
  {
    forall p: Conversation -> bool | Inductive(p) ensures p(CONNECTED) {}
  }

  lemma StepReachable(c: Conversation, onLeft: bool, a: Action)
    requires Reachable(c) && CanAct(c, onLeft, a)
    ensures Reachable(Act(c, onLeft, a))
  {
    forall p: Conversation -> bool | Inductive(p) ensures p(Act(c, onLeft, a)) {
      assert p(c);
    }
  }

  // ---------------------------------------------------------------- theorems

  /** The two directions of a conversation, by their writing side. */
  ghost predicate Direction(c: Conversation, w: Side, e: Endpoint) {
    (w == c.left && e == c.right.end) || (w == c.right && e == c.left.end)
  }

  /** Until a write error, a write is outstanding exactly when the queue is non-empty. */
  lemma WriterShape(c: Conversation, w: Side, e: Endpoint)
    requires Reachable(c) && Direction(c, w, e)
    ensures w.out.posted == w.out.popped + w.end.queue
    ensures !w.end.failed ==> (w.end.op.Idle? <==> w.end.queue == [])
    ensures w.end.failed ==> w.end.op.Idle? && w.end.queue != [] && !w.end.open
    ensures Stream(w.out.popped) <= w.out.sent
    ensures w.end.queue == [] ==> w.out.sent == Stream(w.out.popped)
    ensures w.end.queue != [] ==> w.out.sent <= Stream(w.out.popped) + FrameOf(w.end.queue[0])
  {
    ReachableInv(c);
    var done: seq<Byte> :| Progress(w, done) && w.out.sent == Stream(w.out.popped) + done;
    if w.end.op.Writing? {
      assert done <= done + w.end.op.rest;
    }
  }

  /** After a write error no action of either side ever puts another byte on the wire. */
  lemma SilentAfterWriteError(c: Conversation, w: Side, e: Endpoint, a: Action, from: Pipe)
    requires Reachable(c) && Direction(c, w, e) && w.end.failed && Possible(w, from, a)
    ensures Acted(w, from, a).end.failed && Acted(w, from, a).out.sent == w.out.sent
  {
    WriterShape(c, w, e);
  }

  function WritingSide(c: Conversation, onLeft: bool): Side {
    if onLeft then c.left else c.right
  }

  /** However many more actions follow, after a write error the bytes sent stay what they were. */
  lemma {:induction false} SilentForever(c: Conversation, more: seq<(bool, Action)>, onLeft: bool)
    requires Reachable(c) && WritingSide(c, onLeft).end.failed && After(c, more).Some?
    ensures var w, w' := WritingSide(c, onLeft), WritingSide(After(c, more).value, onLeft);
      w'.end.failed && w'.out.sent == w.out.sent
    decreases |more|
  {
    if |more| > 0 {
      var c1 := Act(c, more[0].0, more[0].1);
      StepReachable(c, more[0].0, more[0].1);
      if more[0].0 == onLeft {
        var w, other := WritingSide(c, onLeft), WritingSide(c, !onLeft);
        SilentAfterWriteError(c, w, other.end, more[0].1, other.out);
      }
      SilentForever(c1, more[1..], onLeft);
    }
  }

  /** A body read that is complete, its handler not run yet. */
  function Waiting(e: Endpoint): seq<Message> {
    if e.phase.ReadingBody? && |e.buffer| == e.phase.length then [e.buffer] else []
  }

  /** A header read that is complete and announces a bad length, its handler not run yet. */
  predicate BadHeaderDue(e: Endpoint) {
    e.phase.ReadingHeader? && |e.buffer| == 4 && !ValidLength(Length(e.buffer))
  }

  /**
   The incremental reader refines the one-shot parser: whatever the chunks were, the messages
   delivered, with one whose handler is due, are the parse of all bytes consumed; and that parse has
   met a bad length exactly when the reader has stopped for it, or its header's handler is due.
   */
  lemma ReaderRefinesParser(c: Conversation, w: Side, e: Endpoint)
    requires Reachable(c) && Direction(c, w, e)
    ensures w.out.delivered + Waiting(e) == Parse(w.out.consumed).messages
    ensures e.phase.Stopped? ==> e.phase.bad == Parse(w.out.consumed).bad
    ensures Parse(w.out.consumed).bad <==> e.phase == Stopped(true) || BadHeaderDue(e)
  {
    ReachableInv(c);
    var p := w.out;
    var rest: seq<Byte> :| PhaseOk(e, rest) && p.consumed == Stream(p.delivered) + Tail(e, rest);
    ParseStream(p.delivered, Tail(e, rest));
    TailParses(e, rest);
  }

  lemma TailParses(e: Endpoint, rest: seq<Byte>)
    requires PhaseOk(e, rest)
    ensures Parse(Tail(e, rest)).messages == Waiting(e)
    ensures Parse(Tail(e, rest)).bad <==> e.phase == Stopped(true) || BadHeaderDue(e)
  {
    match e.phase
    case ReadingHeader =>
      if |e.buffer| == 4 { assert e.buffer[..4] == e.buffer; }
    case ReadingBody(n) =>
      if |e.buffer| < n {
        ParseIncomplete(rest, e.buffer);
      } else {
        HeaderOfLength(rest);
        ParseFrame(e.buffer, []);
        assert rest + e.buffer == FrameOf(e.buffer) + [];
        assert Parse([]).messages == [];
      }
    case Stopped(_) =>
  }

  ghost predicate Shut(c: Conversation) {
    && (c.left.end.phase.Stopped? ==> !c.left.end.open)
    && (c.right.end.phase.Stopped? ==> !c.right.end.open)
  }

  /** A reader that has stopped has closed its socket. */
  lemma StoppedIsShut(c: Conversation)
    requires Reachable(c)
    ensures Shut(c)
  {
    var p := x => Shut(x);
    assert Inductive(p);
  }

  /** A stopped reader delivers nothing in its next step and consumes nothing more. */
  lemma StoppedStays(me: Side, from: Pipe, a: Action)
    requires me.end.phase.Stopped? && Possible(me, from, a)
    ensures Acted(me, from, a).end.phase == me.end.phase
    ensures Drained(me, from, a).delivered == from.delivered && Drained(me, from, a).consumed == from.consumed
  {
  }

  /** However many more actions follow, a stopped reader stays closed, and delivers and consumes nothing. */
  lemma {:induction false} StoppedForever(c: Conversation, more: seq<(bool, Action)>, onLeft: bool)
    requires Reachable(c) && WritingSide(c, onLeft).end.phase.Stopped? && After(c, more).Some?
    ensures var me', from' := WritingSide(After(c, more).value, onLeft), WritingSide(After(c, more).value, !onLeft).out;
      && me'.end.phase == WritingSide(c, onLeft).end.phase && !me'.end.open
      && from'.delivered == WritingSide(c, !onLeft).out.delivered
      && from'.consumed == WritingSide(c, !onLeft).out.consumed
    decreases |more|
  {
    StoppedIsShut(c);
    if |more| > 0 {
      var l, a := more[0].0, more[0].1;
      StepReachable(c, l, a);
      if l == onLeft {
        StoppedStays(WritingSide(c, onLeft), WritingSide(c, !onLeft).out, a);
      }
      StoppedForever(Act(c, l, a), more[1..], onLeft);
    }
  }

  // ---------------------------------------------------------------- arbitrary bytes

  /** The left writer is idle and healthy. */
  predicate Ready(c: Conversation) {
    c.left.end.open && !c.left.end.failed && c.left.end.op.Idle? && c.left.end.queue == []
  }

  /** From an idle writer, the first bytes of one more message's frame. */
  lemma SendsPart(c: Conversation, m: Message, k: nat) returns (c': Conversation)
    requires Reachable(c) && Ready(c) && 0 < k <= |FrameOf(m)|
    ensures Reachable(c') && c'.left.out.sent == c.left.out.sent + FrameOf(m)[..k]
    ensures k == |FrameOf(m)| ==> Ready(c')
  {
    StepReachable(c, true, Post(m));
    var c1 := Act(c, true, Post(m));
    assert c1.left.end.queue == [m] && c1.left.end.op == Writing(FrameOf(m));
    StepReachable(c1, true, Transmit(k));
    c' := Act(c1, true, Transmit(k));
    if k == |FrameOf(m)| {
      assert c'.left.end.op == Written(true);
      StepReachable(c', true, RunWritten);
      c' := Act(c', true, RunWritten);
    }
  }

  lemma {:induction false} SendsPrefix(c: Conversation, ms: seq<Message>, s: seq<Byte>) returns (c': Conversation)
    requires Reachable(c) && Ready(c) && s <= Stream(ms)
    ensures Reachable(c') && c'.left.out.sent == c.left.out.sent + s
    decreases |ms|
  {
    if |s| == 0 {
      assert c.left.out.sent + s == c.left.out.sent;
      return c;
    }
    var f, n := FrameOf(ms[0]), |FrameOf(ms[0])|;
    assert Stream(ms) == f + Stream(ms[1..]);
    if |s| <= n {
      assert f[..|s|] == s;
      c' := SendsPart(c, ms[0], |s|);
    } else {
      var c1 := SendsPart(c, ms[0], n);
      assert f[..n] == f && s == f + s[n..];
      c' := SendsPrefix(c1, ms[1..], s[n..]);
      assert c.left.out.sent + f + s[n..] == c.left.out.sent + (f + s[n..]);
    }
  }

  /**
   Every byte string is what some reachable conversation has sent, so what is proved of the reader
   holds for arbitrary bytes.
   */
  lemma AnyBytesAreSent(s: seq<Byte>) returns (c: Conversation)
    ensures Reachable(c) && c.left.out.sent == s
  {
    StartReachable();
    var ms := EveryStream(s);
    c := SendsPrefix(CONNECTED, ms, s);
    assert [] + s == s;
  }

  /** All bytes sent so far are a prefix of the frames of the posted messages. */
  lemma SentIsPrefix(w: Side)
    requires WriterOk(w)
    ensures w.out.sent <= Stream(w.out.posted)
  {
    var done: seq<Byte> :| Progress(w, done) && w.out.sent == Stream(w.out.popped) + done;
    StreamConcat(w.out.popped, w.end.queue);
    if w.end.queue != [] {
      var m, q := w.end.queue[0], w.end.queue[1..];
      if w.end.op.Writing? { assert done <= done + w.end.op.rest; }
      assert done <= FrameOf(m);
      assert Stream(w.end.queue) == FrameOf(m) + Stream(q);
      assert done <= Stream(w.end.queue);
    }
  }

  /**
   End-to-end FIFO: for every interleaving and every chunking, what is delivered is a prefix of what
   was posted, in order and unaltered.
   */
  lemma DeliveredIsPrefix(c: Conversation, w: Side, e: Endpoint)
    requires Reachable(c) && Direction(c, w, e) && Framed(w.out.posted)
    ensures w.out.delivered <= w.out.posted
  {
    ReachableInv(c);
    var p := w.out;
    var rest: seq<Byte> :| PhaseOk(e, rest) && p.consumed == Stream(p.delivered) + Tail(e, rest);
    SentIsPrefix(w);
    assert p.consumed <= p.sent;
    FramesArePrefix(p.delivered, Tail(e, rest), p.posted);
  }

  /** Once queue, wire and read buffer are drained, everything posted has been delivered. */
  lemma DrainedIsDelivered(c: Conversation, w: Side, e: Endpoint)
    requires Reachable(c) && Direction(c, w, e) && Framed(w.out.posted)
    requires w.end.queue == [] && w.out.wire == [] && e.phase.ReadingHeader? && e.buffer == []
    ensures w.out.delivered == w.out.posted
  {
    WriterShape(c, w, e);
    ReaderRefinesParser(c, w, e);
    ReachableInv(c);
    var p := w.out;
    assert p.consumed == p.sent by { assert p.consumed + [] == p.consumed; }
    assert p.posted == p.popped by { assert p.popped + [] == p.popped; }
    assert Stream(p.posted) + [] == Stream(p.posted);
    ParsedIsValid(p.posted);
    ParseStream(p.posted, []);
    assert Parse([]).messages == [];
    assert p.posted + [] == p.posted && p.delivered + [] == p.delivered;
  }
}
