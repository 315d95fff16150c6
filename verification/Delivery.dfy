/**
 Messages do arrive: from a quiet connection a message crosses in either direction, so every list of
 valid messages is delivered in some run; and what the network may do at any moment.
 */
module Delivery {
  import opened Wrappers
  import opened Framing
  import opened Sessions
  import opened Conversations
  import CT = ConversationTheorems

  /** The conversation with w as the writing side and r as the reading one. */
  function Between(onLeft: bool, w: Side, r: Side): Conversation {
    if onLeft then Conversation(w, r) else Conversation(r, w)
  }

  /** Both ends as after `start`, nothing in flight. */
  predicate Quiet(c: Conversation) {
    c.left.end == STARTED && c.right.end == STARTED && c.left.out.wire == [] && c.right.out.wire == []
  }

  /** Below the messages: the frame goes out, its header is read, its body is read. */
  function Ferry(onLeft: bool, m: Message): seq<(bool, Action)> {
    [(onLeft, Transmit(4 + |m|)), (onLeft, RunWritten),
     (!onLeft, Arrive(4)), (!onLeft, RunHeader), (!onLeft, Arrive(|m|))]
  }

  lemma AfterStep(c: Conversation, l: bool, a: Action, more: seq<(bool, Action)>)
    requires CanAct(c, l, a)
    ensures After(c, [(l, a)] + more) == After(Act(c, l, a), more)
  {
    assert ([(l, a)] + more)[1..] == more;
  }

  lemma {:induction false} AfterTwo(c: Conversation, xs: seq<(bool, Action)>, ys: seq<(bool, Action)>)
    requires After(c, xs).Some?
    ensures After(c, xs + ys) == After(After(c, xs).value, ys)
    decreases |xs|
  {
    if |xs| == 0 {
      assert xs + ys == ys;
    } else {
      assert (xs + ys)[1..] == xs[1..] + ys;
      AfterTwo(Act(c, xs[0].0, xs[0].1), xs[1..], ys);
    }
  }

  /** The writer's half: the whole frame is sent, and its handler pops the message. */
  lemma WriterSends(onLeft: bool, w: Side, r: Side, m: Message)
    requires w.end == STARTED.(queue := [m], op := Writing(FrameOf(m)))
    ensures var w' := Side(STARTED, w.out.(popped := w.out.popped + [m], sent := w.out.sent + FrameOf(m),
                                           wire := w.out.wire + FrameOf(m)));
      After(Between(onLeft, w, r), [(onLeft, Transmit(4 + |m|)), (onLeft, RunWritten)]) == Some(Between(onLeft, w', r))
  {
    var f := FrameOf(m);
    assert f[4 + |m|..] == [] && f[..4 + |m|] == f;
    var c := Between(onLeft, w, r);
    var w1 := Side(w.end.(op := Written(true)), w.out.(sent := w.out.sent + f, wire := w.out.wire + f));
    var c1 := Act(c, onLeft, Transmit(4 + |m|));
    assert c1 == Between(onLeft, w1, r);
    var c2 := Act(c1, onLeft, RunWritten);
    AfterStep(c, onLeft, Transmit(4 + |m|), [(onLeft, RunWritten)]);
    AfterStep(c1, onLeft, RunWritten, []);
    assert [(onLeft, RunWritten)] + [] == [(onLeft, RunWritten)];
    assert [(onLeft, Transmit(4 + |m|))] + [(onLeft, RunWritten)]
        == [(onLeft, Transmit(4 + |m|)), (onLeft, RunWritten)];
    assert w1.end.queue[1..] == [];
    assert After(c2, []) == Some(c2);
  }

  ghost predicate Leads(c: Conversation, x: (bool, Action), c': Conversation) {
    CanAct(c, x.0, x.1) && Act(c, x.0, x.1) == c'
  }

  lemma HeaderArrives(onLeft: bool, w: Side, r: Side, m: Message)
    requires r.end == STARTED && w.out.wire == FrameOf(m)
    ensures Leads(Between(onLeft, w, r), (!onLeft, Arrive(4)),
                  Between(onLeft, w.(out := w.out.(wire := m, consumed := w.out.consumed + Header(|m|))),
                    r.(end := STARTED.(buffer := Header(|m|)))))
  {
    assert FrameOf(m)[..4] == Header(|m|) && FrameOf(m)[4..] == m;
    assert [] + Header(|m|) == Header(|m|);
  }

  lemma HeaderHandled(onLeft: bool, w: Side, r: Side, m: Message)
    requires r.end == STARTED.(buffer := Header(|m|)) && ValidLength(|m|)
    ensures Leads(Between(onLeft, w, r), (!onLeft, RunHeader),
                  Between(onLeft, w, r.(end := STARTED.(phase := ReadingBody(|m|)))))
  {
    LengthOfHeader(|m|);
    assert HeaderRead(r.end) == STARTED.(phase := ReadingBody(|m|));
  }

  lemma BodyArrives(onLeft: bool, w: Side, r: Side, m: Message)
    requires r.end == STARTED.(phase := ReadingBody(|m|)) && w.out.wire == m && |m| > 0
    ensures Leads(Between(onLeft, w, r), (!onLeft, Arrive(|m|)),
                  Between(onLeft, w.(out := w.out.(wire := [], consumed := w.out.consumed + m)),
                    r.(end := STARTED.(phase := ReadingBody(|m|), buffer := m))))
  {
    assert m[..|m|] == m && m[|m|..] == [] && [] + m == m;
  }

  /** The pipe when its whole frame has been read. */
  function Consumed(p: Pipe, m: Message): Pipe {
    p.(wire := [], consumed := p.consumed + FrameOf(m))
  }

  function ReaderSteps(onLeft: bool, m: Message): seq<(bool, Action)> {
    [(!onLeft, Arrive(4)), (!onLeft, RunHeader), (!onLeft, Arrive(|m|))]
  }

  /** The states in between. */
  function ReaderStates(onLeft: bool, w: Side, r: Side, m: Message): (cs: seq<Conversation>)
    ensures |cs| == 4
  {
    var w1 := w.(out := w.out.(wire := m, consumed := w.out.consumed + Header(|m|)));
    [Between(onLeft, w, r),
     Between(onLeft, w1, r.(end := STARTED.(buffer := Header(|m|)))),
     Between(onLeft, w1, r.(end := STARTED.(phase := ReadingBody(|m|)))),
     Between(onLeft, w.(out := Consumed(w.out, m)), r.(end := STARTED.(phase := ReadingBody(|m|), buffer := m)))]
  }

  lemma ReaderLeads(onLeft: bool, w: Side, r: Side, m: Message)
    requires r.end == STARTED && w.out.wire == FrameOf(m) && ValidLength(|m|)
    ensures var cs, xs := ReaderStates(onLeft, w, r, m), ReaderSteps(onLeft, m);
      Leads(cs[0], xs[0], cs[1]) && Leads(cs[1], xs[1], cs[2]) && Leads(cs[2], xs[2], cs[3])
  {
    HeaderArrives(onLeft, w, r, m);
    var w1 := w.(out := w.out.(wire := m, consumed := w.out.consumed + Header(|m|)));
    HeaderHandled(onLeft, w1, r.(end := STARTED.(buffer := Header(|m|))), m);
    BodyArrives(onLeft, w1, r.(end := STARTED.(phase := ReadingBody(|m|))), m);
    assert w.out.consumed + Header(|m|) + m == w.out.consumed + FrameOf(m);
  }

  /** The reader's half: header, then body, its handler not run yet. */
  lemma ReaderReads(onLeft: bool, w: Side, r: Side, m: Message)
    requires r.end == STARTED && w.out.wire == FrameOf(m) && ValidLength(|m|)
    ensures After(Between(onLeft, w, r), ReaderSteps(onLeft, m)) == Some(ReaderStates(onLeft, w, r, m)[3])
  {
    ReaderLeads(onLeft, w, r, m);
    AfterThree(ReaderStates(onLeft, w, r, m), ReaderSteps(onLeft, m));
  }

  lemma AfterThree(cs: seq<Conversation>, xs: seq<(bool, Action)>)
    requires |cs| == 4 && |xs| == 3
    requires Leads(cs[0], xs[0], cs[1]) && Leads(cs[1], xs[1], cs[2]) && Leads(cs[2], xs[2], cs[3])
    ensures After(cs[0], xs) == Some(cs[3])
  {
    assert xs == [xs[0]] + (xs[1..]) && xs[1..] == [xs[1]] + xs[2..] && xs[2..] == [xs[2]] + [];
    AfterStep(cs[0], xs[0].0, xs[0].1, xs[1..]);
    AfterStep(cs[1], xs[1].0, xs[1].1, xs[2..]);
    AfterStep(cs[2], xs[2].0, xs[2].1, []);
  }

  /** The pipe after m went through it, up to the body handler. */
  function Carried(p: Pipe, m: Message): Pipe {
    p.(posted := p.posted + [m], popped := p.popped + [m],
       sent := p.sent + FrameOf(m), consumed := p.consumed + FrameOf(m))
  }

  /** A message posted on a quiet connection reaches the other end's read buffer. */
  lemma Ferries(c: Conversation, onLeft: bool, m: Message)
    requires Quiet(c) && ValidLength(|m|)
    ensures var w, r := CT.WritingSide(c, onLeft), CT.WritingSide(c, !onLeft);
      var r' := r.(end := STARTED.(phase := ReadingBody(|m|), buffer := m));
      After(Act(c, onLeft, Post(m)), Ferry(onLeft, m)) == Some(Between(onLeft, w.(out := Carried(w.out, m)), r'))
  {
    var w, r := CT.WritingSide(c, onLeft), CT.WritingSide(c, !onLeft);
    assert c == Between(onLeft, w, r);
    var w0 := Side(STARTED.(queue := [m], op := Writing(FrameOf(m))), w.out.(posted := w.out.posted + [m]));
    assert [] + [m] == [m];
    assert Act(c, onLeft, Post(m)) == Between(onLeft, w0, r);
    WriterSends(onLeft, w0, r, m);
    var w1 := Side(STARTED, w0.out.(popped := w0.out.popped + [m], sent := w0.out.sent + FrameOf(m),
                                     wire := [] + FrameOf(m)));
    assert [] + FrameOf(m) == FrameOf(m);
    ReaderReads(onLeft, w1, r, m);
    var xs := [(onLeft, Transmit(4 + |m|)), (onLeft, RunWritten)];
    assert Ferry(onLeft, m) == xs + ReaderSteps(onLeft, m);
    AfterTwo(Between(onLeft, w0, r), xs, ReaderSteps(onLeft, m));
  }

  lemma {:induction false} AfterReachable(c: Conversation, more: seq<(bool, Action)>)
    requires Reachable(c) && After(c, more).Some?
    ensures Reachable(After(c, more).value)
    decreases |more|
  {
    if |more| > 0 {
      CT.StepReachable(c, more[0].0, more[0].1);
      AfterReachable(Act(c, more[0].0, more[0].1), more[1..]);
    }
  }

  lemma Delivers(c: Conversation, onLeft: bool, m: Message) returns (c': Conversation)
    requires Reachable(c) && Quiet(c) && ValidLength(|m|)
    ensures Reachable(c') && Quiet(c')
    ensures CT.WritingSide(c', onLeft).out.posted == CT.WritingSide(c, onLeft).out.posted + [m]
    ensures CT.WritingSide(c', onLeft).out.delivered == CT.WritingSide(c, onLeft).out.delivered + [m]
  {
    CT.StepReachable(c, onLeft, Post(m));
    Ferries(c, onLeft, m);
    AfterReachable(Act(c, onLeft, Post(m)), Ferry(onLeft, m));
    var c1 := After(Act(c, onLeft, Post(m)), Ferry(onLeft, m)).value;
    CT.StepReachable(c1, !onLeft, RunBody);
    c' := Act(c1, !onLeft, RunBody);
  }

  /** Every list of valid messages is what some reachable conversation has posted and delivered. */
  lemma {:induction false} AnyMessagesAreDelivered(ms: seq<Message>, onLeft: bool) returns (c: Conversation)
    requires AllValid(ms)
    ensures Reachable(c) && Quiet(c)
    ensures CT.WritingSide(c, onLeft).out.posted == ms && CT.WritingSide(c, onLeft).out.delivered == ms
    decreases |ms|
  {
    if |ms| == 0 {
      CT.StartReachable();
      return CONNECTED;
    }
    var n := |ms| - 1;
    var c0 := AnyMessagesAreDelivered(ms[..n], onLeft);
    c := Delivers(c0, onLeft, ms[n]);
    assert ms[..n] + [ms[n]] == ms;
  }

  /**
   What may happen at any moment: a chunk of any size that is on the wire and still wanted arrives, any
   part of an outstanding write is sent, either may fail instead, and the socket may be closed.  After
   a failure the socket is closed and the reader or the writer is done.
   */
  lemma NetworkIsFree(c: Conversation, onLeft: bool)
    requires Reachable(c)
    ensures var me, from := CT.WritingSide(c, onLeft), CT.WritingSide(c, !onLeft).out;
      var wanted := if me.end.phase.ReadingHeader? then 4 - |me.end.buffer|
                    else if me.end.phase.ReadingBody? then me.end.phase.length - |me.end.buffer| else 0;
      && wanted >= 0
      && (me.end.open ==> forall k: nat :: 0 < k <= wanted && k <= |from.wire| ==> CanAct(c, onLeft, Arrive(k)))
      && (wanted > 0 ==>
            && CanAct(c, onLeft, ReadFails)
            && CT.WritingSide(Act(c, onLeft, ReadFails), onLeft).end
               == me.end.(phase := Stopped(false), open := false))
      && (me.end.op.Writing? ==>
            && (me.end.open ==> forall k: nat :: 0 < k <= |me.end.op.rest| ==> CanAct(c, onLeft, Transmit(k)))
            && CanAct(c, onLeft, WriteFails)
            && CanAct(Act(c, onLeft, WriteFails), onLeft, RunWritten)
            && CT.WritingSide(Act(Act(c, onLeft, WriteFails), onLeft, RunWritten), onLeft).end
               == me.end.(op := Idle, failed := true, open := false))
      && CanAct(c, onLeft, CloseSocket) && (forall m: Message :: CanAct(c, onLeft, Post(m)))
  {
    CT.ReachableInv(c);
  }

  /** What is posted by an idle writer on a closed socket fails at once, and stays queued. */
  lemma ClosedWriteFails(c: Conversation, onLeft: bool, m: Message)
    requires var e := CT.WritingSide(c, onLeft).end; !e.open && e.op.Idle? && e.queue == []
    ensures CanAct(c, onLeft, Post(m)) && CanAct(Act(c, onLeft, Post(m)), onLeft, RunWritten)
    ensures CT.WritingSide(Act(Act(c, onLeft, Post(m)), onLeft, RunWritten), onLeft).end
         == CT.WritingSide(c, onLeft).end.(queue := [m], failed := true)
  {
    assert [] + [m] == [m];
  }
}
