/** Safety of remote calls over all runs. */
module CallTheorems {
  import opened Words
  import opened Framing
  import Conversations
  import opened Rpc
  import opened Calls
  import CT = ConversationTheorems

  /** Below the message level nothing is posted or delivered. */
  lemma BelowKeepsHistory(c: Conversations.Conversation, onLeft: bool, a: Conversations.Action)
    requires Conversations.CanAct(c, onLeft, a) && Below(a)
    ensures var c' := Conversations.Act(c, onLeft, a);
      && c'.left.out.posted == c.left.out.posted && c'.left.out.delivered == c.left.out.delivered
      && c'.right.out.posted == c.right.out.posted && c'.right.out.delivered == c.right.out.delivered
  {
  }

  /** Explanations survive when callers are only added or advanced. */
  lemma ExplainedGrows<A(!new), R(!new)>(
    v: Service<A, R>, cs: seq<Caller<A, R>>, cs': seq<Caller<A, R>>, ms: seq<Message>)
    requires AllExplained(v, cs, ms) && |cs| <= |cs'|
    requires forall i: nat :: i < |cs| ==> cs'[i].args == cs[i].args && cs'[i].id == cs[i].id
    ensures AllExplained(v, cs', ms)
  {
    forall k: nat | k < |ms| ensures Explained(v, cs', ms[k]) {
      if v.decodeRequest(ms[k]).Some? {
        var i: nat :| i < |cs| && ms[k] == v.encodeRequest(RequestFor(v, cs[i].args, cs[i].id));
        assert ms[k] == v.encodeRequest(RequestFor(v, cs'[i].args, cs'[i].id));
      }
    }
  }

  /** The caller's own fields never change; its progress may, if what it holds was delivered. */
  lemma AdvanceKeeps<A(!new), R(!new)>(v: Service<A, R>, s: System<A, R>, i: nat, pc: CallPc<R>)
    requires Inv(v, s) && i < |s.callers|
    requires CallerOk(v, SetPc(s, i, pc), i)
    ensures Inv(v, SetPc(s, i, pc))
  {
    var s' := SetPc(s, i, pc);
    forall j: nat | j < |s'.callers| ensures CallerOk(v, s', j) {
      assert CallerOk(v, s, j);
    }
    ExplainedGrows(v, s.callers, s'.callers, s.net.left.out.posted + s.clientOutbox);
  }

  lemma BeginCallers<A(!new), R(!new)>(v: Service<A, R>, s: System<A, R>, args: A, j: nat)
    requires Inv(v, s) && j <= |s.callers|
    ensures CallerOk(v, Do(v, s, Begin(args)), j)
  {
    if j < |s.callers| {
      assert CallerOk(v, s, j);
    }
  }

  lemma BeginKeeps<A(!new), R(!new)>(v: Service<A, R>, s: System<A, R>, args: A)
    requires Inv(v, s)
    ensures Inv(v, Do(v, s, Begin(args)))
  {
    var s' := Do(v, s, Begin(args));
    forall j: nat | j < |s'.callers| ensures CallerOk(v, s', j) {
      BeginCallers(v, s, args, j);
    }
    ExplainedGrows(v, s.callers, s'.callers, s.net.left.out.posted + s.clientOutbox);
    NextIdOf(|s.callers|);
  }

  lemma NextIdOf(n: nat)
    ensures NextId(IdOf(n)) == IdOf(n + 1)
  {
  }

  /** Adding an explained message to the client's outbox. */
  lemma OutboxKeeps<A(!new), R(!new)>(v: Service<A, R>, s: System<A, R>, m: Message)
    requires Inv(v, s) && Explained(v, s.callers, m)
    ensures Inv(v, s.(clientOutbox := s.clientOutbox + [m]))
  {
    var s' := s.(clientOutbox := s.clientOutbox + [m]);
    var ms := s.net.left.out.posted + s.clientOutbox;
    assert s'.net.left.out.posted + s'.clientOutbox == ms + [m];
    forall k: nat | k < |ms + [m]| ensures Explained(v, s.callers, (ms + [m])[k]) {
      if k < |ms| { assert Explained(v, s.callers, ms[k]); }
    }
    forall j: nat | j < |s'.callers| ensures CallerOk(v, s', j) {
      assert CallerOk(v, s, j);
    }
  }

  /** A network step that leaves both histories of posted and delivered messages alone, or moves them in step. */
  lemma NetKeeps<A(!new), R(!new)>(v: Service<A, R>, s: System<A, R>, s': System<A, R>)
    requires Inv(v, s) && Conversations.Reachable(s'.net)
    requires s'.nextId == s.nextId && s'.callers == s.callers
    requires s'.net.left.out.posted + s'.clientOutbox == s.net.left.out.posted + s.clientOutbox
    requires s'.net.right.out.posted + s'.serverOutbox == Replies(v, s'.net.left.out.delivered)
    requires s.net.right.out.delivered <= s'.net.right.out.delivered
    requires SlotOk(s'.slot, s'.net.right.out.delivered)
    ensures Inv(v, s')
  {
    forall m: Message | m in s.net.right.out.delivered ensures m in s'.net.right.out.delivered {
      var k :| 0 <= k < |s.net.right.out.delivered| && s.net.right.out.delivered[k] == m;
      assert s'.net.right.out.delivered[k] == m;
    }
    forall j: nat | j < |s'.callers| ensures CallerOk(v, s', j) {
      assert CallerOk(v, s, j);
    }
  }

  lemma CallerStepKeeps<A(!new), R(!new)>(v: Service<A, R>, s: System<A, R>, e: Event<A>)
    requires Inv(v, s) && Enabled(v, s, e)
    requires e.NotOpen? || e.CheckOpen? || e.Arm? || e.Wake? || e.Timeout? || e.Finish? || e.Send?
    ensures Inv(v, Do(v, s, e))
  {
    assert CallerOk(v, s, e.i);
    match e
    case NotOpen(i) => AdvanceKeeps(v, s, i, Finished(Raised(TimedOutOrClosed)));
    case CheckOpen(i) => AdvanceKeeps(v, s, i, Checked);
    case Arm(i) =>
      var s1 := s.(slot := Slot([], false));
      NetKeeps(v, s, s1);
      AdvanceKeeps(v, s1, i, Armed);
    case Send(i) =>
      var c := s.callers[i];
      var m := v.encodeRequest(RequestFor(v, c.args, c.id));
      OutboxKeeps(v, s, m);
      AdvanceKeeps(v, s.(clientOutbox := s.clientOutbox + [m]), i, Sent);
    case Wake(i) => AdvanceKeeps(v, s, i, Got(s.slot.buffer));
    case Timeout(i) => AdvanceKeeps(v, s, i, Finished(Raised(TimedOutOrClosed)));
    case Finish(i) =>
      var c := s.callers[i];
      AdvanceKeeps(v, s, i, Finished(Check(v, c.args, c.id, c.pc.bytes)));
  }

  lemma ClientPostKeeps<A(!new), R(!new)>(v: Service<A, R>, s: System<A, R>)
    requires Inv(v, s) && s.clientOutbox != []
    ensures Inv(v, Do(v, s, RunPost(true)))
  {
    var m, rest := s.clientOutbox[0], s.clientOutbox[1..];
    CT.StepReachable(s.net, true, Conversations.Post(m));
    assert s.net.left.out.posted + [m] + rest == s.net.left.out.posted + s.clientOutbox;
    NetKeeps(v, s, Do(v, s, RunPost(true)));
  }

  lemma ServerPostKeeps<A(!new), R(!new)>(v: Service<A, R>, s: System<A, R>)
    requires Inv(v, s) && s.serverOutbox != []
    ensures Inv(v, Do(v, s, RunPost(false)))
  {
    var m, rest := s.serverOutbox[0], s.serverOutbox[1..];
    CT.StepReachable(s.net, false, Conversations.Post(m));
    assert s.net.right.out.posted + [m] + rest == s.net.right.out.posted + s.serverOutbox;
    NetKeeps(v, s, Do(v, s, RunPost(false)));
  }

  lemma ReceiveKeeps<A(!new), R(!new)>(v: Service<A, R>, s: System<A, R>, e: Event<A>)
    requires Inv(v, s) && Enabled(v, s, e) && (e.ServerReceives? || e.ClientReceives?)
    ensures Inv(v, Do(v, s, e))
  {
    var s' := Do(v, s, e);
    CT.StepReachable(s.net, e.ClientReceives?, Conversations.RunBody);
    if e.ServerReceives? {
      var m := s.net.right.end.buffer;
      assert Replies(v, s.net.left.out.delivered + [m]) == Replies(v, s.net.left.out.delivered) + [Reply(v, m)];
      assert s'.net.right.out.posted + s'.serverOutbox == s.net.right.out.posted + s.serverOutbox + [Reply(v, m)];
    } else {
      assert s'.net.right.out.delivered[|s.net.right.out.delivered|] == s'.slot.buffer;
    }
    NetKeeps(v, s, s');
  }

  lemma StepKeepsInv<A(!new), R(!new)>(v: Service<A, R>, s: System<A, R>, e: Event<A>)
    requires Inv(v, s) && Enabled(v, s, e)
    ensures Inv(v, Do(v, s, e))
  {
    match e
    case Begin(args) => BeginKeeps(v, s, args);
    case SendRaw(bytes) => OutboxKeeps(v, s, bytes);
    case ClearSlot => NetKeeps(v, s, Do(v, s, e));
    case Net(onLeft, a) =>
      CT.StepReachable(s.net, onLeft, a);
      BelowKeepsHistory(s.net, onLeft, a);
      NetKeeps(v, s, Do(v, s, e));
    case RunPost(onLeft) =>
      if onLeft { ClientPostKeeps(v, s); } else { ServerPostKeeps(v, s); }
    case ServerReceives => ReceiveKeeps(v, s, e);
    case ClientReceives => ReceiveKeeps(v, s, e);
    case NotOpen(_) => CallerStepKeeps(v, s, e);
    case CheckOpen(_) => CallerStepKeeps(v, s, e);
    case Arm(_) => CallerStepKeeps(v, s, e);
    case Send(_) => CallerStepKeeps(v, s, e);
    case Wake(_) => CallerStepKeeps(v, s, e);
    case Timeout(_) => CallerStepKeeps(v, s, e);
    case Finish(_) => CallerStepKeeps(v, s, e);
  }

  lemma ReachableInv<A(!new), R(!new)>(v: Service<A, R>, s: System<A, R>)
    requires Reachable(v, s)
    ensures Inv(v, s)
  {
    var p := x => Inv(v, x);
    CT.StartReachable();
    forall x: System<A, R> | Initial(x) ensures p(x) {}
    forall x: System<A, R>, e: Event<A> | p(x) && Enabled(v, x, e) ensures p(Do(v, x, e)) {
      StepKeepsInv(v, x, e);
    }
    assert Inductive(v, p);
  }

  // ---------------------------------------------------------------- theorems

  /** Two calls have the same id exactly when a multiple of 2^64 calls lies between them. */
  lemma IdsCollideIff(m: nat, n: nat)
    requires m <= n
    ensures IdOf(m) == IdOf(n) <==> (n - m) % WORD == 0
  {
    var q, r := (m + 1) / WORD, (m + 1) % WORD;
    var d, e := (n - m) / WORD, (n - m) % WORD;
    assert n + 1 == (q + d) * WORD + (r + e);
    assert (n + 1) % WORD == (r + e) % WORD;
  }

  /**
   One reply per delivered request, in arrival order: what the client receives is a prefix of the
   replies to what the server received, which is a prefix of what the client posted.
   */
  lemma RepliesInOrder<A(!new), R(!new)>(v: Service<A, R>, s: System<A, R>)
    requires Reachable(v, s)
    requires Framed(s.net.left.out.posted) && Framed(s.net.right.out.posted)
    ensures s.net.right.out.posted + s.serverOutbox == Replies(v, s.net.left.out.delivered)
    ensures s.net.right.out.delivered <= Replies(v, s.net.left.out.delivered)
    ensures s.net.left.out.delivered <= s.net.left.out.posted
  {
    ReachableInv(v, s);
    CT.DeliveredIsPrefix(s.net, s.net.left, s.net.right.end);
    CT.DeliveredIsPrefix(s.net, s.net.right, s.net.left.end);
  }

  /** Every message the client receives answers a request the client posted. */
  lemma ReceivedAnswers<A(!new), R(!new)>(v: Service<A, R>, s: System<A, R>, m: Message) returns (d: Message)
    requires Reachable(v, s) && m in s.net.right.out.delivered
    requires Framed(s.net.left.out.posted) && Framed(s.net.right.out.posted)
    ensures m == Reply(v, d) && d in s.net.left.out.delivered && Explained(v, s.callers, d) && Deliverable(v, d)
  {
    RepliesInOrder(v, s);
    ReachableInv(v, s);
    CT.ReachableInv(s.net);
    var k :| 0 <= k < |s.net.right.out.delivered| && s.net.right.out.delivered[k] == m;
    d := s.net.left.out.delivered[k];
    assert Replies(v, s.net.left.out.delivered)[k] == Reply(v, d);
    assert (s.net.left.out.posted + s.clientOutbox)[k] == d;
  }

  lemma CallerFacts<A(!new), R(!new)>(v: Service<A, R>, s: System<A, R>, i: nat)
    requires Reachable(v, s) && i < |s.callers|
    ensures CallerOk(v, s, i)
  {
    ReachableInv(v, s);
  }

  /** The slot holds the last message received, if one came since it was cleared, and nothing otherwise. */
  lemma SlotHoldsLast<A(!new), R(!new)>(v: Service<A, R>, s: System<A, R>)
    requires Reachable(v, s)
    ensures var received := s.net.right.out.delivered;
      if s.slot.received then received != [] && s.slot.buffer == received[|received| - 1] else s.slot.buffer == []
  {
    ReachableInv(v, s);
  }

  /** Among at most 2^64 calls, an accepted answer to an explained message answers one's own request. */
  lemma OwnRequest<A(!new), R(!new)>(v: Service<A, R>, s: System<A, R>, i: nat, d: Message)
    requires RoundTrips(v) && Reachable(v, s) && i < |s.callers| <= WORD
    requires Explained(v, s.callers, d) && Deliverable(v, d)
    requires Check(v, s.callers[i].args, s.callers[i].id, Reply(v, d)).Accepted?
    ensures d == v.encodeRequest(RequestFor(v, s.callers[i].args, s.callers[i].id))
  {
    if v.decodeRequest(d).None? {
      GarbageAnswerRejected(v, s.callers[i].args, s.callers[i].id, d);
    } else {
      var j: nat :| j < |s.callers| && d == v.encodeRequest(RequestFor(v, s.callers[j].args, s.callers[j].id));
      AcceptedAnswer(v, s.callers[i].args, s.callers[i].id, s.callers[j].args, s.callers[j].id);
      CallerFacts(v, s, i);
      CallerFacts(v, s, j);
      DistinctIds(i, j);
    }
  }

  lemma DistinctIds(i: nat, j: nat)
    requires i < WORD && j < WORD && IdOf(i) == IdOf(j)
    ensures i == j
  {
    if i < j { IdsCollideIff(i, j); } else { IdsCollideIff(j, i); }
  }

  /**
   Call safety: with any number of concurrent callers, timeouts at any moment and late answers left
   anywhere, a call that returns a value returns the server function's result for its own arguments,
   as long as at most 2^64 calls were made on this client.
   */
  lemma CallSafety<A(!new), R(!new)>(v: Service<A, R>, s: System<A, R>, i: nat)
    requires RoundTrips(v) && Reachable(v, s)
    requires Framed(s.net.left.out.posted) && Framed(s.net.right.out.posted)
    requires i < |s.callers| <= WORD && Serializable(v, s.callers[i].args)
    requires s.callers[i].pc.Finished? && s.callers[i].pc.result.Accepted?
    ensures v.invoke(s.callers[i].args) == Returned(s.callers[i].pc.result.value)
    ensures v.encodeRequest(RequestFor(v, s.callers[i].args, s.callers[i].id)) in s.net.left.out.delivered
  {
    CallerFacts(v, s, i);
    var c := s.callers[i];
    var m: Message :| m in s.net.right.out.delivered && Check(v, c.args, c.id, m) == c.pc.result;
    var d := ReceivedAnswers(v, s, m);
    OwnRequest(v, s, i, d);
    AcceptedAnswer(v, c.args, c.id, c.args, c.id);
  }

  /** The envelopes stay below 2^32 bytes, as those of a serializer with a 2 GiB limit do. */
  ghost predicate Limited<A(!new), R(!new)>(v: Service<A, R>) {
    && (forall q: Request :: |v.encodeRequest(q)| < WORD32)
    && (forall r: Response :: |v.encodeResponse(r)| < WORD32)
  }

  /** Then every size is framed, if the connection's other users also post less than 2^32 bytes at a time. */
  lemma LimitedIsFramed<A(!new), R(!new)>(v: Service<A, R>, s: System<A, R>)
    requires Reachable(v, s) && Limited(v)
    requires forall m: Message :: m in s.net.left.out.posted && v.decodeRequest(m).None? ==> |m| < WORD32
    ensures Framed(s.net.left.out.posted) && Framed(s.net.right.out.posted)
  {
    ReachableInv(v, s);
    var left, right := s.net.left.out.posted, s.net.right.out.posted;
    forall k | 0 <= k < |left| ensures |left[k]| < WORD32 {
      assert (left + s.clientOutbox)[k] == left[k];
      assert Explained(v, s.callers, left[k]);
    }
    forall k | 0 <= k < |right| ensures |right[k]| < WORD32 {
      assert (right + s.serverOutbox)[k] == right[k];
      assert right[k] == Reply(v, s.net.left.out.delivered[k]);
    }
    SmallIsFramed(left);
    SmallIsFramed(right);
  }

  /** Call safety with the hypothesis on sizes discharged from the serializer's limit. */
  lemma CallSafetyUnderLimit<A(!new), R(!new)>(v: Service<A, R>, s: System<A, R>, i: nat)
    requires RoundTrips(v) && Limited(v) && Reachable(v, s)
    requires forall m: Message :: m in s.net.left.out.posted && v.decodeRequest(m).None? ==> |m| < WORD32
    requires i < |s.callers| <= WORD && Serializable(v, s.callers[i].args)
    requires s.callers[i].pc.Finished? && s.callers[i].pc.result.Accepted?
    ensures v.invoke(s.callers[i].args) == Returned(s.callers[i].pc.result.value)
  {
    LimitedIsFramed(v, s);
    CallSafety(v, s, i);
  }
}
