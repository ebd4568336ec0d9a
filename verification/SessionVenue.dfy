/**
 A venue that answers the subscribe ops of one connection in request order: every reply is credited to the op it
 answers.
 */
module SessionVenue {
  import opened Wrappers
  import opened SessionModel
  import opened SessionDriver
  import opened SessionTopics
  import opened SessionPump
  import opened SessionAcks
  import Decimal

  /** The subscribe ops among some frames, in order. */
  function Ops(frames: seq<Frame>): (ops: seq<Frame>)
    ensures forall k :: 0 <= k < |ops| ==> ops[k].Subscribe?
  {
    if frames == [] then []
    else
      var rest := Ops(frames[..|frames| - 1]);
      if frames[|frames| - 1].Subscribe? then rest + [frames[|frames| - 1]] else rest
  }

  /** Event `e` delivers a subscribe reply of the current connection. */
  predicate DeliversReply(s: State, e: Event) {
    && e.Complete? && e.task == Read(s.link.generation) && e.outcome.ok && e.outcome.message.Control?
    && e.outcome.message.op == OpSubscribe && !e.outcome.message.saysPong
  }

  /** The venue's side of the contract: the k-th reply of a connection answers the k-th subscribe op written on it, and
      its req_id, when present, is that op's. */
  predicate InRequestOrder(s: State, e: Event) {
    DeliversReply(s, e) ==>
      var k := |s.topics.replies|;
      && k < |Ops(s.out.wire.sent)|
      && (e.outcome.message.reqId == "" || e.outcome.message.reqId == Decimal.Print(Ops(s.out.wire.sent)[k].id))
  }

  ghost predicate OrderlyRun(s: State, es: seq<Event>) {
    es == [] || (OrderlyRun(s, es[..|es| - 1]) && InRequestOrder(After(s, es[..|es| - 1]), es[|es| - 1]))
  }

  /** Reply k was credited, with its own result, to op k; the ops after the last reply are still in flight. */
  ghost predicate Attributed(b: Topics, ops: seq<Frame>)
    requires forall k :: 0 <= k < |ops| ==> ops[k].Subscribe?
  {
    && |b.replies| <= |ops|
    && (forall k :: 0 <= k < |b.replies| ==> ops[k].id in b.credited && b.credited[ops[k].id] == b.replies[k])
    && (forall k :: |b.replies| <= k < |ops| ==> ops[k].id in b.inflight)
  }

  ghost predicate Orderly(s: State) {
    s.link.connected ==>
      Attributed(s.topics, Ops(s.out.wire.enqueued)) && |s.topics.replies| <= |Ops(s.out.wire.sent)|
  }

  // ---------------------------------------------------------------- ops of a wire

  lemma {:induction false} OpsConcat(a: seq<Frame>, b: seq<Frame>)
    ensures Ops(a + b) == Ops(a) + Ops(b)
  {
    if b == [] {
      assert a + b == a;
    } else {
      assert (a + b)[..|a + b| - 1] == a + b[..|b| - 1];
      OpsConcat(a, b[..|b| - 1]);
    }
  }

  lemma OpsOfOne(f: Frame)
    ensures Ops([f]) == if f.Subscribe? then [f] else []
  {
    assert [f][..0] == [];
  }

  lemma OpsPrefix(a: seq<Frame>, c: seq<Frame>)
    requires a <= c
    ensures Ops(a) <= Ops(c)
  {
    assert c == a + c[|a|..];
    OpsConcat(a, c[|a|..]);
  }

  lemma {:induction false} OpsMembers(frames: seq<Frame>)
    ensures forall f :: f in Ops(frames) <==> f in frames && f.Subscribe?
  {
    if frames != [] {
      OpsMembers(frames[..|frames| - 1]);
      assert frames == frames[..|frames| - 1] + [frames[|frames| - 1]];
    }
  }

  lemma {:induction false} OpsIncreasing(frames: seq<Frame>, counter: nat)
    requires Increasing(frames, counter)
    ensures forall i, j :: 0 <= i < j < |Ops(frames)| ==> Ops(frames)[i].id < Ops(frames)[j].id
  {
    if frames != [] {
      var init := frames[..|frames| - 1];
      var last := frames[|frames| - 1];
      OpsIncreasing(init, counter);
      OpsMembers(init);
      forall k | 0 <= k < |Ops(init)| && last.Subscribe? ensures Ops(init)[k].id < last.id {
        assert Ops(init)[k] in init;
        var i :| 0 <= i < |init| && init[i] == Ops(init)[k];
        assert frames[i] == init[i];
      }
    }
  }

  // ---------------------------------------------------------------- attribution

  /** The oldest op in flight is the one the next reply answers. */
  lemma OldestIsNext(b: Topics, frames: seq<Frame>)
    requires Increasing(frames, b.reqIdCounter) && Accounted(b, frames) && Attributed(b, Ops(frames))
    requires |b.replies| < |Ops(frames)|
    ensures Ops(frames)[|b.replies|].id in b.inflight
    ensures forall n :: n in b.inflight ==> Ops(frames)[|b.replies|].id <= n
  {
    var ops := Ops(frames);
    OpsMembers(frames);
    OpsIncreasing(frames, b.reqIdCounter);
    hide Ops;
    forall n | n in b.inflight ensures ops[|b.replies|].id <= n {
      var k := InflightIndex(b, frames, n);
      assert |b.replies| < k ==> ops[|b.replies|].id < ops[k].id;
    }
  }

  lemma InflightIndex(b: Topics, frames: seq<Frame>, n: nat) returns (k: nat)
    requires Accounted(b, frames) && Attributed(b, Ops(frames)) && n in b.inflight
    ensures |b.replies| <= k < |Ops(frames)| && Ops(frames)[k].id == n
  {
    var ops := Ops(frames);
    OpsMembers(frames);
    hide Ops;
    assert IsOp(frames, n);
    var i :| 0 <= i < |frames| && frames[i].Subscribe? && frames[i].id == n;
    assert frames[i] in ops;
    k :| 0 <= k < |ops| && ops[k] == frames[i];
  }

  lemma NextReplyTarget(b: Topics, frames: seq<Frame>, reqId: string)
    requires Increasing(frames, b.reqIdCounter) && Accounted(b, frames) && Attributed(b, Ops(frames))
    requires |b.replies| < |Ops(frames)|
    requires reqId == "" || reqId == Decimal.Print(Ops(frames)[|b.replies|].id)
    ensures AckTarget(b.inflight, reqId) == Some(Ops(frames)[|b.replies|].id)
  {
    OldestIsNext(b, frames);
    hide Ops, Accounted, Increasing, Attributed, Decimal.Print;
    var next := Ops(frames)[|b.replies|].id;
    forall n | n in b.inflight && Decimal.Print(n) == reqId ensures n == next {
      if reqId != "" {
        Decimal.PrintInjective(n, next);
      }
    }
  }

  lemma ReplyAttributed(b: Topics, frames: seq<Frame>, success: bool, reqId: string)
    requires Increasing(frames, b.reqIdCounter) && Accounted(b, frames) && Attributed(b, Ops(frames))
    requires |b.replies| < |Ops(frames)|
    requires reqId == "" || reqId == Decimal.Print(Ops(frames)[|b.replies|].id)
    ensures Attributed(OnSubscribeReply(b, success, reqId), Ops(frames))
  {
    NextReplyTarget(b, frames, reqId);
    OpsIncreasing(frames, b.reqIdCounter);
  }

  /** The heart of the claim, for one delivery: with or without a req_id, success or failure, the reply is credited to
      the op it answers and to no other. */
  lemma DeliveryIsExact(s: State, e: Event)
    requires Sound(s) && Orderly(s) && s.link.connected && DeliversReply(s, e) && InRequestOrder(s, e)
    ensures AckTarget(s.topics.inflight, e.outcome.message.reqId) == Some(Ops(s.out.wire.sent)[|s.topics.replies|].id)
  {
    OpsPrefix(s.out.wire.sent, s.out.wire.enqueued);
    NextReplyTarget(s.topics, s.out.wire.enqueued, e.outcome.message.reqId);
  }

  /** In whatever order replies come: one that carries the id of an op in flight answers that op and touches no other. */
  lemma NamedReply(b: Topics, success: bool, n: nat)
    requires n in b.inflight
    ensures var b' := OnSubscribeReply(b, success, Decimal.Print(n));
      && b'.inflight == b.inflight - {n} && b'.credited == b.credited[n := success] && b'.pending == b.pending
      && b'.subscriptions == if success then b.subscriptions else EraseEach(b.subscriptions, b.inflight[n])
  {
    hide Decimal.Print;
    forall k | k in b.inflight && Decimal.Print(k) == Decimal.Print(n) ensures k == n {
      Decimal.PrintInjective(k, n);
    }
  }

  /** One that carries any other id, late or foreign, answers nothing. */
  lemma StrayReply(b: Topics, success: bool, reqId: string)
    requires reqId != "" && forall k :: k in b.inflight ==> Decimal.Print(k) != reqId
    ensures OnSubscribeReply(b, success, reqId) == b.(replies := b.replies + [success])
  {
    hide Decimal.Print;
  }

  lemma AppendAttributed(b: Topics, frames: seq<Frame>, f: Frame)
    requires Attributed(b, Ops(frames)) && (f.Subscribe? ==> f.id in b.inflight)
    ensures Attributed(b, Ops(frames + [f]))
  {
    OpsConcat(frames, [f]);
    OpsOfOne(f);
  }

  /** Sending puts one frame behind the others; what was sent stays sent. */
  lemma SendGrows(s: State, f: Frame)
    ensures Send(s, f).out.wire.enqueued == s.out.wire.enqueued + [f]
    ensures s.out.wire.sent <= Send(s, f).out.wire.sent
  {
  }

  lemma SendOrderly(s: State, f: Frame)
    requires Orderly(s) && (f.Subscribe? ==> f.id in s.topics.inflight)
    ensures Orderly(Send(s, f))
  {
    hide Send, Attributed;
    SendFrame(s, f);
    SendGrows(s, f);
    if s.link.connected {
      AppendAttributed(s.topics, s.out.wire.enqueued, f);
      OpsPrefix(s.out.wire.sent, Send(s, f).out.wire.sent);
    }
  }

  lemma FlushOrderly(s: State)
    requires Orderly(s)
    ensures Orderly(FlushTopics(s))
  {
    hide Send;
    if FlushTopics(s) != s {
      SendOrderly(s.(topics := Flushed(s.topics)), Subscribe(s.topics.reqIdCounter + 1, s.topics.pending));
    }
  }

  lemma PumpOrderly(s: State)
    requires Orderly(s)
    ensures Orderly(Pump(s))
  {
    hide Attributed;
    OpsPrefix(s.out.wire.sent, Pump(s).out.wire.sent);
  }

  lemma ConnectedOrderly(s: State, o: Outcome)
    requires s.out.wire == FRESH && s.topics.replies == []
    ensures Orderly(Connected(s, o))
  {
    hide FlushTopics, Send;
    var up := s.(link := s.link.(connected := true, streamOpen := o.streamOpen),
                 timers := s.timers.(lastPongMs := o.nowMs),
                 tasks := s.tasks + multiset{PingWait(s.link.generation)});
    assert Orderly(up);
    FlushOrderly(up);
    SendOrderly(up.(timers := up.timers.(authDeadlineMs := Some(o.nowMs + AUTH_ACK_TIMEOUT_MS))), Auth);
  }

  lemma ReadOrderly(s: State, gen: nat, o: Outcome)
    requires Sound(s) && Orderly(s) && Read(gen) in s.tasks && InRequestOrder(s, Complete(Read(gen), o))
    ensures Orderly(OnRead(Popped(s, Read(gen)), gen, o))
  {
    var popped := Popped(s, Read(gen));
    assert Orderly(popped);
    if gen == s.link.generation && o.ok && o.message.Control? {
      if DeliversReply(s, Complete(Read(gen), o)) {
        ReplyOrderly(s, gen, o);
      } else {
        hide Sound, InRequestOrder, Attributed;
        AuthOrderly(popped, gen, o.message, o.nowMs);
      }
      hide HandleApiControlMsg, Attributed, Sound, InRequestOrder;
    }
  }

  lemma AuthOrderly(s: State, gen: nat, m: Inbound, nowMs: int)
    requires Orderly(s) && m.Control? && !(m.op == OpSubscribe && !m.saysPong)
    ensures Orderly(HandleApiControlMsg(s, gen, m, nowMs))
  {
    hide FlushTopics, Attributed;
    assert Orderly(Authenticated(s));
    if s.link.connected {
      FlushOrderly(Authenticated(s));
    } else {
      FlushFrame(Authenticated(s));
    }
  }

  lemma ReplyOrderly(s: State, gen: nat, o: Outcome)
    requires Sound(s) && Orderly(s) && InRequestOrder(s, Complete(Read(gen), o))
    requires gen == s.link.generation && DeliversReply(s, Complete(Read(gen), o))
    ensures Orderly(HandleApiControlMsg(Popped(s, Read(gen)), gen, o.message, o.nowMs))
  {
    hide OnSubscribeReply, Attributed, Live, Booked, AllBacked;
    if s.link.connected {
      OpsPrefix(s.out.wire.sent, s.out.wire.enqueued);
      ReplyAttributed(s.topics, s.out.wire.enqueued, o.message.success, o.message.reqId);
      ReplyCounts(s.topics, o.message.success, o.message.reqId);
    }
  }

  lemma ReplyCounts(b: Topics, success: bool, reqId: string)
    ensures OnSubscribeReply(b, success, reqId).replies == b.replies + [success]
  {
  }

  lemma WriteOrderly(s: State, gen: nat, ok: bool)
    requires Orderly(s)
    ensures Orderly(OnWrite(Popped(s, Write(gen)), gen, ok))
  {
    hide Pump, Attributed;
    PumpOrderly(Popped(s, Write(gen)).(out := s.out.(writeInFlight := false)));
  }

  lemma PingOrderly(s: State, gen: nat, ok: bool, nowMs: int)
    requires Orderly(s)
    ensures Orderly(OnPingTimer(Popped(s, PingWait(gen)), gen, ok, nowMs))
  {
    hide Send, Attributed, PongTimedOut, AuthTimedOut;
    SendOrderly(Popped(s, PingWait(gen)), Ping);
  }

  lemma HandshakeOrderly(s: State, gen: nat, o: Outcome)
    requires Sound(s) && Orderly(s) && WsHandshake(gen) in s.tasks
    ensures Orderly(OnHandshake(Popped(s, WsHandshake(gen)), gen, o))
  {
    hide Connected, Attributed, WellTagged, Booked, OneWriteEach, Disciplined, AllBacked, Accounted, Increasing;
    if gen == s.link.generation && o.ok && !s.link.userClosed {
      ConnectedOrderly(Popped(s, WsHandshake(gen)), o);
    }
  }

  lemma CompleteOrderly(s: State, t: Task, o: Outcome)
    requires Sound(s) && Orderly(s) && Enabled(s, Complete(t, o)) && InRequestOrder(s, Complete(t, o))
    ensures Orderly(Handle(Popped(s, t), t, o))
  {
    hide OnRead, OnHandshake, OnWrite, OnPingTimer, FlushTopics, Send, Attributed, Sound, Ops;
    match t
    case Read(gen) => ReadOrderly(s, gen, o);
    case WsHandshake(gen) => HandshakeOrderly(s, gen, o);
    case Write(gen) => WriteOrderly(s, gen, o.ok);
    case PingWait(gen) => PingOrderly(s, gen, o.ok, o.nowMs);
    case PostedFlush => FlushOrderly(Popped(s, t));
    case PostedUnsubscribe(topic) => SendOrderly(Popped(s, t), Unsubscribe(topic));
    case _ =>
  }

  lemma SentPrefix(s: State)
    requires Sound(s)
    ensures s.out.wire.sent <= s.out.wire.enqueued
  {
  }

  lemma StepOrderly(s: State, e: Event)
    requires Sound(s) && Orderly(s) && Enabled(s, e) && InRequestOrder(s, e)
    ensures Orderly(Step(s, e))
  {
    hide Handle, Sound, Ops, EraseFirst, Minus;
    if e.Complete? {
      hide Attributed;
      CompleteOrderly(s, e.task, e.outcome);
    }
  }

  /** In every run with such a venue, on every connection, for any mix of replies: exact attribution throughout. */
  lemma {:induction false} AttributionIsExact(authRequired: bool, first: Topic, es: seq<Event>)
    requires Legal(Init(authRequired, first), es) && OrderlyRun(Init(authRequired, first), es)
    ensures Orderly(After(Init(authRequired, first), es))
  {
    hide Sound, Step, Attributed;
    if es != [] {
      AttributionIsExact(authRequired, first, es[..|es| - 1]);
      AlwaysSound(authRequired, first, es[..|es| - 1]);
      StepOrderly(After(Init(authRequired, first), es[..|es| - 1]), es[|es| - 1]);
    }
  }
}
