/**
 Subscribe replies: what a confirmed topic means, and to which op each reply is credited.
 */
module SessionAcks {
  import opened Wrappers
  import opened SessionModel
  import opened SessionDriver
  import opened SessionTopics
  import opened SessionPump

  predicate Names(f: Frame, t: Topic) {
    f.Subscribe? && t in f.args
  }

  /** Frame `i` is the last subscribe op naming `t`. */
  ghost predicate LatestOp(frames: seq<Frame>, t: Topic, i: int) {
    0 <= i < |frames| && Names(frames[i], t) && forall j :: i < j < |frames| ==> !Names(frames[j], t)
  }

  predicate Credited(b: Topics, id: nat) {
    id in b.credited && b.credited[id]
  }

  /** Ids grow along the wire and stay behind the counter, which no reconnect resets. */
  ghost predicate Increasing(frames: seq<Frame>, counter: nat) {
    && (forall i :: 0 <= i < |frames| && frames[i].Subscribe? ==> frames[i].id <= counter)
    && (forall i, j :: 0 <= i < j < |frames| && frames[i].Subscribe? && frames[j].Subscribe? ==> frames[i].id < frames[j].id)
  }

  ghost predicate IsOp(frames: seq<Frame>, n: nat) {
    exists i :: 0 <= i < |frames| && frames[i].Subscribe? && frames[i].id == n
  }

  /** Every op of this connection is in flight or credited, never both, and nothing else is either. */
  ghost predicate Accounted(b: Topics, frames: seq<Frame>) {
    && (forall i :: 0 <= i < |frames| && frames[i].Subscribe? ==>
          && (frames[i].id in b.inflight <==> frames[i].id !in b.credited)
          && (frames[i].id in b.inflight ==> b.inflight[frames[i].id] == frames[i].args))
    && (forall n :: n in b.inflight ==> IsOp(frames, n))
    && (forall n :: n in b.credited ==> IsOp(frames, n))
  }

  /** The last op naming a sent topic is still in flight or was credited as a success. */
  ghost predicate Backed(b: Topics, frames: seq<Frame>, t: Topic) {
    exists i :: LatestOp(frames, t, i) && (frames[i].id in b.inflight || Credited(b, frames[i].id))
  }

  ghost predicate AllBacked(b: Topics, frames: seq<Frame>) {
    forall t :: t in b.subscriptions ==> Backed(b, frames, t)
  }

  ghost predicate Acknowledged(s: State) {
    && Increasing(s.out.wire.enqueued, s.topics.reqIdCounter)
    && (s.link.connected ==> Accounted(s.topics, s.out.wire.enqueued) && AllBacked(s.topics, s.out.wire.enqueued))
    && (!s.link.connected ==> s.topics.inflight == map[])
    && (!s.link.connected && !s.link.reconnectScheduled && !s.link.userClosed ==>
          s.topics.credited == map[] && s.topics.replies == [])
  }

  // ---------------------------------------------------------------- the parts of a handler

  lemma OtherFrame(b: Topics, frames: seq<Frame>, f: Frame)
    requires !f.Subscribe?
    requires Increasing(frames, b.reqIdCounter) && Accounted(b, frames) && AllBacked(b, frames)
    ensures Increasing(frames + [f], b.reqIdCounter) && Accounted(b, frames + [f]) && AllBacked(b, frames + [f])
  {
    forall n | IsOp(frames, n) ensures IsOp(frames + [f], n) {
      var i :| 0 <= i < |frames| && frames[i].Subscribe? && frames[i].id == n;
      assert (frames + [f])[i] == frames[i];
    }
    forall t | t in b.subscriptions ensures Backed(b, frames + [f], t) {
      var i :| LatestOp(frames, t, i) && (frames[i].id in b.inflight || Credited(b, frames[i].id));
      assert LatestOp(frames + [f], t, i);
    }
  }

  lemma FlushedFrame(b: Topics, frames: seq<Frame>)
    requires NoDuplicates(b.Book())
    requires Increasing(frames, b.reqIdCounter) && Accounted(b, frames) && AllBacked(b, frames)
    ensures var b' := Flushed(b);
      var frames' := frames + [Subscribe(b.reqIdCounter + 1, b.pending)];
      Increasing(frames', b'.reqIdCounter) && Accounted(b', frames') && AllBacked(b', frames')
  {
    var b' := Flushed(b);
    var f := Subscribe(b.reqIdCounter + 1, b.pending);
    var frames' := frames + [f];
    assert f.id !in b.credited && f.id !in b.inflight by {
      if IsOp(frames, f.id) {
        assert false;
      }
    }
    forall n | IsOp(frames, n) ensures IsOp(frames', n) {
      var i :| 0 <= i < |frames| && frames[i].Subscribe? && frames[i].id == n;
      assert frames'[i] == frames[i];
    }
    assert frames'[|frames|] == f && IsOp(frames', f.id);
    PrefixNoDuplicates(b.subscriptions, b.pending);
    forall t | t in b'.subscriptions ensures Backed(b', frames', t) {
      if t in b.pending {
        assert LatestOp(frames', t, |frames|);
      } else {
        var i :| LatestOp(frames, t, i) && (frames[i].id in b.inflight || Credited(b, frames[i].id));
        assert LatestOp(frames', t, i);
      }
    }
  }

  lemma ReplyAccounted(b: Topics, frames: seq<Frame>, success: bool, reqId: string)
    requires NoDuplicates(b.Book())
    requires Increasing(frames, b.reqIdCounter) && Accounted(b, frames) && AllBacked(b, frames)
    ensures var b' := OnSubscribeReply(b, success, reqId);
      Accounted(b', frames) && AllBacked(b', frames)
  {
    var target := AckTarget(b.inflight, reqId);
    if target.Some? {
      var n := target.value;
      var b' := OnSubscribeReply(b, success, reqId);
      PrefixNoDuplicates(b.subscriptions, b.pending);
      EraseEachIsMinus(b.subscriptions, b.inflight[n]);
      MinusMembers(b.subscriptions, Elements(b.inflight[n]));
      forall t | t in b'.subscriptions ensures Backed(b', frames, t) {
        var i :| LatestOp(frames, t, i) && (frames[i].id in b.inflight || Credited(b, frames[i].id));
        assert frames[i].id == n ==> success;
      }
    } else {
      forall t | t in b.subscriptions
        ensures Backed(OnSubscribeReply(b, success, reqId), frames, t)
      {
        var i :| LatestOp(frames, t, i) && (frames[i].id in b.inflight || Credited(b, frames[i].id));
        assert LatestOp(frames, t, i);
      }
    }
  }

  lemma FewerTopics(b: Topics, b': Topics, frames: seq<Frame>)
    requires Accounted(b, frames) && AllBacked(b, frames)
    requires b'.inflight == b.inflight && b'.credited == b.credited
    requires forall t :: t in b'.subscriptions ==> t in b.subscriptions
    ensures Accounted(b', frames) && AllBacked(b', frames)
  {
    forall t | t in b'.subscriptions ensures Backed(b', frames, t) {
      var i :| LatestOp(frames, t, i) && (frames[i].id in b.inflight || Credited(b, frames[i].id));
      assert LatestOp(frames, t, i);
    }
  }

  /** What the pump leaves alone. */
  lemma SendWire(s: State, f: Frame)
    ensures Send(s, f).out.wire.enqueued == s.out.wire.enqueued + [f]
    ensures Pump(s).out.wire.enqueued == s.out.wire.enqueued
  {
  }

  lemma SendAcknowledged(s: State, f: Frame)
    requires Acknowledged(s) && s.link.connected && !f.Subscribe?
    ensures Acknowledged(Send(s, f))
  {
    hide Send, Increasing, Accounted, AllBacked;
    SendFrame(s, f);
    SendWire(s, f);
    OtherFrame(s.topics, s.out.wire.enqueued, f);
  }

  lemma FlushAcknowledged(s: State)
    requires Acknowledged(s) && NoDuplicates(s.topics.Book())
    ensures Acknowledged(FlushTopics(s))
  {
    hide Send, Increasing, Accounted, AllBacked, NoDuplicates;
    if FlushTopics(s) != s {
      var flushed := s.(topics := Flushed(s.topics));
      var f := Subscribe(s.topics.reqIdCounter + 1, s.topics.pending);
      SendFrame(flushed, f);
      SendWire(flushed, f);
      FlushedFrame(s.topics, s.out.wire.enqueued);
    }
  }

  lemma ErrorAcknowledged(s: State, gen: nat)
    requires Acknowledged(s)
    ensures Acknowledged(HandleError(s, gen))
  {
    hide Increasing, Accounted, AllBacked;
  }

  lemma PopAcknowledged(s: State, s': State)
    requires Acknowledged(s) && s'.topics == s.topics && s'.link == s.link && s'.out.wire.enqueued == s.out.wire.enqueued
    ensures Acknowledged(s')
  {
    hide Increasing, Accounted, AllBacked;
  }

  lemma StartAcknowledged(s: State)
    requires Increasing(s.out.wire.enqueued, s.topics.reqIdCounter) && !s.link.connected && !s.link.userClosed
    requires s.topics.inflight == map[]
    ensures Acknowledged(StartConnect(s))
  {
  }

  // ---------------------------------------------------------------- the handlers

  lemma ConnectedAcknowledged(s: State, o: Outcome)
    requires s.out.wire == FRESH && s.topics.inflight == map[] && s.topics.credited == map[]
    requires s.topics.subscriptions == [] && NoDuplicates(s.topics.Book())
    ensures Acknowledged(Connected(s, o))
  {
    hide FlushTopics, Send, NoDuplicates;
    var up := s.(link := s.link.(connected := true, streamOpen := o.streamOpen),
                 timers := s.timers.(lastPongMs := o.nowMs),
                 tasks := s.tasks + multiset{PingWait(s.link.generation)});
    assert Acknowledged(up);
    FlushAcknowledged(up);
    SendAcknowledged(up.(timers := up.timers.(authDeadlineMs := Some(o.nowMs + AUTH_ACK_TIMEOUT_MS))), Auth);
  }

  lemma HandshakeAcknowledged(s: State, gen: nat, o: Outcome)
    requires Live(s) && Booked(s) && Pumping(s) && Acknowledged(s) && WsHandshake(gen) in s.tasks
    ensures Acknowledged(OnHandshake(Popped(s, WsHandshake(gen)), gen, o))
  {
    hide HandleError, Connected, NoDuplicates, WellTagged, Increasing, Accounted, AllBacked, OneWriteEach, Disciplined;
    var popped := Popped(s, WsHandshake(gen));
    PopAcknowledged(s, popped);
    if gen == s.link.generation {
      ErrorAcknowledged(popped, gen);
      if o.ok && !s.link.userClosed {
        ConnectedAcknowledged(popped, o);
        PopAcknowledged(Connected(popped, o), WithTask(Connected(popped, o), Read(gen)));
      }
    }
  }

  lemma ControlAcknowledged(s: State, m: Inbound, nowMs: int)
    requires m.Control? && Acknowledged(s) && NoDuplicates(s.topics.Book())
    requires s.link.connected || s.link.reconnectScheduled || s.link.userClosed
    ensures Acknowledged(HandleApiControlMsg(s, s.link.generation, m, nowMs))
  {
    hide HandleError, FlushTopics, NoDuplicates, Increasing, Accounted, AllBacked;
    assert Acknowledged(Authenticated(s));
    FlushAcknowledged(Authenticated(s));
    ErrorAcknowledged(s, s.link.generation);
    if s.link.connected {
      ReplyAccounted(s.topics, s.out.wire.enqueued, m.success, m.reqId);
    }
  }

  lemma ReadAcknowledged(s: State, gen: nat, o: Outcome)
    requires Live(s) && Booked(s) && Acknowledged(s) && Read(gen) in s.tasks
    ensures Acknowledged(OnRead(Popped(s, Read(gen)), gen, o))
  {
    hide HandleError, HandleApiControlMsg, NoDuplicates, WellTagged, Increasing, Accounted, AllBacked;
    var popped := Popped(s, Read(gen));
    PopAcknowledged(s, popped);
    if gen == s.link.generation {
      ErrorAcknowledged(popped, gen);
      if o.ok && o.message.Control? {
        ControlAcknowledged(popped, o.message, o.nowMs);
        var handled := HandleApiControlMsg(popped, gen, o.message, o.nowMs);
        PopAcknowledged(handled, RearmRead(handled, gen));
      } else {
        PopAcknowledged(popped, RearmRead(popped, gen));
      }
    }
  }

  lemma WriteAcknowledged(s: State, gen: nat, ok: bool)
    requires Acknowledged(s) && Write(gen) in s.tasks
    ensures Acknowledged(OnWrite(Popped(s, Write(gen)), gen, ok))
  {
    hide HandleError, Pump, Acknowledged;
    var idle := Popped(s, Write(gen)).(out := s.out.(writeInFlight := false));
    PopAcknowledged(s, Popped(s, Write(gen)));
    PopAcknowledged(s, idle);
    PumpFrame(idle);
    SendWire(idle, Ping);
    PopAcknowledged(idle, Pump(idle));
    ErrorAcknowledged(idle, gen);
  }

  lemma PingAcknowledged(s: State, gen: nat, ok: bool, nowMs: int)
    requires Acknowledged(s) && PingWait(gen) in s.tasks
    ensures Acknowledged(OnPingTimer(Popped(s, PingWait(gen)), gen, ok, nowMs))
  {
    hide HandleError, Send, Acknowledged, PongTimedOut, AuthTimedOut;
    var popped := Popped(s, PingWait(gen));
    PopAcknowledged(s, popped);
    PopAcknowledged(s, WithTask(popped, PingWait(gen)));
    ErrorAcknowledged(popped, gen);
    if s.link.connected {
      SendAcknowledged(popped, Ping);
      PopAcknowledged(Send(popped, Ping), WithTask(Send(popped, Ping), PingWait(gen)));
    }
  }

  lemma WaitAcknowledged(s: State, gen: nat, ok: bool)
    requires Live(s) && Acknowledged(s) && ReconnectWait(gen) in s.tasks && (!ok ==> s.link.userClosed)
    ensures Acknowledged(OnReconnectWait(Popped(s, ReconnectWait(gen)), gen, ok))
  {
    hide WellTagged, Increasing, Accounted, AllBacked, StartConnect;
    var popped := Popped(s, ReconnectWait(gen));
    PopAcknowledged(s, popped);
    var over := popped.(link := popped.link.(reconnectScheduled := false));
    if s.link.userClosed {
      ClosedStart(over);
    } else if gen == s.link.generation {
      StartAcknowledged(over);
    }
  }

  lemma PostedAcknowledged(s: State, t: Task)
    requires Live(s) && Booked(s) && Acknowledged(s) && t in s.tasks
    ensures t.PostedStart? ==> Acknowledged(StartConnect(Popped(s, t)))
    ensures t.PostedFlush? ==> Acknowledged(FlushTopics(Popped(s, t)))
    ensures t.PostedUnsubscribe? ==> Acknowledged(SendUnsubscribe(Popped(s, t), t.topic))
  {
    hide WellTagged, Increasing, Accounted, AllBacked, NoDuplicates, StartConnect, FlushTopics, Send;
    PopAcknowledged(s, Popped(s, t));
    if t.PostedStart? {
      if s.link.userClosed {
        ClosedStart(Popped(s, t));
      } else {
        StartAcknowledged(Popped(s, t));
      }
    }
    FlushAcknowledged(Popped(s, t));
    if t.PostedUnsubscribe? && s.link.connected {
      SendAcknowledged(Popped(s, t), Unsubscribe(t.topic));
    }
  }

  lemma StageAcknowledged(s: State, t: Task, next: Task, ok: bool)
    requires t.Resolve? || t.Connect? || t.TlsHandshake?
    requires Acknowledged(s)
    ensures Acknowledged(OnStage(Popped(s, t), t.gen, ok, next))
  {
    hide HandleError, Acknowledged;
    PopAcknowledged(s, Popped(s, t));
    PopAcknowledged(s, WithTask(Popped(s, t), next));
    ErrorAcknowledged(Popped(s, t), t.gen);
  }

  lemma CloseAcknowledged(s: State)
    requires Acknowledged(s)
    ensures Acknowledged(Popped(s, PostedClose).(link := s.link.(userClosed := true)))
  {
    hide Increasing, Accounted, AllBacked;
  }

  lemma CompleteAcknowledged(s: State, t: Task, o: Outcome)
    requires Live(s) && Booked(s) && Pumping(s) && Acknowledged(s) && Enabled(s, Complete(t, o))
    ensures Acknowledged(Handle(Popped(s, t), t, o))
  {
    hide OnRead, OnHandshake, OnWrite, OnPingTimer, OnStage, OnReconnectWait, StartConnect, FlushTopics, SendUnsubscribe;
    hide Live, Booked, Pumping, Acknowledged;
    match t
    case Read(gen) => ReadAcknowledged(s, gen, o);
    case WsHandshake(gen) => HandshakeAcknowledged(s, gen, o);
    case Write(gen) => WriteAcknowledged(s, gen, o.ok);
    case PingWait(gen) => PingAcknowledged(s, gen, o.ok, o.nowMs);
    case Resolve(gen) => StageAcknowledged(s, t, Connect(gen), o.ok);
    case Connect(gen) => StageAcknowledged(s, t, TlsHandshake(gen), o.ok);
    case TlsHandshake(gen) => StageAcknowledged(s, t, WsHandshake(gen), o.ok);
    case ReconnectWait(gen) => WaitAcknowledged(s, gen, o.ok);
    case PostedStart => PostedAcknowledged(s, t);
    case PostedFlush => PostedAcknowledged(s, t);
    case PostedUnsubscribe(topic) => PostedAcknowledged(s, t);
    case PostedClose => CloseAcknowledged(s);
  }

  lemma UserAcknowledged(s: State, e: Event)
    requires Booked(s) && Acknowledged(s) && (e.UserSubscribe? || e.UserUnsubscribe?)
    ensures Acknowledged(Step(s, e))
  {
    hide Handle, Increasing, Accounted, AllBacked, EraseFirst, Minus;
    PrefixNoDuplicates(s.topics.subscriptions, s.topics.pending);
    if e.UserUnsubscribe? {
      EraseFirstIsMinus(s.topics.subscriptions, e.topic);
      MinusMembers(s.topics.subscriptions, {e.topic});
    }
    if s.link.connected {
      FewerTopics(s.topics, Step(s, e).topics, s.out.wire.enqueued);
    }
  }

  lemma StepAcknowledged(s: State, e: Event)
    requires Live(s) && Booked(s) && Pumping(s) && Acknowledged(s) && Enabled(s, e)
    ensures Acknowledged(Step(s, e))
  {
    hide Handle, OnUserSubscribe, OnUserUnsubscribe, Live, Booked, Pumping, Increasing, Accounted, AllBacked;
    match e
    case Complete(t, o) => CompleteAcknowledged(s, t, o);
    case UserSubscribe(t) => UserAcknowledged(s, e);
    case UserUnsubscribe(t) => UserAcknowledged(s, e);
    case _ =>
  }

  /** All that is known of a session between two steps. */
  ghost predicate Sound(s: State) {
    Live(s) && Booked(s) && Pumping(s) && Acknowledged(s)
  }

  lemma StepSound(s: State, e: Event)
    requires Sound(s) && Enabled(s, e)
    ensures Sound(Step(s, e))
  {
    hide Step, Live, Booked, Pumping, Acknowledged;
    StepKeepsLive(s, e);
    StepBooked(s, e);
    StepPumping(s, e);
    StepAcknowledged(s, e);
  }

  lemma InitSound(authRequired: bool, first: Topic)
    ensures Sound(Init(authRequired, first))
  {
  }

  lemma {:induction false} AlwaysSound(authRequired: bool, first: Topic, es: seq<Event>)
    requires Legal(Init(authRequired, first), es)
    ensures Sound(After(Init(authRequired, first), es))
  {
    hide Sound, Step, Init;
    InitSound(authRequired, first);
    if es != [] {
      AlwaysSound(authRequired, first, es[..|es| - 1]);
      StepSound(After(Init(authRequired, first), es[..|es| - 1]), es[|es| - 1]);
    }
  }

  /** Confirmed means acknowledged on this connection: whatever replies the venue sent, the session is connected and
      authenticated if it must be, every op naming the topic has been answered, and the last of them succeeded. */
  lemma ConfirmedMeansAcknowledged(authRequired: bool, first: Topic, es: seq<Event>, t: Topic)
    requires Legal(Init(authRequired, first), es)
    requires IsSubscriptionConfirmed(After(Init(authRequired, first), es).topics, t)
    ensures var s := After(Init(authRequired, first), es);
      && s.Operational()
      && (forall i :: 0 <= i < |s.out.wire.enqueued| && Names(s.out.wire.enqueued[i], t) ==>
            s.out.wire.enqueued[i].id in s.topics.credited)
      && exists i :: LatestOp(s.out.wire.enqueued, t, i) && Credited(s.topics, s.out.wire.enqueued[i].id)
  {
    AlwaysSound(authRequired, first, es);
    ConfirmedInSoundState(After(Init(authRequired, first), es), t);
  }

  lemma ConfirmedInSoundState(s: State, t: Topic)
    requires Sound(s) && IsSubscriptionConfirmed(s.topics, t)
    ensures s.Operational()
    ensures forall i :: 0 <= i < |s.out.wire.enqueued| && Names(s.out.wire.enqueued[i], t) ==>
      s.out.wire.enqueued[i].id in s.topics.credited
    ensures exists i :: LatestOp(s.out.wire.enqueued, t, i) && Credited(s.topics, s.out.wire.enqueued[i].id)
  {
    assert Backed(s.topics, s.out.wire.enqueued, t);
  }
}
