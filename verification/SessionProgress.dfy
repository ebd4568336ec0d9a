/**
 The session heals itself once the network stops failing: while every operation succeeds and every reply is positive, the
 completions that drive the session count down exactly to the state in which every booked topic is confirmed, nothing that
 happens in between sets it back, and until then something that brings it closer can always happen next.
 */
module SessionProgress {
  import opened Wrappers
  import opened SessionModel
  import opened SessionDriver
  import opened SessionTopics
  import opened SessionAcks
  import opened SessionVenue

  // ---------------------------------------------------------------- a network that does not fail

  predicate Positive(o: Outcome) {
    && o.ok && !o.message.Malformed?
    && (o.message.Control? && (o.message.op == OpAuth || o.message.op == OpSubscribe) ==> o.message.success)
  }

  /** The operations of the current connection succeed, apart from the read of a transport that had dropped before; pongs and
      auth replies come in time. Operations of earlier connections, and those of a connection already given up, may end
      either way. */
  predicate Succeeds(s: State, t: Task, o: Outcome) {
    var g := s.link.generation;
    match t
    case PostedStart => true
    case PostedFlush => true
    case PostedUnsubscribe(_) => true
    case PostedClose => false
    case Resolve(gen) => gen == g ==> o.ok
    case Connect(gen) => gen == g ==> o.ok
    case TlsHandshake(gen) => gen == g ==> o.ok
    case WsHandshake(gen) => gen == g ==> o.ok && o.streamOpen
    case Read(gen) => gen == g && s.link.connected ==> if s.link.streamOpen then Positive(o) else !o.ok
    case Write(gen) => gen == g && s.link.connected && s.link.streamOpen ==> o.ok
    case PingWait(gen) => gen == g && s.link.connected ==> !PongTimedOut(s, o.nowMs) && !AuthTimedOut(s, o.nowMs)
    case ReconnectWait(_) => true
  }

  /** Users start nothing new, though a post they owe may be made. */
  predicate Benign(s: State, e: Event) {
    e.UserPost? || (e.Complete? && Succeeds(s, e.task, e.outcome) && InRequestOrder(s, e))
  }

  ghost predicate BenignRun(s: State, es: seq<Event>) {
    es == [] || (BenignRun(s, es[..|es| - 1]) && Benign(After(s, es[..|es| - 1]), es[|es| - 1]))
  }

  // ---------------------------------------------------------------- the rank

  /** What the session still waits for on an operational connection: replies, and a flush with its reply. */
  function Owed(s: State): int {
    |Ops(s.out.wire.enqueued)| - |s.topics.replies| + if s.topics.pending == [] then 0 else 2
  }

  /** What is still to come once a handshake has succeeded: the auth reply, if credentials are set, and the reply to the op
      for the whole book, unless that is empty. */
  function Tail(s: State): nat {
    (if s.authRequired then 1 else 0) + (if s.topics.Book() == [] then 0 else 1)
  }

  /** How many driving completions are missing, where `tail` of them follow the handshake. */
  function Missing(s: State, tail: nat): int {
    var g := s.link.generation;
    if s.link.connected then
      if !s.link.streamOpen then 6 + tail else if !s.Operational() then tail else Owed(s)
    else if s.link.reconnectScheduled || PostedStart in s.tasks then 5 + tail
    else if Resolve(g) in s.tasks then 4 + tail
    else if Connect(g) in s.tasks then 3 + tail
    else if TlsHandshake(g) in s.tasks then 2 + tail
    else 1 + tail
  }

  function Rank(s: State): int {
    Missing(s, Tail(s))
  }

  /** The completions that drive the session: the start, a connect stage, the end of a reconnect wait, the read or write that
      reports a dropped transport, an auth reply that is waited for or lets pending topics go out, a subscribe reply, and the
      flush of pending topics. */
  predicate Drives(s: State, e: Event) {
    var g := s.link.generation;
    && e.Complete?
    && (|| e.task in {PostedStart, Resolve(g), Connect(g), TlsHandshake(g), WsHandshake(g), ReconnectWait(g)}
        || (s.link.connected && !s.link.streamOpen && !e.outcome.ok && (e.task == Read(g) || e.task == Write(g)))
        || (s.link.connected && s.link.streamOpen && e.task == Read(g) && IsReply(e.outcome, OpAuth)
            && (!s.Operational() || s.topics.pending != []))
        || (s.link.connected && s.link.streamOpen && DeliversReply(s, e))
        || (s.Operational() && s.link.streamOpen && e.task == PostedFlush && s.topics.pending != []))
  }

  predicate IsReply(o: Outcome, op: OpName) {
    o.ok && o.message.Control? && o.message.op == op && !o.message.saysPong
  }

  /** What holds between steps of such a run. */
  ghost predicate Good(s: State) {
    Sound(s) && Orderly(s) && !s.link.userClosed
  }

  /** Everything the rank of a connected session looks at. */
  predicate SameStanding(s: State, s': State) {
    s'.link == s.link && s'.authRequired == s.authRequired && Owed(s') == Owed(s)
  }

  lemma StandingRank(s: State, s': State, tail: nat)
    requires SameStanding(s, s') && s.link.connected
    ensures Missing(s', tail) == Missing(s, tail)
  {
  }

  // ---------------------------------------------------------------- what is owed

  lemma SendOwed(s: State, f: Frame)
    requires !f.Subscribe?
    ensures SameStanding(s, Send(s, f)) && SameStanding(s, Pump(s))
  {
    hide Send, Pump, Ops;
    SendFrame(s, f);
    PumpFrame(s);
    SendWire(s, f);
    OpsConcat(s.out.wire.enqueued, [f]);
    OpsOfOne(f);
  }

  lemma FlushOwed(s: State)
    ensures var s' := FlushTopics(s);
      && s'.link == s.link && s'.authRequired == s.authRequired
      && Owed(s') == Owed(s) - if s.Operational() && s.topics.pending != [] then 1 else 0
  {
    hide Send, Ops;
    FlushFrame(s);
    if s.Operational() && s.topics.pending != [] {
      var f := Subscribe(s.topics.reqIdCounter + 1, s.topics.pending);
      var flushed := s.(topics := Flushed(s.topics));
      SendWire(flushed, f);
      SendFrame(flushed, f);
      OpsConcat(s.out.wire.enqueued, [f]);
      OpsOfOne(f);
    }
  }

  lemma ReplyOwed(b: Topics, success: bool, reqId: string)
    ensures var b' := OnSubscribeReply(b, success, reqId);
      b'.pending == b.pending && |b'.replies| == |b.replies| + 1
  {
  }

  lemma {:induction false} NoOps(frames: seq<Frame>)
    requires forall i :: 0 <= i < |frames| ==> !frames[i].Subscribe?
    ensures Ops(frames) == []
  {
    if frames != [] {
      NoOps(frames[..|frames| - 1]);
    }
  }

  /** Before the auth reply nothing has been subscribed. */
  lemma NoOpsBeforeAuth(s: State)
    requires Sound(s) && Orderly(s) && s.link.connected && !s.Operational()
    ensures Ops(s.out.wire.enqueued) == [] && s.topics.replies == []
  {
    NoOps(s.out.wire.enqueued);
    SentPrefix(s);
    OpsPrefix(s.out.wire.sent, s.out.wire.enqueued);
  }

  lemma RankNotNegative(s: State)
    requires Good(s)
    ensures Rank(s) >= 0
    ensures Rank(s) > 8 ==> s.Operational() && s.link.streamOpen
  {
  }

  /** Until the session is operational every booked topic is pending. */
  lemma AllPending(s: State)
    requires Sound(s) && !s.Operational()
    ensures s.topics.subscriptions == [] && s.topics.Book() == s.topics.pending
  {
  }

  // ---------------------------------------------------------------- one step, connected

  lemma ControlOwed(s: State, gen: nat, m: Inbound, nowMs: int)
    requires m.Control? && ((m.op == OpAuth || m.op == OpSubscribe) ==> m.success) && s.link.connected
    ensures var s' := HandleApiControlMsg(s, gen, m, nowMs);
      && s'.authRequired == s.authRequired
      && s'.link == (if m.op == OpAuth && !m.saysPong then s.link.(authenticated := true) else s.link)
      && Owed(s') == Owed(s) - (if m.op == OpSubscribe && !m.saysPong then 1
                                else if m.op == OpAuth && !m.saysPong && s.topics.pending != [] then 1
                                else 0)
  {
    hide FlushTopics, OnSubscribeReply, Ops, HandleError;
    FlushOwed(Authenticated(s));
    ReplyOwed(s.topics, m.success, m.reqId);
  }

  lemma ReadRank(s: State, o: Outcome)
    requires Good(s) && s.link.connected && s.link.streamOpen && Read(s.link.generation) in s.tasks && Positive(o)
    requires var e := Complete(Read(s.link.generation), o); Enabled(s, e) && InRequestOrder(s, e)
    ensures var e := Complete(Read(s.link.generation), o);
      var s' := OnRead(Popped(s, e.task), s.link.generation, o);
      Missing(s', Tail(s)) == Rank(s) - (if Drives(s, e) then 1 else 0)
  {
    var g := s.link.generation;
    var e := Complete(Read(g), o);
    var popped := Popped(s, Read(g));
    if !s.Operational() {
      AllPending(s);
      NoOpsBeforeAuth(s);
      SentPrefix(s);
      OpsPrefix(s.out.wire.sent, s.out.wire.enqueued);
    }
    ConnectedUnscheduled(s);
    hide Sound, Orderly, Ops;
    if o.message.Control? {
      ControlOwed(popped, g, o.message, o.nowMs);
      hide HandleApiControlMsg;
      RearmRank(HandleApiControlMsg(popped, g, o.message, o.nowMs));
    } else {
      RearmRank(popped);
    }
  }

  lemma ConnectedUnscheduled(s: State)
    requires Sound(s) && !s.link.userClosed && s.link.connected
    ensures !s.link.reconnectScheduled
  {
  }

  lemma RearmRank(s: State)
    requires s.link.connected
    ensures var s' := RearmRead(s, s.link.generation);
      s'.link == s.link && Owed(s') == Owed(s) && s'.authRequired == s.authRequired
  {
  }

  lemma HungUp(s: State, tail: nat)
    requires !s.link.userClosed && !s.link.reconnectScheduled
    ensures Missing(HandleError(s, s.link.generation), tail) == 5 + tail
  {
  }

  lemma WriteRank(s: State, o: Outcome, tail: nat)
    requires Good(s) && s.link.connected && (s.link.streamOpen ==> o.ok)
    ensures Missing(OnWrite(Popped(s, Write(s.link.generation)), s.link.generation, o.ok), tail) ==
            Missing(s, tail) - if o.ok then 0 else 1
  {
    ConnectedUnscheduled(s);
    hide Good, Pump, HandleError, Ops;
    var idle := Popped(s, Write(s.link.generation)).(out := s.out.(writeInFlight := false));
    SendOwed(idle, Ping);
    HungUp(idle, tail);
  }

  lemma PingRank(s: State, o: Outcome, tail: nat)
    requires Good(s) && s.link.connected && !PongTimedOut(s, o.nowMs) && !AuthTimedOut(s, o.nowMs)
    ensures Missing(OnPingTimer(Popped(s, PingWait(s.link.generation)), s.link.generation, o.ok, o.nowMs), tail) ==
            Missing(s, tail)
  {
    hide Good, Send, Ops, HandleError;
    var popped := Popped(s, PingWait(s.link.generation));
    SendOwed(popped, Ping);
    StandingRank(popped, Send(popped, Ping), tail);
  }

  lemma PostRank(s: State, t: Task, tail: nat)
    requires Good(s) && s.link.connected
    ensures t == PostedFlush ==>
      Missing(FlushTopics(Popped(s, t)), tail) ==
      Missing(s, tail) - if Drives(s, Complete(t, Outcome(true, true, Data, 0))) then 1 else 0
    ensures t.PostedUnsubscribe? ==> Missing(SendUnsubscribe(Popped(s, t), t.topic), tail) == Missing(s, tail)
  {
    hide Good, Send, FlushTopics, Ops;
    var popped := Popped(s, t);
    FlushOwed(popped);
    if t.PostedUnsubscribe? {
      SendOwed(popped, Unsubscribe(t.topic));
    }
  }

  lemma DroppedRank(s: State, o: Outcome, tail: nat)
    requires Good(s) && s.link.connected && !s.link.streamOpen && !o.ok && Read(s.link.generation) in s.tasks
    ensures Missing(OnRead(Popped(s, Read(s.link.generation)), s.link.generation, o), tail) == 5 + tail
  {
    ConnectedUnscheduled(s);
    HungUp(Popped(s, Read(s.link.generation)), tail);
  }

  // ---------------------------------------------------------------- one step, not connected

  lemma DialRank(s: State, tail: nat)
    requires !s.link.userClosed && !s.link.reconnectScheduled && PostedStart !in s.tasks
    ensures Missing(StartConnect(s), tail) == 4 + tail
  {
  }

  /** What a good session that is not connected waits for. */
  lemma Unconnected(s: State)
    requires Good(s) && !s.link.connected
    ensures Starting(s) || Connecting(s) || Waiting(s)
    ensures s.link.generation > 0 ==> s.tasks[PostedStart] == 0
  {
  }

  lemma StartRank(s: State, t: Task, o: Outcome, tail: nat)
    requires Good(s) && !s.link.connected && Enabled(s, Complete(t, o))
    requires t == PostedStart || t == ReconnectWait(s.link.generation)
    ensures Missing(s, tail) == 5 + tail && Missing(Handle(Popped(s, t), t, o), tail) == 4 + tail
  {
    Unconnected(s);
    hide Good, StartConnect;
    var popped := Popped(s, t);
    DialRank(popped.(link := popped.link.(reconnectScheduled := false)), tail);
    assert Starting(s) ==> popped.(link := popped.link.(reconnectScheduled := false)) == popped;
  }

  lemma StageRank(s: State, t: Task, next: Task, tail: nat)
    requires Good(s) && !s.link.connected && t in s.tasks
    requires var g := s.link.generation;
      (t == Resolve(g) && next == Connect(g)) || (t == Connect(g) && next == TlsHandshake(g))
      || (t == TlsHandshake(g) && next == WsHandshake(g))
    ensures Missing(OnStage(Popped(s, t), s.link.generation, true, next), tail) == Missing(s, tail) - 1
  {
    Unconnected(s);
    hide Good;
  }

  lemma UpRank(s: State, o: Outcome)
    requires s.out.wire == FRESH && s.topics.replies == [] && o.streamOpen
    requires !s.link.authenticated && s.topics.Book() == s.topics.pending
    ensures var s' := Connected(s, o); s'.link.connected && s'.link.streamOpen && Missing(s', Tail(s)) == Tail(s)
  {
    hide FlushTopics, Send, Ops;
    var up := s.(link := s.link.(connected := true, streamOpen := o.streamOpen),
                 timers := s.timers.(lastPongMs := o.nowMs),
                 tasks := s.tasks + multiset{PingWait(s.link.generation)});
    NoOps([]);
    FlushOwed(up);
    FlushFrame(up);
    var asked := up.(timers := up.timers.(authDeadlineMs := Some(o.nowMs + AUTH_ACK_TIMEOUT_MS)));
    SendOwed(asked, Auth);
    SendFrame(asked, Auth);
  }

  lemma HandshakeRank(s: State, o: Outcome)
    requires Good(s) && !s.link.connected && WsHandshake(s.link.generation) in s.tasks && o.ok && o.streamOpen
    ensures Rank(s) == 1 + Tail(s)
    ensures Missing(OnHandshake(Popped(s, WsHandshake(s.link.generation)), s.link.generation, o), Tail(s)) == Tail(s)
  {
    var g := s.link.generation;
    Unconnected(s);
    AllPending(s);
    assert Connecting(s) && s.out.wire == FRESH && s.topics.replies == [];
    hide Good, Connected;
    UpRank(Popped(s, WsHandshake(g)), o);
    WithReadRank(Connected(Popped(s, WsHandshake(g)), o), Tail(s));
  }

  lemma WithReadRank(s: State, tail: nat)
    requires s.link.connected
    ensures Missing(WithTask(s, Read(s.link.generation)), tail) == Missing(s, tail)
  {
  }

  /** Late completions of a connection that is already given up. */
  lemma LateRank(s: State, t: Task, o: Outcome, tail: nat)
    requires Good(s) && !s.link.connected && t in s.tasks
    requires var g := s.link.generation; t == Read(g) || t == Write(g) || t == PingWait(g)
    ensures Missing(s, tail) == 5 + tail && Missing(Handle(Popped(s, t), t, o), tail) == 5 + tail
  {
    Unconnected(s);
    hide Good;
    assert s.link.reconnectScheduled;
    GivenUp(Popped(s, t), t, o);
    hide Handle;
  }

  lemma GivenUp(s: State, t: Task, o: Outcome)
    requires !s.link.connected && s.link.reconnectScheduled
    requires var g := s.link.generation; t == Read(g) || t == Write(g) || t == PingWait(g)
    ensures var s' := Handle(s, t, o); !s'.link.connected && s'.link.reconnectScheduled
  {
    hide OnStage, OnHandshake, OnReconnectWait, StartConnect, FlushTopics, SendUnsubscribe, Send, PongTimedOut, AuthTimedOut;
    if t.Read? {
      hide HandleApiControlMsg;
      if o.message.Control? {
        ControlFrame(s, o.message, o.nowMs);
      }
    }
  }

  // ---------------------------------------------------------------- any step

  /** Only the user closes the session, and credentials stay as they are. */
  lemma StaysOpen(s: State, t: Task, o: Outcome)
    requires !t.PostedClose?
    ensures Handle(s, t, o).link.userClosed == s.link.userClosed && Handle(s, t, o).authRequired == s.authRequired
  {
    hide FlushTopics, Send, Pump, HandleApiControlMsg, Connected, PongTimedOut, AuthTimedOut;
    match t
    case Read(gen) =>
      if o.message.Control? && gen == s.link.generation {
        ControlFrame(s, o.message, o.nowMs);
      }
    case WsHandshake(_) => GreetFrame(s, o);
    case PostedFlush => FlushFrame(s);
    case PostedUnsubscribe(topic) => SendFrame(s, Unsubscribe(topic));
    case PingWait(_) => SendFrame(s, Ping);
    case Write(_) => PumpFrame(s.(out := s.out.(writeInFlight := false)));
    case _ =>
  }

  /** No topic leaves the book: a reply is positive, or finds nothing in flight. */
  lemma BenignBook(s: State, e: Event)
    requires Sound(s) && Enabled(s, e) && Benign(s, e)
    ensures Step(s, e).topics.Book() == s.topics.Book()
  {
    StepBooked(s, e);
    NothingRejected(s, e);
    hide Step, Benign;
  }

  lemma NothingRejected(s: State, e: Event)
    requires Sound(s) && Benign(s, e)
    ensures Rejected(s, e) == None && !e.UserSubscribe? && !e.UserUnsubscribe?
  {
    if !s.link.connected {
      assert s.topics.inflight == map[];
    }
    hide Sound, InRequestOrder;
  }

  lemma Unmoved(s: State, s': State, tail: nat)
    requires s'.link == s.link && s'.authRequired == s.authRequired && s'.topics == s.topics && s'.out == s.out
    requires var g := s.link.generation;
      forall t :: t in {PostedStart, Resolve(g), Connect(g), TlsHandshake(g)} ==> (t in s'.tasks <==> t in s.tasks)
    ensures Missing(s', tail) == Missing(s, tail)
  {
  }

  /** A completion of an earlier connection. */
  lemma StaleRank(s: State, t: Task, o: Outcome, tail: nat)
    requires !t.PostedStart? && !t.PostedFlush? && !t.PostedUnsubscribe? && !t.PostedClose?
    requires GenerationOf(t) != s.link.generation
    ensures Handle(Popped(s, t), t, o) == Popped(s, t) && Missing(Popped(s, t), tail) == Missing(s, tail)
    ensures !Drives(s, Complete(t, o))
  {
    Unmoved(s, Popped(s, t), tail);
    hide FlushTopics, Send, Pump, HandleApiControlMsg, Connected, HandleError, StartConnect, Missing;
  }

  /** Reads, writes and the heartbeat of the current connection. */
  lemma TrafficRank(s: State, e: Event)
    requires Good(s) && Enabled(s, e) && Benign(s, e) && e.Complete?
    requires var g := s.link.generation; e.task == Read(g) || e.task == Write(g) || e.task == PingWait(g)
    ensures Missing(Handle(Popped(s, e.task), e.task, e.outcome), Tail(s)) == Rank(s) - if Drives(s, e) then 1 else 0
  {
    TrafficDrives(s, e);
    if s.link.connected {
      TrafficSucceeds(s, e);
    }
    TaskThere(s, e);
    hide Good, Missing, Tail, Drives, Benign, Succeeds, Enabled;
    hide OnRead, OnWrite, OnPingTimer, OnStage, OnHandshake, OnReconnectWait, StartConnect, FlushTopics, SendUnsubscribe;
    if !s.link.connected {
      LateRank(s, e.task, e.outcome, Tail(s));
    } else if e.task.Read? {
      if s.link.streamOpen {
        ReadRank(s, e.outcome);
      } else {
        DroppedRank(s, e.outcome, Tail(s));
        DroppedIsTop(s);
      }
    } else if e.task.Write? {
      WriteRank(s, e.outcome, Tail(s));
    } else {
      PingRank(s, e.outcome, Tail(s));
    }
  }

  lemma DroppedIsTop(s: State)
    ensures s.link.connected && !s.link.streamOpen ==> Rank(s) == 6 + Tail(s)
  {
  }

  lemma TrafficDrives(s: State, e: Event)
    requires e.Complete? && Enabled(s, e) && Benign(s, e)
    requires var g := s.link.generation; e.task == Read(g) || e.task == Write(g) || e.task == PingWait(g)
    ensures !s.link.connected || e.task.PingWait? ==> !Drives(s, e)
    ensures s.link.connected && e.task.Write? ==> (Drives(s, e) <==> !e.outcome.ok)
    ensures s.link.connected && !s.link.streamOpen && e.task.Read? ==> Drives(s, e)
  {
  }

  lemma TrafficSucceeds(s: State, e: Event)
    requires Enabled(s, e) && Benign(s, e) && e.Complete? && s.link.connected
    requires var g := s.link.generation; e.task == Read(g) || e.task == Write(g) || e.task == PingWait(g)
    ensures InRequestOrder(s, e) && e.task in s.tasks
    ensures e.task.Read? ==> if s.link.streamOpen then Positive(e.outcome) else !e.outcome.ok
    ensures e.task.Write? && s.link.streamOpen ==> e.outcome.ok
    ensures e.task.PingWait? ==> !PongTimedOut(s, e.outcome.nowMs) && !AuthTimedOut(s, e.outcome.nowMs)
  {
  }

  /** The completions that lead to a connection. */
  lemma DialingRank(s: State, e: Event)
    requires Good(s) && Enabled(s, e) && Benign(s, e) && e.Complete?
    requires var g := s.link.generation;
      e.task in {PostedStart, Resolve(g), Connect(g), TlsHandshake(g), WsHandshake(g), ReconnectWait(g)}
    ensures Missing(Handle(Popped(s, e.task), e.task, e.outcome), Tail(s)) == Rank(s) - 1
  {
    NotWhileConnected(s, e.task);
    var t := e.task;
    match t
    case PostedStart => StartRank(s, t, e.outcome, Tail(s));
    case ReconnectWait(_) => StartRank(s, t, e.outcome, Tail(s));
    case Resolve(gen) => StageRank(s, t, Connect(gen), Tail(s));
    case Connect(gen) => StageRank(s, t, TlsHandshake(gen), Tail(s));
    case TlsHandshake(gen) => StageRank(s, t, WsHandshake(gen), Tail(s));
    case WsHandshake(_) => HandshakeRank(s, e.outcome);
  }

  lemma NotWhileConnected(s: State, t: Task)
    requires Good(s) && t in s.tasks
    requires var g := s.link.generation;
      t in {PostedStart, Resolve(g), Connect(g), TlsHandshake(g), WsHandshake(g), ReconnectWait(g)}
    ensures !s.link.connected
  {
  }

  lemma PostedRank(s: State, e: Event)
    requires Good(s) && e.Complete? && e.task in s.tasks && (e.task.PostedFlush? || e.task.PostedUnsubscribe?)
    ensures Missing(Handle(Popped(s, e.task), e.task, e.outcome), Tail(s)) == Rank(s) - if Drives(s, e) then 1 else 0
  {
    hide Good, OnRead, OnHandshake, OnWrite, OnPingTimer, OnStage, OnReconnectWait, StartConnect, Send, Missing;
    FlushDrives(s, e);
    if s.link.connected {
      hide FlushTopics, SendUnsubscribe, Drives;
      PostRank(s, e.task, Tail(s));
    } else {
      Unmoved(s, Popped(s, e.task), Tail(s));
    }
  }

  /** How the posted flush ended does not matter. */
  lemma FlushDrives(s: State, e: Event)
    requires e.Complete? && (e.task.PostedFlush? || e.task.PostedUnsubscribe?)
    ensures Drives(s, e) == Drives(s, Complete(e.task, Outcome(true, true, Data, 0)))
    ensures Drives(s, e) ==> e.task.PostedFlush? && s.link.connected
  {
  }

  /** One step of such a run: a driving completion lowers the rank by one, anything else leaves it, and the book stays as it
      is. */
  lemma StepRank(s: State, e: Event)
    requires Good(s) && Enabled(s, e) && Benign(s, e)
    ensures Good(Step(s, e)) && Step(s, e).topics.Book() == s.topics.Book()
    ensures Rank(Step(s, e)) == Rank(s) - if Drives(s, e) then 1 else 0
  {
    BenignBook(s, e);
    StepSound(s, e);
    StepOrderly(s, e);
    if e.UserPost? {
      PostOwed(s, e.task);
    } else {
      StaysOpen(Popped(s, e.task), e.task, e.outcome);
      StepRanked(s, e);
    }
    hide Handle, Sound, Orderly, Missing, Drives;
  }

  lemma StepRanked(s: State, e: Event)
    requires Good(s) && Enabled(s, e) && Benign(s, e) && e.Complete?
    ensures Missing(Handle(Popped(s, e.task), e.task, e.outcome), Tail(s)) == Rank(s) - if Drives(s, e) then 1 else 0
  {
    var g := s.link.generation;
    hide Good, Enabled, Handle, Missing, Tail;
    if e.task in {PostedStart, Resolve(g), Connect(g), TlsHandshake(g), WsHandshake(g), ReconnectWait(g)} {
      DialingRank(s, e);
    } else if e.task == Read(g) || e.task == Write(g) || e.task == PingWait(g) {
      TrafficRank(s, e);
    } else if e.task.PostedFlush? || e.task.PostedUnsubscribe? {
      PostedRank(s, e) by { assert e.task in s.tasks by { TaskThere(s, e); } }
    } else {
      StaleRank(s, e.task, e.outcome, Tail(s));
    }
  }

  lemma TaskThere(s: State, e: Event)
    requires Enabled(s, e) && e.Complete?
    ensures e.task in s.tasks
  {
  }

  lemma PostOwed(s: State, t: Task)
    requires Good(s) && t in s.midUser
    ensures Rank(Step(s, UserPost(t))) == Rank(s) && !Step(s, UserPost(t)).link.userClosed
    ensures !Drives(s, UserPost(t))
  {
    assert t.PostedFlush? || t.PostedUnsubscribe?;
    hide Good, Handle;
    Unmoved(s, Step(s, UserPost(t)), Tail(s));
  }

  // ---------------------------------------------------------------- runs

  /** How many completions of a run drive the session. */
  ghost function Driving(s: State, es: seq<Event>): nat {
    if es == [] then 0
    else Driving(s, es[..|es| - 1]) + if Drives(After(s, es[..|es| - 1]), es[|es| - 1]) then 1 else 0
  }

  lemma {:induction false} RunRank(s: State, es: seq<Event>)
    requires Good(s) && Legal(s, es) && BenignRun(s, es)
    ensures Good(After(s, es)) && After(s, es).topics.Book() == s.topics.Book()
    ensures Rank(After(s, es)) == Rank(s) - Driving(s, es)
  {
    hide Step, Good, Enabled, Benign, Rank, Drives;
    if es != [] {
      RunRank(s, es[..|es| - 1]);
      StepRank(After(s, es[..|es| - 1]), es[|es| - 1]);
    }
  }

  /** Every booked topic is confirmed on an operational connection whose transport is open, and no reply is owed. */
  ghost predicate Healed(s: State) {
    && s.Operational() && s.link.streamOpen && s.topics.pending == [] && s.topics.inflight == map[]
    && forall t :: t in s.topics.Book() ==> IsSubscriptionConfirmed(s.topics, t)
  }

  /** The rank measures exactly how far that is. */
  lemma HealedAtZero(s: State)
    requires Good(s)
    ensures Healed(s) <==> Rank(s) == 0
  {
    if Rank(s) == 0 {
      assert s.Operational() && s.link.streamOpen && s.topics.pending == [];
      if s.topics.inflight != map[] {
        var n :| n in s.topics.inflight;
        var k := InflightIndex(s.topics, s.out.wire.enqueued, n);
      }
      assert s.topics.Book() == s.topics.subscriptions;
    } else if s.link.connected && |s.topics.replies| < |Ops(s.out.wire.enqueued)| {
      NextIsInFlight(s);
    }
  }

  lemma NextIsInFlight(s: State)
    requires Good(s) && s.link.connected && |s.topics.replies| < |Ops(s.out.wire.enqueued)|
    ensures s.topics.inflight != map[]
  {
    assert Ops(s.out.wire.enqueued)[|s.topics.replies|].id in s.topics.inflight;
  }

  // ---------------------------------------------------------------- what can always happen next

  /** What brings the session closer: a driving completion, the end of a write behind which frames are queued, the post of a
      flush that a user thread owes. */
  predicate Forward(s: State, e: Event) {
    || Drives(s, e)
    || (s.link.connected && s.link.streamOpen && s.out.queue != [] && e.Complete? && e.task == Write(s.link.generation))
    || (s.Operational() && s.topics.pending != [] && e == UserPost(PostedFlush))
  }

  ghost predicate CanGoOn(s: State) {
    exists e :: Enabled(s, e) && Benign(s, e) && Forward(s, e)
  }

  /** Frames and posts still on their way; only the heartbeat and posted unsubscribes add to them. */
  function Backlog(s: State): nat {
    |s.out.queue| + s.midUser[PostedFlush]
  }

  const FINE := Outcome(true, true, Data, 0)
  const BROKEN := Outcome(false, false, Data, 0)
  const AUTHENTICATED := Outcome(true, true, Control(OpAuth, true, false, ""), 0)
  const SUBSCRIBED := Outcome(true, true, Control(OpSubscribe, true, false, ""), 0)

  lemma DriverReady(s: State) returns (t: Task)
    requires Good(s) && !s.link.connected
    ensures var e := Complete(t, FINE); Enabled(s, e) && Benign(s, e) && Drives(s, e) && !t.PostedUnsubscribe?
  {
    var g := s.link.generation;
    Unconnected(s);
    t := if PostedStart in s.tasks then PostedStart
         else if ReconnectWait(g) in s.tasks then ReconnectWait(g)
         else if Resolve(g) in s.tasks then Resolve(g)
         else if Connect(g) in s.tasks then Connect(g)
         else if TlsHandshake(g) in s.tasks then TlsHandshake(g)
         else WsHandshake(g);
    hide Good;
  }

  lemma ReadReady(s: State)
    requires Good(s) && s.link.connected
    ensures Read(s.link.generation) in s.tasks
  {
  }

  lemma WriteReady(s: State)
    requires Good(s) && s.link.connected && s.link.streamOpen && s.out.queue != []
    ensures Write(s.link.generation) in s.tasks && s.out.writeInFlight
  {
  }

  lemma FlushReady(s: State)
    requires Good(s) && s.Operational() && s.topics.pending != []
    ensures FlushComing(s)
  {
  }

  lemma DrainedIsSent(s: State)
    requires Good(s) && s.link.connected && s.out.queue == []
    ensures s.out.wire.sent == s.out.wire.enqueued
  {
  }

  /** The next step towards healing. */
  function NextStep(s: State): Event
    requires s.link.connected
  {
    var g := s.link.generation;
    if !s.link.streamOpen then Complete(Read(g), BROKEN)
    else if !s.Operational() then Complete(Read(g), AUTHENTICATED)
    else if s.topics.pending != [] then
      if PostedFlush in s.tasks then Complete(PostedFlush, FINE) else UserPost(PostedFlush)
    else if s.out.queue != [] then Complete(Write(g), FINE)
    else Complete(Read(g), SUBSCRIBED)
  }

  lemma NextStepReady(s: State)
    requires Good(s) && s.link.connected && Rank(s) > 0
    ensures var e := NextStep(s); Enabled(s, e) && Benign(s, e) && Forward(s, e)
    ensures !Drives(s, NextStep(s)) ==> Backlog(Step(s, NextStep(s))) < Backlog(s)
  {
    var e := NextStep(s);
    ReadReady(s);
    if s.link.streamOpen && s.Operational() {
      if s.topics.pending != [] {
        FlushReady(s);
      } else if s.out.queue != [] {
        WriteReady(s);
        hide Good, Ops;
      } else {
        DrainedIsSent(s);
      }
    }
    hide Good;
  }

  /** As long as something is missing, something that brings the session closer can happen next. */
  lemma NeverStalls(s: State)
    requires Good(s) && !Healed(s)
    ensures CanGoOn(s)
  {
    HealedAtZero(s);
    RankNotNegative(s);
    hide Good, Healed, Rank, Enabled, Benign, Forward;
    if s.link.connected {
      NextStepReady(s);
    } else {
      var t := DriverReady(s);
      DrivesIsForward(s, Complete(t, FINE));
    }
  }

  lemma DrivesIsForward(s: State, e: Event)
    ensures Drives(s, e) ==> Forward(s, e)
  {
  }

  // ---------------------------------------------------------------- self-healing

  /** Self-healing: take any state of any run that the user has not closed, and any continuation in which the network no
      longer fails and replies are positive. It holds at most as many driving completions as the rank of the state says, it
      has healed the session exactly when it holds that many, and unless it has, something that brings the session closer
      can happen next. The rank is at most 8 unless the session is operational, when it counts what is owed. (`Orderly` holds
      whenever no connection is up, and on a connection whose replies came in order.) */
  lemma HealsByRank(authRequired: bool, first: Topic, es: seq<Event>, more: seq<Event>)
    requires Legal(Init(authRequired, first), es)
    requires var s := After(Init(authRequired, first), es);
      !s.link.userClosed && Orderly(s) && Legal(s, more) && BenignRun(s, more)
    ensures var s := After(Init(authRequired, first), es); var s' := After(s, more);
      && Driving(s, more) <= Rank(s) && (Rank(s) <= 8 || s.Operational())
      && (Healed(s') <==> Driving(s, more) == Rank(s))
      && (Healed(s') || CanGoOn(s'))
      && s'.topics.Book() == s.topics.Book()
  {
    AlwaysSound(authRequired, first, es);
    var s := After(Init(authRequired, first), es);
    assert Good(s);
    RunRank(s, more);
    hide Good, Rank, Healed, Legal, BenignRun, Driving, After, Sound, Orderly, CanGoOn;
    HealedAtZero(After(s, more));
    RankNotNegative(After(s, more));
    RankNotNegative(s);
    if !Healed(After(s, more)) {
      NeverStalls(After(s, more));
    }
  }
}
