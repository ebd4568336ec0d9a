/**
 Write discipline: one write outstanding per connection, frames leave in the order they were queued for that very
 connection, authentication comes first, and a queued frame never waits for a write that nobody will start.
 */
module SessionPump {
  import opened Wrappers
  import opened SessionModel
  import opened SessionDriver

  /** On a credentialed session auth is the first frame and the only one of its kind, and every subscribe was queued
      after the frames that had left when this connection's auth reply was accepted. */
  ghost predicate AuthFirst(w: Wire) {
    && (w.enqueued != [] ==> w.enqueued[0] == Auth)
    && (forall i :: 1 <= i < |w.enqueued| ==> w.enqueued[i] != Auth)
    && (w.authAt.Some? ==> w.authAt.value <= |w.sent|)
    && (forall i :: 0 <= i < |w.enqueued| && w.enqueued[i].Subscribe? ==> w.authAt.Some? && w.authAt.value <= i)
  }

  ghost predicate Disciplined(authRequired: bool, w: Wire) {
    w.sent <= w.enqueued && (authRequired ==> AuthFirst(w))
  }

  ghost predicate OneWriteEach(tasks: multiset<Task>) {
    forall h :: tasks[Write(h)] <= 1
  }

  ghost predicate ArchiveDisciplined(s: State) {
    forall w :: w in s.past ==> Disciplined(s.authRequired, w)
  }

  /** The pump between handlers, apart from the wakeup claim. */
  ghost predicate Flow(s: State) {
    && Disciplined(s.authRequired, s.out.wire)
    && (s.link.connected ==>
          && s.out.wire.enqueued == s.out.wire.sent + s.out.queue
          && (s.out.writeInFlight <==> s.tasks[Write(s.link.generation)] == 1)
          && (s.authRequired ==> s.out.wire.enqueued != [])
          && (s.authRequired ==> (s.link.authenticated <==> s.out.wire.authAt.Some?)))
    && (!s.link.connected ==> !s.out.writeInFlight && s.out.queue == [])
    && (!s.link.connected && !s.link.reconnectScheduled && !s.link.userClosed ==> s.out.wire == FRESH)
  }

  /** A connected, open session with frames queued has a write in flight. */
  predicate Awake(s: State) {
    s.link.connected && s.link.streamOpen && s.out.queue != [] ==> s.out.writeInFlight
  }

  ghost predicate Pumping(s: State) {
    && OneWriteEach(s.tasks) && ArchiveDisciplined(s) && Flow(s)
    && (!s.link.userClosed ==> Awake(s))
  }

  // ---------------------------------------------------------------- the parts of a handler

  lemma PumpKeeps(s: State)
    requires Flow(s) && OneWriteEach(s.tasks)
    ensures Flow(Pump(s)) && OneWriteEach(Pump(s).tasks) && Awake(Pump(s))
  {
  }

  /** What may be queued at this moment. */
  predicate Sendable(s: State, f: Frame) {
    && s.link.connected
    && (s.authRequired ==> f != Auth && (f.Subscribe? ==> s.link.authenticated))
  }

  lemma EnqueueKeeps(s: State, f: Frame)
    requires Flow(s) && Sendable(s, f)
    ensures Flow(s.(out := Enqueued(s.out, f)))
  {
  }

  lemma SendKeeps(s: State, f: Frame)
    requires Flow(s) && OneWriteEach(s.tasks) && Sendable(s, f)
    ensures Flow(Send(s, f)) && OneWriteEach(Send(s, f).tasks) && Awake(Send(s, f))
  {
    hide Flow;
    EnqueueKeeps(s, f);
    PumpKeeps(s.(out := Enqueued(s.out, f)));
  }

  lemma FlushKeeps(s: State)
    requires Flow(s) && OneWriteEach(s.tasks)
    ensures Flow(FlushTopics(s)) && OneWriteEach(FlushTopics(s).tasks)
    ensures Awake(s) || FlushTopics(s) != s ==> Awake(FlushTopics(s))
  {
    if FlushTopics(s) != s {
      SendKeeps(s.(topics := Flushed(s.topics)), Subscribe(s.topics.reqIdCounter + 1, s.topics.pending));
    }
  }

  lemma ErrorKeeps(s: State, gen: nat)
    requires Flow(s) && OneWriteEach(s.tasks)
    ensures Flow(HandleError(s, gen)) && OneWriteEach(HandleError(s, gen).tasks)
    ensures HandleError(s, gen) != s ==> Awake(HandleError(s, gen))
    ensures HandleError(s, gen).link.userClosed == s.link.userClosed
  {
  }

  lemma StartKeeps(s: State)
    requires Flow(s) && OneWriteEach(s.tasks) && ArchiveDisciplined(s) && Awake(s)
    requires !s.link.connected && Tagged(s.tasks, s.link.generation)
    ensures Pumping(StartConnect(s))
  {
  }

  lemma ControlKeeps(s: State, m: Inbound, nowMs: int)
    requires m.Control? && Flow(s) && OneWriteEach(s.tasks) && (!s.link.userClosed ==> Awake(s))
    requires s.link.connected || s.link.reconnectScheduled || s.link.userClosed
    ensures var s' := HandleApiControlMsg(s, s.link.generation, m, nowMs);
      && Flow(s') && OneWriteEach(s'.tasks) && (!s.link.userClosed ==> Awake(s'))
      && s'.link.userClosed == s.link.userClosed
  {
    FlushFrame(Authenticated(s));
    hide FlushTopics, HandleError, OnSubscribeReply, OneWriteEach, Flow;
    if m.op == OpPong || m.saysPong {
      UntouchedFlow(s, s.(timers := s.timers.(lastPongMs := nowMs)));
    } else if m.op == OpAuth {
      AuthenticatedKeeps(s);
      FlushKeeps(Authenticated(s));
      ErrorKeeps(s, s.link.generation);
    } else if m.op == OpSubscribe {
      UntouchedFlow(s, s.(topics := OnSubscribeReply(s.topics, m.success, m.reqId)));
    }
  }

  lemma UntouchedFlow(s: State, s': State)
    requires s'.link == s.link && s'.out == s.out && s'.tasks == s.tasks && s'.authRequired == s.authRequired
    ensures Flow(s) ==> Flow(s')
  {
  }

  lemma AuthenticatedKeeps(s: State)
    requires Flow(s) && (s.link.connected || s.link.reconnectScheduled || s.link.userClosed)
    ensures Flow(Authenticated(s))
  {
  }

  lemma ConnectedKeeps(s: State, o: Outcome)
    requires Flow(s) && OneWriteEach(s.tasks)
    requires !s.link.connected && !s.link.authenticated && s.out.wire == FRESH
    requires s.tasks[Write(s.link.generation)] == 0
    ensures Flow(Connected(s, o)) && OneWriteEach(Connected(s, o).tasks) && Awake(Connected(s, o))
  {
    var up := s.(link := s.link.(connected := true, streamOpen := o.streamOpen),
                 timers := s.timers.(lastPongMs := o.nowMs),
                 tasks := s.tasks + multiset{PingWait(s.link.generation)});
    if s.authRequired {
      assert Enqueued(up.out, Auth) == Outbound([Auth], false, Wire([Auth], [], None));
    } else {
      FlushKeeps(up);
    }
  }

  // ---------------------------------------------------------------- the handlers

  /** Adding or removing anything but a write changes nothing here. */
  lemma OtherTask(s: State, t: Task)
    requires !t.Write?
    ensures OneWriteEach(s.tasks) ==> OneWriteEach(WithTask(s, t).tasks) && OneWriteEach(Popped(s, t).tasks)
    ensures Flow(s) ==> Flow(WithTask(s, t)) && Flow(Popped(s, t))
  {
  }

  lemma ConnectedMeansReading(s: State)
    requires Live(s) && !s.link.userClosed && s.link.connected
    ensures !s.link.reconnectScheduled
  {
  }

  lemma RearmPumping(s: State, gen: nat)
    requires Pumping(s)
    ensures Pumping(RearmRead(s, gen))
  {
    hide OneWriteEach, Disciplined;
    OtherTask(s, Read(gen));
  }

  lemma ErrorPumping(s: State, gen: nat)
    requires Flow(s) && OneWriteEach(s.tasks) && ArchiveDisciplined(s)
    requires s.link.userClosed || !s.link.connected || (gen == s.link.generation && !s.link.reconnectScheduled)
    ensures Pumping(HandleError(s, gen))
  {
    hide OneWriteEach, Disciplined;
    ErrorKeeps(s, gen);
  }

  lemma ReadPumping(s: State, gen: nat, o: Outcome)
    requires Live(s) && Pumping(s) && Read(gen) in s.tasks
    ensures Pumping(OnRead(Popped(s, Read(gen)), gen, o))
  {
    hide HandleError, HandleApiControlMsg, RearmRead, Flow, OneWriteEach, Tagged, UserPosts;
    var popped := Popped(s, Read(gen));
    OtherTask(s, Read(gen));
    if gen == s.link.generation {
      ErrorPumping(popped, gen);
      if o.ok && o.message.Control? {
        ControlFrame(popped, o.message, o.nowMs);
        ControlKeeps(popped, o.message, o.nowMs);
        var handled := HandleApiControlMsg(popped, gen, o.message, o.nowMs);
        assert ArchiveDisciplined(handled);
        RearmPumping(handled, gen);
      } else if o.ok && o.message.Data? {
        RearmPumping(popped, gen);
      }
    }
  }

  lemma HandshakePumping(s: State, gen: nat, o: Outcome)
    requires Live(s) && Pumping(s) && WsHandshake(gen) in s.tasks
    ensures Pumping(OnHandshake(Popped(s, WsHandshake(gen)), gen, o))
  {
    hide HandleError, Connected, OneWriteEach, Tagged, UserPosts, Disciplined;
    var popped := Popped(s, WsHandshake(gen));
    OtherTask(s, WsHandshake(gen));
    if gen == s.link.generation {
      if !o.ok {
        ErrorPumping(popped, gen);
      } else if !s.link.userClosed {
        GreetFrame(popped, o);
        ConnectedKeeps(popped, o);
        OtherTask(Connected(popped, o), Read(gen));
      }
    }
  }

  lemma WritePumping(s: State, gen: nat, ok: bool)
    requires Live(s) && Pumping(s) && Write(gen) in s.tasks
    ensures Pumping(OnWrite(Popped(s, Write(gen)), gen, ok))
  {
    hide HandleError, Pump, Tagged, UserPosts, Disciplined;
    if !s.link.userClosed && s.link.connected { ConnectedMeansReading(s); }
    hide Driven;
    var popped := Popped(s, Write(gen));
    assert OneWriteEach(popped.tasks);
    if gen == s.link.generation {
      var idle := popped.(out := popped.out.(writeInFlight := false));
      assert Flow(idle);
      PumpFrame(idle);
      PumpKeeps(idle);
      ErrorPumping(idle, gen);
    }
  }

  lemma SendPumping(s: State, f: Frame)
    requires Pumping(s) && Sendable(s, f)
    ensures Pumping(Send(s, f))
  {
    hide Send, OneWriteEach, Flow, Disciplined;
    SendKeeps(s, f);
    SendFrame(s, f);
  }

  lemma TaskPumping(s: State, t: Task)
    requires Pumping(s) && !t.Write?
    ensures Pumping(WithTask(s, t)) && Pumping(Popped(s, t))
  {
    hide OneWriteEach, Flow, Disciplined;
    OtherTask(s, t);
  }

  lemma PingPumping(s: State, gen: nat, ok: bool, nowMs: int)
    requires Live(s) && Pumping(s) && PingWait(gen) in s.tasks
    ensures Pumping(OnPingTimer(Popped(s, PingWait(gen)), gen, ok, nowMs))
  {
    hide HandleError, Send, OneWriteEach, Flow, Awake, ArchiveDisciplined, Live, PongTimedOut, AuthTimedOut;
    if !s.link.userClosed && s.link.connected { ConnectedMeansReading(s); }
    var popped := Popped(s, PingWait(gen));
    TaskPumping(s, PingWait(gen));
    TaskPumping(popped, PingWait(gen));
    if gen == s.link.generation && s.link.connected && !s.link.userClosed {
      ErrorPumping(popped, gen);
      SendPumping(popped, Ping);
      TaskPumping(Send(popped, Ping), PingWait(gen));
    }
  }

  lemma WaitPumping(s: State, t: Task, ok: bool)
    requires t.PostedStart? || t.ReconnectWait?
    requires Live(s) && Pumping(s) && t in s.tasks && (!ok ==> s.link.userClosed)
    ensures t.PostedStart? ==> Pumping(StartConnect(Popped(s, t)))
    ensures t.ReconnectWait? ==> Pumping(OnReconnectWait(Popped(s, t), t.gen, ok))
  {
    hide Disciplined, OneWriteEach, StartConnect, UserPosts;
    var popped := Popped(s, t);
    OtherTask(s, t);
    PoppedTagged(s, t);
    if s.link.userClosed {
      ClosedStart(popped);
      ClosedStart(popped.(link := popped.link.(reconnectScheduled := false)));
    } else if t.PostedStart? {
      StartKeeps(popped);
    } else if t.gen == s.link.generation {
      WaitOver(popped);
    }
  }

  lemma ClosedStart(s: State)
    requires s.link.userClosed
    ensures StartConnect(s) == s
  {
  }

  /** `startConnect` from the reconnect wait: the old wire is archived whatever it holds. */
  lemma WaitOver(s: State)
    requires Flow(s) && OneWriteEach(s.tasks) && ArchiveDisciplined(s) && Tagged(s.tasks, s.link.generation)
    requires !s.link.connected && !s.link.userClosed
    ensures Pumping(StartConnect(s.(link := s.link.(reconnectScheduled := false))))
  {
    hide Disciplined;
    assert Disciplined(s.authRequired, FRESH) by { FreshDisciplined(s.authRequired); }
    assert s.tasks[Write(s.link.generation + 1)] == 0 by {
      assert GenerationOf(Write(s.link.generation + 1)) > s.link.generation;
    }
  }

  lemma FreshDisciplined(authRequired: bool)
    ensures Disciplined(authRequired, FRESH)
  {
  }

  lemma PostedPumping(s: State, t: Task)
    requires Pumping(s) && t in s.tasks
    ensures t.PostedFlush? ==> Pumping(FlushTopics(Popped(s, t)))
    ensures t.PostedUnsubscribe? ==> Pumping(SendUnsubscribe(Popped(s, t), t.topic))
  {
    hide FlushTopics, Send, OneWriteEach, Flow, Disciplined;
    if !t.Write? {
      TaskPumping(s, t);
      FlushKeeps(Popped(s, t));
      FlushFrame(Popped(s, t));
      if t.PostedUnsubscribe? && s.link.connected {
        SendPumping(Popped(s, t), Unsubscribe(t.topic));
      }
    }
  }

  lemma StagePumping(s: State, t: Task, next: Task, ok: bool)
    requires t.Resolve? || t.Connect? || t.TlsHandshake?
    requires !next.Write? && Live(s) && Pumping(s) && t in s.tasks
    ensures Pumping(OnStage(Popped(s, t), t.gen, ok, next))
  {
    hide HandleError, OneWriteEach, Flow, Awake, ArchiveDisciplined, Live;
    if !s.link.userClosed && s.link.connected { ConnectedMeansReading(s); }
    TaskPumping(s, t);
    TaskPumping(Popped(s, t), next);
    if t.gen == s.link.generation {
      ErrorPumping(Popped(s, t), t.gen);
    }
  }

  lemma CompletePumping(s: State, t: Task, o: Outcome)
    requires Live(s) && Pumping(s) && Enabled(s, Complete(t, o))
    ensures Pumping(Handle(Popped(s, t), t, o))
  {
    hide OnRead, OnHandshake, OnWrite, OnPingTimer, OnStage, OnReconnectWait, StartConnect, FlushTopics, SendUnsubscribe;
    hide Disciplined, Flow, OneWriteEach, Live;
    match t
    case Read(gen) => ReadPumping(s, gen, o);
    case WsHandshake(gen) => HandshakePumping(s, gen, o);
    case Write(gen) => WritePumping(s, gen, o.ok);
    case PingWait(gen) => PingPumping(s, gen, o.ok, o.nowMs);
    case Resolve(gen) => StagePumping(s, t, Connect(gen), o.ok);
    case Connect(gen) => StagePumping(s, t, TlsHandshake(gen), o.ok);
    case TlsHandshake(gen) => StagePumping(s, t, WsHandshake(gen), o.ok);
    case ReconnectWait(gen) => WaitPumping(s, t, o.ok);
    case PostedStart => WaitPumping(s, t, true);
    case PostedFlush => PostedPumping(s, t);
    case PostedUnsubscribe(topic) => PostedPumping(s, t);
    case PostedClose => ClosePumping(s);
  }

  lemma ClosePumping(s: State)
    requires Pumping(s)
    ensures Pumping(Popped(s, PostedClose).(link := s.link.(userClosed := true)))
  {
    hide Disciplined;
  }

  lemma StepPumping(s: State, e: Event)
    requires Live(s) && Pumping(s) && Enabled(s, e)
    ensures Pumping(Step(s, e))
  {
    if e.Complete? {
      hide Handle, Pumping, Live, AddTopic, RemoveTopic;
      CompletePumping(s, e.task, e.outcome);
    } else if e.UserPost? {
      hide Handle, Pumping, Live;
      UserPostsNotWrite(s, e.task);
      PostedKeeps(s, Step(s, e), e.task);
    } else {
      hide Handle, AddTopic, RemoveTopic, Disciplined, Live, OneWriteEach;
    }
  }

  lemma PostedKeeps(s: State, s': State, t: Task)
    requires Pumping(s) && (t.PostedFlush? || t.PostedUnsubscribe?) && s'.tasks == s.tasks + multiset{t}
    requires s'.link == s.link && s'.out == s.out && s'.past == s.past && s'.authRequired == s.authRequired
    ensures Pumping(s')
  {
    hide Disciplined;
  }

  lemma UserPostsNotWrite(s: State, t: Task)
    requires Live(s) && t in s.midUser
    ensures t.PostedFlush? || t.PostedUnsubscribe?
  {
  }

  /** In every state of every run: per connection at most one write outstanding, sent frames an in-order prefix of the
      frames queued for that connection, auth before everything a credentialed session subscribes to; and no queued
      frame without a write in flight. */
  lemma {:induction false} WriteDiscipline(authRequired: bool, first: Topic, es: seq<Event>)
    requires Legal(Init(authRequired, first), es)
    ensures Pumping(After(Init(authRequired, first), es))
  {
    var s0 := Init(authRequired, first);
    if es != [] {
      var before := After(s0, es[..|es| - 1]);
      WriteDiscipline(authRequired, first, es[..|es| - 1]);
      NeverStuck(authRequired, first, es[..|es| - 1]);
      StepPumping(before, es[|es| - 1]);
    }
  }
}
