/**
 The session is never stuck: until the user closes it there is always exactly one thing that moves it forward.
 */
module SessionDriver {
  import opened Wrappers
  import opened SessionModel

  function GenerationOf(t: Task): nat {
    match t
    case PostedStart => 0
    case PostedFlush => 0
    case PostedUnsubscribe(_) => 0
    case PostedClose => 0
    case Resolve(gen) => gen
    case Connect(gen) => gen
    case TlsHandshake(gen) => gen
    case WsHandshake(gen) => gen
    case Read(gen) => gen
    case Write(gen) => gen
    case PingWait(gen) => gen
    case ReconnectWait(gen) => gen
  }

  /** Connect-stage operations outstanding for one generation. */
  function StageOps(tasks: multiset<Task>, gen: nat): nat {
    tasks[Resolve(gen)] + tasks[Connect(gen)] + tasks[TlsHandshake(gen)] + tasks[WsHandshake(gen)]
  }

  // The four ways a live session can be driven. Each names its one driver and rules out the other three.

  predicate Starting(s: State) {
    && s.link.generation == 0 && !s.link.connected && !s.link.authenticated && !s.link.reconnectScheduled
    && s.tasks[PostedStart] == 1 && StageOps(s.tasks, 0) == 0 && s.tasks[Read(0)] == 0 && s.tasks[ReconnectWait(0)] == 0
    && s.tasks[Write(0)] == 0 && s.tasks[PingWait(0)] == 0
  }

  predicate Connecting(s: State) {
    var g := s.link.generation;
    && g > 0 && !s.link.connected && !s.link.authenticated && !s.link.reconnectScheduled
    && s.tasks[PostedStart] == 0 && StageOps(s.tasks, g) == 1 && s.tasks[Read(g)] == 0 && s.tasks[ReconnectWait(g)] == 0
    && s.tasks[Write(g)] == 0 && s.tasks[PingWait(g)] == 0
  }

  predicate Reading(s: State) {
    var g := s.link.generation;
    && g > 0 && s.link.connected && !s.link.reconnectScheduled
    && s.tasks[PostedStart] == 0 && StageOps(s.tasks, g) == 0 && s.tasks[Read(g)] == 1 && s.tasks[ReconnectWait(g)] == 0
  }

  predicate Waiting(s: State) {
    var g := s.link.generation;
    && g > 0 && !s.link.connected && s.link.reconnectScheduled
    && s.tasks[PostedStart] == 0 && StageOps(s.tasks, g) == 0 && s.tasks[Read(g)] <= 1 && s.tasks[ReconnectWait(g)] == 1
  }

  predicate Driven(s: State) {
    Starting(s) || Connecting(s) || Reading(s) || Waiting(s)
  }

  /** What keeps `Driven` inductive: nothing pending belongs to a future connection, user threads post only what
      `subscribe` and `unsubscribe` post, and one archived connection per generation. */
  ghost predicate WellTagged(s: State) {
    Tagged(s.tasks, s.link.generation) && UserPosts(s.midUser) && |s.past| == s.link.generation
  }

  ghost predicate Tagged(tasks: multiset<Task>, gen: nat) {
    forall t :: t in tasks ==> GenerationOf(t) <= gen
  }

  ghost predicate UserPosts(midUser: multiset<Task>) {
    forall t :: t in midUser ==> t.PostedFlush? || t.PostedUnsubscribe?
  }

  ghost predicate Live(s: State) {
    WellTagged(s) && (!s.link.userClosed ==> Driven(s))
  }

  /** Everything that could move the session on. */
  function Drivers(s: State): nat {
    var g := s.link.generation;
    s.tasks[PostedStart] + StageOps(s.tasks, g) + (if s.link.connected then s.tasks[Read(g)] else 0) + s.tasks[ReconnectWait(g)]
  }

  // ---------------------------------------------------------------- what the parts of a handler may touch

  predicate SameLink(s: State, s': State) {
    s'.link == s.link && s'.midUser == s.midUser && s'.past == s.past && s'.authRequired == s.authRequired
  }

  predicate MayWrite(s: State, s': State) {
    s'.tasks == s.tasks || (s.link.connected && s'.tasks == s.tasks + multiset{Write(s.link.generation)})
  }

  lemma TaggedMore(tasks: multiset<Task>, t: Task, gen: nat)
    requires Tagged(tasks, gen) && GenerationOf(t) <= gen
    ensures Tagged(tasks + multiset{t}, gen)
  {
  }

  lemma WriteTagged(s: State, s': State)
    requires WellTagged(s) && MayWrite(s, s')
    ensures Tagged(s'.tasks, s.link.generation)
  {
    TaggedMore(s.tasks, Write(s.link.generation), s.link.generation);
  }

  lemma PumpFrame(s: State)
    ensures SameLink(s, Pump(s)) && MayWrite(s, Pump(s)) && Pump(s).topics == s.topics && Pump(s).timers == s.timers
  {
  }

  lemma SendFrame(s: State, f: Frame)
    ensures SameLink(s, Send(s, f)) && MayWrite(s, Send(s, f)) && Send(s, f).topics == s.topics
    ensures Send(s, f).timers == s.timers
  {
    PumpFrame(s.(out := Enqueued(s.out, f)));
  }

  lemma FlushFrame(s: State)
    ensures SameLink(s, FlushTopics(s)) && MayWrite(s, FlushTopics(s)) && FlushTopics(s).timers == s.timers
  {
    SendFrame(s.(topics := Flushed(s.topics)), Subscribe(s.topics.reqIdCounter + 1, s.topics.pending));
  }

  lemma PoppedTagged(s: State, t: Task)
    requires WellTagged(s)
    ensures WellTagged(Popped(s, t))
  {
  }

  lemma UnsubscribeFrame(s: State, t: Topic)
    ensures SameLink(s, SendUnsubscribe(s, t)) && MayWrite(s, SendUnsubscribe(s, t))
  {
    SendFrame(s, Unsubscribe(t));
  }

  lemma ErrorKeepsLive(s: State, gen: nat)
    requires WellTagged(s)
    requires gen == s.link.generation && !s.link.reconnectScheduled && !s.link.userClosed && gen > 0
    requires s.tasks[PostedStart] == 0 && StageOps(s.tasks, gen) == 0 && s.tasks[Read(gen)] <= 1
    requires s.tasks[ReconnectWait(gen)] == 0
    ensures Live(HandleError(s, gen))
  {
    TaggedMore(s.tasks, ReconnectWait(gen), gen);
  }

  lemma ErrorLive(s: State)
    requires WellTagged(s)
    requires s.link.userClosed || Waiting(s)
      || (s.tasks[PostedStart] == 0 && StageOps(s.tasks, s.link.generation) == 0 && s.tasks[Read(s.link.generation)] <= 1
          && s.tasks[ReconnectWait(s.link.generation)] == 0 && !s.link.reconnectScheduled && s.link.generation > 0)
    ensures Live(HandleError(s, s.link.generation))
  {
    if !s.link.userClosed && !s.link.reconnectScheduled {
      ErrorKeepsLive(s, s.link.generation);
    }
  }

  lemma StartKeepsLive(s: State)
    requires WellTagged(s) && s.tasks[PostedStart] == 0 && !s.link.reconnectScheduled
    ensures Live(StartConnect(s))
  {
  }

  /** Every control message leaves the link alone, marks it authenticated, or is an error. */
  lemma ControlFrame(s: State, m: Inbound, nowMs: int)
    requires m.Control?
    ensures var s' := HandleApiControlMsg(s, s.link.generation, m, nowMs);
      || s' == HandleError(s, s.link.generation)
      || (MayWrite(s, s') && SameLink(s, s'.(link := s.link)) && s'.link.(authenticated := s.link.authenticated) == s.link)
  {
    FlushFrame(Authenticated(s));
  }

  /** A state in the middle of a read: its read has completed and may be re-armed. */
  ghost predicate MidRead(s: State) {
    && WellTagged(s)
    && (!s.link.userClosed ==> Waiting(s) || Reading(WithTask(s, Read(s.link.generation))))
  }

  lemma RearmKeepsLive(s: State)
    requires MidRead(s)
    ensures Live(RearmRead(s, s.link.generation))
  {
    hide Tagged, UserPosts;
    TaggedMore(s.tasks, Read(s.link.generation), s.link.generation);
  }

  lemma ErrorMidRead(s: State)
    requires MidRead(s)
    ensures Live(HandleError(s, s.link.generation)) && MidRead(HandleError(s, s.link.generation))
  {
    hide Tagged, UserPosts, HandleError;
    ErrorLive(s);
    ErrorSchedules(s);
  }

  lemma ErrorSchedules(s: State)
    ensures HandleError(s, s.link.generation).link.userClosed == s.link.userClosed
    ensures !s.link.userClosed ==> HandleError(s, s.link.generation).link.reconnectScheduled
  {
  }

  lemma ControlMidRead(s: State, m: Inbound, nowMs: int)
    requires MidRead(s) && m.Control?
    ensures MidRead(HandleApiControlMsg(s, s.link.generation, m, nowMs))
  {
    hide Tagged, UserPosts, HandleError, HandleApiControlMsg;
    ControlFrame(s, m, nowMs);
    var handled := HandleApiControlMsg(s, s.link.generation, m, nowMs);
    if handled == HandleError(s, s.link.generation) {
      ErrorMidRead(s);
    } else {
      WriteTagged(s, handled);
    }
  }

  lemma PoppedMidRead(s: State)
    requires Live(s) && Read(s.link.generation) in s.tasks
    ensures MidRead(Popped(s, Read(s.link.generation)))
  {
    hide Tagged, UserPosts;
    PoppedTagged(s, Read(s.link.generation));
  }

  lemma ReadKeepsLive(s: State, gen: nat, o: Outcome)
    requires Live(s) && Read(gen) in s.tasks
    ensures Live(OnRead(Popped(s, Read(gen)), gen, o))
  {
    hide MidRead, WellTagged, HandleError, HandleApiControlMsg, RearmRead;
    var popped := Popped(s, Read(gen));
    PoppedTagged(s, Read(gen)) by { hide Driven; }
    if gen == s.link.generation {
      PoppedMidRead(s);
      ErrorMidRead(popped);
      RearmKeepsLive(popped);
      if o.message.Control? {
        ControlMidRead(popped, o.message, o.nowMs);
        ControlGeneration(popped, o.message, o.nowMs);
        RearmKeepsLive(HandleApiControlMsg(popped, gen, o.message, o.nowMs));
      }
    }
  }

  lemma ControlGeneration(s: State, m: Inbound, nowMs: int)
    requires m.Control?
    ensures HandleApiControlMsg(s, s.link.generation, m, nowMs).link.generation == s.link.generation
  {
    ControlFrame(s, m, nowMs);
  }

  lemma HandshakeKeepsLive(s: State, gen: nat, o: Outcome)
    requires Live(s) && WsHandshake(gen) in s.tasks
    ensures Live(OnHandshake(Popped(s, WsHandshake(gen)), gen, o))
  {
    hide Tagged, UserPosts, Connected;
    var popped := Popped(s, WsHandshake(gen));
    PoppedTagged(s, WsHandshake(gen));
    if gen == s.link.generation && !s.link.userClosed {
      if o.ok {
        GreetFrame(popped, o);
        TaggedMore(popped.tasks, PingWait(gen), gen);
        TaggedMore(popped.tasks + multiset{PingWait(gen)}, Write(gen), gen);
        TaggedMore(Connected(popped, o).tasks, Read(gen), gen);
      } else {
        ErrorKeepsLive(popped, gen);
      }
    }
  }

  lemma GreetFrame(s: State, o: Outcome)
    ensures var s' := Connected(s, o);
      && s'.link == s.link.(connected := true, streamOpen := o.streamOpen)
      && s'.midUser == s.midUser && s'.past == s.past && s'.authRequired == s.authRequired
      && (s'.tasks == s.tasks + multiset{PingWait(s.link.generation)}
          || s'.tasks == s.tasks + multiset{PingWait(s.link.generation)} + multiset{Write(s.link.generation)})
  {
    var up := s.(link := s.link.(connected := true, streamOpen := o.streamOpen),
                 timers := s.timers.(lastPongMs := o.nowMs),
                 tasks := s.tasks + multiset{PingWait(s.link.generation)});
    FlushFrame(up);
    SendFrame(up.(timers := up.timers.(authDeadlineMs := Some(o.nowMs + AUTH_ACK_TIMEOUT_MS))), Auth);
  }

  lemma StageKeepsLive(s: State, t: Task, next: Task, ok: bool)
    requires t.Resolve? || t.Connect? || t.TlsHandshake?
    requires next == Connect(t.gen) || next == TlsHandshake(t.gen) || next == WsHandshake(t.gen)
    requires Live(s) && t in s.tasks
    ensures Live(OnStage(Popped(s, t), t.gen, ok, next))
  {
    hide Tagged, UserPosts, HandleError;
    var popped := Popped(s, t);
    PoppedTagged(s, t);
    if t.gen == s.link.generation {
      TaggedMore(popped.tasks, next, t.gen);
      if !ok {
        ErrorLive(popped);
      }
    }
  }

  lemma WriteKeepsLive(s: State, gen: nat, o: Outcome)
    requires Live(s) && Write(gen) in s.tasks
    ensures Live(OnWrite(Popped(s, Write(gen)), gen, o.ok))
  {
    hide Tagged, UserPosts, HandleError, Pump;
    PoppedTagged(s, Write(gen));
    var idle := Popped(s, Write(gen)).(out := s.out.(writeInFlight := false));
    PumpFrame(idle);
    WriteTagged(idle, Pump(idle));
    if gen == s.link.generation && !o.ok {
      ErrorLive(idle);
    }
  }

  lemma PingKeepsLive(s: State, gen: nat, o: Outcome)
    requires Live(s) && PingWait(gen) in s.tasks
    ensures Live(OnPingTimer(Popped(s, PingWait(gen)), gen, o.ok, o.nowMs))
  {
    hide Tagged, UserPosts, HandleError, Send, PongTimedOut, AuthTimedOut;
    var popped := Popped(s, PingWait(gen));
    PoppedTagged(s, PingWait(gen));
    SendFrame(popped, Ping);
    if gen == s.link.generation && !s.link.userClosed {
      WriteTagged(popped, Send(popped, Ping));
      TaggedMore(Send(popped, Ping).tasks, PingWait(gen), gen);
      TaggedMore(popped.tasks, PingWait(gen), gen);
      ErrorLive(popped);
    }
  }

  lemma WaitKeepsLive(s: State, gen: nat, ok: bool)
    requires Live(s) && ReconnectWait(gen) in s.tasks
    requires !ok ==> s.link.userClosed
    ensures Live(OnReconnectWait(Popped(s, ReconnectWait(gen)), gen, ok))
  {
    PoppedTagged(s, ReconnectWait(gen));
    if gen == s.link.generation && !s.link.userClosed {
      var popped := Popped(s, ReconnectWait(gen));
      StartKeepsLive(popped.(link := popped.link.(reconnectScheduled := false)));
    }
  }

  lemma StartedKeepsLive(s: State)
    requires Live(s) && PostedStart in s.tasks
    ensures Live(StartConnect(Popped(s, PostedStart)))
  {
    PoppedTagged(s, PostedStart);
    if !s.link.userClosed {
      StartKeepsLive(Popped(s, PostedStart));
    }
  }

  lemma PostedKeepsLive(s: State, t: Task, s': State)
    requires t.PostedFlush? || t.PostedUnsubscribe?
    requires Live(s) && t in s.tasks && SameLink(s, s') && MayWrite(Popped(s, t), s')
    ensures Live(s')
  {
    hide Tagged, UserPosts;
    PoppedTagged(s, t);
    WriteTagged(Popped(s, t), s');
  }

  lemma CompleteKeepsLive(s: State, t: Task, o: Outcome)
    requires Live(s) && Enabled(s, Complete(t, o))
    ensures Live(Handle(Popped(s, t), t, o))
  {
    hide OnRead, OnHandshake, OnWrite, OnPingTimer, OnStage, OnReconnectWait, StartConnect, FlushTopics, SendUnsubscribe;
    PoppedTagged(s, t);
    match t
    case Read(gen) => ReadKeepsLive(s, gen, o);
    case WsHandshake(gen) => HandshakeKeepsLive(s, gen, o);
    case Write(gen) => WriteKeepsLive(s, gen, o);
    case PingWait(gen) => PingKeepsLive(s, gen, o);
    case Resolve(gen) => StageKeepsLive(s, t, Connect(gen), o.ok);
    case Connect(gen) => StageKeepsLive(s, t, TlsHandshake(gen), o.ok);
    case TlsHandshake(gen) => StageKeepsLive(s, t, WsHandshake(gen), o.ok);
    case ReconnectWait(gen) => WaitKeepsLive(s, gen, o.ok);
    case PostedStart => StartedKeepsLive(s);
    case PostedFlush =>
      FlushFrame(Popped(s, t));
      PostedKeepsLive(s, t, FlushTopics(Popped(s, t)));
    case PostedUnsubscribe(topic) =>
      UnsubscribeFrame(Popped(s, t), topic);
      PostedKeepsLive(s, t, SendUnsubscribe(Popped(s, t), topic));
    case PostedClose =>
  }

  lemma UserPostsOnly(midUser: multiset<Task>, t: Task)
    requires UserPosts(midUser) && t in midUser
    ensures (t.PostedFlush? || t.PostedUnsubscribe?) && UserPosts(midUser - multiset{t})
  {
  }

  /** Tasks other than connect stages, reads, waits and the first start drive nothing. */
  lemma DrivesNothing(s: State, s': State, t: Task)
    requires t.PostedFlush? || t.PostedUnsubscribe? || t.PostedClose?
    requires s'.link == s.link && s'.tasks == s.tasks + multiset{t}
    ensures Driven(s) ==> Driven(s')
  {
    var g := s.link.generation;
    assert StageOps(s'.tasks, g) == StageOps(s.tasks, g);
  }

  lemma PostKeepsLive(s: State, t: Task)
    requires Live(s) && t in s.midUser
    ensures Live(Step(s, UserPost(t)))
  {
    hide Handle, Tagged, UserPosts, Driven;
    UserPostsOnly(s.midUser, t);
    TaggedMore(s.tasks, t, s.link.generation);
    DrivesNothing(s, Step(s, UserPost(t)), t);
  }

  lemma StepKeepsLive(s: State, e: Event)
    requires Live(s) && Enabled(s, e)
    ensures Live(Step(s, e))
  {
    hide Handle, AddTopic, RemoveTopic, Tagged;
    match e
    case Complete(t, o) => CompleteKeepsLive(s, t, o);
    case UserPost(t) => PostKeepsLive(s, t);
    case UserClose =>
      TaggedMore(s.tasks, PostedClose, s.link.generation);
      DrivesNothing(s, Step(s, e), PostedClose);
    case _ =>
  }

  /** In every state of every run, under any interleaving of late, failed or stale completions. */
  lemma {:induction false} NeverStuck(authRequired: bool, first: Topic, es: seq<Event>)
    requires Legal(Init(authRequired, first), es)
    ensures Live(After(Init(authRequired, first), es))
    ensures !After(Init(authRequired, first), es).link.userClosed ==> Drivers(After(Init(authRequired, first), es)) == 1
  {
    var s0 := Init(authRequired, first);
    if es != [] {
      NeverStuck(authRequired, first, es[..|es| - 1]);
      StepKeepsLive(After(s0, es[..|es| - 1]), es[|es| - 1]);
    }
  }

  // ---------------------------------------------------------------- user close

  lemma StepStaysClosed(s: State, e: Event)
    requires s.link.userClosed
    ensures Step(s, e).link.userClosed && Step(s, e).link.generation == s.link.generation
  {
    hide Handle;
    if e.Complete? {
      CompleteStaysClosed(Popped(s, e.task), e.task, e.outcome);
    }
  }

  lemma CompleteStaysClosed(s: State, t: Task, o: Outcome)
    requires s.link.userClosed
    ensures Handle(s, t, o).link.userClosed && Handle(s, t, o).link.generation == s.link.generation
  {
    hide FlushTopics, Send, Pump, HandleApiControlMsg, Connected, PongTimedOut, AuthTimedOut;
    match t
    case Read(gen) =>
      if o.message.Control? && gen == s.link.generation {
        ControlFrame(s, o.message, o.nowMs);
      }
    case PostedFlush => FlushFrame(s);
    case PostedUnsubscribe(topic) => SendFrame(s, Unsubscribe(topic));
    case PingWait(_) => SendFrame(s, Ping);
    case Write(_) => PumpFrame(s.(out := s.out.(writeInFlight := false)));
    case _ =>
  }

  /** Once the user close has run, no run starts another connection. */
  lemma {:induction false} ClosedForGood(s: State, es: seq<Event>)
    requires s.link.userClosed
    ensures After(s, es).link.userClosed && After(s, es).link.generation == s.link.generation
  {
    hide Step;
    if es != [] {
      ClosedForGood(s, es[..|es| - 1]);
      StepStaysClosed(After(s, es[..|es| - 1]), es[|es| - 1]);
    }
  }

  /** A close takes hold: once asked for it can run, and from then on no connection is opened. */
  lemma CloseTakesHold(s: State, o: Outcome, es: seq<Event>)
    ensures var asked := Step(s, UserClose); var e := Complete(PostedClose, o);
      && Enabled(asked, e) && Step(asked, e).link.userClosed
      && After(Step(asked, e), es).link.generation == s.link.generation
  {
    ClosedForGood(Step(Step(s, UserClose), Complete(PostedClose, o)), es);
  }
}
