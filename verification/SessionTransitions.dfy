/**
 What each event does to the connection, exactly: when the session gives a connection up, dials, comes up or counts as
 authenticated, which frame is queued, and how the backoff moves. Whatever is not named stays as it is.
 */
module SessionTransitions {
  import opened Wrappers
  import opened SessionModel
  import opened SessionDriver
  import opened SessionBackoff

  // ---------------------------------------------------------------- events

  /** The current connection's handshake succeeds. */
  predicate ComesUp(s: State, e: Event) {
    e.Complete? && e.task == WsHandshake(s.link.generation) && e.outcome.ok && !s.link.userClosed
  }

  /** A frame of the current connection that parses is received. */
  predicate Hears(s: State, e: Event) {
    e.Complete? && e.task == Read(s.link.generation) && e.outcome.ok && !e.outcome.message.Malformed?
  }

  predicate IsPong(m: Inbound) {
    m.Control? && (m.op == OpPong || m.saysPong)
  }

  predicate RefusesAuth(m: Inbound) {
    m.Control? && !IsPong(m) && m.op == OpAuth && !m.success
  }

  /** 61 s without a pong, or an auth reply that has not come by its deadline. */
  predicate Late(s: State, nowMs: int) {
    || nowMs - s.timers.lastPongMs >= 61000
    || (s.authRequired && !s.link.authenticated
        && s.timers.authDeadlineMs.Some? && nowMs > s.timers.authDeadlineMs.value)
  }

  /** The wait between two heartbeats of a connection that is up is over. */
  predicate Ticks(s: State, e: Event) {
    e.Complete? && e.task == PingWait(s.link.generation) && e.outcome.ok && s.link.connected && !s.link.userClosed
  }

  /** The current connection fails: a stage, a write or a read of it, a frame that does not parse, credentials refused,
      or a tick that comes late. */
  predicate Breaks(s: State, e: Event) {
    var g := s.link.generation;
    && e.Complete?
    && match e.task
       case Resolve(gen) => gen == g && !e.outcome.ok
       case Connect(gen) => gen == g && !e.outcome.ok
       case TlsHandshake(gen) => gen == g && !e.outcome.ok
       case WsHandshake(gen) => gen == g && !e.outcome.ok
       case Write(gen) => gen == g && !e.outcome.ok
       case Read(gen) => gen == g && (!Hears(s, e) || RefusesAuth(e.outcome.message))
       case PingWait(_) => Ticks(s, e) && Late(s, e.outcome.nowMs)
       case _ => false
  }

  /** A connection fails that has not been given up before. */
  predicate GivesUp(s: State, e: Event) {
    Breaks(s, e) && !s.link.reconnectScheduled && !s.link.userClosed
  }

  /** The next connection is started: for the first time, or at the end of a reconnect wait. */
  predicate Dials(s: State, e: Event) {
    !s.link.userClosed && e.Complete? && (e.task == PostedStart || (EndsWait(s, e) && e.outcome.ok))
  }

  // ---------------------------------------------------------------- the connection

  /** Flag by flag: what sets it, what clears it. */
  function LinkAfter(s: State, e: Event): Link {
    Link(if Dials(s, e) then s.link.generation + 1 else s.link.generation,
         (s.link.connected && !GivesUp(s, e) && !Dials(s, e)) || ComesUp(s, e),
         (s.link.authenticated && !GivesUp(s, e) && !Dials(s, e)) || AuthSucceeds(s, e),
         (s.link.reconnectScheduled && !EndsWait(s, e)) || GivesUp(s, e),
         s.link.userClosed || (e.Complete? && e.task == PostedClose),
         if ComesUp(s, e) then e.outcome.streamOpen
         else s.link.streamOpen && !Dials(s, e) && e != StreamDrops)
  }

  lemma ControlMoves(s: State, m: Inbound, nowMs: int)
    requires m.Control?
    ensures var s' := HandleApiControlMsg(s, s.link.generation, m, nowMs);
      if m.op == OpAuth && !m.saysPong
      then if m.success then s'.link == s.link.(authenticated := true) else s'.link == HandleError(s, s.link.generation).link
      else s'.link == s.link
  {
    hide FlushTopics, HandleError, OnSubscribeReply;
    FlushFrame(Authenticated(s));
  }

  lemma ReadMoves(s: State, gen: nat, o: Outcome)
    ensures OnRead(s, gen, o).link == LinkAfter(s, Complete(Read(gen), o))
  {
    hide HandleApiControlMsg;
    if gen == s.link.generation && o.message.Control? {
      ControlMoves(s, o.message, o.nowMs);
    }
  }

  lemma HandshakeMoves(s: State, gen: nat, o: Outcome)
    ensures OnHandshake(s, gen, o).link == LinkAfter(s, Complete(WsHandshake(gen), o))
  {
    hide Connected;
    GreetFrame(s, o);
  }

  lemma WriteMoves(s: State, gen: nat, o: Outcome)
    ensures OnWrite(s, gen, o.ok).link == LinkAfter(s, Complete(Write(gen), o))
  {
    hide Pump;
    PumpFrame(s.(out := s.out.(writeInFlight := false)));
  }

  lemma TickMoves(s: State, gen: nat, o: Outcome)
    ensures OnPingTimer(s, gen, o.ok, o.nowMs).link == LinkAfter(s, Complete(PingWait(gen), o))
  {
    hide Send;
    SendFrame(s, Ping);
  }

  lemma StageMoves(s: State, t: Task, o: Outcome)
    requires t.Resolve? || t.Connect? || t.TlsHandshake?
    ensures Handle(s, t, o).link == LinkAfter(s, Complete(t, o))
  {
  }

  lemma WaitMoves(s: State, gen: nat, o: Outcome)
    ensures OnReconnectWait(s, gen, o.ok).link == LinkAfter(s, Complete(ReconnectWait(gen), o))
  {
  }

  lemma CompleteMoves(s: State, t: Task, o: Outcome)
    ensures Handle(s, t, o).link == LinkAfter(s, Complete(t, o))
  {
    hide FlushTopics, Send, OnRead, OnWrite, OnPingTimer, OnHandshake, OnReconnectWait, OnStage;
    match t
    case PostedStart =>
    case PostedFlush => FlushFrame(s);
    case PostedUnsubscribe(topic) => SendFrame(s, Unsubscribe(topic));
    case PostedClose =>
    case WsHandshake(gen) => HandshakeMoves(s, gen, o);
    case Read(gen) => ReadMoves(s, gen, o);
    case Write(gen) => WriteMoves(s, gen, o);
    case PingWait(gen) => TickMoves(s, gen, o);
    case ReconnectWait(gen) => WaitMoves(s, gen, o);
    case _ => StageMoves(s, t, o);
  }

  /** The flags after a step: each changes exactly on the events named, whichever handler runs. */
  lemma LinkMoves(s: State, e: Event)
    ensures Step(s, e).link == LinkAfter(s, e)
  {
    hide Handle;
    if e.Complete? {
      CompleteMoves(Popped(s, e.task), e.task, e.outcome);
    }
  }

  /** A session gives its connection up exactly when the connection breaks, and then waits to dial again. */
  lemma LostExactlyWhenBroken(s: State, e: Event)
    requires Live(s) && Enabled(s, e) && !s.link.userClosed
    ensures var s' := Step(s, e);
      && (s.link.connected ==> (s'.link.connected <==> !Breaks(s, e)))
      && (Schedules(s, s') <==> GivesUp(s, e))
      && (GivesUp(s, e) ==> Waiting(s'))
  {
    UpOrScheduled(s);
    UpDialsNothing(s, e);
    LinkMoves(s, e);
    StepKeepsLive(s, e);
    hide Enabled, Step, Live, Breaks;
    if GivesUp(s, e) {
      ScheduledWaits(Step(s, e));
    }
  }

  lemma UpDialsNothing(s: State, e: Event)
    requires Live(s) && Enabled(s, e) && !s.link.userClosed
    ensures s.link.connected ==> !Dials(s, e) && !ComesUp(s, e)
    ensures GivesUp(s, e) ==> !EndsWait(s, e) && !Dials(s, e) && e.task != PostedClose
  {
  }

  lemma ScheduledWaits(s: State)
    requires Live(s) && !s.link.userClosed && s.link.reconnectScheduled
    ensures Waiting(s)
  {
  }

  // ---------------------------------------------------------------- the frames

  function OpFor(s: State): seq<Frame> {
    if s.topics.pending == [] then [] else [Subscribe(s.topics.reqIdCounter + 1, s.topics.pending)]
  }

  /** What each event queues: auth or the op for the pending topics when a connection comes up, that op also on an auth
      success and on a posted flush, a posted unsubscribe, and one ping for a tick in time. */
  function FramesFor(s: State, e: Event): seq<Frame> {
    if ComesUp(s, e) then if s.authRequired then [Auth] else OpFor(s)
    else if AuthSucceeds(s, e) then if s.link.connected then OpFor(s) else []
    else if Ticks(s, e) && !Late(s, e.outcome.nowMs) then [Ping]
    else if e.Complete? && e.task == PostedFlush && s.Operational() then OpFor(s)
    else if e.Complete? && e.task.PostedUnsubscribe? && s.link.connected then [Unsubscribe(e.task.topic)]
    else []
  }

  predicate QueuesAll(s: State, s': State, frames: seq<Frame>) {
    s'.out.wire.enqueued == s.out.wire.enqueued + frames
  }

  lemma SendQueues(s: State, f: Frame)
    ensures QueuesAll(s, Send(s, f), [f]) && QueuesAll(s, Pump(s), [])
  {
  }

  lemma FlushQueues(s: State)
    ensures QueuesAll(s, FlushTopics(s), if s.Operational() then OpFor(s) else [])
  {
    hide Send;
    if s.Operational() && s.topics.pending != [] {
      SendQueues(s.(topics := Flushed(s.topics)), Subscribe(s.topics.reqIdCounter + 1, s.topics.pending));
    }
  }

  lemma HandshakeQueues(s: State, gen: nat, o: Outcome)
    ensures QueuesAll(s, OnHandshake(s, gen, o), FramesFor(s, Complete(WsHandshake(gen), o)))
  {
    hide Connected, HandleError, OpFor;
    ConnectedQueues(s, o);
    ErrorQueues(s, gen);
  }

  lemma ErrorQueues(s: State, gen: nat)
    ensures QueuesAll(s, HandleError(s, gen), [])
  {
  }

  lemma ConnectedQueues(s: State, o: Outcome)
    ensures QueuesAll(s, Connected(s, o), if s.authRequired then [Auth] else OpFor(s))
  {
    hide Send, FlushTopics;
    var up := s.(link := s.link.(connected := true, streamOpen := o.streamOpen),
                 timers := s.timers.(lastPongMs := o.nowMs),
                 tasks := s.tasks + multiset{PingWait(s.link.generation)});
    FlushQueues(up);
    SendQueues(up.(timers := up.timers.(authDeadlineMs := Some(o.nowMs + AUTH_ACK_TIMEOUT_MS))), Auth);
  }

  lemma ReadQueues(s: State, gen: nat, o: Outcome)
    ensures QueuesAll(s, OnRead(s, gen, o), FramesFor(s, Complete(Read(gen), o)))
  {
    hide HandleApiControlMsg, HandleError, OpFor;
    ErrorQueues(s, gen);
    if gen == s.link.generation && o.message.Control? {
      ControlQueues(s, o.message, o.nowMs);
    }
  }

  lemma ControlQueues(s: State, m: Inbound, nowMs: int)
    requires m.Control?
    ensures QueuesAll(s, HandleApiControlMsg(s, s.link.generation, m, nowMs),
                      if m.op == OpAuth && !m.saysPong && m.success && s.link.connected then OpFor(s) else [])
  {
    hide FlushTopics, OnSubscribeReply, HandleError;
    FlushQueues(Authenticated(s));
    ErrorQueues(s, s.link.generation);
  }

  lemma TickQueues(s: State, gen: nat, o: Outcome)
    ensures QueuesAll(s, OnPingTimer(s, gen, o.ok, o.nowMs), FramesFor(s, Complete(PingWait(gen), o)))
  {
    LateIsTimedOut(s, o.nowMs);
    hide Send, HandleError, PongTimedOut, AuthTimedOut, Late;
    ErrorQueues(s, gen);
    SendQueues(s, Ping);
  }

  lemma CompleteQueues(s: State, t: Task, o: Outcome)
    requires !Dials(s, Complete(t, o))
    ensures QueuesAll(s, Handle(s, t, o), FramesFor(s, Complete(t, o)))
  {
    hide FlushTopics, Send, Pump, OnRead, OnPingTimer, OnHandshake;
    match t
    case PostedFlush => FlushQueues(s);
    case PostedUnsubscribe(topic) => SendQueues(s, Unsubscribe(topic));
    case WsHandshake(gen) => HandshakeQueues(s, gen, o);
    case Read(gen) => ReadQueues(s, gen, o);
    case Write(gen) => SendQueues(s.(out := s.out.(writeInFlight := false)), Ping);
    case PingWait(gen) => TickQueues(s, gen, o);
    case _ =>
  }

  /** Every frame a step queues, and no other; a dialled connection starts with none. */
  lemma FramesQueued(s: State, e: Event)
    ensures Step(s, e).out.wire.enqueued == if Dials(s, e) then [] else s.out.wire.enqueued + FramesFor(s, e)
  {
    hide Handle;
    if e.Complete? {
      if Dials(s, e) {
        DialledEmpty(Popped(s, e.task), e.task, e.outcome);
      } else {
        CompleteQueues(Popped(s, e.task), e.task, e.outcome);
      }
    }
  }

  lemma DialledEmpty(s: State, t: Task, o: Outcome)
    requires Dials(s, Complete(t, o))
    ensures Handle(s, t, o).out.wire.enqueued == []
  {
  }

  // ---------------------------------------------------------------- the timers

  /** The delay doubles up to 30 s with every connection given up and starts over on an auth success and on any frame heard
      by an operational session. A pong in either form and a handshake count as heard. The auth reply is due 15 s after the
      handshake, until it has come or the connection is given up. */
  function TimersAfter(s: State, e: Event): Timers {
    var t := s.timers;
    if GivesUp(s, e) then
      Timers(if t.reconnectDelayS <= 15 then 2 * t.reconnectDelayS else 30, t.lastPongMs, None, t.retries + [t.reconnectDelayS])
    else if Dials(s, e) then t.(authDeadlineMs := None)
    else if ComesUp(s, e) then
      t.(lastPongMs := e.outcome.nowMs, authDeadlineMs := if s.authRequired then Some(e.outcome.nowMs + 15000) else t.authDeadlineMs)
    else if AuthSucceeds(s, e) then Timers(1, t.lastPongMs, None, [])
    else if Hears(s, e) && !RefusesAuth(e.outcome.message) then
      Timers(if s.Operational() then 1 else t.reconnectDelayS,
             if IsPong(e.outcome.message) then e.outcome.nowMs else t.lastPongMs,
             t.authDeadlineMs,
             if s.Operational() && !s.authRequired then [] else t.retries)
    else if e.PongFrame? then t.(lastPongMs := e.nowMs)
    else t
  }

  lemma TimersMove(s: State, e: Event)
    requires Live(s) && !s.link.userClosed
    ensures Step(s, e).timers == TimersAfter(s, e)
  {
    UpOrScheduled(s);
    hide Live;
    StepTimed(s, e);
  }

  lemma StepTimed(s: State, e: Event)
    requires !s.link.userClosed && (s.link.connected ==> !s.link.reconnectScheduled)
    ensures Step(s, e).timers == TimersAfter(s, e)
  {
    hide Handle;
    if e.Complete? {
      CompleteTimed(Popped(s, e.task), e.task, e.outcome);
    }
  }

  lemma UpOrScheduled(s: State)
    requires Live(s) && !s.link.userClosed
    ensures s.link.connected ==> !s.link.reconnectScheduled
  {
  }

  lemma CompleteTimed(s: State, t: Task, o: Outcome)
    requires !s.link.userClosed && (s.link.connected ==> !s.link.reconnectScheduled)
    ensures Handle(s, t, o).timers == TimersAfter(s, Complete(t, o))
  {
    hide FlushTopics, Send, Pump, OnRead, OnHandshake, OnPingTimer, OnStage;
    match t
    case PostedFlush => FlushFrame(s);
    case PostedUnsubscribe(topic) => SendFrame(s, Unsubscribe(topic));
    case WsHandshake(gen) => HandshakeTimed(s, gen, o);
    case Read(gen) => ReadTimed(s, gen, o);
    case Write(gen) => PumpFrame(s.(out := s.out.(writeInFlight := false)));
    case PingWait(gen) => TickTimed(s, gen, o);
    case Resolve(_) => StageTimed(s, t, o);
    case Connect(_) => StageTimed(s, t, o);
    case TlsHandshake(_) => StageTimed(s, t, o);
    case _ =>
  }

  lemma ErrorTimed(s: State, gen: nat)
    ensures HandleError(s, gen).timers ==
      if gen != s.link.generation || s.link.reconnectScheduled || s.link.userClosed then s.timers else BackedOff(s.timers)
  {
  }

  lemma ConnectedTimed(s: State, o: Outcome)
    ensures Connected(s, o).timers ==
      s.timers.(lastPongMs := o.nowMs,
                authDeadlineMs := if s.authRequired then Some(o.nowMs + 15000) else s.timers.authDeadlineMs)
  {
    hide Send, FlushTopics;
    var up := s.(link := s.link.(connected := true, streamOpen := o.streamOpen),
                 timers := s.timers.(lastPongMs := o.nowMs),
                 tasks := s.tasks + multiset{PingWait(s.link.generation)});
    FlushFrame(up);
    SendFrame(up.(timers := up.timers.(authDeadlineMs := Some(o.nowMs + AUTH_ACK_TIMEOUT_MS))), Auth);
  }

  lemma HandshakeTimed(s: State, gen: nat, o: Outcome)
    requires !s.link.userClosed
    ensures OnHandshake(s, gen, o).timers == TimersAfter(s, Complete(WsHandshake(gen), o))
  {
    hide Connected, HandleError;
    ConnectedTimed(s, o);
    ErrorTimed(s, gen);
  }

  lemma ReadTimed(s: State, gen: nat, o: Outcome)
    requires !s.link.userClosed && (s.link.connected ==> !s.link.reconnectScheduled)
    ensures OnRead(s, gen, o).timers == TimersAfter(s, Complete(Read(gen), o))
  {
    hide HandleApiControlMsg;
    if gen == s.link.generation && o.message.Control? {
      ControlMoves(s, o.message, o.nowMs);
      ControlTimed(s, o.message, o.nowMs);
    }
  }

  lemma ControlTimed(s: State, m: Inbound, nowMs: int)
    requires m.Control?
    ensures var s' := HandleApiControlMsg(s, s.link.generation, m, nowMs);
      && s'.authRequired == s.authRequired
      && s'.timers == if IsPong(m) then s.timers.(lastPongMs := nowMs)
                      else if m.op != OpAuth then s.timers
                      else if m.success then Timers(1, s.timers.lastPongMs, None, [])
                      else HandleError(s, s.link.generation).timers
  {
    hide FlushTopics, OnSubscribeReply;
    FlushFrame(Authenticated(s));
  }

  lemma LateIsTimedOut(s: State, nowMs: int)
    ensures Late(s, nowMs) <==> PongTimedOut(s, nowMs) || AuthTimedOut(s, nowMs)
  {
  }

  lemma TickTimed(s: State, gen: nat, o: Outcome)
    requires !s.link.userClosed
    ensures OnPingTimer(s, gen, o.ok, o.nowMs).timers == TimersAfter(s, Complete(PingWait(gen), o))
  {
    LateIsTimedOut(s, o.nowMs);
    hide Send, HandleError, PongTimedOut, AuthTimedOut, Late;
    ErrorTimed(s, gen);
    SendFrame(s, Ping);
  }

  lemma StageTimed(s: State, t: Task, o: Outcome)
    requires !s.link.userClosed && (t.Resolve? || t.Connect? || t.TlsHandshake?)
    ensures Handle(s, t, o).timers == TimersAfter(s, Complete(t, o))
  {
    hide HandleError;
    ErrorTimed(s, t.gen);
  }
}
