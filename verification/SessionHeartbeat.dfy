/**
 The heartbeat: a connected session always has one ping wait. A wait that ends queues a ping, unless a pong or the auth
 reply is overdue, when it gives the connection up. A transport that is half open, whose read never completes, is freed
 this way, and one that is idle is kept.
 */
module SessionHeartbeat {
  import opened Wrappers
  import opened SessionModel
  import opened SessionDriver
  import opened SessionBackoff
  import opened SessionTransitions
  import opened SessionEffects

  /** One ping wait of the current connection while it is up. */
  predicate Beating(s: State) {
    s.link.connected && !s.link.userClosed ==> s.tasks[PingWait(s.link.generation)] == 1
  }

  /** A handler that keeps the current connection's ping waits. */
  predicate SameBeat(s: State, s': State) {
    && s'.link.generation == s.link.generation && s'.link.userClosed == s.link.userClosed
    && s'.tasks[PingWait(s.link.generation)] == s.tasks[PingWait(s.link.generation)]
    && (s'.link.connected ==> s.link.connected)
  }

  lemma SameBeats(s: State, s': State)
    requires Beating(s) && SameBeat(s, s')
    ensures Beating(s')
  {
  }

  lemma ErrorBeat(s: State, gen: nat)
    ensures SameBeat(s, HandleError(s, gen))
  {
  }

  lemma WriteBeat(s: State, s': State)
    requires SameLink(s, s') && MayWrite(s, s')
    ensures SameBeat(s, s')
  {
  }

  lemma ReadBeat(s: State, gen: nat, o: Outcome)
    ensures SameBeat(s, OnRead(s, gen, o))
  {
    hide HandleError, HandleApiControlMsg;
    if gen == s.link.generation {
      ErrorBeat(s, gen);
      if o.message.Control? {
        ControlFrame(s, o.message, o.nowMs);
      }
    }
  }

  lemma HandshakeBeats(s: State, gen: nat, o: Outcome)
    requires Live(s) && Beating(s) && WsHandshake(gen) in s.tasks
    ensures Beating(OnHandshake(Popped(s, WsHandshake(gen)), gen, o))
  {
    var popped := Popped(s, WsHandshake(gen));
    if gen == s.link.generation && !s.link.userClosed {
      assert s.tasks[PingWait(gen)] == 0 && !s.link.connected;
      hide Live, Connected, HandleError;
      GreetFrame(popped, o);
      ErrorBeat(popped, gen);
    }
    hide Live, Connected, HandleError;
  }

  lemma TickBeats(s: State, gen: nat, o: Outcome)
    requires Live(s) && Beating(s) && Enabled(s, Complete(PingWait(gen), o))
    ensures Beating(OnPingTimer(Popped(s, PingWait(gen)), gen, o.ok, o.nowMs))
  {
    var popped := Popped(s, PingWait(gen));
    if gen == s.link.generation {
      if s.link.connected && !s.link.userClosed {
        UpIsUnscheduled(s);
      }
      ErrorGivesUp(popped);
    }
    hide Live, Send, HandleError, PongTimedOut, AuthTimedOut;
    SendFrame(popped, Ping);
  }

  lemma UpIsUnscheduled(s: State)
    requires Live(s) && s.link.connected && !s.link.userClosed
    ensures !s.link.reconnectScheduled
  {
  }

  /** An error of the current connection gives it up, unless the session is closed or has given it up already. */
  lemma ErrorGivesUp(s: State)
    ensures var s' := HandleError(s, s.link.generation);
      && s'.link.userClosed == s.link.userClosed && s'.link.generation == s.link.generation
      && (!s.link.userClosed && !s.link.reconnectScheduled ==> !s'.link.connected && s'.link.reconnectScheduled)
      && (s.link.userClosed || s.link.reconnectScheduled ==> s' == s)
  {
  }

  lemma StageBeat(s: State, gen: nat, ok: bool, next: Task)
    requires !next.PingWait?
    ensures SameBeat(s, OnStage(s, gen, ok, next))
  {
    hide HandleError;
    ErrorBeat(s, gen);
  }

  lemma CompleteBeats(s: State, t: Task, o: Outcome)
    requires Live(s) && Beating(s) && Enabled(s, Complete(t, o))
    ensures Beating(Handle(Popped(s, t), t, o))
  {
    var popped := Popped(s, t);
    if t.WsHandshake? {
      HandshakeBeats(s, t.gen, o);
    } else if t.PingWait? {
      TickBeats(s, t.gen, o);
    } else if t.PostedStart? || t.ReconnectWait? {
      hide Live;
    } else {
      OtherBeat(popped, t, o);
      PoppedBeats(s, t);
    }
    hide Live, OnRead, OnWrite, OnStage, OnPingTimer, OnHandshake, FlushTopics, SendUnsubscribe;
  }

  lemma PoppedBeats(s: State, t: Task)
    requires Beating(s) && !t.PingWait?
    ensures Beating(Popped(s, t))
  {
  }

  lemma OtherBeat(s: State, t: Task, o: Outcome)
    requires !t.WsHandshake? && !t.PingWait? && !t.PostedStart? && !t.ReconnectWait?
    requires Beating(s)
    ensures Beating(Handle(s, t, o))
  {
    hide OnRead, OnStage, HandleError, Pump, Send, FlushTopics;
    match t
    case Read(gen) => ReadBeat(s, gen, o);
    case Write(gen) => PumpFrame(s.(out := s.out.(writeInFlight := false))); ErrorBeat(s.(out := s.out.(writeInFlight := false)), gen);
    case Resolve(gen) => StageBeat(s, gen, o.ok, Connect(gen));
    case Connect(gen) => StageBeat(s, gen, o.ok, TlsHandshake(gen));
    case TlsHandshake(gen) => StageBeat(s, gen, o.ok, WsHandshake(gen));
    case PostedFlush => FlushFrame(s);
    case PostedUnsubscribe(topic) => SendFrame(s, Unsubscribe(topic));
    case PostedClose =>
  }

  lemma StepBeats(s: State, e: Event)
    requires Live(s) && Beating(s) && Enabled(s, e)
    ensures Beating(Step(s, e))
  {
    hide Handle;
    if e.Complete? {
      CompleteBeats(s, e.task, e.outcome);
    } else if e.UserPost? {
      assert !e.task.PingWait?;
    }
    hide Live;
  }

  /** In every state of every run a connected session has exactly one heartbeat of its connection. */
  lemma {:induction false} AlwaysBeating(authRequired: bool, first: Topic, es: seq<Event>)
    requires Legal(Init(authRequired, first), es)
    ensures Beating(After(Init(authRequired, first), es))
  {
    if es != [] {
      AlwaysBeating(authRequired, first, es[..|es| - 1]);
      NeverStuck(authRequired, first, es[..|es| - 1]);
      StepBeats(After(Init(authRequired, first), es[..|es| - 1]), es[|es| - 1]);
    }
    hide Step;
  }

  // ---------------------------------------------------------------- what a tick does

  predicate HearsPong(s: State, e: Event) {
    Hears(s, e) && IsPong(e.outcome.message)
  }

  /** When a run last heard the venue: a pong in either form, or the handshake. */
  ghost function LastPongAt(s: State, es: seq<Event>): int {
    if es == [] then s.timers.lastPongMs
    else
      var before, e := After(s, es[..|es| - 1]), es[|es| - 1];
      if e.PongFrame? then e.nowMs
      else if ComesUp(before, e) || HearsPong(before, e) then e.outcome.nowMs
      else LastPongAt(s, es[..|es| - 1])
  }

  /** When the latest handshake of a run succeeded. */
  ghost function UpSince(s: State, es: seq<Event>): int {
    if es == [] then 0
    else if ComesUp(After(s, es[..|es| - 1]), es[|es| - 1]) then es[|es| - 1].outcome.nowMs
    else UpSince(s, es[..|es| - 1])
  }

  /** 61 s without a pong, or 15 s without the auth reply. */
  ghost predicate Overdue(s: State, es: seq<Event>, nowMs: int) {
    || nowMs - LastPongAt(s, es) >= 61000
    || (s.authRequired && !After(s, es).link.authenticated && nowMs - UpSince(s, es) > 15000)
  }

  /** The stamps the session keeps: the last pong, and the time by which an auth reply still awaited is due. */
  predicate Stamped(s: State, lastPong: int, upSince: int) {
    && s.timers.lastPongMs == lastPong
    && (s.link.connected && s.authRequired && !s.link.authenticated ==> s.timers.authDeadlineMs == Some(upSince + 15000))
  }

  lemma StepStamped(s: State, e: Event, lastPong: int, upSince: int)
    requires Live(s) && !s.link.userClosed && Stamped(s, lastPong, upSince)
    ensures Stamped(Step(s, e),
                    if e.PongFrame? then e.nowMs else if ComesUp(s, e) || HearsPong(s, e) then e.outcome.nowMs else lastPong,
                    if ComesUp(s, e) then e.outcome.nowMs else upSince)
  {
    LinkMoves(s, e);
    TimersMove(s, e);
    StepCredentials(s, e);
    EventsApart(s, e);
    hide Step, Live, Breaks, AuthSucceeds, Dials, Hears, ComesUp, RefusesAuth, IsPong, HearsPong, EndsWait;
    PongStamp(s, e);
  }

  lemma PongStamp(s: State, e: Event)
    ensures TimersAfter(s, e).lastPongMs ==
      if e.PongFrame? then e.nowMs else if ComesUp(s, e) || HearsPong(s, e) then e.outcome.nowMs else s.timers.lastPongMs
  {
    EventsApart(s, e);
    hide Breaks, AuthSucceeds, Dials, ComesUp;
  }

  /** One event is not two of these. */
  lemma EventsApart(s: State, e: Event)
    ensures Dials(s, e) ==> !ComesUp(s, e) && !HearsPong(s, e) && !e.PongFrame?
    ensures HearsPong(s, e) ==> !RefusesAuth(e.outcome.message) && !Breaks(s, e) && !AuthSucceeds(s, e) && !ComesUp(s, e)
    ensures Breaks(s, e) ==> !ComesUp(s, e) && !e.PongFrame?
    ensures AuthSucceeds(s, e) ==> !ComesUp(s, e) && !e.PongFrame?
    ensures ComesUp(s, e) ==> !e.PongFrame?
  {
  }

  /** In every run until the user closes the session the stamps are these times. */
  lemma {:induction false} StampsTracked(authRequired: bool, first: Topic, es: seq<Event>)
    requires Legal(Init(authRequired, first), es) && !After(Init(authRequired, first), es).link.userClosed
    ensures var s0 := Init(authRequired, first); Stamped(After(s0, es), LastPongAt(s0, es), UpSince(s0, es))
  {
    var s0 := Init(authRequired, first);
    if es != [] {
      NotClosedBefore(s0, es);
      NeverStuck(authRequired, first, es[..|es| - 1]);
      StampsTracked(authRequired, first, es[..|es| - 1]);
      StepStamped(After(s0, es[..|es| - 1]), es[|es| - 1],
                  LastPongAt(s0, es[..|es| - 1]), UpSince(s0, es[..|es| - 1]));
      hide Step, Live, ComesUp, HearsPong, Stamped;
    }
  }

  lemma NotClosedBefore(s0: State, es: seq<Event>)
    requires es != [] && !After(s0, es).link.userClosed
    ensures !After(s0, es[..|es| - 1]).link.userClosed
  {
    hide Step;
    if After(s0, es[..|es| - 1]).link.userClosed {
      StepStaysClosed(After(s0, es[..|es| - 1]), es[|es| - 1]);
    }
  }

  lemma OverdueIsLate(authRequired: bool, first: Topic, es: seq<Event>, nowMs: int)
    requires Legal(Init(authRequired, first), es)
    requires !After(Init(authRequired, first), es).link.userClosed && After(Init(authRequired, first), es).link.connected
    ensures Overdue(Init(authRequired, first), es, nowMs) <==> Late(After(Init(authRequired, first), es), nowMs)
  {
    StampsTracked(authRequired, first, es);
    StaysCredentialed(Init(authRequired, first), es);
    hide Legal, After, LastPongAt, UpSince;
  }

  /** A connected session whose wait is over with a pong or the auth reply overdue schedules the reconnect and keeps the
      book. */
  lemma OverdueTickReconnects(authRequired: bool, first: Topic, es: seq<Event>, o: Outcome)
    requires Legal(Init(authRequired, first), es) && o.ok && Overdue(Init(authRequired, first), es, o.nowMs)
    requires var s := After(Init(authRequired, first), es); s.link.connected && !s.link.userClosed
    ensures var s := After(Init(authRequired, first), es);
      var e := Complete(PingWait(s.link.generation), o);
      && Enabled(s, e) && Waiting(Step(s, e)) && Step(s, e).topics.Book() == s.topics.Book()
  {
    OverdueIsLate(authRequired, first, es, o.nowMs);
    AlwaysBeating(authRequired, first, es);
    NeverStuck(authRequired, first, es);
    hide Legal, After, Init, Overdue;
    TickGivesUp(After(Init(authRequired, first), es), o);
  }

  lemma TickGivesUp(s: State, o: Outcome)
    requires Live(s) && Beating(s) && s.link.connected && !s.link.userClosed && o.ok && Late(s, o.nowMs)
    ensures var e := Complete(PingWait(s.link.generation), o);
      Enabled(s, e) && Waiting(Step(s, e)) && Step(s, e).topics.Book() == s.topics.Book()
  {
    UpIsUnscheduled(s);
    LateIsTimedOut(s, o.nowMs);
    hide PongTimedOut, AuthTimedOut;
    assert [] + s.topics.Book() == s.topics.Book();
  }

  /** Otherwise it queues one ping, on the same connection with the same books, and waits again. */
  lemma PunctualTickPings(authRequired: bool, first: Topic, es: seq<Event>, o: Outcome)
    requires Legal(Init(authRequired, first), es) && o.ok && !Overdue(Init(authRequired, first), es, o.nowMs)
    requires var s := After(Init(authRequired, first), es); s.link.connected && !s.link.userClosed
    ensures var s := After(Init(authRequired, first), es);
      var e := Complete(PingWait(s.link.generation), o);
      && Enabled(s, e) && Queues(s, Step(s, e), Ping)
      && Step(s, e).link == s.link && Step(s, e).topics == s.topics
      && Step(s, e).tasks[PingWait(s.link.generation)] == 1
  {
    OverdueIsLate(authRequired, first, es, o.nowMs);
    AlwaysBeating(authRequired, first, es);
    NeverStuck(authRequired, first, es);
    hide Legal, After, Init, Overdue;
    TickPings(After(Init(authRequired, first), es), o);
  }

  lemma TickPings(s: State, o: Outcome)
    requires Live(s) && Beating(s) && s.link.connected && !s.link.userClosed && o.ok && !Late(s, o.nowMs)
    ensures var e := Complete(PingWait(s.link.generation), o);
      && Enabled(s, e) && Queues(s, Step(s, e), Ping)
      && Step(s, e).link == s.link && Step(s, e).topics == s.topics
      && Step(s, e).tasks[PingWait(s.link.generation)] == 1
  {
    var e := Complete(PingWait(s.link.generation), o);
    var popped := Popped(s, e.task);
    LateIsTimedOut(s, o.nowMs);
    StepBeats(s, e);
    SendFrame(popped, Ping);
    SendEffect(popped, Ping);
    hide Send, HandleError, PongTimedOut, AuthTimedOut, Live;
  }
}
