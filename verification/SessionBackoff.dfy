/**
 Reconnect backoff over whole runs: without an auth success a credentialed session slows down to one attempt per 30 s,
 however many connections it opens and frames it receives meanwhile.
 */
module SessionBackoff {
  import opened Wrappers
  import opened SessionModel
  import opened SessionDriver

  function PowerOfTwo(n: nat): nat {
    if n == 0 then 1 else 2 * PowerOfTwo(n - 1)
  }

  /** The delay before retry n + 1. */
  function Delay(n: nat): nat {
    if PowerOfTwo(n) < RECONNECT_DELAY_MAX_S then PowerOfTwo(n) else RECONNECT_DELAY_MAX_S
  }

  function Total(delays: seq<nat>): nat {
    if delays == [] then 0 else Total(delays[..|delays| - 1]) + delays[|delays| - 1]
  }

  ghost predicate Doubling(retries: seq<nat>) {
    forall i :: 0 <= i < |retries| ==> retries[i] == Delay(i)
  }

  /** `retries` holds the delays scheduled since the last reset: an auth success on a credentialed session, any processed
      frame on a public one. */
  ghost predicate Paced(s: State) {
    && s.timers.reconnectDelayS in {1, 2, 4, 8, 16, 30}
    && s.timers.reconnectDelayS == Delay(|s.timers.retries|)
    && Doubling(s.timers.retries)
    && (s.link.connected && s.authRequired && s.link.authenticated ==> s.timers.retries == [])
  }

  lemma DelayDoubles(n: nat)
    ensures Delay(n + 1) == if Delay(n) * 2 < RECONNECT_DELAY_MAX_S then Delay(n) * 2 else RECONNECT_DELAY_MAX_S
  {
  }

  lemma ErrorPaced(s: State, gen: nat)
    requires Paced(s)
    ensures Paced(HandleError(s, gen))
  {
    DelayDoubles(|s.timers.retries|);
  }

  lemma SamePaced(s: State, s': State)
    requires Paced(s) && s'.timers.reconnectDelayS == s.timers.reconnectDelayS && s'.timers.retries == s.timers.retries
    requires s'.authRequired == s.authRequired
    requires s'.link.connected && s'.link.authenticated ==> s.link.connected && s.link.authenticated
    ensures Paced(s')
  {
  }

  lemma ControlPaced(s: State, m: Inbound, nowMs: int)
    requires Paced(s) && m.Control?
    ensures Paced(HandleApiControlMsg(s, s.link.generation, m, nowMs))
  {
    hide HandleError, FlushTopics, OnSubscribeReply;
    ErrorPaced(s, s.link.generation);
    FlushFrame(Authenticated(s));
  }

  lemma RearmPaced(s: State, gen: nat)
    requires Paced(s)
    ensures Paced(RearmRead(s, gen))
  {
  }

  lemma ReadPaced(s: State, gen: nat, o: Outcome)
    requires Paced(s)
    ensures Paced(OnRead(s, gen, o))
  {
    hide HandleError, HandleApiControlMsg, RearmRead, Paced;
    ErrorPaced(s, gen);
    RearmPaced(s, gen);
    if o.message.Control? && gen == s.link.generation {
      ControlPaced(s, o.message, o.nowMs);
      RearmPaced(HandleApiControlMsg(s, gen, o.message, o.nowMs), gen);
    }
  }

  lemma ConnectedPaced(s: State, o: Outcome)
    requires Paced(s) && !s.link.authenticated
    ensures Paced(Connected(s, o))
  {
    hide Send, FlushTopics;
    var up := s.(link := s.link.(connected := true, streamOpen := o.streamOpen),
                 timers := s.timers.(lastPongMs := o.nowMs),
                 tasks := s.tasks + multiset{PingWait(s.link.generation)});
    FlushFrame(up);
    SendFrame(up.(timers := up.timers.(authDeadlineMs := Some(o.nowMs + AUTH_ACK_TIMEOUT_MS))), Auth);
    hide Doubling, Delay;
    SamePaced(s, Connected(s, o));
  }

  lemma HandshakePaced(s: State, gen: nat, o: Outcome)
    requires Live(s) && Paced(s) && WsHandshake(gen) in s.tasks
    ensures Paced(OnHandshake(Popped(s, WsHandshake(gen)), gen, o))
  {
    hide HandleError, Connected, Paced, WellTagged;
    var popped := Popped(s, WsHandshake(gen));
    SamePaced(s, popped);
    ErrorPaced(popped, gen);
    if gen == s.link.generation && !s.link.userClosed {
      ConnectedPaced(popped, o);
      SamePaced(Connected(popped, o), WithTask(Connected(popped, o), Read(gen)));
    }
  }

  lemma PingPaced(s: State, gen: nat, ok: bool, nowMs: int)
    requires Paced(s)
    ensures Paced(OnPingTimer(s, gen, ok, nowMs))
  {
    hide HandleError, Send, Paced, PongTimedOut, AuthTimedOut;
    ErrorPaced(s, gen);
    SendFrame(s, Ping);
    SamePaced(s, WithTask(s, PingWait(gen)));
    SamePaced(s, WithTask(Send(s, Ping), PingWait(gen)));
  }

  lemma CompletePaced(s: State, t: Task, o: Outcome)
    requires Live(s) && Paced(s) && t in s.tasks
    ensures Paced(Handle(Popped(s, t), t, o))
  {
    hide OnRead, OnHandshake, OnPingTimer, FlushTopics, Send, Pump, HandleError, Paced, Live;
    var popped := Popped(s, t);
    SamePaced(s, popped);
    match t
    case Read(gen) => ReadPaced(popped, gen, o);
    case WsHandshake(gen) => HandshakePaced(s, gen, o);
    case PingWait(gen) => PingPaced(popped, gen, o.ok, o.nowMs);
    case Write(gen) =>
      var idle := popped.(out := popped.out.(writeInFlight := false));
      SamePaced(popped, idle);
      ErrorPaced(idle, gen);
      PumpFrame(idle);
      SamePaced(idle, Pump(idle));
    case PostedFlush =>
      FlushFrame(popped);
      SamePaced(popped, FlushTopics(popped));
    case PostedUnsubscribe(topic) =>
      SendFrame(popped, Unsubscribe(topic));
      SamePaced(popped, SendUnsubscribe(popped, topic));
    case Resolve(gen) => StagePaced(popped, gen, o.ok, Connect(gen));
    case Connect(gen) => StagePaced(popped, gen, o.ok, TlsHandshake(gen));
    case TlsHandshake(gen) => StagePaced(popped, gen, o.ok, WsHandshake(gen));
    case ReconnectWait(gen) => SamePaced(popped, OnReconnectWait(popped, gen, o.ok));
    case PostedStart => SamePaced(popped, StartConnect(popped));
    case PostedClose => SamePaced(popped, popped.(link := popped.link.(userClosed := true)));
  }

  lemma StagePaced(s: State, gen: nat, ok: bool, next: Task)
    requires Paced(s)
    ensures Paced(OnStage(s, gen, ok, next))
  {
    hide HandleError, Paced;
    ErrorPaced(s, gen);
    SamePaced(s, WithTask(s, next));
  }

  lemma StepPaced(s: State, e: Event)
    requires Live(s) && Paced(s) && Enabled(s, e)
    ensures Paced(Step(s, e))
  {
    hide Handle, Paced;
    if e.Complete? {
      CompletePaced(s, e.task, e.outcome);
    } else {
      SamePaced(s, Step(s, e));
    }
  }

  /** In every run the delay is one of 1, 2, 4, 8, 16, 30, and the n-th retry since the last reset waited
      min(2^(n-1), 30) seconds. */
  lemma {:induction false} BackoffSchedule(authRequired: bool, first: Topic, es: seq<Event>)
    requires Legal(Init(authRequired, first), es)
    ensures Paced(After(Init(authRequired, first), es))
  {
    hide Step;
    if es != [] {
      BackoffSchedule(authRequired, first, es[..|es| - 1]);
      NeverStuck(authRequired, first, es[..|es| - 1]);
      StepPaced(After(Init(authRequired, first), es[..|es| - 1]), es[|es| - 1]);
    }
  }

  /** The sum of the first n delays. */
  function Schedule(n: nat): nat {
    if n == 0 then 0 else Schedule(n - 1) + Delay(n - 1)
  }

  lemma {:induction false} ScheduleTotal(n: nat)
    requires n >= 5
    ensures Schedule(n) == 31 + 30 * (n - 5)
  {
    if n == 5 {
      FirstDelays();
      assert Schedule(2) == 3;
      assert Schedule(4) == 15;
    } else {
      ScheduleTotal(n - 1);
      LateDelay(n - 1);
    }
  }

  lemma {:induction false} LaterDelaysAreLonger(n: nat, k: nat)
    ensures Delay(n) <= Delay(n + k)
  {
    if k > 0 {
      LaterDelaysAreLonger(n, k - 1);
      assert PowerOfTwo(n + k) == 2 * PowerOfTwo(n + k - 1);
    }
  }

  lemma {:induction false} TotalAtLeast(delays: seq<nat>, k: nat)
    requires forall i :: 0 <= i < |delays| ==> delays[i] == Delay(k + i)
    ensures Total(delays) >= Schedule(|delays|)
  {
    if delays != [] {
      TotalAtLeast(delays[..|delays| - 1], k);
      LaterDelaysAreLonger(|delays| - 1, k);
      assert delays[|delays| - 1] == Delay(k + (|delays| - 1));
    }
  }

  lemma FirstDelays()
    ensures Delay(0) == 1 && Delay(1) == 2 && Delay(2) == 4 && Delay(3) == 8 && Delay(4) == 16
  {
    assert PowerOfTwo(2) == 4;
    assert PowerOfTwo(4) == 16;
  }

  lemma {:induction false} LateDelay(n: nat)
    requires n >= 5
    ensures PowerOfTwo(n) >= 32 && Delay(n) == 30
  {
    if n == 5 {
      assert PowerOfTwo(3) == 8;
    } else {
      LateDelay(n - 1);
    }
  }

  /** The current connection's auth is accepted. */
  predicate AuthSucceeds(s: State, e: Event) {
    && e.Complete? && e.task == Read(s.link.generation) && e.outcome.ok && e.outcome.message.Control?
    && e.outcome.message.op == OpAuth && !e.outcome.message.saysPong && e.outcome.message.success
  }

  ghost predicate NoAuthSuccess(s: State, es: seq<Event>) {
    es == [] || (NoAuthSuccess(s, es[..|es| - 1]) && !AuthSucceeds(After(s, es[..|es| - 1]), es[|es| - 1]))
  }

  predicate Schedules(s: State, s': State) {
    s'.link.reconnectScheduled && !s.link.reconnectScheduled
  }

  /** How many reconnects a run scheduled. */
  ghost function Reconnects(s: State, es: seq<Event>): nat {
    if es == [] then 0
    else Reconnects(s, es[..|es| - 1]) + if Schedules(After(s, es[..|es| - 1]), After(s, es)) then 1 else 0
  }

  // ---------------------------------------------------------------- the clock

  /** With `at` the times in ms of a run's events: when the wait scheduled last in this run is over. */
  ghost function Due(s: State, es: seq<Event>, at: seq<int>): Option<int>
    requires |at| == |es|
  {
    if es == [] then None
    else
      var n := |es| - 1;
      var before := After(s, es[..n]);
      if Schedules(before, After(s, es)) then Some(at[n] + 1000 * before.timers.reconnectDelayS) else Due(s, es[..n], at[..n])
  }

  predicate EndsWait(s: State, e: Event) {
    e.Complete? && e.task == ReconnectWait(s.link.generation)
  }

  /** Time does not run backwards, and no wait scheduled in this run ends before it is over. */
  ghost predicate Clocked(s: State, es: seq<Event>, at: seq<int>)
    requires |at| == |es|
  {
    es == [] ||
    (var n := |es| - 1;
     var due := Due(s, es[..n], at[..n]);
     && Clocked(s, es[..n], at[..n])
     && (n > 0 ==> at[n - 1] <= at[n])
     && (EndsWait(After(s, es[..n]), es[n]) && due.Some? ==> at[n] >= due.value))
  }

  /** Any stretch of a credentialed session without an auth success, whatever connections it opens and frames it receives,
      whenever replies of earlier connections still come in: the n-th retry does not begin until 31 + 30 (n - 5) seconds
      after the stretch did, for n >= 5. */
  lemma NoConnectStorm(first: Topic, es: seq<Event>, stretch: seq<Event>, at: seq<int>)
    requires Legal(Init(true, first), es) && Legal(After(Init(true, first), es), stretch)
    requires var s := After(Init(true, first), es);
      && NoAuthSuccess(s, stretch) && Reconnects(s, stretch) >= 5
      && |at| == |stretch| && at != [] && Clocked(s, stretch, at)
    ensures var s := After(Init(true, first), es);
      var n := Reconnects(s, stretch);
      var due := Due(s, stretch, at);
      && due.Some? && due.value - at[0] >= 1000 * (31 + 30 * (n - 5))
      && (!After(s, stretch).link.reconnectScheduled ==> at[|at| - 1] - at[0] >= 1000 * (31 + 30 * (n - 5)))
  {
    hide Step, Init, Total, Reconnects, Due, Clocked, NoAuthSuccess;
    CredentialedInit(first);
    BackoffSchedule(true, first, es);
    NeverStuck(true, first, es);
    StaysCredentialed(Init(true, first), es);
    var s := After(Init(true, first), es);
    WaitsFill(s, stretch, at);
    DelaysSum(s, stretch);
  }

  /** The delays scheduled in the stretch. */
  ghost function Scheduled(s: State, es: seq<Event>): seq<nat> {
    if es == [] then []
    else
      var before := After(s, es[..|es| - 1]);
      Scheduled(s, es[..|es| - 1]) + if Schedules(before, After(s, es)) then [before.timers.reconnectDelayS] else []
  }

  lemma DelaysSum(s: State, stretch: seq<Event>)
    requires s.authRequired && Live(s) && Paced(s) && Legal(s, stretch)
    requires NoAuthSuccess(s, stretch) && Reconnects(s, stretch) >= 5
    ensures Total(Scheduled(s, stretch)) >= 31 + 30 * (Reconnects(s, stretch) - 5)
  {
    hide Step, Live, Legal, After, Reconnects, NoAuthSuccess, Scheduled;
    RetriesCounted(s, stretch);
    StretchPaced(s, stretch);
    var n := Reconnects(s, stretch);
    var all := After(s, stretch).timers.retries;
    assert Scheduled(s, stretch) == all[|s.timers.retries|..];
    TotalAtLeast(all[|s.timers.retries|..], |s.timers.retries|);
    ScheduleTotal(n);
  }

  /** The waits of a stretch lie one after the other. */
  lemma {:induction false} WaitsFill(s: State, es: seq<Event>, at: seq<int>)
    requires s.authRequired && Live(s) && Legal(s, es) && NoAuthSuccess(s, es) && |at| == |es| && Clocked(s, es, at)
    ensures es != [] ==>
      var total := 1000 * Total(Scheduled(s, es)); var due := Due(s, es, at);
      && (Reconnects(s, es) > 0 ==> due.Some? && due.value >= at[0] + total)
      && (Reconnects(s, es) == 0 ==> due.None? && total == 0)
      && at[0] <= at[|at| - 1]
      && (!After(s, es).link.reconnectScheduled ==> at[|at| - 1] >= at[0] + total)
  {
    hide Step, Live, Enabled, AuthSucceeds;
    if es != [] {
      var n := |es| - 1;
      var init, e := es[..n], es[n];
      var before := After(s, init);
      WaitsFill(s, init, at[..n]);
      RetriesCounted(s, init);
      StillLive(s, init);
      StepCounted(before, e);
      TotalOneMore(Scheduled(s, init), before.timers.reconnectDelayS);
      assert Scheduled(s, init) + [] == Scheduled(s, init);
    }
  }

  lemma TotalOneMore(delays: seq<nat>, d: nat)
    ensures Total(delays + [d]) == Total(delays) + d && Total([]) == 0
  {
    assert (delays + [d])[..|delays|] == delays;
  }

  lemma {:induction false} StillLive(s: State, es: seq<Event>)
    requires Live(s) && Legal(s, es)
    ensures Live(After(s, es))
  {
    hide Step, Live;
    if es != [] {
      StillLive(s, es[..|es| - 1]);
      StepKeepsLive(After(s, es[..|es| - 1]), es[|es| - 1]);
    }
  }

  lemma CredentialedInit(first: Topic)
    ensures Init(true, first).authRequired
  {
  }

  lemma {:induction false} StretchPaced(s: State, es: seq<Event>)
    requires Live(s) && Paced(s) && Legal(s, es)
    ensures Live(After(s, es)) && Paced(After(s, es))
  {
    hide Step, Live, Paced;
    if es != [] {
      StretchPaced(s, es[..|es| - 1]);
      StepKeepsLive(After(s, es[..|es| - 1]), es[|es| - 1]);
      StepPaced(After(s, es[..|es| - 1]), es[|es| - 1]);
    }
  }

  lemma {:induction false} StaysCredentialed(s: State, es: seq<Event>)
    ensures After(s, es).authRequired == s.authRequired
  {
    hide Step;
    if es != [] {
      StaysCredentialed(s, es[..|es| - 1]);
      StepCredentials(After(s, es[..|es| - 1]), es[|es| - 1]);
    }
  }

  lemma StepCredentials(s: State, e: Event)
    ensures Step(s, e).authRequired == s.authRequired
  {
    hide Handle;
    if e.Complete? {
      CompleteCredentials(Popped(s, e.task), e.task, e.outcome);
    }
  }

  lemma CompleteCredentials(s: State, t: Task, o: Outcome)
    ensures Handle(s, t, o).authRequired == s.authRequired
  {
    hide OnRead, OnHandshake, FlushTopics, Send, Pump, PongTimedOut, AuthTimedOut;
    match t
    case Read(gen) => ReadCredentials(s, gen, o);
    case WsHandshake(gen) => HandshakeCredentials(s, gen, o);
    case Write(_) => PumpFrame(s.(out := s.out.(writeInFlight := false)));
    case PingWait(_) => SendFrame(s, Ping);
    case PostedUnsubscribe(topic) => SendFrame(s, Unsubscribe(topic));
    case PostedFlush => FlushFrame(s);
    case _ =>
  }

  lemma ReadCredentials(s: State, gen: nat, o: Outcome)
    ensures OnRead(s, gen, o).authRequired == s.authRequired
  {
    hide HandleApiControlMsg;
    if o.message.Control? && gen == s.link.generation {
      ControlFrame(s, o.message, o.nowMs);
    }
  }

  lemma HandshakeCredentials(s: State, gen: nat, o: Outcome)
    ensures OnHandshake(s, gen, o).authRequired == s.authRequired
  {
    hide Connected;
    GreetFrame(s, o);
  }

  lemma {:induction false} RetriesCounted(s: State, es: seq<Event>)
    requires NoAuthSuccess(s, es) && s.authRequired
    ensures After(s, es).timers.retries == s.timers.retries + Scheduled(s, es)
    ensures |Scheduled(s, es)| == Reconnects(s, es)
    ensures After(s, es).authRequired
  {
    hide Step, AuthSucceeds;
    if es != [] {
      RetriesCounted(s, es[..|es| - 1]);
      StepCounted(After(s, es[..|es| - 1]), es[|es| - 1]);
    }
  }

  /** Scheduling a reconnect is the one thing that adds to the retries; a wait that has begun is on until it ends. */
  predicate Counted(s: State, s': State) {
    && s'.authRequired == s.authRequired
    && s'.timers.retries == s.timers.retries + (if Schedules(s, s') then [s.timers.reconnectDelayS] else [])
    && (s.link.reconnectScheduled ==> s'.link.reconnectScheduled)
  }

  lemma StepCounted(s: State, e: Event)
    requires s.authRequired && !AuthSucceeds(s, e)
    ensures var s' := Step(s, e);
      Counted(s, if EndsWait(s, e) then s'.(link := s'.link.(reconnectScheduled := s.link.reconnectScheduled)) else s')
    ensures EndsWait(s, e) ==> !Step(s, e).link.reconnectScheduled
  {
    if e.Complete? {
      hide Handle;
      CompleteCounted(Popped(s, e.task), e.task, e.outcome);
    }
  }

  lemma CompleteCounted(s: State, t: Task, o: Outcome)
    requires s.authRequired && !AuthSucceeds(s, Complete(t, o))
    ensures var s' := Handle(s, t, o);
      if t == ReconnectWait(s.link.generation)
      then !s'.link.reconnectScheduled && Counted(s, s'.(link := s'.link.(reconnectScheduled := s.link.reconnectScheduled)))
      else Counted(s, s')
  {
    hide FlushTopics, Send, Pump, OnSubscribeReply, HandleError, OnRead, OnHandshake, PongTimedOut, AuthTimedOut;
    if t.Read? {
      ReadCounted(s, t.gen, o);
    } else if t.WsHandshake? {
      HandshakeCounted(s, t.gen, o);
    } else {
      ErrorCounted(s, if t.PostedStart? || t.PostedFlush? || t.PostedUnsubscribe? || t.PostedClose? then 0 else t.gen);
      if t.Write? {
        var idle := s.(out := s.out.(writeInFlight := false));
        ErrorCounted(idle, t.gen);
        PumpFrame(idle);
      }
      FlushFrame(s);
      SendFrame(s, if t.PostedUnsubscribe? then Unsubscribe(t.topic) else Ping);
    }
  }

  lemma ErrorCounted(s: State, gen: nat)
    ensures Counted(s, HandleError(s, gen))
  {
  }

  lemma ReadCounted(s: State, gen: nat, o: Outcome)
    requires s.authRequired && !AuthSucceeds(s, Complete(Read(gen), o))
    ensures Counted(s, OnRead(s, gen, o))
  {
    hide FlushTopics, OnSubscribeReply, HandleError;
    ErrorCounted(s, gen);
  }

  lemma HandshakeCounted(s: State, gen: nat, o: Outcome)
    ensures Counted(s, OnHandshake(s, gen, o))
  {
    hide Connected, HandleError;
    ErrorCounted(s, gen);
    GreetFrame(s, o);
    ConnectedRetries(s, o);
  }

  lemma ConnectedRetries(s: State, o: Outcome)
    ensures Connected(s, o).timers.retries == s.timers.retries
  {
    hide Send, FlushTopics;
    var up := s.(link := s.link.(connected := true, streamOpen := o.streamOpen),
                 timers := s.timers.(lastPongMs := o.nowMs),
                 tasks := s.tasks + multiset{PingWait(s.link.generation)});
    FlushFrame(up);
    SendFrame(up.(timers := up.timers.(authDeadlineMs := Some(o.nowMs + AUTH_ACK_TIMEOUT_MS))), Auth);
  }
}
