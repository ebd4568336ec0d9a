/**
 What one step can do to the wires, whichever handler runs: nothing, queue one frame, flush, or start a new connection.
 From it follow the claims that count frames and ids over whole runs.
 */
module SessionEffects {
  import opened Wrappers
  import opened SessionModel
  import opened SessionDriver
  import opened SessionAcks

  predicate SameWires(s: State, s': State) {
    s'.past == s.past && s'.topics.reqIdCounter == s.topics.reqIdCounter
  }

  /** Nothing queued; topics may have been taken back. */
  ghost predicate Quiet(s: State, s': State) {
    && SameWires(s, s') && s'.out.wire.enqueued == s.out.wire.enqueued
    && forall t :: t in s'.topics.subscriptions ==> t in s.topics.subscriptions
  }

  predicate Queues(s: State, s': State, f: Frame) {
    && SameWires(s, s') && s'.out.wire.enqueued == s.out.wire.enqueued + [f]
    && s'.topics.subscriptions == s.topics.subscriptions
  }

  /** One op for everything pending, under the next number. */
  predicate Flushes(s: State, s': State) {
    && s'.past == s.past && s'.topics.reqIdCounter == s.topics.reqIdCounter + 1
    && s'.out.wire.enqueued == s.out.wire.enqueued + [Subscribe(s.topics.reqIdCounter + 1, s.topics.pending)]
    && s'.topics.subscriptions == s.topics.subscriptions + s.topics.pending
  }

  predicate Redials(s: State, s': State) {
    && s'.past == s.past + [s.out.wire] && s'.topics.reqIdCounter == s.topics.reqIdCounter
    && s'.out.wire.enqueued == [] && s'.topics.subscriptions == s.topics.subscriptions
  }

  /** The effect of a handler other than a posted unsubscribe, which also leaves all posted unsubscribes where they are. */
  ghost predicate Effect(s: State, s': State) {
    && (Quiet(s, s') || Queues(s, s', Auth) || Queues(s, s', Ping) || Flushes(s, s') || Redials(s, s'))
    && SamePosts(s, s')
  }

  ghost predicate SamePosts(s: State, s': State) {
    s'.midUser == s.midUser && forall t :: s'.tasks[PostedUnsubscribe(t)] == s.tasks[PostedUnsubscribe(t)]
  }

  /** How many unsubscribes of `t` are owed: posted, or about to be. */
  function Posts(s: State, t: Topic): nat {
    s.tasks[PostedUnsubscribe(t)] + s.midUser[PostedUnsubscribe(t)]
  }

  // ---------------------------------------------------------------- the parts of a handler

  lemma SendEffect(s: State, f: Frame)
    ensures Queues(s, Send(s, f), f) && SamePosts(s, Send(s, f))
    ensures Quiet(s, Pump(s)) && SamePosts(s, Pump(s))
  {
  }

  lemma FlushEffect(s: State)
    ensures Effect(s, FlushTopics(s))
  {
    hide Send;
    if FlushTopics(s) != s {
      SendEffect(s.(topics := Flushed(s.topics)), Subscribe(s.topics.reqIdCounter + 1, s.topics.pending));
    }
  }

  lemma ErrorEffect(s: State, gen: nat)
    ensures Effect(s, HandleError(s, gen))
  {
  }

  lemma StartEffect(s: State)
    ensures Effect(s, StartConnect(s))
  {
  }

  /** What happens before or after on the way to an effect: flags, timers, other tasks. */
  ghost predicate Aside(s: State, s': State) {
    && s'.topics == s.topics && s'.past == s.past && s'.out.wire.enqueued == s.out.wire.enqueued && SamePosts(s, s')
  }

  lemma EffectAfter(s: State, s': State, s'': State)
    requires Aside(s, s') && Effect(s', s'') && (s'.out.wire == s.out.wire || !Redials(s', s''))
    ensures Effect(s, s'')
  {
  }

  lemma EffectBefore(s: State, s': State, s'': State)
    requires Effect(s, s') && Aside(s', s'')
    ensures Effect(s, s'')
  {
  }

  lemma {:induction false} ErasedWasThere(ts: seq<Topic>, args: seq<Topic>, t: Topic)
    requires t in EraseEach(ts, args)
    ensures t in ts
    decreases |args|
  {
    if args != [] {
      ErasedWasThere(EraseFirst(ts, args[0]), args[1..], t);
      ErasedOnce(ts, args[0], t);
    }
  }

  lemma {:induction false} ErasedOnce(ts: seq<Topic>, gone: Topic, t: Topic)
    requires t in EraseFirst(ts, gone)
    ensures t in ts
  {
    if ts[0] != gone && t != ts[0] {
      ErasedOnce(ts[1..], gone, t);
    }
  }

  lemma ReplyEffect(s: State, success: bool, reqId: string)
    ensures Effect(s, s.(topics := OnSubscribeReply(s.topics, success, reqId)))
  {
    var b := s.topics;
    var target := AckTarget(b.inflight, reqId);
    if target.Some? && !success {
      forall t | t in EraseEach(b.subscriptions, b.inflight[target.value]) ensures t in b.subscriptions {
        ErasedWasThere(b.subscriptions, b.inflight[target.value], t);
      }
    }
  }

  lemma ControlEffect(s: State, gen: nat, m: Inbound, nowMs: int)
    requires m.Control?
    ensures Effect(s, HandleApiControlMsg(s, gen, m, nowMs))
  {
    hide FlushTopics, HandleError, OnSubscribeReply, Effect;
    if m.op == OpPong || m.saysPong {
      NoEffect(s, s.(timers := s.timers.(lastPongMs := nowMs)));
    } else if m.op == OpAuth {
      if m.success {
        FlushEffect(Authenticated(s));
        FlushNotRedial(Authenticated(s));
        EffectAfter(s, Authenticated(s), FlushTopics(Authenticated(s)));
      } else {
        ErrorEffect(s, gen);
      }
    } else if m.op == OpSubscribe {
      ReplyEffect(s, m.success, m.reqId);
    } else {
      NoEffect(s, s);
    }
  }

  lemma NoEffect(s: State, s': State)
    requires Aside(s, s')
    ensures Effect(s, s')
  {
  }

  lemma FlushNotRedial(s: State)
    ensures !Redials(s, FlushTopics(s))
  {
    hide Send;
    FlushFrame(s);
  }

  // ---------------------------------------------------------------- the handlers

  lemma ReadEffect(s: State, gen: nat, o: Outcome)
    ensures Effect(s, OnRead(s, gen, o))
  {
    hide HandleError, HandleApiControlMsg, Effect;
    NoEffect(s, s);
    ErrorEffect(s, gen);
    if o.message.Control? {
      ControlEffect(s, gen, o.message, o.nowMs);
      var handled := HandleApiControlMsg(s, gen, o.message, o.nowMs);
      EffectBefore(s, handled, RearmRead(handled, gen));
    } else {
      EffectBefore(s, s, RearmRead(s, gen));
    }
  }

  lemma WriteEffect(s: State, gen: nat, ok: bool)
    ensures Effect(s, OnWrite(s, gen, ok))
  {
    hide Pump, HandleError;
    var idle := s.(out := s.out.(writeInFlight := false));
    SendEffect(idle, Ping);
    ErrorEffect(idle, gen);
  }

  lemma PingEffect(s: State, gen: nat, ok: bool, nowMs: int)
    ensures Effect(s, OnPingTimer(s, gen, ok, nowMs))
  {
    hide Send, HandleError, PongTimedOut, AuthTimedOut;
    SendEffect(s, Ping);
    ErrorEffect(s, gen);
  }

  lemma ConnectedEffect(s: State, o: Outcome)
    ensures Effect(s, Connected(s, o))
  {
    hide Send, FlushTopics, Effect;
    var up := s.(link := s.link.(connected := true, streamOpen := o.streamOpen),
                 timers := s.timers.(lastPongMs := o.nowMs),
                 tasks := s.tasks + multiset{PingWait(s.link.generation)});
    if s.authRequired {
      AuthEffect(s, up, o.nowMs);
    } else {
      FlushEffect(up);
      EffectAfter(s, up, FlushTopics(up));
    }
  }

  lemma AuthEffect(s: State, up: State, nowMs: int)
    requires Aside(s, up)
    ensures Effect(s, SendAuth(up, nowMs))
  {
    hide Send;
    SendEffect(up.(timers := up.timers.(authDeadlineMs := Some(nowMs + AUTH_ACK_TIMEOUT_MS))), Auth);
  }

  lemma HandshakeEffect(s: State, gen: nat, o: Outcome)
    ensures Effect(s, OnHandshake(s, gen, o))
  {
    hide Connected, HandleError, Effect;
    NoEffect(s, s);
    ErrorEffect(s, gen);
    ConnectedEffect(s, o);
    EffectBefore(s, Connected(s, o), WithTask(Connected(s, o), Read(gen)));
  }

  lemma StageEffect(s: State, gen: nat, ok: bool, next: Task)
    requires !next.PostedUnsubscribe?
    ensures Effect(s, OnStage(s, gen, ok, next))
  {
    hide HandleError;
    ErrorEffect(s, gen);
  }

  lemma WaitEffect(s: State, gen: nat, ok: bool)
    ensures Effect(s, OnReconnectWait(s, gen, ok))
  {
    hide StartConnect;
    StartEffect(s.(link := s.link.(reconnectScheduled := false)));
  }

  lemma CompleteEffect(s: State, t: Task, o: Outcome)
    requires !t.PostedUnsubscribe?
    ensures Effect(s, Handle(s, t, o))
  {
    hide OnRead, OnHandshake, OnWrite, OnPingTimer, OnStage, OnReconnectWait, StartConnect, FlushTopics, SendUnsubscribe;
    hide Effect;
    match t
    case PostedStart => StartEffect(s);
    case PostedFlush => FlushEffect(s);
    case PostedClose => NoEffect(s, s.(link := s.link.(userClosed := true)));
    case Resolve(gen) => StageEffect(s, gen, o.ok, Connect(gen));
    case Connect(gen) => StageEffect(s, gen, o.ok, TlsHandshake(gen));
    case TlsHandshake(gen) => StageEffect(s, gen, o.ok, WsHandshake(gen));
    case WsHandshake(gen) => HandshakeEffect(s, gen, o);
    case Read(gen) => ReadEffect(s, gen, o);
    case Write(gen) => WriteEffect(s, gen, o.ok);
    case PingWait(gen) => PingEffect(s, gen, o.ok, o.nowMs);
    case ReconnectWait(gen) => WaitEffect(s, gen, o.ok);
  }

  // ---------------------------------------------------------------- one step

  /** The effects of a step on the wires. */
  ghost predicate WireEffect(s: State, e: Event, s': State) {
    || Quiet(s, s') || Queues(s, s', Auth) || Queues(s, s', Ping) || Flushes(s, s') || Redials(s, s')
    || (e.Complete? && e.task.PostedUnsubscribe? && Queues(s, s', Unsubscribe(e.task.topic)))
  }

  /** Every step has one of them. */
  lemma StepEffect(s: State, e: Event)
    requires Enabled(s, e)
    ensures WireEffect(s, e, Step(s, e))
  {
    hide Handle, AddTopic;
    if e.Complete? {
      var popped := Popped(s, e.task);
      if e.task.PostedUnsubscribe? {
        UnsubscribeEffect(popped, e.task, e.outcome);
      } else {
        CompleteEffect(popped, e.task, e.outcome);
      }
    } else if e.UserSubscribe? {
      AddedFrame(s.topics, e.topic);
    } else if e.UserUnsubscribe? {
      hide EraseFirst, Minus;
      LeavesFewer(s.topics.subscriptions, e.topic);
    }
  }

  lemma AddedFrame(b: Topics, t: Topic)
    ensures AddTopic(b, t).subscriptions == b.subscriptions && AddTopic(b, t).reqIdCounter == b.reqIdCounter
  {
  }

  /** How a step changes the number of unsubscribes of `t` owed. */
  function PostsChange(s: State, e: Event, t: Topic): int {
    if e == UserUnsubscribe(t) && t in s.topics.subscriptions then 1
    else if e.Complete? && e.task == PostedUnsubscribe(t) then -1
    else 0
  }

  /** Unsubscribes owed are conserved: one more for an unsubscribe of a sent topic, one fewer when a posted one runs. */
  lemma StepPosts(s: State, e: Event, t: Topic)
    requires Enabled(s, e)
    ensures Posts(Step(s, e), t) == Posts(s, t) + PostsChange(s, e, t)
  {
    hide Handle, AddTopic, RemoveTopic;
    if e.Complete? {
      var popped := Popped(s, e.task);
      if e.task.PostedUnsubscribe? {
        UnsubscribeEffect(popped, e.task, e.outcome);
      } else {
        CompleteEffect(popped, e.task, e.outcome);
      }
    }
  }

  lemma LeavesFewer(ts: seq<Topic>, gone: Topic)
    ensures forall t :: t in EraseFirst(ts, gone) ==> t in ts
  {
    forall t | t in EraseFirst(ts, gone) ensures t in ts {
      ErasedOnce(ts, gone, t);
    }
  }

  lemma UnsubscribeEffect(s: State, t: Task, o: Outcome)
    requires t.PostedUnsubscribe?
    ensures var s' := Handle(s, t, o);
      && (Quiet(s, s') || Queues(s, s', Unsubscribe(t.topic))) && SamePosts(s, s')
  {
    hide Send;
    SendEffect(s, Unsubscribe(t.topic));
  }

  // ---------------------------------------------------------------- ids across reconnects

  ghost predicate IdsUpTo(frames: seq<Frame>, n: nat) {
    forall i :: 0 <= i < |frames| && frames[i].Subscribe? ==> frames[i].id <= n
  }

  ghost predicate IdsBefore(frames: seq<Frame>, later: seq<Frame>) {
    forall i, j :: 0 <= i < |frames| && frames[i].Subscribe? && 0 <= j < |later| && later[j].Subscribe?
      ==> frames[i].id < later[j].id
  }

  /** Every subscribe id on a connection is below every id on a later one. */
  ghost predicate IdsGrow(s: State) {
    && IdsUpTo(s.out.wire.enqueued, s.topics.reqIdCounter)
    && (forall a :: 0 <= a < |s.past| ==>
          IdsUpTo(s.past[a].enqueued, s.topics.reqIdCounter) && IdsBefore(s.past[a].enqueued, s.out.wire.enqueued))
    && (forall a, b :: 0 <= a < b < |s.past| ==> IdsBefore(s.past[a].enqueued, s.past[b].enqueued))
  }

  lemma StepIdsGrow(s: State, e: Event)
    requires Enabled(s, e) && IdsGrow(s)
    ensures IdsGrow(Step(s, e))
  {
    StepEffect(s, e);
    hide Step, Enabled, IdsUpTo, IdsBefore;
    var s' := Step(s, e);
    var frames := s.out.wire.enqueued;
    if Flushes(s, s') {
      var f := Subscribe(s.topics.reqIdCounter + 1, s.topics.pending);
      forall a | 0 <= a < |s.past| ensures IdsUpTo(s.past[a].enqueued, f.id) && IdsBefore(s.past[a].enqueued, frames + [f]) {
        OneMoreId(s.past[a].enqueued, frames, f, s.topics.reqIdCounter);
      }
      OneMoreId([], frames, f, s.topics.reqIdCounter);
    } else if Redials(s, s') {
      forall a | 0 <= a < |s.past| + 1 ensures IdsBefore(s'.past[a].enqueued, []) {
        NoIdYet(s'.past[a].enqueued, s.topics.reqIdCounter);
      }
      NoIdYet([], s.topics.reqIdCounter);
    } else if !Quiet(s, s') {
      var f := s'.out.wire.enqueued[|frames|];
      forall a | 0 <= a < |s.past| ensures IdsBefore(s.past[a].enqueued, frames + [f]) {
        OtherFrameIds(s.past[a].enqueued, frames, f, s.topics.reqIdCounter);
      }
      OtherFrameIds([], frames, f, s.topics.reqIdCounter);
    }
  }

  lemma OneMoreId(past: seq<Frame>, frames: seq<Frame>, f: Frame, n: nat)
    requires f.Subscribe? && f.id == n + 1
    ensures IdsUpTo(past, n) ==> IdsUpTo(past, n + 1)
    ensures IdsUpTo(frames, n) ==> IdsUpTo(frames + [f], n + 1)
    ensures IdsUpTo(past, n) && IdsBefore(past, frames) ==> IdsBefore(past, frames + [f])
  {
  }

  lemma NoIdYet(past: seq<Frame>, n: nat)
    ensures IdsBefore(past, []) && IdsUpTo([], n)
  {
  }

  lemma OtherFrameIds(past: seq<Frame>, frames: seq<Frame>, f: Frame, n: nat)
    requires !f.Subscribe?
    ensures IdsUpTo(frames, n) ==> IdsUpTo(frames + [f], n)
    ensures IdsBefore(past, frames) ==> IdsBefore(past, frames + [f])
  {
  }

  /** In every run the ids grow along a connection and from one connection to the next: the counter survives every
      reconnect. */
  lemma {:induction false} IdsGrowAcrossReconnects(authRequired: bool, first: Topic, es: seq<Event>)
    requires Legal(Init(authRequired, first), es)
    ensures var s := After(Init(authRequired, first), es);
      IdsGrow(s) && Increasing(s.out.wire.enqueued, s.topics.reqIdCounter)
  {
    AlwaysSound(authRequired, first, es);
    hide Step;
    if es != [] {
      IdsGrowAcrossReconnects(authRequired, first, es[..|es| - 1]);
      StepIdsGrow(After(Init(authRequired, first), es[..|es| - 1]), es[|es| - 1]);
    }
  }
}
