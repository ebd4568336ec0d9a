/**
 The session object itself: the handlers with the fields they update in place. `Take` runs whatever happens next and is
 proved to take exactly the machine's step; `Serve` strings such calls together, so that what holds after every run of the
 machine holds of this object.
 */
module WebSocketSessions {
  import opened Wrappers
  import opened SessionModel
  import opened SessionAcks
  import opened SessionRuns
  import Decimal

  datatype Surroundings = Surroundings(
    tasks: multiset<Task>,
    midUser: multiset<Task>,
    past: seq<Wire>,
    replies: seq<bool>,
    credited: map<nat, bool>)

  class WebSocketSession {
    var authRequired: bool
    var link: Link            // generation, connected, authenticated, reconnectScheduled, userClosed, ws->is_open()
    var timers: Timers        // reconnectDelayS, lastPongTime, authDeadline
    var out: Outbound         // outboundQueue, writeInFlight
    var subscriptions: seq<Topic>
    var pendingTopics: seq<Topic>
    var inflightSubscribes: map<string, seq<Topic>>
    var reqIdCounter: nat
    var authenticatedFlag: bool

    // What the runtime owes the session, and the history the claims speak about.
    ghost var env: Surroundings
    ghost var ops: map<nat, seq<Topic>>

    /** The in-flight map is keyed by the text of the op's number; the cross-thread flag mirrors `authenticated`. */
    ghost predicate Valid()
      reads this
    {
      TextKeyed(ops, inflightSubscribes) && authenticatedFlag == link.authenticated
    }

    static ghost predicate TextKeyed(ops: map<nat, seq<Topic>>, text: map<string, seq<Topic>>) {
      && (forall n :: n in ops ==> Decimal.Print(n) in text && text[Decimal.Print(n)] == ops[n])
      && (forall k :: k in text ==> Decimal.AllDigits(k) && Decimal.Value(k) in ops && Decimal.Print(Decimal.Value(k)) == k)
    }

    ghost function Abs(): State
      reads this
    {
      State(authRequired, link, timers,
            Topics(subscriptions, pendingTopics, ops, reqIdCounter, env.replies, env.credited), out,
            env.tasks, env.midUser, env.past)
    }

    /** Construction, `setCredentials` and `run`: the topic is booked and the first connect posted. An empty filter is
        refused. */
    constructor (credentials: bool)
      ensures Valid() && Abs() == Idle(credentials)
    {
      authRequired := credentials;
      link, timers, out := Idle(credentials).link, Idle(credentials).timers, Idle(credentials).out;
      subscriptions, pendingTopics, inflightSubscribes, reqIdCounter := [], [], map[], 0;
      authenticatedFlag := false;
      env, ops := Surroundings(multiset{}, multiset{}, [], [], map[]), map[];
    }

    static function Idle(credentials: bool): State {
      Init(credentials, "").(topics := Topics([], [], map[], 0, [], map[]), tasks := multiset{})
    }

    method Run(filter: Topic) returns (accepted: bool)
      requires Valid()
      requires Abs() == Idle(authRequired)
      modifies this
      ensures Valid() && accepted == (filter != "")
      ensures if accepted then Abs() == Init(old(authRequired), filter) else Abs() == old(Abs())
    {
      hide TextKeyed;
      if filter == "" {
        return false;
      }
      BookTopic(filter);
      env := env.(tasks := env.tasks + multiset{PostedStart});
      return true;
    }

    // -------------------------------------------------------------- outbound write pump

    method StartWrite()
      requires Valid()
      modifies this`out, this`env
      ensures Valid() && Abs() == Pump(old(Abs()))
    {
      hide TextKeyed;
      if out.writeInFlight || !link.connected || !link.streamOpen {
        return;
      }
      if out.queue == [] {
        return;
      }
      out := out.(queue := out.queue[1..], wire := out.wire.(sent := out.wire.sent + [out.queue[0]]));
      out := out.(writeInFlight := true);
      env := env.(tasks := env.tasks + multiset{Write(link.generation)});
    }

    method EnqueueAndPump(frame: Frame)
      requires Valid()
      modifies this`out, this`env
      ensures Valid() && Abs() == Send(old(Abs()), frame)
    {
      hide TextKeyed;
      out := out.(queue := out.queue + [frame], wire := out.wire.(enqueued := out.wire.enqueued + [frame]));
      StartWrite();
    }

    // -------------------------------------------------------------- topic bookkeeping

    method BookTopic(topic: Topic)
      requires Valid()
      modifies this`pendingTopics
      ensures Valid() && Abs().topics == AddTopic(old(Abs()).topics, topic)
    {
      hide TextKeyed;
      if topic in subscriptions || topic in pendingTopics {
        return;
      }
      pendingTopics := pendingTopics + [topic];
    }

    method IsBooked(topic: Topic) returns (booked: bool)
      requires Valid()
      ensures booked <==> topic in Abs().topics.Book()
    {
      hide TextKeyed;
      booked := topic in subscriptions || topic in pendingTopics;
    }

    method IsConfirmed(topic: Topic) returns (confirmed: bool)
      requires Valid()
      ensures confirmed <==> IsSubscriptionConfirmed(Abs().topics, topic)
    {
      if topic !in subscriptions {
        return false;
      }
      confirmed := forall k :: k in inflightSubscribes ==> topic !in inflightSubscribes[k];
    }

    /** Every pending topic moves to `subscriptions`; `args` names them for the op. */
    method TakePending() returns (args: seq<Topic>)
      modifies this`subscriptions, this`pendingTopics
      ensures args == old(pendingTopics) && pendingTopics == [] && subscriptions == old(subscriptions) + args
    {
      args := [];
      var i := 0;
      while i < |pendingTopics|
        invariant 0 <= i <= |pendingTopics| && pendingTopics == old(pendingTopics)
        invariant args == pendingTopics[..i] && subscriptions == old(subscriptions) + args
      {
        args := args + [pendingTopics[i]];
        subscriptions := subscriptions + [pendingTopics[i]];
        i := i + 1;
      }
      pendingTopics := [];
    }

    /** One subscribe op for everything pending, in flight from now on. */
    method TakeOp() returns (args: seq<Topic>)
      requires Valid()
      modifies this`subscriptions, this`pendingTopics, this`reqIdCounter, this`inflightSubscribes, this`ops
      ensures Valid() && Abs().topics == Flushed(old(Abs()).topics) && args == old(pendingTopics)
      ensures reqIdCounter == old(reqIdCounter) + 1
    {
      hide TextKeyed, Decimal.Print;
      args := TakePending();
      reqIdCounter := reqIdCounter + 1;
      TextKeyedInsert(ops, inflightSubscribes, reqIdCounter, args);
      inflightSubscribes, ops := inflightSubscribes[Decimal.Print(reqIdCounter) := args], ops[reqIdCounter := args];
    }

    method Flush()
      requires Valid()
      modifies this
      ensures Valid() && Abs() == FlushTopics(old(Abs()))
    {
      hide TextKeyed, Flushed, Send;
      if !link.connected || (authRequired && !link.authenticated) {
        return;
      }
      if pendingTopics == [] {
        return;
      }
      var args := TakeOp();
      EnqueueAndPump(Subscribe(reqIdCounter, args));
    }

    static lemma TextKeyedInsert(ops: map<nat, seq<Topic>>, text: map<string, seq<Topic>>, n: nat, args: seq<Topic>)
      requires TextKeyed(ops, text)
      ensures TextKeyed(ops[n := args], text[Decimal.Print(n) := args])
    {
      hide Decimal.Print, Decimal.Value, Decimal.AllDigits;
      forall m | m in ops ensures Decimal.Value(Decimal.Print(m)) == m {
        Decimal.ValueOfPrint(m);
      }
      Decimal.ValueOfPrint(n);
    }

    static lemma TextKeyedRemove(ops: map<nat, seq<Topic>>, text: map<string, seq<Topic>>, n: nat)
      requires TextKeyed(ops, text)
      ensures TextKeyed(ops - {n}, text - {Decimal.Print(n)})
    {
      hide Decimal.Print, Decimal.Value, Decimal.AllDigits;
      forall m | m in ops ensures Decimal.Value(Decimal.Print(m)) == m {
        Decimal.ValueOfPrint(m);
      }
      Decimal.ValueOfPrint(n);
    }

    // -------------------------------------------------------------- errors and reconnect

    /** Sent topics go back in front of the pending ones, last first, so the order stays. */
    method Requeue()
      modifies this`subscriptions, this`pendingTopics
      ensures subscriptions == [] && pendingTopics == old(subscriptions) + old(pendingTopics)
    {
      var i := |subscriptions|;
      while i > 0
        invariant 0 <= i <= |subscriptions| && subscriptions == old(subscriptions)
        invariant pendingTopics == subscriptions[i..] + old(pendingTopics)
      {
        i := i - 1;
        pendingTopics := [subscriptions[i]] + pendingTopics;
      }
      subscriptions := [];
    }

    /** Nothing is in flight any more; every booked topic waits for the next connection. */
    method ForgetOps()
      requires Valid()
      modifies this`inflightSubscribes, this`ops, this`subscriptions, this`pendingTopics
      ensures Valid() && Abs().topics == Replayable(old(Abs()).topics)
    {
      inflightSubscribes, ops := map[], map[];
      Requeue();
    }

    method Fail(gen: nat)
      requires Valid()
      modifies this
      ensures Valid() && Abs() == HandleError(old(Abs()), gen)
    {
      hide TextKeyed, Replayable;
      if gen != link.generation || link.reconnectScheduled {
        return;
      }
      if link.userClosed {
        return;
      }
      link := link.(reconnectScheduled := true, connected := false, authenticated := false);
      authenticatedFlag := false;
      ForgetOps();
      out := out.(writeInFlight := false, queue := []);
      timers := BackedOff(timers);
      env := env.(tasks := env.tasks + multiset{ReconnectWait(gen)});
    }

    method Dial()
      requires Valid()
      modifies this
      ensures Valid() && Abs() == StartConnect(old(Abs()))
    {
      hide TextKeyed;
      if link.userClosed {
        return;
      }
      link := link.(generation := link.generation + 1, connected := false, authenticated := false, streamOpen := false);
      authenticatedFlag := false;
      timers := timers.(authDeadlineMs := None);
      env := env.(past := env.past + [out.wire], replies := [], credited := map[], tasks := env.tasks + multiset{Resolve(link.generation)});
      out := out.(writeInFlight := false, wire := FRESH);
    }

    // -------------------------------------------------------------- completion handlers

    method ReconnectWaitDone(gen: nat, o: Outcome)
      requires Valid() && ReconnectWait(gen) in env.tasks
      modifies this
      ensures Valid() && Abs() == Step(old(Abs()), Complete(ReconnectWait(gen), o))
    {
      hide TextKeyed, OnRead, OnHandshake, OnWrite, OnPingTimer, OnStage, StartConnect, FlushTopics, SendUnsubscribe;
      env := env.(tasks := env.tasks - multiset{ReconnectWait(gen)});
      if gen != link.generation {
        return;
      }
      link := link.(reconnectScheduled := false);
      if !o.ok || link.userClosed {
        return;
      }
      Dial();
    }

    /** `onResolve`, `onConnect` and `onSSLHandshake`, told apart by the operation that completed. */
    method StageDone(stage: Task, o: Outcome)
      requires Valid() && stage in env.tasks && (stage.Resolve? || stage.Connect? || stage.TlsHandshake?)
      modifies this
      ensures Valid() && Abs() == Step(old(Abs()), Complete(stage, o))
    {
      hide TextKeyed, HandleError, OnRead, OnHandshake, OnWrite, OnPingTimer, OnReconnectWait, StartConnect, FlushTopics, SendUnsubscribe;
      env := env.(tasks := env.tasks - multiset{stage});
      if stage.gen != link.generation {
        return;
      }
      if !o.ok {
        Fail(stage.gen);
        return;
      }
      env := env.(tasks := env.tasks + multiset{AfterStage(stage)});
    }

    static function AfterStage(stage: Task): Task
      requires stage.Resolve? || stage.Connect? || stage.TlsHandshake?
    {
      match stage
      case Resolve(gen) => Connect(gen)
      case Connect(gen) => TlsHandshake(gen)
      case TlsHandshake(gen) => WsHandshake(gen)
    }

    method ComeUp(o: Outcome)
      requires Valid()
      modifies this
      ensures Valid() && Abs() == Connected(old(Abs()), o)
    {
      hide TextKeyed, FlushTopics, Send;
      link := link.(connected := true, streamOpen := o.streamOpen);
      timers := timers.(lastPongMs := o.nowMs);
      env := env.(tasks := env.tasks + multiset{PingWait(link.generation)});
      if authRequired {
        timers := timers.(authDeadlineMs := Some(o.nowMs + AUTH_ACK_TIMEOUT_MS));
        EnqueueAndPump(Auth);
      } else {
        Flush();
      }
    }

    method HandshakeDone(gen: nat, o: Outcome)
      requires Valid() && WsHandshake(gen) in env.tasks
      modifies this
      ensures Valid() && Abs() == Step(old(Abs()), Complete(WsHandshake(gen), o))
    {
      hide TextKeyed, HandleError, Connected, OnRead, OnWrite, OnPingTimer, OnStage, OnReconnectWait, StartConnect, FlushTopics, SendUnsubscribe;
      env := env.(tasks := env.tasks - multiset{WsHandshake(gen)});
      if gen != link.generation {
        return;
      }
      if !o.ok {
        Fail(gen);
        return;
      }
      if link.userClosed {
        return;
      }
      ComeUp(o);
      env := env.(tasks := env.tasks + multiset{Read(gen)});
    }

    method WriteDone(gen: nat, o: Outcome)
      requires Valid() && Write(gen) in env.tasks
      modifies this
      ensures Valid() && Abs() == Step(old(Abs()), Complete(Write(gen), o))
    {
      hide TextKeyed, HandleError, Pump, OnRead, OnHandshake, OnPingTimer, OnStage, OnReconnectWait, StartConnect, FlushTopics, SendUnsubscribe;
      env := env.(tasks := env.tasks - multiset{Write(gen)});
      if gen != link.generation {
        return;
      }
      out := out.(writeInFlight := false);
      if !o.ok {
        Fail(gen);
        return;
      }
      StartWrite();
    }

    method ReadDone(gen: nat, o: Outcome)
      requires Valid() && Read(gen) in env.tasks
      modifies this
      ensures Valid() && Abs() == Step(old(Abs()), Complete(Read(gen), o))
    {
      hide TextKeyed, HandleError, HandleApiControlMsg, RearmRead, OnHandshake, OnWrite, OnPingTimer, OnStage, OnReconnectWait, StartConnect, FlushTopics, SendUnsubscribe;
      env := env.(tasks := env.tasks - multiset{Read(gen)});
      if gen != link.generation {
        return;
      }
      if !o.ok || o.message.Malformed? {
        Fail(gen);
        return;
      }
      if o.message.Control? {
        HandleControl(gen, o.message, o.nowMs);
      }
      Rearm(gen);
    }

    method Rearm(gen: nat)
      requires Valid()
      modifies this`timers, this`env
      ensures Valid() && Abs() == RearmRead(old(Abs()), gen)
    {
      hide TextKeyed;
      if gen != link.generation || link.reconnectScheduled || !link.connected {
        return;
      }
      if !authRequired || link.authenticated {
        timers := timers.(reconnectDelayS := 1, retries := if authRequired then timers.retries else []);
      }
      env := env.(tasks := env.tasks + multiset{Read(gen)});
    }

    method AcceptAuth()
      requires Valid()
      modifies this`link, this`authenticatedFlag, this`timers, this`out
      ensures Valid() && Abs() == Authenticated(old(Abs()))
    {
      hide TextKeyed;
      link := link.(authenticated := true);
      authenticatedFlag := true;
      timers := timers.(authDeadlineMs := None, reconnectDelayS := 1, retries := []);
      if out.wire.authAt.None? {
        out := out.(wire := out.wire.(authAt := Some(|out.wire.sent|)));
      }
    }

    method HandleControl(gen: nat, m: Inbound, nowMs: int)
      requires Valid() && m.Control?
      modifies this
      ensures Valid() && Abs() == HandleApiControlMsg(old(Abs()), gen, m, nowMs)
    {
      hide TextKeyed, HandleError, Authenticated, FlushTopics, OnSubscribeReply;
      if m.op == OpPong || m.saysPong {
        timers := timers.(lastPongMs := nowMs);
        return;
      }
      if m.op == OpAuth {
        if m.success {
          AcceptAuth();
          Flush();
        } else {
          Fail(gen);
        }
        return;
      }
      if m.op == OpSubscribe {
        CreditReply(m.success, m.reqId);
      }
    }

    /** `min_element` by `stoull`: the numeric minimum over the text keys. */
    static method OldestKey(text: map<string, seq<Topic>>, ghost ops: map<nat, seq<Topic>>) returns (oldest: string)
      requires TextKeyed(ops, text) && text != map[]
      ensures oldest in text && ops != map[] && oldest == Decimal.Print(Least(ops))
    {
      hide Decimal.Print, Decimal.Value;
      forall n | n in ops ensures Decimal.Value(Decimal.Print(n)) == n {
        Decimal.ValueOfPrint(n);
      }
      oldest :| oldest in text;
      var rest := text.Keys - {oldest};
      while rest != {}
        invariant rest <= text.Keys && oldest in text
        invariant forall n :: n in ops && n < Decimal.Value(oldest) ==> Decimal.Print(n) in rest
        decreases |rest|
      {
        var k :| k in rest;
        if Decimal.Value(k) < Decimal.Value(oldest) {
          oldest := k;
        }
        rest := rest - {k};
      }
    }

    /** The key a reply is credited to: its own, or the oldest for a reply without one. */
    static method FindTarget(text: map<string, seq<Topic>>, ghost ops: map<nat, seq<Topic>>, reqId: string)
      returns (key: Option<string>, ghost target: Option<nat>)
      requires TextKeyed(ops, text)
      ensures target == AckTarget(ops, reqId)
      ensures key == match AckTarget(ops, reqId) case Some(n) => Some(Decimal.Print(n)) case None => None
      ensures key.Some? ==> key.value in text
    {
      hide Decimal.Print, Decimal.Value, Decimal.AllDigits;
      target := AckTarget(ops, reqId);
      if reqId in text {
        SameText(ops, reqId, Decimal.Value(reqId));
        return Some(reqId), target;
      }
      if reqId == "" && text != map[] {
        var oldest := OldestKey(text, ops);
        return Some(oldest), target;
      }
      key := None;
    }

    static lemma SameText(ops: map<nat, seq<Topic>>, reqId: string, n: nat)
      requires n in ops && Decimal.Print(n) == reqId
      ensures AckTarget(ops, reqId) == Some(n)
    {
      forall m | m in ops && Decimal.Print(m) == reqId ensures m == n {
        Decimal.PrintInjective(m, n);
      }
    }

    method EraseTopics(args: seq<Topic>)
      modifies this`subscriptions
      ensures subscriptions == EraseEach(old(subscriptions), args)
    {
      var i := 0;
      while i < |args|
        invariant 0 <= i <= |args|
        invariant EraseEach(old(subscriptions), args) == EraseEach(subscriptions, args[i..])
      {
        assert args[i..][0] == args[i] && args[i..][1..] == args[i + 1..];
        subscriptions := EraseFirst(subscriptions, args[i]);
        i := i + 1;
      }
    }

    method CreditReply(success: bool, reqId: string)
      requires Valid()
      modifies this
      ensures Valid() && Abs() == old(Abs()).(topics := OnSubscribeReply(old(Abs()).topics, success, reqId))
    {
      hide AckTarget, EraseEach, Decimal.Print;
      var key, target := FindTarget(inflightSubscribes, ops, reqId);
      if key == None {
        env := env.(replies := env.replies + [success]);
        return;
      }
      if !success {
        EraseTopics(inflightSubscribes[key.value]);
      }
      DropOp(key.value, target.value, success);
    }

    /** The op is answered: out of flight, credited. */
    method DropOp(key: string, ghost n: nat, success: bool)
      requires Valid() && n in ops && key == Decimal.Print(n)
      modifies this`inflightSubscribes, this`ops, this`env
      ensures Valid() && ops == old(ops) - {n}
      ensures env == old(env).(replies := old(env).replies + [success], credited := old(env).credited[n := success])
    {
      TextKeyedRemove(ops, inflightSubscribes, n);
      hide TextKeyed, Decimal.Print;
      inflightSubscribes, ops := inflightSubscribes - {key}, ops - {n};
      env := env.(replies := env.replies + [success], credited := env.credited[n := success]);
    }

    method PingTick(gen: nat, o: Outcome)
      requires Valid() && PingWait(gen) in env.tasks
      modifies this
      ensures Valid() && Abs() == Step(old(Abs()), Complete(PingWait(gen), o))
    {
      hide TextKeyed, OnRead, OnHandshake, OnWrite, OnPingTimer, OnStage, OnReconnectWait, StartConnect, FlushTopics, SendUnsubscribe;
      env := env.(tasks := env.tasks - multiset{PingWait(gen)});
      Heartbeat(gen, o.ok, o.nowMs);
    }

    method Heartbeat(gen: nat, ok: bool, nowMs: int)
      requires Valid()
      modifies this
      ensures Valid() && Abs() == OnPingTimer(old(Abs()), gen, ok, nowMs)
    {
      hide TextKeyed, HandleError, Send;
      if !ok || gen != link.generation {
        return;
      }
      if link.userClosed {
        return;
      }
      if link.connected {
        if (nowMs - timers.lastPongMs) / 1000 > PONG_TIMEOUT_S {
          Fail(gen);
          return;
        }
        if authRequired && !link.authenticated && timers.authDeadlineMs.Some? && nowMs > timers.authDeadlineMs.value {
          Fail(gen);
          return;
        }
        EnqueueAndPump(Ping);
      }
      env := env.(tasks := env.tasks + multiset{PingWait(gen)});
    }

    // -------------------------------------------------------------- posted handlers and user threads

    method PostedDone(task: Task, ghost o: Outcome)
      requires Valid() && task in env.tasks
      requires task.PostedStart? || task.PostedFlush? || task.PostedUnsubscribe? || task.PostedClose?
      modifies this
      ensures Valid() && Abs() == Step(old(Abs()), Complete(task, o))
    {
      hide TextKeyed, Send, OnRead, OnHandshake, OnWrite, OnPingTimer, OnStage, OnReconnectWait, StartConnect, FlushTopics;
      env := env.(tasks := env.tasks - multiset{task});
      match task {
        case PostedStart => Dial();
        case PostedFlush => Flush();
        case PostedUnsubscribe(topic) =>
          if link.connected {
            EnqueueAndPump(Unsubscribe(topic));
          }
        case PostedClose => link := link.(userClosed := true);
      }
    }

    method SubscribeLocked(topic: Topic)
      requires Valid()
      modifies this
      ensures Valid() && Abs() == Step(old(Abs()), UserSubscribe(topic))
    {
      hide TextKeyed, Handle;
      BookTopic(topic);
      env := env.(midUser := env.midUser + multiset{PostedFlush});
    }

    method UnsubscribeLocked(topic: Topic)
      requires Valid()
      modifies this
      ensures Valid() && Abs() == Step(old(Abs()), UserUnsubscribe(topic))
    {
      hide TextKeyed, Handle;
      pendingTopics := Minus(pendingTopics, {topic});
      if topic in subscriptions {
        subscriptions := EraseFirst(subscriptions, topic);
        env := env.(midUser := env.midUser + multiset{PostedUnsubscribe(topic)});
      } else {
        EraseNothing(subscriptions, topic);
      }
    }

    static lemma {:induction false} EraseNothing(ts: seq<Topic>, t: Topic)
      requires t !in ts
      ensures EraseFirst(ts, t) == ts
    {
      if ts != [] {
        EraseNothing(ts[1..], t);
      }
    }

    method Post(task: Task)
      requires Valid() && task in env.midUser
      modifies this
      ensures Valid() && Abs() == Step(old(Abs()), UserPost(task))
    {
      hide TextKeyed, Handle;
      env := env.(midUser := env.midUser - multiset{task});
      env := env.(tasks := env.tasks + multiset{task});
    }

    method Close()
      requires Valid()
      modifies this
      ensures Valid() && Abs() == Step(old(Abs()), UserClose)
    {
      hide TextKeyed, Handle;
      env := env.(tasks := env.tasks + multiset{PostedClose});
    }

    // -------------------------------------------------------------- everything that can happen

    /** The control callback: a pong frame. */
    method PongReceived(nowMs: int)
      requires Valid()
      modifies this`timers
      ensures Valid() && Abs() == Step(old(Abs()), PongFrame(nowMs))
    {
      hide TextKeyed, Handle;
      timers := timers.(lastPongMs := nowMs);
    }

    /** The transport is gone; the operations on it will say so. */
    method TransportDropped()
      requires Valid()
      modifies this`link
      ensures Valid() && Abs() == Step(old(Abs()), StreamDrops)
    {
      hide TextKeyed, Handle;
      link := link.(streamOpen := false);
    }

    /** One handler for each thing the io runtime owes. */
    method TaskDone(task: Task, o: Outcome)
      requires Valid() && task in env.tasks
      modifies this
      ensures Valid() && Abs() == Step(old(Abs()), Complete(task, o))
    {
      hide TextKeyed, Handle;
      match task {
        case PostedStart => PostedDone(task, o);
        case PostedFlush => PostedDone(task, o);
        case PostedUnsubscribe(_) => PostedDone(task, o);
        case PostedClose => PostedDone(task, o);
        case Resolve(_) => StageDone(task, o);
        case Connect(_) => StageDone(task, o);
        case TlsHandshake(_) => StageDone(task, o);
        case WsHandshake(gen) => HandshakeDone(gen, o);
        case Read(gen) => ReadDone(gen, o);
        case Write(gen) => WriteDone(gen, o);
        case PingWait(gen) => PingTick(gen, o);
        case ReconnectWait(gen) => ReconnectWaitDone(gen, o);
      }
    }

    /** Whatever can happen next, the object takes the machine's step and stays sound. */
    method Take(e: Event)
      requires Valid() && Sound(Abs()) && Enabled(Abs(), e)
      modifies this
      ensures Valid() && Sound(Abs()) && Abs() == Step(old(Abs()), e)
    {
      StepSound(Abs(), e);
      hide TextKeyed, Handle, Sound;
      match e {
        case Complete(task, o) => TaskDone(task, o);
        case UserSubscribe(topic) => SubscribeLocked(topic);
        case UserUnsubscribe(topic) => UnsubscribeLocked(topic);
        case UserClose => Close();
        case UserPost(task) => Post(task);
        case StreamDrops => TransportDropped();
        case PongFrame(nowMs) => PongReceived(nowMs);
      }
    }

    /** A session from its construction through any run. */
    static method Serve(credentials: bool, first: Topic, es: seq<Event>) returns (session: WebSocketSession)
      requires first != "" && Legal(Init(credentials, first), es)
      ensures fresh(session) && session.Valid()
      ensures session.Abs() == After(Init(credentials, first), es) && Sound(session.Abs())
    {
      hide TextKeyed, Step, Sound, Enabled;
      session := new WebSocketSession(credentials);
      var accepted := session.Run(first);
      InitSound(credentials, first);
      hide Init;
      var i := 0;
      while i < |es|
        invariant 0 <= i <= |es| && session.Valid() && fresh(session)
        invariant session.Abs() == After(Init(credentials, first), es[..i]) && Sound(session.Abs())
      {
        var e := es[i];
        NextEnabled(Init(credentials, first), es, i);
        session.Take(e);
        i := i + 1;
      }
      assert es[..i] == es;
    }

    static lemma NextEnabled(s: State, es: seq<Event>, i: nat)
      requires Legal(s, es) && i < |es|
      ensures Enabled(After(s, es[..i]), es[i])
      ensures After(s, es[..i + 1]) == Step(After(s, es[..i]), es[i])
    {
      hide Step, Enabled;
      var upTo := es[..i + 1];
      assert es == upTo + es[i + 1..];
      LegalConcat(s, upTo, es[i + 1..]);
      assert upTo[..|upTo| - 1] == es[..i];
    }
  }
}
