/**
 The topic book is an ordered set that survives reconnects, and a topic waiting for an operational connection always
 has somebody coming to send it.
 */
module SessionTopics {
  import opened Wrappers
  import opened SessionModel
  import opened SessionDriver

  ghost predicate NoDuplicates(ts: seq<Topic>) {
    forall i, j :: 0 <= i < j < |ts| ==> ts[i] != ts[j]
  }

  function Elements(ts: seq<Topic>): set<Topic> {
    set t | t in ts
  }

  // ---------------------------------------------------------------- ordered-set arithmetic

  lemma {:induction false} MinusMembers(ts: seq<Topic>, gone: set<Topic>)
    ensures forall t :: t in Minus(ts, gone) <==> t in ts && t !in gone
    ensures NoDuplicates(ts) ==> NoDuplicates(Minus(ts, gone))
  {
    if ts != [] {
      MinusMembers(ts[1..], gone);
      assert ts == [ts[0]] + ts[1..];
      if NoDuplicates(ts) {
        assert NoDuplicates(ts[1..]);
        assert ts[0] !in ts[1..];
      }
    }
  }

  lemma {:induction false} MinusNothing(ts: seq<Topic>, gone: set<Topic>)
    requires forall t :: t in ts ==> t !in gone
    ensures Minus(ts, gone) == ts
  {
    if ts != [] {
      assert ts[0] in ts;
      MinusNothing(ts[1..], gone);
      assert ts == [ts[0]] + ts[1..];
    }
  }

  lemma {:induction false} MinusConcat(a: seq<Topic>, b: seq<Topic>, gone: set<Topic>)
    ensures Minus(a + b, gone) == Minus(a, gone) + Minus(b, gone)
  {
    if a == [] {
      assert a + b == b;
    } else {
      assert (a + b)[1..] == a[1..] + b;
      MinusConcat(a[1..], b, gone);
    }
  }

  lemma {:induction false} MinusTwice(ts: seq<Topic>, one: set<Topic>, two: set<Topic>)
    ensures Minus(Minus(ts, one), two) == Minus(ts, one + two)
  {
    if ts != [] {
      MinusTwice(ts[1..], one, two);
      if ts[0] !in one {
        assert Minus(ts, one)[1..] == Minus(ts[1..], one);
      }
    }
  }

  lemma {:induction false} EraseFirstIsMinus(ts: seq<Topic>, t: Topic)
    requires NoDuplicates(ts)
    ensures EraseFirst(ts, t) == Minus(ts, {t})
  {
    if ts != [] {
      assert ts == [ts[0]] + ts[1..];
      if ts[0] == t {
        MinusNothing(ts[1..], {t});
      } else {
        EraseFirstIsMinus(ts[1..], t);
      }
    }
  }

  /** Erasing the first occurrence of each rejected topic removes them for good. */
  lemma {:induction false} EraseEachIsMinus(ts: seq<Topic>, args: seq<Topic>)
    requires NoDuplicates(ts)
    ensures EraseEach(ts, args) == Minus(ts, Elements(args))
    decreases |args|
  {
    if args == [] {
      MinusNothing(ts, Elements(args));
    } else {
      EraseFirstIsMinus(ts, args[0]);
      MinusMembers(ts, {args[0]});
      EraseEachIsMinus(Minus(ts, {args[0]}), args[1..]);
      MinusTwice(ts, {args[0]}, Elements(args[1..]));
      assert args == [args[0]] + args[1..];
      assert Elements(args) == {args[0]} + Elements(args[1..]);
    }
  }

  // ---------------------------------------------------------------- the invariant

  predicate FlushComing(s: State) {
    PostedFlush in s.tasks || PostedFlush in s.midUser
  }

  ghost predicate Booked(s: State) {
    && NoDuplicates(s.topics.Book())
    && (s.topics.subscriptions != [] ==> s.Operational())
    && (s.Operational() && s.topics.pending != [] ==> FlushComing(s))
  }

  /** The op a received frame rejects, if any. */
  ghost function Rejected(s: State, e: Event): Option<nat> {
    if e.Complete? && e.task == Read(s.link.generation) && e.outcome.ok && e.outcome.message.Control?
       && e.outcome.message.op == OpSubscribe && !e.outcome.message.saysPong && !e.outcome.message.success
    then AckTarget(s.topics.inflight, e.outcome.message.reqId)
    else None
  }

  /** What one step does to the book, read as an ordered set. */
  ghost function NextBook(s: State, e: Event): seq<Topic> {
    var book := s.topics.Book();
    if e.UserSubscribe? then if e.topic in book then book else book + [e.topic]
    else if e.UserUnsubscribe? then Minus(book, {e.topic})
    else
      match Rejected(s, e)
      case Some(n) => Minus(s.topics.subscriptions, Elements(s.topics.inflight[n])) + s.topics.pending
      case None => book
  }

  /** What a handler may do to the topics besides a rejection: keep them, flush them, or put them back for replay. */
  predicate Moved(b: Topics, b': Topics) {
    b'.Book() == b.Book()
  }

  lemma FlushBooked(s: State)
    requires NoDuplicates(s.topics.Book()) && (s.topics.subscriptions != [] ==> s.Operational())
    ensures Booked(FlushTopics(s)) && Moved(s.topics, FlushTopics(s).topics)
  {
    if FlushTopics(s) != s {
      SendFrame(s.(topics := Flushed(s.topics)), Subscribe(s.topics.reqIdCounter + 1, s.topics.pending));
      assert s.topics.Book() + [] == s.topics.Book();
    }
  }

  lemma ErrorBooked(s: State, gen: nat)
    requires Booked(s)
    ensures Booked(HandleError(s, gen)) && Moved(s.topics, HandleError(s, gen).topics)
  {
    assert [] + s.topics.Book() == s.topics.Book();
  }

  lemma ReplyBooked(s: State, success: bool, reqId: string)
    requires Booked(s)
    ensures var b' := OnSubscribeReply(s.topics, success, reqId);
      && Booked(s.(topics := b'))
      && b'.Book() == (if success || AckTarget(s.topics.inflight, reqId).None? then s.topics.Book()
                       else Minus(s.topics.subscriptions, Elements(s.topics.inflight[AckTarget(s.topics.inflight, reqId).value]))
                            + s.topics.pending)
  {
    var subs, pend := s.topics.subscriptions, s.topics.pending;
    var target := AckTarget(s.topics.inflight, reqId);
    if !success && target.Some? {
      var gone := Elements(s.topics.inflight[target.value]);
      PrefixNoDuplicates(subs, pend);
      EraseEachIsMinus(subs, s.topics.inflight[target.value]);
      MinusMembers(subs, gone);
      ConcatNoDuplicates(Minus(subs, gone), subs, pend);
    }
  }

  lemma PrefixNoDuplicates(a: seq<Topic>, b: seq<Topic>)
    requires NoDuplicates(a + b)
    ensures NoDuplicates(a) && NoDuplicates(b) && forall t :: t in a ==> t !in b
  {
    var ab := a + b;
    forall i, j | 0 <= i < j < |a| ensures a[i] != a[j] {
      assert ab[i] == a[i] && ab[j] == a[j];
    }
    forall i, j | 0 <= i < j < |b| ensures b[i] != b[j] {
      assert ab[|a| + i] == b[i] && ab[|a| + j] == b[j];
    }
    forall t | t in a ensures t !in b {
      var i :| 0 <= i < |a| && a[i] == t;
      forall j | 0 <= j < |b| ensures b[j] != t {
        assert ab[i] == t && ab[|a| + j] == b[j];
      }
    }
  }

  lemma ConcatNoDuplicates(a': seq<Topic>, a: seq<Topic>, b: seq<Topic>)
    requires NoDuplicates(a + b) && NoDuplicates(a') && forall t :: t in a' ==> t in a
    ensures NoDuplicates(a' + b)
  {
    PrefixNoDuplicates(a, b);
    forall i, j | 0 <= i < j < |a' + b| ensures (a' + b)[i] != (a' + b)[j] {
      if i < |a'| <= j {
        assert a'[i] in a && b[j - |a'|] in b;
      }
    }
  }

  // ---------------------------------------------------------------- the handlers

  predicate SameTopics(s: State, s': State) {
    && s'.topics == s.topics && s'.authRequired == s.authRequired && s'.link.connected == s.link.connected
    && s'.link.authenticated == s.link.authenticated && (FlushComing(s) ==> FlushComing(s'))
  }

  lemma ControlBooked(s: State, m: Inbound, nowMs: int)
    requires Booked(s) && m.Control?
    ensures var s' := HandleApiControlMsg(s, s.link.generation, m, nowMs);
      && Booked(s')
      && (m.op == OpSubscribe && !m.saysPong ==> s'.topics == OnSubscribeReply(s.topics, m.success, m.reqId))
      && (m.op != OpSubscribe || m.saysPong ==> Moved(s.topics, s'.topics))
  {
    hide FlushTopics, HandleError, OnSubscribeReply, NoDuplicates;
    FlushBooked(Authenticated(s));
    ErrorBooked(s, s.link.generation);
    ReplyBooked(s, m.success, m.reqId);
  }

  lemma ReadBooked(s: State, gen: nat, o: Outcome)
    requires Booked(s) && Read(gen) in s.tasks
    ensures var s' := OnRead(Popped(s, Read(gen)), gen, o);
      Booked(s') && s'.topics.Book() == NextBook(s, Complete(Read(gen), o))
  {
    hide HandleError, HandleApiControlMsg, OnSubscribeReply, NoDuplicates, AckTarget, Minus;
    var popped := Popped(s, Read(gen));
    assert SameTopics(s, popped) && Booked(popped);
    if gen == s.link.generation {
      ErrorBooked(popped, gen);
      if o.ok && o.message.Control? {
        ControlBooked(popped, o.message, o.nowMs);
        ReplyBooked(popped, o.message.success, o.message.reqId);
        assert SameTopics(HandleApiControlMsg(popped, gen, o.message, o.nowMs),
                          RearmRead(HandleApiControlMsg(popped, gen, o.message, o.nowMs), gen));
      }
    }
  }

  lemma HandshakeBooked(s: State, gen: nat, o: Outcome)
    requires Live(s) && Booked(s) && WsHandshake(gen) in s.tasks
    ensures var s' := OnHandshake(Popped(s, WsHandshake(gen)), gen, o);
      Booked(s') && Moved(s.topics, s'.topics)
  {
    hide HandleError, FlushTopics, NoDuplicates, WellTagged;
    var popped := Popped(s, WsHandshake(gen));
    assert SameTopics(s, popped) && Booked(popped);
    if gen == s.link.generation {
      ErrorBooked(popped, gen);
      if o.ok && !s.link.userClosed {
        assert s.topics.subscriptions == [];
        ConnectedBooked(popped, o);
        assert SameTopics(Connected(popped, o), WithTask(Connected(popped, o), Read(gen)));
      }
    }
  }

  lemma ConnectedBooked(s: State, o: Outcome)
    requires NoDuplicates(s.topics.Book()) && s.topics.subscriptions == [] && !s.link.authenticated
    ensures Booked(Connected(s, o)) && Moved(s.topics, Connected(s, o).topics)
  {
    hide FlushTopics, NoDuplicates;
    var up := s.(link := s.link.(connected := true, streamOpen := o.streamOpen),
                 timers := s.timers.(lastPongMs := o.nowMs),
                 tasks := s.tasks + multiset{PingWait(s.link.generation)});
    FlushBooked(up);
    SendFrame(up.(timers := up.timers.(authDeadlineMs := Some(o.nowMs + AUTH_ACK_TIMEOUT_MS))), Auth);
  }

  lemma StageBooked(s: State, t: Task, next: Task, ok: bool)
    requires t.Resolve? || t.Connect? || t.TlsHandshake?
    requires Booked(s) && t in s.tasks
    ensures var s' := OnStage(Popped(s, t), t.gen, ok, next);
      Booked(s') && Moved(s.topics, s'.topics)
  {
    hide HandleError, NoDuplicates;
    assert SameTopics(s, Popped(s, t)) && SameTopics(s, WithTask(Popped(s, t), next));
    ErrorBooked(Popped(s, t), t.gen);
  }

  lemma WriteBooked(s: State, gen: nat, ok: bool)
    requires Booked(s) && Write(gen) in s.tasks
    ensures var s' := OnWrite(Popped(s, Write(gen)), gen, ok);
      Booked(s') && Moved(s.topics, s'.topics)
  {
    hide HandleError, Pump, NoDuplicates;
    var idle := Popped(s, Write(gen)).(out := s.out.(writeInFlight := false));
    assert SameTopics(s, Popped(s, Write(gen))) && SameTopics(s, idle);
    PumpFrame(idle);
    ErrorBooked(idle, gen);
  }

  lemma PingBooked(s: State, gen: nat, ok: bool, nowMs: int)
    requires Booked(s) && PingWait(gen) in s.tasks
    ensures var s' := OnPingTimer(Popped(s, PingWait(gen)), gen, ok, nowMs);
      Booked(s') && Moved(s.topics, s'.topics)
  {
    hide HandleError, Send, NoDuplicates, PongTimedOut, AuthTimedOut;
    var popped := Popped(s, PingWait(gen));
    assert SameTopics(s, popped) && SameTopics(s, WithTask(popped, PingWait(gen)));
    SendFrame(popped, Ping);
    assert SameTopics(s, WithTask(Send(popped, Ping), PingWait(gen)));
    ErrorBooked(popped, gen);
  }

  lemma StartBooked(s: State)
    requires Booked(s) && (!s.link.userClosed ==> !s.link.connected)
    ensures Booked(StartConnect(s)) && Moved(s.topics, StartConnect(s).topics)
  {
    hide NoDuplicates;
  }

  lemma WaitBooked(s: State, gen: nat, ok: bool)
    requires Live(s) && Booked(s) && ReconnectWait(gen) in s.tasks
    ensures var s' := OnReconnectWait(Popped(s, ReconnectWait(gen)), gen, ok);
      Booked(s') && Moved(s.topics, s'.topics)
  {
    hide StartConnect, NoDuplicates, WellTagged;
    var popped := Popped(s, ReconnectWait(gen));
    var over := popped.(link := popped.link.(reconnectScheduled := false));
    assert SameTopics(s, popped) && SameTopics(s, over);
    if gen == s.link.generation && !s.link.userClosed {
      assert !s.link.connected;
    }
    if s.link.userClosed || !s.link.connected {
      StartBooked(over);
    }
  }

  lemma PostedBooked(s: State, t: Task)
    requires Live(s) && Booked(s) && t in s.tasks
    ensures t.PostedStart? ==> Booked(StartConnect(Popped(s, t))) && Moved(s.topics, StartConnect(Popped(s, t)).topics)
    ensures t.PostedFlush? ==> Booked(FlushTopics(Popped(s, t))) && Moved(s.topics, FlushTopics(Popped(s, t)).topics)
    ensures t.PostedUnsubscribe? ==>
      Booked(SendUnsubscribe(Popped(s, t), t.topic)) && Moved(s.topics, SendUnsubscribe(Popped(s, t), t.topic).topics)
  {
    hide StartConnect, FlushTopics, Send, NoDuplicates, WellTagged;
    if t.PostedStart? {
      assert SameTopics(s, Popped(s, t));
      StartBooked(Popped(s, t));
    } else if t.PostedFlush? {
      FlushBooked(Popped(s, t));
    } else if t.PostedUnsubscribe? {
      assert SameTopics(s, Popped(s, t));
      SendFrame(Popped(s, t), Unsubscribe(t.topic));
      assert s.link.connected ==> SameTopics(s, Send(Popped(s, t), Unsubscribe(t.topic)));
    }
  }

  lemma CompleteBooked(s: State, t: Task, o: Outcome)
    requires Live(s) && Booked(s) && Enabled(s, Complete(t, o))
    ensures var s' := Handle(Popped(s, t), t, o);
      Booked(s') && s'.topics.Book() == NextBook(s, Complete(t, o))
  {
    hide OnRead, OnHandshake, OnWrite, OnPingTimer, OnStage, OnReconnectWait, StartConnect, FlushTopics, SendUnsubscribe;
    hide NoDuplicates, Live;
    match t
    case Read(gen) => ReadBooked(s, gen, o);
    case WsHandshake(gen) => HandshakeBooked(s, gen, o);
    case Write(gen) => WriteBooked(s, gen, o.ok);
    case PingWait(gen) => PingBooked(s, gen, o.ok, o.nowMs);
    case Resolve(gen) => StageBooked(s, t, Connect(gen), o.ok);
    case Connect(gen) => StageBooked(s, t, TlsHandshake(gen), o.ok);
    case TlsHandshake(gen) => StageBooked(s, t, WsHandshake(gen), o.ok);
    case ReconnectWait(gen) => WaitBooked(s, gen, o.ok);
    case PostedStart => PostedBooked(s, t);
    case PostedFlush => PostedBooked(s, t);
    case PostedUnsubscribe(topic) => PostedBooked(s, t);
    case PostedClose => assert SameTopics(s, Popped(s, t));
  }

  lemma SubscribeBooked(s: State, t: Topic)
    requires Booked(s)
    ensures Booked(OnUserSubscribe(s, t))
    ensures OnUserSubscribe(s, t).topics.Book() == NextBook(s, UserSubscribe(t))
  {
    assert s.topics.subscriptions + (s.topics.pending + [t]) == s.topics.Book() + [t];
  }

  lemma UnsubscribeBooked(s: State, t: Topic)
    requires Booked(s)
    ensures Booked(OnUserUnsubscribe(s, t))
    ensures OnUserUnsubscribe(s, t).topics.Book() == NextBook(s, UserUnsubscribe(t))
  {
    hide Minus, EraseFirst;
    var subs, pend := s.topics.subscriptions, s.topics.pending;
    PrefixNoDuplicates(subs, pend);
    EraseFirstIsMinus(subs, t);
    MinusConcat(subs, pend, {t});
    MinusMembers(subs + pend, {t});
    hide NoDuplicates;
    MinusOfEmpty(subs, {t});
    MinusOfEmpty(pend, {t});
  }

  lemma MinusOfEmpty(ts: seq<Topic>, gone: set<Topic>)
    ensures ts == [] ==> Minus(ts, gone) == []
  {
  }

  /** One step of the machine is one step of the ordered set. */
  lemma StepBooked(s: State, e: Event)
    requires Live(s) && Booked(s) && Enabled(s, e)
    ensures Booked(Step(s, e))
    ensures Step(s, e).topics.Book() == NextBook(s, e)
  {
    hide Handle, OnUserSubscribe, OnUserUnsubscribe, NoDuplicates, Live;
    match e
    case Complete(t, o) => CompleteBooked(s, t, o);
    case UserSubscribe(t) => SubscribeBooked(s, t);
    case UserUnsubscribe(t) => UnsubscribeBooked(s, t);
    case _ =>
  }

  /** In every state of every run the book has no duplicates, topics count as sent only on an operational connection, and a topic left to send has a flush coming. */
  lemma {:induction false} BookIsOrderedSet(authRequired: bool, first: Topic, es: seq<Event>)
    requires Legal(Init(authRequired, first), es)
    ensures Booked(After(Init(authRequired, first), es))
  {
    var s0 := Init(authRequired, first);
    if es != [] {
      BookIsOrderedSet(authRequired, first, es[..|es| - 1]);
      NeverStuck(authRequired, first, es[..|es| - 1]);
      StepBooked(After(s0, es[..|es| - 1]), es[|es| - 1]);
    }
  }
}
