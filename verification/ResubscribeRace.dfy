/**
 Where confirmed and streamed part: a topic that is subscribed again before the unsubscribe posted for it has run.
 */
module ResubscribeRace {
  import opened Wrappers
  import opened SessionModel
  import opened SessionVenue
  import opened SessionAgreement

  const T: Topic := "publicTrade.BTCUSDT"
  const DONE := Outcome(true, true, Data, 0)
  const ACCEPTED := Outcome(true, true, Control(OpSubscribe, true, false, ""), 0)

  const FIRST := Subscribe(1, [T])
  const SECOND := Subscribe(2, [T])

  /** A run from the start of a public session that leads to `s`, against a venue that answers in order. */
  ghost predicate Reaches(es: seq<Event>, s: State) {
    Legal(Init(false, T), es) && OrderlyRun(Init(false, T), es) && After(Init(false, T), es) == s
  }

  lemma Extend(es: seq<Event>, s: State, e: Event)
    requires Reaches(es, s) && Enabled(s, e) && InRequestOrder(s, e)
    ensures Reaches(es + [e], Step(s, e))
  {
    hide Step, Enabled, InRequestOrder;
    assert (es + [e])[..|es| + 1 - 1] == es;
  }

  function Dialled(task: Task): State {
    State(false, Link(1, false, false, false, false, false), Timers(1, 0, None, []),
          Topics([], [T], map[], 0, [], map[]), Outbound([], false, FRESH), multiset{task}, multiset{}, [FRESH])
  }

  function Online(topics: Topics, out: Outbound, tasks: multiset<Task>, midUser: multiset<Task>): State {
    State(false, Link(1, true, false, false, false, true), Timers(1, 0, None, []), topics, out,
          multiset{PingWait(1), Read(1)} + tasks, midUser, [FRESH])
  }

  function Idle(sent: seq<Frame>): Outbound {
    Outbound([], false, Wire(sent, sent, None))
  }

  function Writing(sent: seq<Frame>, queue: seq<Frame>): Outbound {
    Outbound(queue, true, Wire(sent + queue, sent, None))
  }

  // ---------------------------------------------------------------- the run, step by step

  lemma Connects() returns (es: seq<Event>)
    ensures Reaches(es, Dialled(WsHandshake(1)))
  {
    es := [];
    var s := Init(false, T);
    Extend(es, s, Complete(PostedStart, DONE));
    es := es + [Complete(PostedStart, DONE)];
    assert Step(s, Complete(PostedStart, DONE)) == Dialled(Resolve(1));
    Extend(es, Dialled(Resolve(1)), Complete(Resolve(1), DONE));
    es := es + [Complete(Resolve(1), DONE)];
    assert Step(Dialled(Resolve(1)), Complete(Resolve(1), DONE)) == Dialled(Connect(1));
    Extend(es, Dialled(Connect(1)), Complete(Connect(1), DONE));
    es := es + [Complete(Connect(1), DONE)];
    assert Step(Dialled(Connect(1)), Complete(Connect(1), DONE)) == Dialled(TlsHandshake(1));
    Extend(es, Dialled(TlsHandshake(1)), Complete(TlsHandshake(1), DONE));
    es := es + [Complete(TlsHandshake(1), DONE)];
    assert Step(Dialled(TlsHandshake(1)), Complete(TlsHandshake(1), DONE)) == Dialled(WsHandshake(1));
  }

  /** The topic's states on the way: asked for, confirmed, given up, and asked for again. */
  const ASKED := Topics([T], [], map[1 := [T]], 1, [], map[])
  const CONFIRMED := Topics([T], [], map[], 1, [true], map[1 := true])
  const LEFT := CONFIRMED.(subscriptions := [])
  const BACK := CONFIRMED.(subscriptions := [], pending := [T])
  const ASKED_AGAIN := Topics([T], [], map[2 := [T]], 2, [true], map[1 := true])
  const CONFIRMED_AGAIN := Topics([T], [], map[], 2, [true, true], map[1 := true, 2 := true])

  lemma ComesUp()
    ensures Step(Dialled(WsHandshake(1)), Complete(WsHandshake(1), DONE)) ==
            Online(ASKED, Writing([FIRST], []), multiset{Write(1)}, multiset{})
  {
  }

  lemma FirstWritten()
    ensures Step(Online(ASKED, Writing([FIRST], []), multiset{Write(1)}, multiset{}), Complete(Write(1), DONE)) ==
            Online(ASKED, Idle([FIRST]), multiset{}, multiset{})
  {
  }

  lemma CreditsOnly(b: Topics, n: nat)
    requires b.inflight == map[n := [T]]
    ensures OnSubscribeReply(b, true, "") ==
            b.(replies := b.replies + [true], inflight := map[], credited := b.credited[n := true])
  {
    assert AckTarget(b.inflight, "") == Some(n);
    assert b.inflight - {n} == map[];
  }

  lemma Replied(b: Topics, n: nat, out: Outbound, tasks: multiset<Task>)
    requires b.inflight == map[n := [T]]
    ensures Step(Online(b, out, tasks, multiset{}), Complete(Read(1), ACCEPTED)) ==
            Online(b.(replies := b.replies + [true], inflight := map[], credited := b.credited[n := true]), out, tasks,
                   multiset{})
  {
    CreditsOnly(b, n);
    hide OnSubscribeReply, FlushTopics, HandleError, OnStage, OnHandshake, OnWrite, OnPingTimer, OnReconnectWait,
         StartConnect, SendUnsubscribe;
    var before := multiset{PingWait(1), Read(1)} + tasks;
    assert before - multiset{Read(1)} + multiset{Read(1)} == before;
  }

  lemma FirstConfirmed()
    ensures Step(Online(ASKED, Idle([FIRST]), multiset{}, multiset{}), Complete(Read(1), ACCEPTED)) ==
            Online(CONFIRMED, Idle([FIRST]), multiset{}, multiset{})
  {
    hide Step, Online;
    Replied(ASKED, 1, Idle([FIRST]), multiset{});
    assert ASKED.replies + [true] == CONFIRMED.replies;
    assert ASKED.credited[1 := true] == CONFIRMED.credited;
  }

  lemma Unsubscribes()
    ensures Step(Online(CONFIRMED, Idle([FIRST]), multiset{}, multiset{}), UserUnsubscribe(T)) ==
            Online(LEFT, Idle([FIRST]), multiset{}, multiset{PostedUnsubscribe(T)})
  {
  }

  lemma SubscribesAgain()
    ensures Step(Online(LEFT, Idle([FIRST]), multiset{}, multiset{PostedUnsubscribe(T)}), UserSubscribe(T)) ==
            Online(BACK, Idle([FIRST]), multiset{}, multiset{PostedUnsubscribe(T), PostedFlush})
  {
  }

  lemma FlushPosted()
    ensures Step(Online(BACK, Idle([FIRST]), multiset{}, multiset{PostedUnsubscribe(T), PostedFlush}), UserPost(PostedFlush)) ==
            Online(BACK, Idle([FIRST]), multiset{PostedFlush}, multiset{PostedUnsubscribe(T)})
  {
  }

  lemma FlushRuns()
    ensures Step(Online(BACK, Idle([FIRST]), multiset{PostedFlush}, multiset{PostedUnsubscribe(T)}), Complete(PostedFlush, DONE)) ==
            Online(ASKED_AGAIN, Writing([FIRST, SECOND], []), multiset{Write(1)}, multiset{PostedUnsubscribe(T)})
  {
  }

  lemma UnsubscribePosted()
    ensures Step(Online(ASKED_AGAIN, Writing([FIRST, SECOND], []), multiset{Write(1)}, multiset{PostedUnsubscribe(T)}),
                 UserPost(PostedUnsubscribe(T))) ==
            Online(ASKED_AGAIN, Writing([FIRST, SECOND], []), multiset{Write(1), PostedUnsubscribe(T)}, multiset{})
  {
  }

  lemma UnsubscribeRuns()
    ensures Step(Online(ASKED_AGAIN, Writing([FIRST, SECOND], []), multiset{Write(1), PostedUnsubscribe(T)}, multiset{}),
                 Complete(PostedUnsubscribe(T), DONE)) ==
            Online(ASKED_AGAIN, Writing([FIRST, SECOND], [Unsubscribe(T)]), multiset{Write(1)}, multiset{})
  {
  }

  lemma SecondWritten()
    ensures Step(Online(ASKED_AGAIN, Writing([FIRST, SECOND], [Unsubscribe(T)]), multiset{Write(1)}, multiset{}),
                 Complete(Write(1), DONE)) ==
            Online(ASKED_AGAIN, Writing([FIRST, SECOND, Unsubscribe(T)], []), multiset{Write(1)}, multiset{})
  {
  }

  lemma SecondConfirmed()
    ensures Step(Online(ASKED_AGAIN, Writing([FIRST, SECOND, Unsubscribe(T)], []), multiset{Write(1)}, multiset{}),
                 Complete(Read(1), ACCEPTED)) ==
            Online(CONFIRMED_AGAIN, Writing([FIRST, SECOND, Unsubscribe(T)], []), multiset{Write(1)}, multiset{})
  {
    hide Step, Online;
    Replied(ASKED_AGAIN, 2, Writing([FIRST, SECOND, Unsubscribe(T)], []), multiset{Write(1)});
    assert ASKED_AGAIN.replies + [true] == CONFIRMED_AGAIN.replies;
  }

  lemma OpsOfRun()
    ensures |Ops([FIRST])| == 1 && |Ops([FIRST, SECOND, Unsubscribe(T)])| == 2
  {
    hide Ops;
    OpsOfOne(FIRST);
    OpsOfOne(SECOND);
    OpsOfOne(Unsubscribe(T));
    OpsConcat([FIRST], [SECOND]);
    OpsConcat([FIRST] + [SECOND], [Unsubscribe(T)]);
    assert [FIRST, SECOND, Unsubscribe(T)] == [FIRST] + [SECOND] + [Unsubscribe(T)];
  }

  lemma Subscribed() returns (es: seq<Event>)
    ensures Reaches(es, Online(CONFIRMED, Idle([FIRST]), multiset{}, multiset{}))
  {
    es := Connects();
    hide Step, Reaches;
    Extend(es, Dialled(WsHandshake(1)), Complete(WsHandshake(1), DONE));
    ComesUp();
    es := es + [Complete(WsHandshake(1), DONE)];
    Extend(es, Online(ASKED, Writing([FIRST], []), multiset{Write(1)}, multiset{}), Complete(Write(1), DONE));
    FirstWritten();
    es := es + [Complete(Write(1), DONE)];
    OpsOfRun();
    Extend(es, Online(ASKED, Idle([FIRST]), multiset{}, multiset{}), Complete(Read(1), ACCEPTED));
    FirstConfirmed();
    es := es + [Complete(Read(1), ACCEPTED)];
  }

  lemma AskedTwice() returns (es: seq<Event>)
    ensures Reaches(es, Online(ASKED_AGAIN, Writing([FIRST, SECOND], []), multiset{Write(1)}, multiset{PostedUnsubscribe(T)}))
  {
    es := Subscribed();
    hide Step, Reaches;
    Extend(es, Online(CONFIRMED, Idle([FIRST]), multiset{}, multiset{}), UserUnsubscribe(T));
    Unsubscribes();
    es := es + [UserUnsubscribe(T)];
    Extend(es, Online(LEFT, Idle([FIRST]), multiset{}, multiset{PostedUnsubscribe(T)}), UserSubscribe(T));
    SubscribesAgain();
    es := es + [UserSubscribe(T)];
    Extend(es, Online(BACK, Idle([FIRST]), multiset{}, multiset{PostedUnsubscribe(T), PostedFlush}), UserPost(PostedFlush));
    FlushPosted();
    es := es + [UserPost(PostedFlush)];
    Extend(es, Online(BACK, Idle([FIRST]), multiset{PostedFlush}, multiset{PostedUnsubscribe(T)}), Complete(PostedFlush, DONE));
    FlushRuns();
    es := es + [Complete(PostedFlush, DONE)];
  }

  lemma AnsweredTwice() returns (es: seq<Event>)
    ensures Reaches(es, Online(CONFIRMED_AGAIN, Writing([FIRST, SECOND, Unsubscribe(T)], []), multiset{Write(1)}, multiset{}))
  {
    es := AskedTwice();
    hide Step, Reaches;
    Extend(es, Online(ASKED_AGAIN, Writing([FIRST, SECOND], []), multiset{Write(1)}, multiset{PostedUnsubscribe(T)}),
           UserPost(PostedUnsubscribe(T)));
    UnsubscribePosted();
    es := es + [UserPost(PostedUnsubscribe(T))];
    Extend(es, Online(ASKED_AGAIN, Writing([FIRST, SECOND], []), multiset{Write(1), PostedUnsubscribe(T)}, multiset{}),
           Complete(PostedUnsubscribe(T), DONE));
    UnsubscribeRuns();
    es := es + [Complete(PostedUnsubscribe(T), DONE)];
    Extend(es, Online(ASKED_AGAIN, Writing([FIRST, SECOND], [Unsubscribe(T)]), multiset{Write(1)}, multiset{}),
           Complete(Write(1), DONE));
    SecondWritten();
    es := es + [Complete(Write(1), DONE)];
    OpsOfRun();
    Extend(es, Online(ASKED_AGAIN, Writing([FIRST, SECOND, Unsubscribe(T)], []), multiset{Write(1)}, multiset{}),
           Complete(Read(1), ACCEPTED));
    SecondConfirmed();
    es := es + [Complete(Read(1), ACCEPTED)];
  }

  /** The end of the run: the topic counts as confirmed although the last frame written takes it off the stream, whatever
      the venue's verdicts. */
  lemma ConfirmedButDropped() returns (es: seq<Event>)
    ensures Legal(Init(false, T), es) && OrderlyRun(Init(false, T), es)
    ensures var s := After(Init(false, T), es);
      && IsSubscriptionConfirmed(s.topics, T)
      && VenueAt(s, s.out.wire.sent, s.topics.replies)
      && forall verdicts :: T !in VenueTopics(s.out.wire.sent, verdicts)
  {
    es := AnsweredTwice();
    OpsOfRun();
    hide Legal, OrderlyRun, After, Ops;
    var sent := [FIRST, SECOND, Unsubscribe(T)];
    assert sent[|sent| - 1] == Unsubscribe(T);
  }
}
