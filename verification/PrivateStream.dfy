/**
 The private stream's health gate: "live" is checked on the session's books, and is true only while the venue really
 streams order and execution events.
 */
module PrivateStream {
  import opened Wrappers
  import opened SessionModel
  import opened SessionRuns
  import opened SessionTopics
  import opened SessionBackoff
  import opened SessionProgress
  import opened SessionRecovery
  import opened SessionAcks
  import opened SessionVenue
  import opened SessionAgreement
  import opened WebSocketSessions
  import GatewayErrors

  const ORDER_TOPIC: Topic := "order"
  const EXECUTION_TOPIC: Topic := "execution"

  /** The three conditions `isLive()` samples. */
  predicate LiveCondition(s: State) {
    && s.link.authenticated
    && IsSubscriptionConfirmed(s.topics, ORDER_TOPIC)
    && IsSubscriptionConfirmed(s.topics, EXECUTION_TOPIC)
  }

  /** `subscribe()` when the topic is in neither book: booked again, and a flush posted. */
  ghost function AskAgain(s: State, t: Topic): State {
    if t in s.topics.Book() then s else Step(Step(s, UserSubscribe(t)), UserPost(PostedFlush))
  }

  method EnsureAsked(session: WebSocketSession, topic: Topic)
    requires session.Valid()
    modifies session
    ensures session.Valid() && session.Abs() == AskAgain(old(session.Abs()), topic)
  {
    hide Step;
    var booked := session.IsBooked(topic);
    if !booked {
      session.SubscribeLocked(topic);
      FlushToPost(old(session.Abs()), topic);
      session.Post(PostedFlush);
    }
  }

  lemma FlushToPost(s: State, t: Topic)
    ensures PostedFlush in Step(s, UserSubscribe(t)).midUser
  {
  }

  lemma AskAgainFrame(s: State, t: Topic, u: Topic)
    ensures AskAgain(s, t).link == s.link
    ensures IsSubscriptionConfirmed(AskAgain(s, t).topics, u) <==> IsSubscriptionConfirmed(s.topics, u)
  {
  }

  /** The answer is the condition on entry; on the way, topics the venue rejected are asked for again. */
  method IsLive(session: WebSocketSession) returns (live: bool)
    requires session.Valid()
    modifies session
    ensures session.Valid()
    ensures live == LiveCondition(old(session.Abs()))
    ensures session.Abs() == AskAgain(AskAgain(old(session.Abs()), ORDER_TOPIC), EXECUTION_TOPIC)
  {
    ghost var s := session.Abs();
    AskAgainFrame(s, ORDER_TOPIC, ORDER_TOPIC);
    AskAgainFrame(s, ORDER_TOPIC, EXECUTION_TOPIC);
    AskAgainFrame(AskAgain(s, ORDER_TOPIC), EXECUTION_TOPIC, EXECUTION_TOPIC);
    hide AskAgain, IsSubscriptionConfirmed;
    live := session.authenticatedFlag;
    EnsureAsked(session, ORDER_TOPIC);
    var confirmed := session.IsConfirmed(ORDER_TOPIC);
    live := live && confirmed;
    EnsureAsked(session, EXECUTION_TOPIC);
    confirmed := session.IsConfirmed(EXECUTION_TOPIC);
    live := live && confirmed;
  }

  /** The venue streams order and execution events, whatever its verdicts and wherever it has got to. */
  ghost predicate EventsFlow(s: State) {
    && s.Operational() && VenueAt(s, s.out.wire.sent, s.topics.replies)
    && forall frames, verdicts :: VenueAt(s, frames, verdicts) ==>
         {ORDER_TOPIC, EXECUTION_TOPIC} <= VenueTopics(frames, verdicts)
  }

  /** Events flow: in a patient run, against a venue that answers in order, a live session is on an operational connection
      on which the venue streams both topics. */
  lemma LiveMeansEventsFlow(first: Topic, es: seq<Event>)
    requires Legal(Init(true, first), es) && OrderlyRun(Init(true, first), es) && PatientRun(Init(true, first), es)
    requires LiveCondition(After(Init(true, first), es))
    ensures EventsFlow(After(Init(true, first), es))
  {
    var s := After(Init(true, first), es);
    ConfirmedMeansAcknowledged(true, first, es, ORDER_TOPIC);
    AttributionIsExact(true, first, es);
    assert VenueAt(s, s.out.wire.sent, s.topics.replies);
    hide Legal, OrderlyRun, PatientRun, After, VenueTopics, IsSubscriptionConfirmed, VenueAt;
    forall frames, verdicts | VenueAt(s, frames, verdicts)
      ensures {ORDER_TOPIC, EXECUTION_TOPIC} <= VenueTopics(frames, verdicts)
    {
      ConfirmedIsStreamed(true, first, es, ORDER_TOPIC, frames, verdicts);
      ConfirmedIsStreamed(true, first, es, EXECUTION_TOPIC, frames, verdicts);
    }
  }

  /** The private stream itself never unsubscribes. */
  lemma PrivateStreamIsPatient(first: Topic, es: seq<Event>)
    requires Legal(Init(true, first), es) && OrderlyRun(Init(true, first), es) && NeverUnsubscribes(es)
    requires LiveCondition(After(Init(true, first), es))
    ensures EventsFlow(After(Init(true, first), es))
  {
    NeverUnsubscribingIsPatient(true, first, es);
    LiveMeansEventsFlow(first, es);
  }

  predicate Throttles(thrown: Option<GatewayErrors.Exception>) {
    thrown.Some? && thrown.value.GatewayError? && thrown.value.kind.Throttled?
  }

  /** Unless events flow, submit and amend are throttled at the gate, whatever the venue would have answered. */
  lemma UnheardOrdersAreThrottled(first: Topic, es: seq<Event>, reply: GatewayErrors.Reply)
    requires Legal(Init(true, first), es) && OrderlyRun(Init(true, first), es) && PatientRun(Init(true, first), es)
    ensures var s := After(Init(true, first), es);
      !EventsFlow(s) ==> Throttles(GatewayErrors.SubmitPostOnlyLimit(LiveCondition(s), reply))
                         && Throttles(GatewayErrors.AmendPrice(LiveCondition(s), reply))
  {
    hide Legal, OrderlyRun, PatientRun, After, EventsFlow, IsSubscriptionConfirmed;
    if LiveCondition(After(Init(true, first), es)) {
      LiveMeansEventsFlow(first, es);
    }
  }

  /** A rejected topic does not stay unasked: after the check both topics are booked, and a booked topic that was not
      lost keeps its place. */
  lemma NothingStaysDeaf(s: State)
    ensures var s' := AskAgain(AskAgain(s, ORDER_TOPIC), EXECUTION_TOPIC);
      && ORDER_TOPIC in s'.topics.Book() && EXECUTION_TOPIC in s'.topics.Book()
      && s.topics.Book() <= s'.topics.Book()
      && (s' != s ==> PostedFlush in s'.tasks)
  {
    AskedIsBooked(s, ORDER_TOPIC);
    AskedIsBooked(AskAgain(s, ORDER_TOPIC), EXECUTION_TOPIC);
  }

  lemma AskedIsBooked(s: State, t: Topic)
    ensures var s' := AskAgain(s, t);
      && t in s'.topics.Book() && s.topics.Book() <= s'.topics.Book()
      && (s' != s ==> PostedFlush in s'.tasks) && s.tasks <= s'.tasks
  {
    if t !in s.topics.Book() {
      assert s.topics.subscriptions + (s.topics.pending + [t]) == s.topics.Book() + [t];
      assert (s.topics.Book() + [t])[|s.topics.Book()|] == t;
    }
  }

  // ---------------------------------------------------------------- when the gate opens

  /** In every run the session is live if and only if both topics are confirmed: a confirmed topic already implies an
      authenticated connection. */
  lemma LiveExactlyWhen(first: Topic, es: seq<Event>)
    requires Legal(Init(true, first), es)
    ensures var s := After(Init(true, first), es);
      LiveCondition(s) <==>
      IsSubscriptionConfirmed(s.topics, ORDER_TOPIC) && IsSubscriptionConfirmed(s.topics, EXECUTION_TOPIC)
  {
    BookIsOrderedSet(true, first, es);
    StaysCredentialed(Init(true, first), es);
    hide Legal, After;
  }

  /** A credentialed session that has healed is live if both topics are booked. */
  lemma HealedIsLive(s: State)
    requires s.authRequired && Healed(s) && ORDER_TOPIC in s.topics.Book() && EXECUTION_TOPIC in s.topics.Book()
    ensures LiveCondition(s)
  {
  }

  /** What the check itself does. */
  ghost function Asked(s: State): State {
    AskAgain(AskAgain(s, ORDER_TOPIC), EXECUTION_TOPIC)
  }

  function AskRun(s: State, t: Topic): seq<Event> {
    if t in s.topics.Book() then [] else [UserSubscribe(t), UserPost(PostedFlush)]
  }

  lemma AskRuns(first: Topic, es: seq<Event>, t: Topic) returns (es': seq<Event>)
    requires Legal(Init(true, first), es)
    ensures Legal(Init(true, first), es') && After(Init(true, first), es') == AskAgain(After(Init(true, first), es), t)
  {
    hide Init, Step, Legal, After;
    var s0 := Init(true, first);
    var s := After(s0, es);
    es' := es;
    if t !in s.topics.Book() {
      FlushToPost(s, t);
      TwoSteps(s, UserSubscribe(t), UserPost(PostedFlush)) by { AskEnabled(s, t); }
      es' := es + [UserSubscribe(t), UserPost(PostedFlush)];
      AfterConcat(s0, es, [UserSubscribe(t), UserPost(PostedFlush)]);
      LegalConcat(s0, es, [UserSubscribe(t), UserPost(PostedFlush)]);
    }
  }

  lemma AskEnabled(s: State, t: Topic)
    ensures Enabled(s, UserSubscribe(t)) && Enabled(Step(s, UserSubscribe(t)), UserPost(PostedFlush))
  {
  }

  /** The gate opens again: from every state of every run that the user has not closed, once the check has run there is a run
      without the user to a live session, in which submit and amend reach the venue. */
  lemma LiveAgain(first: Topic, es: seq<Event>) returns (more: seq<Event>)
    requires Legal(Init(true, first), es) && !After(Init(true, first), es).link.userClosed
    ensures var s := Asked(After(Init(true, first), es)); var s' := After(s, more);
      && Legal(s, more) && LiveCondition(s')
      && forall reply ::
           GatewayErrors.SubmitPostOnlyLimit(LiveCondition(s'), reply) == GatewayErrors.AmendPrice(LiveCondition(s'), reply)
           == GatewayErrors.SubmitReduceOnlyMarket(reply)
  {
    var s0 := Init(true, first);
    var s := After(s0, es);
    var once := AskRuns(first, es, ORDER_TOPIC);
    var twice := AskRuns(first, once, EXECUTION_TOPIC);
    AskAgainFrame(s, ORDER_TOPIC, ORDER_TOPIC);
    AskAgainFrame(AskAgain(s, ORDER_TOPIC), EXECUTION_TOPIC, ORDER_TOPIC);
    NothingStaysDeaf(s);
    hide Init, Step, Legal, After, Healed, AskAgain, GatewayErrors.RestCall;
    more := SelfHealing(true, first, twice);
    StaysCredentialed(s0, twice);
    StaysCredentialed(After(s0, twice), more);
    assert s0.authRequired by { CredentialedInit(first); }
    HealedIsLive(After(After(s0, twice), more));
  }
}
