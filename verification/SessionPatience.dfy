/**
 Exactly when confirmed and streamed agree for good: as long as nobody subscribes a topic whose unsubscribe is still owed.
 */
module SessionPatience {
  import opened SessionModel
  import opened SessionRuns
  import opened SessionDriver
  import opened SessionTopics
  import opened SessionAcks
  import opened SessionVenue
  import opened SessionEffects
  import opened SessionAgreement
  import opened SessionProgress
  import opened SessionRecovery

  /** If the topic is confirmed the venue streams it, whatever its verdicts and wherever it has got to. */
  ghost predicate Agrees(s: State, t: Topic) {
    IsSubscriptionConfirmed(s.topics, t) ==>
      forall frames, verdicts :: VenueAt(s, frames, verdicts) ==> t in VenueTopics(frames, verdicts)
  }

  /** A run that goes on from `s`, against a venue that answers in order, and is patient from there. */
  ghost predicate GoesOn(s: State, more: seq<Event>) {
    Legal(s, more) && OrderlyRun(s, more) && PatientRun(s, more)
  }

  lemma GoesOnFurther(s: State, es: seq<Event>, e: Event)
    requires GoesOn(s, es) && Enabled(After(s, es), e) && InRequestOrder(After(s, es), e) && Patient(After(s, es), e)
    ensures GoesOn(s, es + [e]) && After(s, es + [e]) == Step(After(s, es), e)
  {
    hide Step, Enabled, InRequestOrder, Patient;
    var all := es + [e];
    assert all[..|all| - 1] == es && all[|all| - 1] == e;
  }

  /** A healing run subscribes nothing and leaves the unsubscribes owed. */
  lemma {:induction false} LeadingGoesOn(s: State, es: seq<Event>, t: Topic)
    requires Leads(s, es)
    ensures GoesOn(s, es) && Posts(After(s, es), t) == Posts(s, t)
  {
    hide Step, Enabled, Benign, Posts, InRequestOrder;
    if es != [] {
      var init, e := es[..|es| - 1], es[|es| - 1];
      assert forall i :: 0 <= i < |init| ==> init[i] == es[i];
      assert !RunsUnsubscribe(e);
      LeadingGoesOn(s, init, t);
      StepPosts(After(s, init), e, t);
      BenignGoesOn(After(s, init), e, t);
    }
  }

  lemma BenignGoesOn(s: State, e: Event, t: Topic)
    requires Benign(s, e) && !RunsUnsubscribe(e)
    ensures InRequestOrder(s, e) && Patient(s, e) && PostsChange(s, e, t) == 0
  {
  }

  /** The posted unsubscribe runs on a healed session: the topic stays confirmed, the frame is queued last. */
  lemma UnsubscribeQueued(s: State, t: Topic)
    requires Good(s) && s.Operational() && PostedUnsubscribe(t) in s.tasks
    ensures var s' := Step(s, Complete(PostedUnsubscribe(t), FINE));
      && s'.link == s.link && s'.topics == s.topics && s'.authRequired == s.authRequired
      && s'.out.wire.enqueued == s.out.wire.enqueued + [Unsubscribe(t)]
  {
    hide Send, Good;
    SendFrame(Popped(s, PostedUnsubscribe(t)), Unsubscribe(t));
    SendWire(Popped(s, PostedUnsubscribe(t)), Unsubscribe(t));
  }

  /** Once the last frame written is an unsubscribe, no verdict brings the topic back. */
  lemma DroppedInTheEnd(s: State, t: Topic)
    requires Good(s) && s.link.connected && IsSubscriptionConfirmed(s.topics, t)
    requires s.out.wire.sent != [] && s.out.wire.sent[|s.out.wire.sent| - 1] == Unsubscribe(t)
    ensures !Agrees(s, t)
  {
    assert VenueAt(s, s.out.wire.sent, s.topics.replies);
    assert t !in VenueTopics(s.out.wire.sent, s.topics.replies);
    hide Good, VenueAt, VenueTopics, IsSubscriptionConfirmed;
  }

  /** From a state in which a booked topic has an unsubscribe owed, some run ends with the topic confirmed and dropped. */
  lemma OwedCanDrop(s: State, t: Topic) returns (more: seq<Event>)
    requires Good(s) && t in s.topics.Book() && Posts(s, t) > 0
    ensures GoesOn(s, more) && !Agrees(After(s, more), t)
  {
    hide Step, Good, Leads, GoesOn, Agrees, Rank;
    var healing := HealFrom(s);
    LeadingGoesOn(s, healing, t);
    var posted := OwedIsPosted(s, healing, t);
    more := DropIt(s, posted, t);
  }

  /** The unsubscribe owed is posted, if it was not yet. */
  lemma OwedIsPosted(s: State, es: seq<Event>, t: Topic) returns (es': seq<Event>)
    requires GoesOn(s, es) && Good(After(s, es)) && Healed(After(s, es)) && Posts(After(s, es), t) > 0
    ensures GoesOn(s, es') && Good(After(s, es')) && Healed(After(s, es')) && PostedUnsubscribe(t) in After(s, es').tasks
    ensures After(s, es').topics == After(s, es).topics
  {
    hide Good, GoesOn;
    var at := After(s, es);
    es' := es;
    if PostedUnsubscribe(t) !in at.tasks {
      var e := UserPost(PostedUnsubscribe(t));
      hide Handle;
      StepRank(at, e);
      GoesOnFurther(s, es, e);
      es' := es + [e];
    }
  }

  lemma DropIt(s: State, es: seq<Event>, t: Topic) returns (es': seq<Event>)
    requires GoesOn(s, es) && Good(After(s, es)) && Healed(After(s, es)) && PostedUnsubscribe(t) in After(s, es).tasks
    requires t in After(s, es).topics.Book()
    ensures GoesOn(s, es') && !Agrees(After(s, es'), t)
  {
    hide Step, Good, GoesOn, Agrees, Rank, Leads, IsSubscriptionConfirmed;
    var at := After(s, es);
    var e := Complete(PostedUnsubscribe(t), FINE);
    StepRank(at, e);
    UnsubscribeQueued(at, t);
    GoesOnFurther(s, es, e);
    var queued := es + [e];
    var s1 := After(s, queued);
    LeadsNowhere(s1);
    var writes := Drain(s1, []);
    LeadingGoesOn(s1, writes, t);
    DrainedIsSent(After(s1, writes));
    DroppedInTheEnd(After(s1, writes), t);
    es' := queued + writes;
    GoesOnConcat(s, queued, writes);
    AfterConcat(s, queued, writes);
  }

  lemma LeadsNowhere(s: State)
    ensures Leads(s, []) && After(s, []) == s
  {
  }

  lemma {:induction false} PatientConcat(s: State, a: seq<Event>, b: seq<Event>)
    ensures PatientRun(s, a + b) <==> PatientRun(s, a) && PatientRun(After(s, a), b)
  {
    hide Step, Patient;
    if b == [] {
      assert a + b == a;
    } else {
      assert (a + b)[..|a + b| - 1] == a + b[..|b| - 1];
      AfterConcat(s, a, b[..|b| - 1]);
      PatientConcat(s, a, b[..|b| - 1]);
    }
  }

  lemma GoesOnConcat(s: State, a: seq<Event>, b: seq<Event>)
    ensures GoesOn(s, a + b) <==> GoesOn(s, a) && GoesOn(After(s, a), b)
  {
    LegalConcat(s, a, b);
    OrderlyConcat(s, a, b);
    PatientConcat(s, a, b);
    hide Legal, OrderlyRun, PatientRun, After;
  }

  /** After a subscribe in a patient run: confirmed and streamed agree in every patient continuation if and only if no
      unsubscribe of the topic was owed. */
  lemma AgreesExactlyWhenPatient(authRequired: bool, first: Topic, es: seq<Event>, t: Topic)
    requires GoesOn(Init(authRequired, first), es) && !After(Init(authRequired, first), es).link.userClosed
    ensures var s := After(Init(authRequired, first), es); var s' := Step(s, UserSubscribe(t));
      (forall more :: GoesOn(s', more) ==> Agrees(After(s', more), t)) <==> Posts(s, t) == 0
  {
    var s0 := Init(authRequired, first);
    var s := After(s0, es);
    var e := UserSubscribe(t);
    var s' := Step(s, e);
    if Posts(s, t) == 0 {
      GoesOnFurther(s0, es, e);
      forall more | GoesOn(s', more) ensures Agrees(After(s', more), t) {
        GoesOnConcat(s0, es + [e], more);
        AfterConcat(s0, es + [e], more);
        PatientAgrees(authRequired, first, es + [e] + more, t);
      }
    } else {
      OpenRunIsGood(authRequired, first, es);
      Resubscribed(s, t);
      var more := OwedCanDrop(s', t);
    }
  }

  lemma PatientAgrees(authRequired: bool, first: Topic, es: seq<Event>, t: Topic)
    requires GoesOn(Init(authRequired, first), es)
    ensures Agrees(After(Init(authRequired, first), es), t)
  {
    var s := After(Init(authRequired, first), es);
    hide Legal, OrderlyRun, PatientRun, After, IsSubscriptionConfirmed, VenueAt, VenueTopics;
    if IsSubscriptionConfirmed(s.topics, t) {
      forall frames, verdicts | VenueAt(s, frames, verdicts) ensures t in VenueTopics(frames, verdicts) {
        ConfirmedIsStreamed(authRequired, first, es, t, frames, verdicts);
      }
    }
  }

  lemma OpenRunIsGood(authRequired: bool, first: Topic, es: seq<Event>)
    requires Legal(Init(authRequired, first), es) && OrderlyRun(Init(authRequired, first), es)
    ensures !After(Init(authRequired, first), es).link.userClosed ==> Good(After(Init(authRequired, first), es))
  {
    AlwaysSound(authRequired, first, es);
    AttributionIsExact(authRequired, first, es);
    hide Sound, Orderly;
  }

  lemma Resubscribed(s: State, t: Topic)
    requires Good(s)
    ensures var s' := Step(s, UserSubscribe(t)); Good(s') && t in s'.topics.Book() && Posts(s', t) == Posts(s, t)
  {
    var e := UserSubscribe(t);
    StepSound(s, e);
    StepOrderly(s, e);
    StepBooked(s, e);
    StepPosts(s, e, t);
    hide Sound, Orderly, Handle, AddTopic, Posts;
    var book := s.topics.Book();
    assert t !in book ==> (book + [t])[|book|] == t;
  }
}
