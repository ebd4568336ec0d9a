/**
 Recovery is always within reach: from every state of every run that the user has not closed, there is a run that heals
 the session without the user and, where replies came in order, without breaking a connection that works.
 */
module SessionRecovery {
  import opened SessionModel
  import opened SessionRuns
  import opened SessionAcks
  import opened SessionVenue
  import opened SessionProgress

  predicate RunsUnsubscribe(e: Event) {
    e.Complete? && e.task.PostedUnsubscribe?
  }

  /** A benign run from `s` that leaves posted unsubscribes waiting. */
  ghost predicate Leads(s: State, es: seq<Event>) {
    Legal(s, es) && BenignRun(s, es) && forall i :: 0 <= i < |es| ==> !RunsUnsubscribe(es[i])
  }

  lemma LeadsOn(s: State, es: seq<Event>, e: Event)
    requires Leads(s, es) && Good(After(s, es))
    requires Enabled(After(s, es), e) && Benign(After(s, es), e) && !RunsUnsubscribe(e)
    ensures Leads(s, es + [e]) && After(s, es + [e]) == Step(After(s, es), e) && Good(After(s, es + [e]))
    ensures Rank(After(s, es + [e])) == Rank(After(s, es)) - if Drives(After(s, es), e) then 1 else 0
  {
    StepRank(After(s, es), e);
    hide Step, Enabled, Benign, Good, Rank, Drives, RunsUnsubscribe;
    var all := es + [e];
    assert all[..|all| - 1] == es && all[|all| - 1] == e;
  }

  // ---------------------------------------------------------------- step by step

  lemma WroteOne(s: State)
    requires Good(s) && s.link.connected && s.link.streamOpen && s.out.queue != []
    ensures var s' := Step(s, Complete(Write(s.link.generation), FINE));
      && s'.link == s.link && s'.topics == s.topics && s'.out.queue == s.out.queue[1..]
      && s'.out.wire.enqueued == s.out.wire.enqueued && s'.authRequired == s.authRequired
  {
    hide Good;
  }

  /** Writes one after another until nothing is queued. */
  lemma Drain(s0: State, es: seq<Event>) returns (es': seq<Event>)
    requires Leads(s0, es) && Good(After(s0, es)) && After(s0, es).link.connected && After(s0, es).link.streamOpen
    ensures Leads(s0, es') && Good(After(s0, es')) && After(s0, es').out.queue == []
    ensures var s, s' := After(s0, es), After(s0, es');
      && s'.link == s.link && s'.topics == s.topics && s'.out.wire.enqueued == s.out.wire.enqueued
      && s'.authRequired == s.authRequired && Rank(s') <= Rank(s)
    ensures es <= es'
    decreases |After(s0, es).out.queue|
  {
    hide Step, Good, Leads, Rank;
    var s := After(s0, es);
    if s.out.queue == [] {
      es' := es;
    } else {
      var e := Complete(Write(s.link.generation), FINE);
      WriteReady(s);
      LeadsOn(s0, es, e);
      WroteOne(s);
      es' := Drain(s0, es + [e]);
    }
  }

  /** One step after the other until nothing is missing. */
  lemma Heal(s0: State, es: seq<Event>) returns (es': seq<Event>)
    requires Leads(s0, es) && Good(After(s0, es))
    ensures Leads(s0, es') && Good(After(s0, es')) && Rank(After(s0, es')) == 0
    decreases Rank(After(s0, es)), Backlog(After(s0, es))
  {
    var s := After(s0, es);
    RankNotNegative(s);
    hide Step, Good, Leads, Rank, Enabled, Benign, Drives, Backlog, Forward;
    es' := es;
    if Rank(s) > 0 {
      var e: Event;
      if s.link.connected {
        NextStepReady(s);
        e := NextStep(s);
      } else {
        var t := DriverReady(s);
        e := Complete(t, FINE);
      }
      LeadsOn(s0, es, e);
      es' := Heal(s0, es + [e]);
    }
  }

  // ---------------------------------------------------------------- from any state

  lemma SoundReads(s: State)
    requires Sound(s) && !s.link.userClosed && s.link.connected
    ensures Read(s.link.generation) in s.tasks && !s.link.reconnectScheduled
  {
  }

  lemma ReadFails(s: State)
    requires !s.link.userClosed && !s.link.reconnectScheduled
    ensures var s' := Step(s, Complete(Read(s.link.generation), BROKEN));
      && !s'.link.connected && !s'.link.userClosed && s'.topics.Book() == s.topics.Book()
  {
    assert [] + s.topics.Book() == s.topics.Book();
  }

  /** If replies had come in any other order on this connection, the transport drops first and the read reports it. */
  lemma HangUp(s: State)
    requires Sound(s) && !s.link.userClosed && s.link.connected
    ensures var e := Complete(Read(s.link.generation), BROKEN);
      && Enabled(Step(s, StreamDrops), e)
      && Good(Step(Step(s, StreamDrops), e))
      && Step(Step(s, StreamDrops), e).topics.Book() == s.topics.Book()
  {
    var e := Complete(Read(s.link.generation), BROKEN);
    var dropped := Step(s, StreamDrops);
    SoundReads(s);
    StepSound(s, StreamDrops);
    StepSound(dropped, e);
    ReadFails(dropped);
    hide Sound, Handle;
  }

  /** From every state of every run that the user has not closed, whatever replies came before, a run without the user
      confirms every booked topic; from a state with replies in order it is benign throughout and holds as many driving
      completions as the rank says. */
  lemma SelfHealing(authRequired: bool, first: Topic, es: seq<Event>) returns (more: seq<Event>)
    requires Legal(Init(authRequired, first), es) && !After(Init(authRequired, first), es).link.userClosed
    ensures var s := After(Init(authRequired, first), es); var s' := After(s, more);
      && Legal(s, more) && Healed(s') && s'.topics.Book() == s.topics.Book()
      && (Orderly(s) ==> Leads(s, more) && Driving(s, more) == Rank(s))
  {
    AlwaysSound(authRequired, first, es);
    var s := After(Init(authRequired, first), es);
    hide Init, Sound, Orderly, Step;
    if Orderly(s) {
      more := HealFrom(s);
    } else {
      NotOrderly(s);
      HangUp(s);
      var e := Complete(Read(s.link.generation), BROKEN);
      var s1 := Step(s, StreamDrops);
      var s2 := Step(s1, e);
      var rest := HealFrom(s2);
      more := [StreamDrops, e] + rest;
      TwoSteps(s, StreamDrops, e);
      AfterConcat(s, [StreamDrops, e], rest);
      LegalConcat(s, [StreamDrops, e], rest);
    }
  }

  lemma NotOrderly(s: State)
    requires !Orderly(s)
    ensures s.link.connected
  {
  }

  lemma TwoSteps(s: State, d: Event, e: Event)
    requires Enabled(s, d) && Enabled(Step(s, d), e)
    ensures Legal(s, [d, e]) && After(s, [d, e]) == Step(Step(s, d), e)
  {
    hide Step, Enabled;
    var both := [d, e];
    assert [d][..0] == [] && both[..|both| - 1] == [d];
    assert After(s, [d]) == Step(s, d) && Legal(s, [d]);
  }

  lemma HealFrom(s: State) returns (more: seq<Event>)
    requires Good(s)
    ensures Leads(s, more) && Good(After(s, more)) && Healed(After(s, more)) && Driving(s, more) == Rank(s)
    ensures After(s, more).topics.Book() == s.topics.Book()
  {
    assert After(s, []) == s;
    assert Leads(s, []);
    hide Good, Step, Rank, Healed;
    more := Heal(s, []);
    RunRank(s, more);
    HealedAtZero(After(s, more));
  }

  /** From the start: six driving completions without credentials, seven with them, and there is such a run. */
  lemma FirstConnection(authRequired: bool, first: Topic) returns (more: seq<Event>)
    ensures var s := Init(authRequired, first);
      && Good(s) && Legal(s, more) && BenignRun(s, more) && Healed(After(s, more))
      && Driving(s, more) == Rank(s) == if authRequired then 7 else 6
  {
    var s := Init(authRequired, first);
    InitSound(authRequired, first);
    assert Good(s);
    assert Rank(s) == if authRequired then 7 else 6;
    hide Good, Init, Rank, Healed;
    more := HealFrom(s);
  }

  // ---------------------------------------------------------------- runs end to end

  lemma {:induction false} OrderlyConcat(s: State, a: seq<Event>, b: seq<Event>)
    ensures OrderlyRun(s, a + b) <==> OrderlyRun(s, a) && OrderlyRun(After(s, a), b)
  {
    hide Step, InRequestOrder;
    if b == [] {
      assert a + b == a;
    } else {
      assert (a + b)[..|a + b| - 1] == a + b[..|b| - 1];
      AfterConcat(s, a, b[..|b| - 1]);
      OrderlyConcat(s, a, b[..|b| - 1]);
    }
  }
}
