/**
 What the venue really streams, by its own verdicts, against what the session counts as confirmed.
 */
module SessionAgreement {
  import opened SessionModel
  import opened SessionDriver
  import opened SessionTopics
  import opened SessionAcks
  import opened SessionVenue
  import opened SessionEffects

  /** The topics the venue streams on a connection once it has worked through `frames` with these verdicts, one for each
      op in order: the topics of the ops it accepted, less the unsubscribed ones. */
  ghost function VenueTopics(frames: seq<Frame>, verdicts: seq<bool>): set<Topic> {
    if frames == [] then {}
    else
      var init := frames[..|frames| - 1];
      var before := VenueTopics(init, verdicts);
      match frames[|frames| - 1]
      case Subscribe(id, args) =>
        if |Ops(init)| < |verdicts| && verdicts[|Ops(init)|] then before + Elements(args) else before
      case Unsubscribe(t) => before - {t}
      case Auth => before
      case Ping => before
  }

  /** A point the venue may have reached on the current connection: it has worked through some of the frames written, with
      some verdicts; the replies received so far are the first of them. */
  ghost predicate VenueAt(s: State, frames: seq<Frame>, verdicts: seq<bool>) {
    frames <= s.out.wire.sent && s.topics.replies <= verdicts && |s.topics.replies| <= |Ops(frames)|
  }

  ghost predicate DroppedLater(frames: seq<Frame>, t: Topic, i: int) {
    exists j :: 0 <= j < |frames| && i < j && frames[j] == Unsubscribe(t)
  }

  predicate Accepted(frames: seq<Frame>, verdicts: seq<bool>, i: nat)
    requires i <= |frames|
  {
    |Ops(frames[..i])| < |verdicts| && verdicts[|Ops(frames[..i])|]
  }

  lemma {:induction false} VenueHolds(frames: seq<Frame>, verdicts: seq<bool>, t: Topic, i: nat)
    requires LatestOp(frames, t, i) && Accepted(frames, verdicts, i)
    ensures t in VenueTopics(frames, verdicts) <==> !DroppedLater(frames, t, i)
    decreases |frames|
  {
    var n := |frames| - 1;
    var init := frames[..n];
    if i < n {
      hide Ops;
      assert init[..i] == frames[..i];
      assert LatestOp(init, t, i) by {
        assert init[i] == frames[i];
        assert forall j :: i < j < |init| ==> init[j] == frames[j];
      }
      VenueHolds(init, verdicts, t, i);
      assert !Names(frames[n], t);
      DroppedInPrefix(frames, t, i);
    }
  }

  lemma DroppedInPrefix(frames: seq<Frame>, t: Topic, i: nat)
    requires i < |frames| - 1
    ensures var n := |frames| - 1;
      DroppedLater(frames, t, i) <==> DroppedLater(frames[..n], t, i) || frames[n] == Unsubscribe(t)
  {
    var n := |frames| - 1;
    var init := frames[..n];
    if DroppedLater(init, t, i) {
      var j :| 0 <= j < |init| && i < j && init[j] == Unsubscribe(t);
      assert frames[j] == Unsubscribe(t);
    }
    if DroppedLater(frames, t, i) && frames[n] != Unsubscribe(t) {
      var j :| 0 <= j < |frames| && i < j && frames[j] == Unsubscribe(t);
      assert init[j] == Unsubscribe(t);
    }
  }

  /** Where an op stands among the ops. */
  lemma OpAt(frames: seq<Frame>, i: nat)
    requires i < |frames| && frames[i].Subscribe?
    ensures var k := |Ops(frames[..i])|; k < |Ops(frames)| && Ops(frames)[k] == frames[i]
  {
    assert frames[..i + 1] == frames[..i] + [frames[i]];
    OpsConcat(frames[..i], [frames[i]]);
    OpsOfOne(frames[i]);
    OpsPrefix(frames[..i + 1], frames);
  }

  /** Here exact attribution counts: an op the session credits as a success is one the venue accepted, wherever the venue
      has got to. */
  lemma CreditedWasAccepted(s: State, i: nat, frames: seq<Frame>, verdicts: seq<bool>)
    requires Sound(s) && Orderly(s) && s.link.connected && VenueAt(s, frames, verdicts)
    requires i < |s.out.wire.enqueued| && s.out.wire.enqueued[i].Subscribe?
    requires Credited(s.topics, s.out.wire.enqueued[i].id)
    ensures i < |frames| && frames[i] == s.out.wire.enqueued[i] && Accepted(frames, verdicts, i)
  {
    var enq := s.out.wire.enqueued;
    SentPrefix(s);
    OpAt(enq, i);
    var k := |Ops(enq[..i])|;
    assert k < |s.topics.replies| && s.topics.replies[k];
    if |frames| <= i {
      assert frames <= enq[..i];
      OpsPrefix(frames, enq[..i]);
    }
    assert frames[..i] == enq[..i];
  }

  lemma LatestInPrefix(frames: seq<Frame>, all: seq<Frame>, t: Topic, i: nat)
    requires frames <= all && i < |frames| && LatestOp(all, t, i)
    ensures LatestOp(frames, t, i)
  {
    assert forall j :: i <= j < |frames| ==> frames[j] == all[j];
  }

  /** A confirmed topic was accepted; the venue streams it exactly when it has seen no unsubscribe for it after that. */
  lemma ConfirmedVersusVenueHere(s: State, t: Topic, frames: seq<Frame>, verdicts: seq<bool>) returns (i: nat)
    requires Sound(s) && Orderly(s) && IsSubscriptionConfirmed(s.topics, t) && VenueAt(s, frames, verdicts)
    ensures LatestOp(s.out.wire.enqueued, t, i) && LatestOp(frames, t, i)
    ensures t in VenueTopics(frames, verdicts) <==> !DroppedLater(frames, t, i)
  {
    ConfirmedInSoundState(s, t);
    var j :| LatestOp(s.out.wire.enqueued, t, j) && Credited(s.topics, s.out.wire.enqueued[j].id);
    i := j;
    CreditedWasAccepted(s, i, frames, verdicts);
    SentPrefix(s);
    LatestInPrefix(frames, s.out.wire.enqueued, t, i);
    VenueHolds(frames, verdicts, t, i);
  }

  lemma ConfirmedVersusVenue(authRequired: bool, first: Topic, es: seq<Event>, t: Topic,
                             frames: seq<Frame>, verdicts: seq<bool>)
    requires Legal(Init(authRequired, first), es) && OrderlyRun(Init(authRequired, first), es)
    requires IsSubscriptionConfirmed(After(Init(authRequired, first), es).topics, t)
    requires VenueAt(After(Init(authRequired, first), es), frames, verdicts)
    ensures exists i :: LatestOp(frames, t, i)
                        && (t in VenueTopics(frames, verdicts) <==> !DroppedLater(frames, t, i))
  {
    hide Sound, Step, Init, Orderly, VenueTopics, DroppedLater, VenueAt, LatestOp;
    AlwaysSound(authRequired, first, es);
    AttributionIsExact(authRequired, first, es);
    var i := ConfirmedVersusVenueHere(After(Init(authRequired, first), es), t, frames, verdicts);
  }

  // ---------------------------------------------------------------- patient runs

  /** No topic is subscribed while an unsubscribe of it is still owed. */
  ghost predicate PatientRun(s: State, es: seq<Event>) {
    es == [] || (PatientRun(s, es[..|es| - 1]) && Patient(After(s, es[..|es| - 1]), es[|es| - 1]))
  }

  predicate Patient(s: State, e: Event) {
    e.UserSubscribe? ==> Posts(s, e.topic) == 0
  }

  /** An unsubscribe of `t` that no later op makes good. */
  ghost predicate Left(frames: seq<Frame>, t: Topic) {
    exists j :: 0 <= j < |frames| && frames[j] == Unsubscribe(t) && forall k :: j < k < |frames| ==> !Names(frames[k], t)
  }

  /** What patience keeps: a topic whose unsubscribe is owed is in neither book, and one whose unsubscribe was queued after
      its latest op does not count as sent. */
  ghost predicate Settled(s: State) {
    && (forall t :: Posts(s, t) > 0 ==> t !in s.topics.Book())
    && (forall t :: t in s.topics.subscriptions ==> !Left(s.out.wire.enqueued, t))
  }

  lemma LeftBefore(frames: seq<Frame>, f: Frame, t: Topic)
    requires Left(frames + [f], t) && f != Unsubscribe(t)
    ensures Left(frames, t) && !Names(f, t)
  {
    var all := frames + [f];
    var j :| 0 <= j < |all| && all[j] == Unsubscribe(t) && forall k :: j < k < |all| ==> !Names(all[k], t);
    assert all[|frames|] == f;
    assert frames[j] == Unsubscribe(t);
    forall k | j < k < |frames| ensures !Names(frames[k], t) {
      assert all[k] == frames[k];
    }
  }

  lemma BookedNext(s: State, e: Event, t: Topic)
    requires t in NextBook(s, e)
    ensures t in s.topics.Book() || e == UserSubscribe(t)
    ensures e != UserUnsubscribe(t)
  {
    MinusMembers(s.topics.Book(), if e.UserUnsubscribe? then {e.topic} else {});
    match Rejected(s, e)
    case None =>
    case Some(n) => MinusMembers(s.topics.subscriptions, Elements(s.topics.inflight[n]));
  }

  lemma PostsUnbooked(s: State, e: Event, t: Topic)
    requires Live(s) && Booked(s) && Settled(s) && Enabled(s, e) && Patient(s, e)
    ensures Posts(Step(s, e), t) > 0 ==> t !in Step(s, e).topics.Book()
  {
    hide Step, Enabled, NextBook, Live, Booked, Posts;
    StepPosts(s, e, t);
    StepBooked(s, e);
    if t in Step(s, e).topics.Book() {
      BookedNext(s, e, t);
    }
  }

  lemma OwedIsUnbooked(s: State, t: Topic)
    requires Settled(s) && PostedUnsubscribe(t) in s.tasks
    ensures t !in s.topics.subscriptions
  {
    assert Posts(s, t) > 0;
  }

  lemma SentNotLeft(s: State, e: Event, t: Topic)
    requires Settled(s) && Enabled(s, e) && t in Step(s, e).topics.subscriptions
    ensures !Left(Step(s, e).out.wire.enqueued, t)
  {
    StepEffect(s, e);
    if e.Complete? && e.task.PostedUnsubscribe? {
      OwedIsUnbooked(s, e.task.topic);
    }
    hide Step, Enabled, Left, Posts;
    var frames := s.out.wire.enqueued;
    var s' := Step(s, e);
    if Left(s'.out.wire.enqueued, t) {
      if Quiet(s, s') || Redials(s, s') {
        NothingLeft(t);
      } else {
        var f := s'.out.wire.enqueued[|frames|];
        assert s'.out.wire.enqueued == frames + [f];
        assert f != Unsubscribe(t);
        LeftBefore(frames, f, t);
      }
    }
  }

  lemma NothingLeft(t: Topic)
    ensures !Left([], t)
  {
  }

  lemma StepSettled(s: State, e: Event)
    requires Live(s) && Booked(s) && Settled(s) && Enabled(s, e) && Patient(s, e)
    ensures Settled(Step(s, e))
  {
    var s' := Step(s, e);
    forall t | Posts(s', t) > 0 ensures t !in s'.topics.Book() {
      PostsUnbooked(s, e, t);
    }
    forall t | t in s'.topics.subscriptions ensures !Left(s'.out.wire.enqueued, t) {
      SentNotLeft(s, e, t);
    }
    hide Step, Left, Posts;
  }

  lemma {:induction false} PatientIsSettled(authRequired: bool, first: Topic, es: seq<Event>)
    requires Legal(Init(authRequired, first), es) && PatientRun(Init(authRequired, first), es)
    ensures Settled(After(Init(authRequired, first), es))
  {
    hide Step, Patient;
    if es != [] {
      PatientIsSettled(authRequired, first, es[..|es| - 1]);
      AlwaysSound(authRequired, first, es[..|es| - 1]);
      StepSettled(After(Init(authRequired, first), es[..|es| - 1]), es[|es| - 1]);
    }
  }

  lemma SettledIsStreamed(s: State, t: Topic, frames: seq<Frame>, verdicts: seq<bool>)
    requires Sound(s) && Orderly(s) && Settled(s) && IsSubscriptionConfirmed(s.topics, t) && VenueAt(s, frames, verdicts)
    ensures t in VenueTopics(frames, verdicts)
  {
    var i := ConfirmedVersusVenueHere(s, t, frames, verdicts);
    SentPrefix(s);
    if DroppedLater(frames, t, i) {
      DroppedMeansLeft(frames, s.out.wire.enqueued, t, i);
    }
  }

  lemma DroppedMeansLeft(frames: seq<Frame>, all: seq<Frame>, t: Topic, i: nat)
    requires frames <= all && LatestOp(all, t, i) && DroppedLater(frames, t, i)
    ensures Left(all, t)
  {
    var j :| 0 <= j < |frames| && i < j && frames[j] == Unsubscribe(t);
    assert all[j] == Unsubscribe(t);
  }

  /** In every patient run a confirmed topic is one the venue streams, whatever its verdicts and wherever it has got to. */
  lemma ConfirmedIsStreamed(authRequired: bool, first: Topic, es: seq<Event>, t: Topic,
                            frames: seq<Frame>, verdicts: seq<bool>)
    requires Legal(Init(authRequired, first), es) && OrderlyRun(Init(authRequired, first), es)
    requires PatientRun(Init(authRequired, first), es)
    requires IsSubscriptionConfirmed(After(Init(authRequired, first), es).topics, t)
    requires VenueAt(After(Init(authRequired, first), es), frames, verdicts)
    ensures t in VenueTopics(frames, verdicts)
  {
    AlwaysSound(authRequired, first, es);
    AttributionIsExact(authRequired, first, es);
    PatientIsSettled(authRequired, first, es);
    hide Legal, OrderlyRun, PatientRun, After, Sound, Orderly, Settled, IsSubscriptionConfirmed, VenueAt, VenueTopics;
    SettledIsStreamed(After(Init(authRequired, first), es), t, frames, verdicts);
  }

  // ---------------------------------------------------------------- sessions that never unsubscribe

  predicate NeverUnsubscribes(es: seq<Event>) {
    forall i :: 0 <= i < |es| ==> !es[i].UserUnsubscribe?
  }

  lemma {:induction false} NothingOwed(authRequired: bool, first: Topic, es: seq<Event>, t: Topic)
    requires Legal(Init(authRequired, first), es) && NeverUnsubscribes(es)
    ensures Posts(After(Init(authRequired, first), es), t) == 0
  {
    hide Step, Enabled;
    if es != [] {
      NothingOwed(authRequired, first, es[..|es| - 1], t);
      StepPosts(After(Init(authRequired, first), es[..|es| - 1]), es[|es| - 1], t);
      assert !es[|es| - 1].UserUnsubscribe?;
    }
  }

  /** A session that never unsubscribes, like the private stream, is patient. */
  lemma {:induction false} NeverUnsubscribingIsPatient(authRequired: bool, first: Topic, es: seq<Event>)
    requires Legal(Init(authRequired, first), es) && NeverUnsubscribes(es)
    ensures PatientRun(Init(authRequired, first), es)
  {
    hide Step, Enabled, Posts;
    if es != [] {
      NeverUnsubscribingIsPatient(authRequired, first, es[..|es| - 1]);
      if es[|es| - 1].UserSubscribe? {
        NothingOwed(authRequired, first, es[..|es| - 1], es[|es| - 1].topic);
      }
    }
  }
}
