/**
 `getFundingRates`: paging backwards through a symbol's funding history, newest page first, and the connector's sort on
 top of it.
 */
module FundingDownload {
  import opened Division
  import opened Sequences

  datatype FundingRate = FundingRate(timestamp: int, rate: real)

  ghost predicate Ascending(rs: seq<FundingRate>) {
    forall i, j :: 0 <= i < j < |rs| ==> rs[i].timestamp < rs[j].timestamp
  }

  /** The venue's records in [start, end], both ends included. */
  function Within(rs: seq<FundingRate>, start: int, end: int): seq<FundingRate> {
    if rs == [] then []
    else
      var last := rs[|rs| - 1];
      Within(rs[..|rs| - 1], start, end) + if start <= last.timestamp <= end then [last] else []
  }

  /** The venue's answer: the newest `limit` records of the range, newest first. */
  function Page(rs: seq<FundingRate>, start: int, end: int, limit: nat): seq<FundingRate> {
    var w := Within(rs, start, end);
    Reversed(w[if |w| <= limit then 0 else |w| - limit..])
  }

  /** When the oldest record is missed, with `w` the records in range: the range is the single instant of that record,
      or the record after it, one millisecond later, is the oldest of a full page; the strict guard `start < end` then
      skips the request for [start, start]. */
  ghost predicate OldestMissed(w: seq<FundingRate>, start: int, end: int, limit: int)
    requires limit >= 1
  {
    && w != [] && w[0].timestamp == start
    && (start == end || (|w| >= 2 && w[1].timestamp == start + 1 && (|w| - 1) % limit == 0))
  }

  // ---------------------------------------------------------------- records in a range

  lemma {:induction false} WithinExact(rs: seq<FundingRate>, start: int, end: int)
    ensures forall r :: r in Within(rs, start, end) <==> r in rs && start <= r.timestamp <= end
  {
    if rs != [] {
      WithinExact(rs[..|rs| - 1], start, end);
      assert rs == rs[..|rs| - 1] + [rs[|rs| - 1]];
    }
  }

  lemma {:induction false} WithinAscending(rs: seq<FundingRate>, start: int, end: int)
    requires Ascending(rs)
    ensures Ascending(Within(rs, start, end))
  {
    if rs != [] {
      var init := rs[..|rs| - 1];
      WithinAscending(init, start, end);
      WithinExact(init, start, end);
      var w := Within(init, start, end);
      forall i | 0 <= i < |w| ensures w[i].timestamp < rs[|rs| - 1].timestamp {
        assert w[i] in init;
      }
    }
  }

  /** A smaller `end` just below a record of the range leaves the records before it. */
  lemma {:induction false} Narrowed(rs: seq<FundingRate>, start: int, end: int, k: nat)
    requires Ascending(rs) && k < |Within(rs, start, end)|
    ensures Within(rs, start, Within(rs, start, end)[k].timestamp - 1) == Within(rs, start, end)[..k]
  {
    var init, last := rs[..|rs| - 1], rs[|rs| - 1];
    var w, wi := Within(rs, start, end), Within(init, start, end);
    WithinExact(init, start, end);
    InitEarlier(rs);
    hide Ascending;
    if k < |wi| {
      Narrowed(init, start, end, k);
      assert wi[k] in init;
      assert w[..k] == wi[..k];
    } else {
      assert w == wi + [last] && k == |wi|;
      AllEarlier(init, start, end, last.timestamp - 1);
      assert w[..k] == wi;
    }
  }

  lemma InitEarlier(rs: seq<FundingRate>)
    requires Ascending(rs) && rs != []
    ensures var init := rs[..|rs| - 1];
      Ascending(init) && forall i :: 0 <= i < |init| ==> init[i].timestamp < rs[|rs| - 1].timestamp
  {
  }

  lemma {:induction false} AllEarlier(rs: seq<FundingRate>, start: int, end: int, end': int)
    requires forall i :: 0 <= i < |rs| ==> rs[i].timestamp <= end'
    requires end' <= end
    ensures Within(rs, start, end') == Within(rs, start, end)
  {
    if rs != [] {
      AllEarlier(rs[..|rs| - 1], start, end, end');
    }
  }

  // ---------------------------------------------------------------- the loop

  /** What the loop keeps, with `w` the records in range and `left` those still at or before `end`: they are followed
      by the ones taken, and all pages but the last were full. */
  ghost predicate Paging(w: seq<FundingRate>, left: seq<FundingRate>, start: int, end0: int, end: int, limit: nat,
                         taken: seq<FundingRate>)
    requires limit >= 1
  {
    && w == left + Reversed(taken)
    && (left != [] ==> |taken| % limit == 0)
    && (if taken == [] then end == end0 else end == taken[|taken| - 1].timestamp - 1)
    && (left == [] ==> !OldestMissed(w, start, end0, limit))
  }

  lemma ModOfRest(left: nat, taken: nat, limit: nat)
    requires 1 <= left <= limit && taken % limit == 0 && (left + taken - 1) % limit == 0
    ensures left == 1
  {
    var q := taken / limit;
    assert taken == q * limit;
    RemainderIs(left - 1, q, limit);
  }

  lemma ModOfMore(a: nat, limit: nat)
    requires limit >= 1
    ensures (a + limit) % limit == a % limit
  {
    var q, r := a / limit, a % limit;
    assert (q + 1) * limit == q * limit + limit;
    RemainderIs(r, q + 1, limit);
  }

  /** The last page can not be the one that is never asked for. */
  lemma LastPageHasMore(w: seq<FundingRate>, start: int, end0: int, end: int, limit: nat, left: seq<FundingRate>,
                        taken: seq<FundingRate>)
    requires limit >= 1 && start < end <= end0 && 1 <= |left| <= limit && |taken| % limit == 0
    requires w == left + Reversed(taken)
    requires taken != [] ==> end == taken[|taken| - 1].timestamp - 1
    ensures !OldestMissed(w, start, end0, limit)
  {
    if OldestMissed(w, start, end0, limit) {
      ModOfRest(|left|, |taken|, limit);
      assert false;
    }
  }

  /** One page more: all but the `k` oldest. */
  lemma PageTaken(w: seq<FundingRate>, left: seq<FundingRate>, start: int, end0: int, end: int, limit: nat,
                  taken: seq<FundingRate>, k: nat)
    requires limit >= 1 && start < end <= end0 && Paging(w, left, start, end0, end, limit, taken)
    requires k < |left| && (if k == 0 then |left| <= limit else |left| == k + limit)
    ensures Paging(w, left[..k], start, end0, left[k].timestamp - 1, limit, taken + Reversed(left[k..]))
  {
    var page := Reversed(left[k..]);
    ReversedTwice(left[k..]);
    ReversedConcat(taken, page);
    hide Reversed;
    assert left[..k] + (left[k..] + Reversed(taken)) == left + Reversed(taken);
    assert (taken + page)[|taken + page| - 1] == left[k];
    if k > 0 {
      ModOfMore(|taken|, limit);
    } else {
      LastPageHasMore(w, start, end0, end, limit, left, taken);
    }
  }

  /** The whole download. `end0` is the caller's end. */
  method GetFundingRates(rs: seq<FundingRate>, start: int, end0: int, limit: nat) returns (retVal: seq<FundingRate>)
    requires Ascending(rs) && limit >= 1
    ensures var w := Within(rs, start, end0);
      retVal == if OldestMissed(w, start, end0, limit) then w[1..] else w
  {
    hide Ascending, Within, Paging, OldestMissed, Reversed, Page;
    var endTime := end0;
    ghost var w := Within(rs, start, end0);
    retVal := [];
    var fr := [];
    if start < endTime {
      fr := Page(rs, start, endTime, limit);
    }
    NothingTaken(w, start, end0, limit);
    while fr != []
      invariant endTime <= end0
      invariant Paging(w, Within(rs, start, endTime), start, end0, endTime, limit, retVal)
      invariant fr == if start < endTime then Page(rs, start, endTime, limit) else []
      decreases |Within(rs, start, endTime)|
    {
      ghost var left := Within(rs, start, endTime);
      ghost var k := PageIs(rs, start, endTime, limit);
      PageTaken(w, left, start, end0, endTime, limit, retVal, k);
      retVal := retVal + fr;
      endTime := fr[|fr| - 1].timestamp - 1;
      fr := [];
      if start < endTime {
        fr := Page(rs, start, endTime, limit);
      }
    }
    WhatIsLeft(rs, start, end0, endTime, limit, retVal);
    retVal := Reversed(retVal);
  }

  lemma NothingTaken(w: seq<FundingRate>, start: int, end: int, limit: nat)
    requires limit >= 1
    ensures Paging(w, w, start, end, end, limit, [])
  {
  }

  /** A page is all but the `k` oldest records left, newest first. */
  lemma PageIs(rs: seq<FundingRate>, start: int, end: int, limit: nat) returns (k: nat)
    requires Ascending(rs) && limit >= 1 && Page(rs, start, end, limit) != []
    ensures var left := Within(rs, start, end);
      && k < |left| && (if k == 0 then |left| <= limit else |left| == k + limit)
      && Page(rs, start, end, limit) == Reversed(left[k..])
      && Within(rs, start, left[k].timestamp - 1) == left[..k]
      && left[k].timestamp <= end
  {
    hide Ascending;
    var left := Within(rs, start, end);
    k := if |left| <= limit then 0 else |left| - limit;
    Narrowed(rs, start, end, k);
    WithinExact(rs, start, end);
    assert left[k] in left;
  }

  lemma AtMostTheStart(rs: seq<FundingRate>, start: int, end: int)
    requires Ascending(rs) && end <= start && Within(rs, start, end) != []
    ensures var left := Within(rs, start, end); end == start && left == [left[0]] && left[0].timestamp == start
  {
    var left := Within(rs, start, end);
    WithinExact(rs, start, end);
    WithinAscending(rs, start, end);
    hide Within;
    assert left[0] in left && left[|left| - 1] in left;
  }

  lemma NotAsked(rs: seq<FundingRate>, start: int, end: int, limit: nat)
    requires limit >= 1 && (start < end ==> Page(rs, start, end, limit) == [])
    ensures Within(rs, start, end) != [] ==> end <= start
  {
    hide Within;
  }

  /** At the end, at most the record at `start` is left. */
  lemma WhatIsLeft(rs: seq<FundingRate>, start: int, end0: int, end: int, limit: nat, taken: seq<FundingRate>)
    requires Ascending(rs) && limit >= 1
    requires Paging(Within(rs, start, end0), Within(rs, start, end), start, end0, end, limit, taken)
    requires start < end ==> Page(rs, start, end, limit) == []
    ensures var w := Within(rs, start, end0);
      Reversed(taken) == if OldestMissed(w, start, end0, limit) then w[1..] else w
  {
    hide Within, Ascending, Page, Reversed;
    var w, left := Within(rs, start, end0), Within(rs, start, end);
    NotAsked(rs, start, end, limit);
    if left != [] {
      AtMostTheStart(rs, start, end);
      assert w[0] == left[0] && w[1..] == Reversed(taken);
      assert taken != [] ==> w[1] == taken[|taken| - 1];
    }
  }

  // ---------------------------------------------------------------- what the caller gets

  /** The download is exact if and only if the oldest record is not the one that is skipped. */
  lemma ExactUnlessMissed(rs: seq<FundingRate>, start: int, end: int, limit: nat, result: seq<FundingRate>)
    requires Ascending(rs) && limit >= 1
    requires var w := Within(rs, start, end); result == if OldestMissed(w, start, end, limit) then w[1..] else w
    ensures Ascending(result)
    ensures forall r :: r in result ==> r in rs && start <= r.timestamp <= end
    ensures (forall r :: r in rs && start <= r.timestamp <= end ==> r in result)
            <==> !OldestMissed(Within(rs, start, end), start, end, limit)
  {
    var w := Within(rs, start, end);
    WithinExact(rs, start, end);
    WithinAscending(rs, start, end);
    hide Within;
    if OldestMissed(w, start, end, limit) {
      assert w[0] in w && w[0] !in w[1..];
    }
  }

  /** The smallest case: two records a millisecond apart, one to a page. The newest is taken, then [0, 0] is never asked
      for. */
  lemma OldestIsSkipped(a: FundingRate, b: FundingRate)
    requires a.timestamp == 0 && b.timestamp == 1
    ensures Ascending([a, b]) && Within([a, b], 0, 1) == [a, b] && OldestMissed([a, b], 0, 1, 1)
  {
    assert Within([a], 0, 1) == [a] by { assert [a][..0] == []; }
    assert [a, b][..1] == [a];
  }

  /** The other case: a record at the only instant asked for. */
  lemma SingleInstantIsSkipped(a: FundingRate, limit: nat)
    requires limit >= 1
    ensures var t := a.timestamp;
      Within([a], t, t) == [a] && OldestMissed([a], t, t, limit)
  {
    assert [a][..0] == [];
  }

  /** Funding settlements lie hours apart; two milliseconds are enough. */
  lemma SpacedRecordsAllArrive(rs: seq<FundingRate>, start: int, end: int, limit: nat)
    requires limit >= 1 && start < end
    requires forall i, j :: 0 <= i < j < |rs| ==> rs[i].timestamp + 2 <= rs[j].timestamp
    ensures !OldestMissed(Within(rs, start, end), start, end, limit)
  {
    var w := Within(rs, start, end);
    WithinExact(rs, start, end);
    WithinAscending(rs, start, end);
    hide Within;
    if |w| >= 2 {
      assert w[0] in rs && w[1] in rs && w[0].timestamp < w[1].timestamp;
    }
  }

  // ---------------------------------------------------------------- the connector's sort

  ghost predicate Sorted(rs: seq<FundingRate>) {
    forall i, j :: 0 <= i < j < |rs| ==> rs[i].timestamp <= rs[j].timestamp
  }

  lemma SortedHead(a: seq<FundingRate>, sorted: seq<FundingRate>)
    requires Ascending(a) && Sorted(sorted) && a != [] && sorted != [] && multiset(sorted) == multiset(a)
    ensures sorted[0] == a[0]
  {
    assert sorted[0] in multiset(a) && a[0] in multiset(sorted);
    var i :| 0 <= i < |a| && a[i] == sorted[0];
    var j :| 0 <= j < |sorted| && sorted[j] == a[0];
  }

  lemma Tails(a: seq<FundingRate>, sorted: seq<FundingRate>)
    requires a != [] && sorted != [] && sorted[0] == a[0] && multiset(sorted) == multiset(a)
    ensures multiset(sorted[1..]) == multiset(a[1..])
    ensures Ascending(a) ==> Ascending(a[1..])
    ensures Sorted(sorted) ==> Sorted(sorted[1..])
  {
    assert a == [a[0]] + a[1..] && sorted == [a[0]] + sorted[1..];
    assert multiset(sorted[1..]) == multiset(sorted) - multiset{a[0]};
    assert multiset(a[1..]) == multiset(a) - multiset{a[0]};
  }

  /** Any reordering of an ascending list that is sorted by time is that list: the sort changes nothing. */
  lemma {:induction false} SortIsIdentity(a: seq<FundingRate>, sorted: seq<FundingRate>)
    requires Ascending(a) && Sorted(sorted) && multiset(sorted) == multiset(a)
    ensures sorted == a
  {
    hide Ascending, Sorted;
    assert |sorted| == |multiset(sorted)| == |multiset(a)| == |a|;
    if a != [] {
      SortedHead(a, sorted);
      Tails(a, sorted);
      SortIsIdentity(a[1..], sorted[1..]);
      assert a == [a[0]] + a[1..] && sorted == [a[0]] + sorted[1..];
    }
  }
}
