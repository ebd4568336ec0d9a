/**
 `getHistoricalPrices`: paging through a symbol's candles against the venue's window rules, across listing gaps.
 */
module HistoryDownload {
  import opened CandleCalendar
  import opened KlineVenue
  import opened Sequences

  // ---------------------------------------------------------------- what the download owes

  function UpTo(s: seq<Candle>, to: int): seq<Candle> {
    if s == [] then []
    else if s[|s| - 1].startTime <= to then UpTo(s[..|s| - 1], to) + [s[|s| - 1]]
    else UpTo(s[..|s| - 1], to)
  }

  function Flatten(batches: seq<seq<Candle>>): seq<Candle> {
    if batches == [] then [] else Flatten(batches[..|batches| - 1]) + batches[|batches| - 1]
  }

  /** `r` is the run of candles from the first one at `from` up to, not including, the `e`-th; all that follow end after
      `to`. */
  ghost predicate CompleteUpTo(hist: seq<Candle>, interval: CandleInterval, from: int, to: int, r: seq<Candle>, e: nat) {
    && FirstAt(hist, from) <= e <= |hist| && r == hist[FirstAt(hist, from)..e]
    && (forall i :: 0 <= i < |r| ==> r[i].startTime <= to)
    && (forall i :: e <= i < |hist| ==> NextCandleStart(hist[i].startTime, interval) > to)
  }

  ghost predicate Complete(hist: seq<Candle>, interval: CandleInterval, from: int, to: int, r: seq<Candle>) {
    exists e :: CompleteUpTo(hist, interval, from, to, r, e)
  }

  ghost predicate Omitted(hist: seq<Candle>, from: int, to: int, r: seq<Candle>, c: Candle) {
    c in hist && from <= c.startTime <= to && c !in r
  }

  /** A candle in range is either in the run or comes after it, ending past `to`. */
  lemma InRun(hist: seq<Candle>, interval: CandleInterval, from: int, to: int, r: seq<Candle>, i: nat)
    requires Ascending(hist) && Complete(hist, interval, from, to, r) && i < |hist| && from <= hist[i].startTime
    ensures hist[i] in r || NextCandleStart(hist[i].startTime, interval) > to
  {
    hide NextCandleStart;
    var e :| CompleteUpTo(hist, interval, from, to, r, e);
    var k := FirstAt(hist, from);
    assert k <= i;
    if i < e {
      assert r[i - k] == hist[i];
    }
  }

  lemma OmittedIsOverlapping(hist: seq<Candle>, interval: CandleInterval, from: int, to: int, r: seq<Candle>, i: nat, j: nat)
    requires ValidHistory(hist, interval) && Complete(hist, interval, from, to, r) && i < j < |hist|
    requires from <= hist[i].startTime && hist[j].startTime <= to
    ensures hist[i] in r
  {
    HistoryAscending(hist, interval);
    Spacing(hist, interval, i, j);
    InRun(hist, interval, from, to, r, i);
  }

  /** What completeness means candle by candle: in order, in range, nothing missing that ends by `to`, and at most one
      candle, the one that overlaps `to`, left out. */
  lemma CompleteMeans(hist: seq<Candle>, interval: CandleInterval, from: int, to: int, r: seq<Candle>)
    requires ValidHistory(hist, interval) && Complete(hist, interval, from, to, r)
    ensures Ascending(r)
    ensures forall c :: c in r ==> c in hist && from <= c.startTime <= to
    ensures forall c :: c in hist && from <= c.startTime && NextCandleStart(c.startTime, interval) <= to ==> c in r
    ensures forall c, d :: Omitted(hist, from, to, r, c) && Omitted(hist, from, to, r, d) ==> c == d
  {
    HistoryAscending(hist, interval);
    RunInRange(hist, interval, from, to, r);
    hide NextCandleStart, ValidHistory, Complete, Ascending;
    forall c | c in hist && from <= c.startTime && NextCandleStart(c.startTime, interval) <= to ensures c in r {
      var i :| 0 <= i < |hist| && hist[i] == c;
      InRun(hist, interval, from, to, r, i);
    }
    forall c, d | Omitted(hist, from, to, r, c) && Omitted(hist, from, to, r, d) ensures c == d {
      var i :| 0 <= i < |hist| && hist[i] == c;
      var j :| 0 <= j < |hist| && hist[j] == d;
      if i < j {
        OmittedIsOverlapping(hist, interval, from, to, r, i, j);
      } else if j < i {
        OmittedIsOverlapping(hist, interval, from, to, r, j, i);
      }
    }
  }

  lemma RunInRange(hist: seq<Candle>, interval: CandleInterval, from: int, to: int, r: seq<Candle>)
    requires Ascending(hist) && Complete(hist, interval, from, to, r)
    ensures Ascending(r)
    ensures forall c :: c in r ==> c in hist && from <= c.startTime <= to
  {
    hide NextCandleStart;
    var e :| CompleteUpTo(hist, interval, from, to, r, e);
    var k := FirstAt(hist, from);
    SliceAscending(hist, k, e);
    hide Ascending;
    forall c | c in r ensures c in hist && from <= c.startTime <= to {
      var i :| 0 <= i < |r| && r[i] == c;
      assert hist[k + i] == c;
    }
  }

  /** A request from `from` draws this answer, in opening order. */
  ghost predicate Replied(hist: seq<Candle>, interval: CandleInterval, limit: int, from: int, answer: seq<Candle>)
    requires limit >= 1
  {
    exists endTime :: answer == Reversed(Kline(hist, interval, from, limit, endTime))
  }

  /** The candles of such an answer from `from` on. */
  ghost predicate Drawn(hist: seq<Candle>, interval: CandleInterval, limit: int, from: int, batch: seq<Candle>)
    requires limit >= 1
  {
    exists answer :: Replied(hist, interval, limit, from, answer) && batch == answer[FirstAt(answer, from)..]
  }

  /** Where a download stops, with `written` all that went to the writer. The last answer holds a candle that ends after
      `to`: everything before the newest one of that answer is written. Or no candle is left up to `to`: everything is
      written, and if the venue holds no later one, the newest has ended. */
  ghost predicate Stops(hist: seq<Candle>, interval: CandleInterval, from0: int, to: int, limit: int,
                        written: seq<Candle>, last: seq<Candle>)
    requires limit >= 1
  {
    exists e: nat :: StopsAt(hist, interval, from0, to, limit, written, last, e)
  }

  ghost predicate StopsAt(hist: seq<Candle>, interval: CandleInterval, from0: int, to: int, limit: int,
                          written: seq<Candle>, last: seq<Candle>, e: nat)
    requires limit >= 1
  {
    && FirstAt(hist, from0) <= e <= |hist| && written == hist[FirstAt(hist, from0)..e]
    && if last == [] then
         && (e < |hist| ==> hist[e].startTime > to)
         && (FirstAt(hist, from0) < e == |hist| ==> NextCandleStart(hist[e - 1].startTime, interval) <= to)
       else
         && e < |hist| && last[|last| - 1] == hist[e] && NextCandleStart(hist[e].startTime, interval) > to
         && exists from :: Drawn(hist, interval, limit, from, last)
  }

  /** The newest candle of the venue, if it is still open at `to`, is neither returned nor written. */
  lemma OpenCandleHeldBack(hist: seq<Candle>, interval: CandleInterval, from0: int, to: int, limit: int,
                           written: seq<Candle>, last: seq<Candle>)
    requires ValidHistory(hist, interval) && limit >= 1 && Stops(hist, interval, from0, to, limit, written, last)
    requires hist != [] && from0 <= hist[|hist| - 1].startTime <= to
    requires NextCandleStart(hist[|hist| - 1].startTime, interval) > to
    ensures hist[|hist| - 1] !in written && hist[|hist| - 1] !in UpTo(written, to)
  {
    HistoryAscending(hist, interval);
    hide NextCandleStart, ValidHistory, Drawn, Ascending, StopsAt, FirstAt;
    var e: nat :| StopsAt(hist, interval, from0, to, limit, written, last, e);
    StopsBefore(hist, interval, from0, to, limit, written, last, e);
    InSlice(hist, FirstAt(hist, from0), e, |hist| - 1);
    UpToOnly(written, to);
  }

  lemma StopsBefore(hist: seq<Candle>, interval: CandleInterval, from0: int, to: int, limit: int,
                    written: seq<Candle>, last: seq<Candle>, e: nat)
    requires limit >= 1 && StopsAt(hist, interval, from0, to, limit, written, last, e)
    requires hist != [] && from0 <= hist[|hist| - 1].startTime
    requires NextCandleStart(hist[|hist| - 1].startTime, interval) > to
    ensures FirstAt(hist, from0) <= e < |hist| && written == hist[FirstAt(hist, from0)..e]
  {
    hide NextCandleStart, Drawn;
  }

  lemma InSlice(hist: seq<Candle>, b: nat, e: nat, i: nat)
    requires Ascending(hist) && b <= e <= |hist| && i < |hist|
    ensures hist[i] in hist[b..e] <==> b <= i < e
  {
    if b <= i < e {
      assert hist[b..e][i - b] == hist[i];
    }
  }

  lemma {:induction false} UpToOnly(s: seq<Candle>, to: int)
    ensures forall c :: c in UpTo(s, to) <==> c in s && c.startTime <= to
  {
    if s != [] {
      UpToOnly(s[..|s| - 1], to);
      assert s == s[..|s| - 1] + [s[|s| - 1]];
    }
  }

  /** Where the last answer holds a candle that ends after `to`, a candle in range is returned if and only if it opens before
      the newest of that answer. */
  lemma ReturnedExactlyWhen(hist: seq<Candle>, interval: CandleInterval, from0: int, to: int, limit: int,
                            written: seq<Candle>, last: seq<Candle>, i: nat)
    requires ValidHistory(hist, interval) && limit >= 1 && Stops(hist, interval, from0, to, limit, written, last)
    requires i < |hist| && from0 <= hist[i].startTime <= to && last != []
    ensures hist[i] in UpTo(written, to) <==> hist[i].startTime < last[|last| - 1].startTime
  {
    HistoryAscending(hist, interval);
    hide NextCandleStart, ValidHistory, Drawn;
    var e: nat :| StopsAt(hist, interval, from0, to, limit, written, last, e);
    assert i < e <==> hist[i].startTime < hist[e].startTime;
    hide StopsAt, Ascending;
    InSlice(hist, FirstAt(hist, from0), e, i);
    UpToOnly(written, to);
  }

  // ---------------------------------------------------------------- pieces of the proof

  lemma {:induction false} UpToConcat(a: seq<Candle>, b: seq<Candle>, to: int)
    ensures UpTo(a + b, to) == UpTo(a, to) + UpTo(b, to)
  {
    if b == [] {
      assert a + b == a;
    } else {
      assert (a + b)[..|a + b| - 1] == a + b[..|b| - 1];
      UpToConcat(a, b[..|b| - 1], to);
    }
  }

  lemma {:induction false} UpToAll(s: seq<Candle>, to: int)
    requires forall i :: 0 <= i < |s| ==> s[i].startTime <= to
    ensures UpTo(s, to) == s
  {
    if s != [] {
      UpToAll(s[..|s| - 1], to);
      assert s == s[..|s| - 1] + [s[|s| - 1]];
    }
  }

  lemma {:induction false} UpToPrefix(s: seq<Candle>, to: int)
    requires Ascending(s)
    ensures UpTo(s, to) == s[..FirstAt(s, to + 1)]
  {
    if s == [] {
    } else if s[|s| - 1].startTime <= to {
      AllBefore(s, to);
      hide Ascending, UpTo;
      UpToAll(s, to);
    } else {
      var init := s[..|s| - 1];
      SliceAscending(s, 0, |init|);
      hide Ascending;
      UpToPrefix(init, to);
      assert init[..FirstAt(init, to + 1)] == s[..FirstAt(init, to + 1)];
    }
  }

  lemma AllBefore(s: seq<Candle>, to: int)
    requires Ascending(s) && s != [] && s[|s| - 1].startTime <= to
    ensures FirstAt(s, to + 1) == |s|
    ensures forall i :: 0 <= i < |s| ==> s[i].startTime <= to
  {
  }

  lemma FlattenOne(batches: seq<seq<Candle>>, b: seq<Candle>)
    ensures Flatten(batches + [b]) == Flatten(batches) + b
  {
    assert (batches + [b])[..|batches|] == batches;
  }

  /** Trimming a run leaves the candles from the first one at `from`. */
  lemma Trimmed(hist: seq<Candle>, from: int, b: nat, e: nat)
    requires Ascending(hist) && b <= FirstAt(hist, from) <= e <= |hist|
    ensures hist[b..e][FirstAt(hist[b..e], from)..] == hist[FirstAt(hist, from)..e]
  {
    var k := FirstAt(hist, from);
    var w := hist[b..e];
    SliceAscending(hist, b, e);
    hide Ascending;
    assert b < k ==> w[k - b - 1] == hist[k - 1];
    assert k < e ==> w[k - b] == hist[k];
    FirstAtSplits(w, from, k - b);
  }

  /** What a batch is once the stale prefix is gone: the next candles, at least one. */
  ghost predicate NextBatch(hist: seq<Candle>, k: nat, e: nat, batch: seq<Candle>) {
    k < e <= |hist| && batch == hist[k..e]
  }

  lemma BatchFacts(hist: seq<Candle>, from: int, e: nat, batch: seq<Candle>)
    requires NextBatch(hist, FirstAt(hist, from), e, batch)
    ensures FirstAt(hist, from) < e <= |hist| && batch != [] && batch[|batch| - 1].startTime >= from
  {
  }

  /** What the pop leaves of an answer: all of it if its newest candle ends by `to`, else all but that one. */
  ghost predicate Kept(hist: seq<Candle>, interval: CandleInterval, k: nat, e: nat, to: int,
                       answer: seq<Candle>, batch: seq<Candle>) {
    && k <= e <= |hist| && batch == hist[k..e] && answer != []
    && if NextCandleStart(answer[|answer| - 1].startTime, interval) > to
       then e < |hist| && answer[|answer| - 1] == hist[e]
       else k < e && answer[|answer| - 1] == hist[e - 1]
  }

  lemma Popped(hist: seq<Candle>, interval: CandleInterval, k: nat, e: nat, to: int, answer: seq<Candle>)
    requires NextBatch(hist, k, e, answer)
    ensures answer != [] && e >= 1
    ensures if NextCandleStart(answer[|answer| - 1].startTime, interval) > to
            then Kept(hist, interval, k, e - 1, to, answer, answer[..|answer| - 1])
            else Kept(hist, interval, k, e, to, answer, answer)
  {
    hide NextCandleStart;
  }

  lemma KeptIsBatch(hist: seq<Candle>, interval: CandleInterval, k: nat, e: nat, to: int,
                    answer: seq<Candle>, batch: seq<Candle>)
    requires Kept(hist, interval, k, e, to, answer, batch)
    ensures answer != []
    ensures if batch == [] then e == k else NextBatch(hist, k, e, batch)
    ensures NextCandleStart(answer[|answer| - 1].startTime, interval) > to ==> e < |hist| && answer[|answer| - 1] == hist[e]
    ensures NextCandleStart(answer[|answer| - 1].startTime, interval) <= to ==> k < e && answer[|answer| - 1] == hist[e - 1]
  {
    hide NextCandleStart;
  }

  /** After a batch the next request starts at the first candle not yet taken. */
  lemma Advance(hist: seq<Candle>, interval: CandleInterval, e: nat)
    requires ValidHistory(hist, interval) && 0 < e <= |hist|
    ensures FirstAt(hist, NextCandleStart(hist[e - 1].startTime, interval)) == e
  {
    HistoryAscending(hist, interval);
    if e < |hist| {
      Spacing(hist, interval, e - 1, e);
    }
    FirstAtSplits(hist, NextCandleStart(hist[e - 1].startTime, interval), e);
  }

  /** What the loop has kept before each request: the run of candles before the first one at `from`, all batches
      written so far. */
  ghost predicate Progress(hist: seq<Candle>, from0: int, from: int, to: int, r: seq<Candle>, batches: seq<seq<Candle>>) {
    && FirstAt(hist, from0) <= FirstAt(hist, from)
    && r == hist[FirstAt(hist, from0)..FirstAt(hist, from)]
    && r == Flatten(batches)
    && AllBy(r, to)
  }

  ghost predicate AllBy(s: seq<Candle>, to: int) {
    forall i :: 0 <= i < |s| ==> s[i].startTime <= to
  }

  ghost predicate Finished(hist: seq<Candle>, interval: CandleInterval, from0: int, to: int, r: seq<Candle>,
                           batches: seq<seq<Candle>>) {
    Complete(hist, interval, from0, to, r) && r == UpTo(Flatten(batches), to)
  }

  /** If the venue holds no candle at or after `from`, its newest has ended by `to`. */
  ghost predicate Settled(hist: seq<Candle>, interval: CandleInterval, from0: int, from: int, to: int) {
    FirstAt(hist, from0) < FirstAt(hist, from) == |hist| ==> NextCandleStart(hist[|hist| - 1].startTime, interval) <= to
  }

  /** What the download owes when it stops. */
  ghost predicate Done(hist: seq<Candle>, interval: CandleInterval, from0: int, to: int, limit: int, r: seq<Candle>,
                       batches: seq<seq<Candle>>, last: seq<Candle>)
    requires limit >= 1
  {
    Finished(hist, interval, from0, to, r, batches) && Stops(hist, interval, from0, to, limit, Flatten(batches), last)
  }

  lemma DoneMeans(hist: seq<Candle>, interval: CandleInterval, from0: int, to: int, limit: int, r: seq<Candle>,
                  batches: seq<seq<Candle>>, last: seq<Candle>)
    requires limit >= 1 && Done(hist, interval, from0, to, limit, r, batches, last)
    ensures Complete(hist, interval, from0, to, r) && r == UpTo(Flatten(batches), to)
    ensures Stops(hist, interval, from0, to, limit, Flatten(batches), last)
  {
  }

  /** No probe found a candle. */
  lemma StopsEmpty(hist: seq<Candle>, interval: CandleInterval, from0: int, from: int, to: int, limit: int, r: seq<Candle>,
                   batches: seq<seq<Candle>>)
    requires ValidHistory(hist, interval) && limit >= 1 && Progress(hist, from0, from, to, r, batches)
    requires Settled(hist, interval, from0, from, to)
    requires FirstAt(hist, from) < |hist| ==> hist[FirstAt(hist, from)].startTime > to
    ensures Done(hist, interval, from0, to, limit, r, batches, [])
  {
    hide NextCandleStart, Flatten;
    NextIsLater(hist, interval, FirstAt(hist, from), to);
    NothingLeft(hist, interval, from0, from, to, r, batches);
    hide ValidHistory, Finished;
    assert StopsAt(hist, interval, from0, to, limit, Flatten(batches), [], FirstAt(hist, from));
  }

  /** The pop left nothing. */
  lemma StopsPopped(hist: seq<Candle>, interval: CandleInterval, from0: int, from: int, to: int, limit: int, r: seq<Candle>,
                    batches: seq<seq<Candle>>, e: nat, answer: seq<Candle>)
    requires ValidHistory(hist, interval) && limit >= 1 && Progress(hist, from0, from, to, r, batches)
    requires Kept(hist, interval, FirstAt(hist, from), e, to, answer, []) && Drawn(hist, interval, limit, from, answer)
    ensures Done(hist, interval, from0, to, limit, r, batches, answer)
  {
    hide NextCandleStart, Flatten, Drawn;
    KeptIsBatch(hist, interval, FirstAt(hist, from), e, to, answer, []);
    hide Kept;
    NothingLeft(hist, interval, from0, from, to, r, batches);
    hide ValidHistory, Finished;
    assert StopsAt(hist, interval, from0, to, limit, Flatten(batches), answer, e);
  }

  /** The last batch reaches past `to`. */
  lemma StopsPast(hist: seq<Candle>, interval: CandleInterval, from0: int, from: int, to: int, limit: int, r: seq<Candle>,
                  batches: seq<seq<Candle>>, e: nat, answer: seq<Candle>, batch: seq<Candle>)
    requires ValidHistory(hist, interval) && limit >= 1 && Progress(hist, from0, from, to, r, batches)
    requires Kept(hist, interval, FirstAt(hist, from), e, to, answer, batch) && Drawn(hist, interval, limit, from, answer)
    requires batch != [] && to < batch[|batch| - 1].startTime
    ensures Done(hist, interval, from0, to, limit, r + UpTo(batch, to), batches + [batch], answer)
  {
    hide NextCandleStart, Flatten, Drawn, UpTo;
    var k := FirstAt(hist, from);
    KeptIsBatch(hist, interval, k, e, to, answer, batch);
    hide Kept;
    LastBatch(hist, interval, from0, from, to, r, batches, e, batch);
    FlattenOne(batches, batch);
    hide ValidHistory, Finished;
    JoinRuns(hist, FirstAt(hist, from0), k, e);
    PastIsPopped(hist, interval, k, e, to, answer, batch);
    assert StopsAt(hist, interval, from0, to, limit, Flatten(batches + [batch]), answer, e);
  }

  lemma PastIsPopped(hist: seq<Candle>, interval: CandleInterval, k: nat, e: nat, to: int,
                     answer: seq<Candle>, batch: seq<Candle>)
    requires NextBatch(hist, k, e, batch) && to < batch[|batch| - 1].startTime && answer != []
    requires NextCandleStart(answer[|answer| - 1].startTime, interval) <= to ==> answer[|answer| - 1] == hist[e - 1]
    ensures NextCandleStart(answer[|answer| - 1].startTime, interval) > to
  {
    hide NextCandleStart;
    assert batch[|batch| - 1] == hist[e - 1];
  }

  /** Nothing opens in [from, to]: the run so far is all there is. */
  lemma NothingLeft(hist: seq<Candle>, interval: CandleInterval, from0: int, from: int, to: int, r: seq<Candle>,
                    batches: seq<seq<Candle>>)
    requires ValidHistory(hist, interval) && Progress(hist, from0, from, to, r, batches)
    requires FirstAt(hist, from) < |hist| ==> NextCandleStart(hist[FirstAt(hist, from)].startTime, interval) > to
    ensures Finished(hist, interval, from0, to, r, batches)
  {
    hide NextCandleStart;
    var k := FirstAt(hist, from);
    forall i | k <= i < |hist| ensures NextCandleStart(hist[i].startTime, interval) > to {
      if k < i {
        Spacing(hist, interval, k, i);
      }
    }
    hide ValidHistory;
    CutHere(hist, interval, from0, to, r, [], k);
    assert r + [] == r;
    UpToAll(r, to);
  }

  lemma CutHere(hist: seq<Candle>, interval: CandleInterval, from: int, to: int, r: seq<Candle>, more: seq<Candle>, e: nat)
    requires FirstAt(hist, from) <= e <= |hist| && r + more == hist[FirstAt(hist, from)..e]
    requires AllBy(r, to) && AllBy(more, to)
    requires forall i :: e <= i < |hist| ==> NextCandleStart(hist[i].startTime, interval) > to
    ensures Complete(hist, interval, from, to, r + more)
  {
    hide NextCandleStart, FirstAt;
    assert CompleteUpTo(hist, interval, from, to, r + more, e);
  }

  lemma BatchBy(hist: seq<Candle>, k: nat, e: nat, batch: seq<Candle>, to: int)
    requires Ascending(hist) && NextBatch(hist, k, e, batch) && batch[|batch| - 1].startTime <= to
    ensures AllBy(batch, to)
  {
    SliceAscending(hist, k, e);
  }

  lemma JoinBy(a: seq<Candle>, b: seq<Candle>, to: int)
    requires AllBy(a, to) && AllBy(b, to)
    ensures AllBy(a + b, to)
  {
  }

  lemma JoinRuns(hist: seq<Candle>, k0: nat, k: nat, e: nat)
    requires k0 <= k <= e <= |hist|
    ensures hist[k0..k] + hist[k..e] == hist[k0..e]
  {
  }

  /** A batch within `to` extends the run. */
  lemma Taken(hist: seq<Candle>, interval: CandleInterval, from0: int, from: int, to: int, r: seq<Candle>,
              batches: seq<seq<Candle>>, e: nat, batch: seq<Candle>)
    requires ValidHistory(hist, interval) && Progress(hist, from0, from, to, r, batches)
    requires NextBatch(hist, FirstAt(hist, from), e, batch) && batch[|batch| - 1].startTime <= to
    ensures var from' := NextCandleStart(batch[|batch| - 1].startTime, interval);
      && FirstAt(hist, from') == e
      && Progress(hist, from0, from', to, r + batch, batches + [batch])
  {
    hide NextCandleStart, FirstAt, Flatten;
    HistoryAscending(hist, interval);
    Advance(hist, interval, e);
    FlattenOne(batches, batch);
    hide ValidHistory;
    BatchBy(hist, FirstAt(hist, from), e, batch, to);
    JoinBy(r, batch, to);
    JoinRuns(hist, FirstAt(hist, from0), FirstAt(hist, from), e);
    hide Ascending, AllBy;
    assert batch[|batch| - 1] == hist[e - 1];
  }

  lemma TakenSettles(hist: seq<Candle>, interval: CandleInterval, from0: int, from: int, from': int, to: int, e: nat,
                     answer: seq<Candle>, batch: seq<Candle>)
    requires Kept(hist, interval, FirstAt(hist, from), e, to, answer, batch) && FirstAt(hist, from') == e
    ensures Settled(hist, interval, from0, from', to)
  {
    hide NextCandleStart;
  }

  /** The last batch reaches past `to`: what it adds is its part up to `to`. */
  lemma LastBatch(hist: seq<Candle>, interval: CandleInterval, from0: int, from: int, to: int, r: seq<Candle>,
                  batches: seq<seq<Candle>>, e: nat, batch: seq<Candle>)
    requires ValidHistory(hist, interval) && Progress(hist, from0, from, to, r, batches)
    requires NextBatch(hist, FirstAt(hist, from), e, batch) && to < batch[|batch| - 1].startTime
    ensures Finished(hist, interval, from0, to, r + UpTo(batch, to), batches + [batch])
  {
    LastRun(hist, interval, from0, from, to, r, batches, e, batch);
    hide ValidHistory, NextBatch;
    FlattenOne(batches, batch);
    UpToConcat(r, batch, to);
    UpToAll(r, to);
  }

  lemma LastRun(hist: seq<Candle>, interval: CandleInterval, from0: int, from: int, to: int, r: seq<Candle>,
                batches: seq<seq<Candle>>, e: nat, batch: seq<Candle>)
    requires ValidHistory(hist, interval) && Progress(hist, from0, from, to, r, batches)
    requires NextBatch(hist, FirstAt(hist, from), e, batch) && to < batch[|batch| - 1].startTime
    ensures Complete(hist, interval, from0, to, r + UpTo(batch, to))
  {
    hide NextCandleStart, UpTo, Flatten, Complete, FirstAt;
    HistoryAscending(hist, interval);
    hide ValidHistory, Ascending, AllBy;
    var k0, k := FirstAt(hist, from0), FirstAt(hist, from);
    var n := LastCut(hist, interval, k, e, batch, to);
    JoinRuns(hist, k0, k, k + n);
    CutHere(hist, interval, from0, to, r, UpTo(batch, to), k + n);
  }

  /** Where the last batch is cut. */
  lemma LastCut(hist: seq<Candle>, interval: CandleInterval, k: nat, e: nat, batch: seq<Candle>, to: int)
    returns (n: nat)
    requires Ascending(hist) && NextBatch(hist, k, e, batch) && to < batch[|batch| - 1].startTime
    ensures k + n < e && UpTo(batch, to) == hist[k..k + n] && AllBy(UpTo(batch, to), to)
    ensures forall i :: k + n <= i < |hist| ==> NextCandleStart(hist[i].startTime, interval) > to
  {
    hide NextCandleStart, UpTo;
    SliceAscending(hist, k, e);
    UpToPrefix(batch, to);
    n := FirstAt(batch, to + 1);
    hide FirstAt;
    assert n < |batch| && batch[n] == hist[k + n];
    LaterThan(hist, interval, k + n, to);
    PrefixUpTo(batch, to, n);
    hide Ascending;
    assert batch[..n] == hist[k..k + n];
  }

  lemma PrefixUpTo(batch: seq<Candle>, to: int, n: nat)
    requires n <= |batch| && Ascending(batch) && (n > 0 ==> batch[n - 1].startTime <= to)
    ensures AllBy(batch[..n], to)
  {
  }

  lemma LaterThan(hist: seq<Candle>, interval: CandleInterval, f: nat, to: int)
    requires Ascending(hist) && f < |hist| && hist[f].startTime > to
    ensures forall i :: f <= i < |hist| ==> NextCandleStart(hist[i].startTime, interval) > to
  {
    hide NextCandleStart;
    forall i | f <= i < |hist| ensures NextCandleStart(hist[i].startTime, interval) > to {
      assert hist[f].startTime <= hist[i].startTime;
    }
  }

  // ---------------------------------------------------------------- the download

  /** The client's request, reversed into opening order. */
  method Fetch(hist: seq<Candle>, interval: CandleInterval, from: int, limit: int, endTime: int)
    returns (candles: seq<Candle>)
    requires limit >= 1
    ensures candles == Reversed(Kline(hist, interval, from, limit, endTime))
  {
    hide Kline;
    candles := Kline(hist, interval, from, limit, endTime);
    candles := Reversed(candles);
  }

  /** Steps through [from, to] window by window until one holds a candle. */
  method Probe(hist: seq<Candle>, interval: CandleInterval, from0: int, to: int, limit: int)
    returns (found: bool, from: int, candles: seq<Candle>, ghost passed: nat)
    requires ValidHistory(hist, interval) && limit >= 1
    ensures Scanned(from0, to, WindowMs(interval, limit) + 1, passed)
    ensures found ==> from == from0 + passed * (WindowMs(interval, limit) + 1)
    ensures from0 <= from && FirstAt(hist, from) == FirstAt(hist, from0)
    ensures found ==> from <= to && candles != [] && candles[|candles| - 1].startTime >= from
                      && Replied(hist, interval, limit, from, candles)
                      && exists until :: Answers(hist, from, until, candles)
    ensures !found ==> FirstAt(hist, from0) < |hist| ==> hist[FirstAt(hist, from0)].startTime > to
  {
    hide ValidHistory, Kline, Answers, FirstAt, NumberOfMs, Reversed, Scanned;
    var windowMs := (limit - 1) * NumberOfMs(interval);
    WindowNotNegative(interval, limit);
    NoneScanned(from0, to, windowMs + 1);
    found, from, candles, passed := false, from0, [], 0;
    ghost var k := FirstAt(hist, from0);
    assert k < |hist| ==> hist[k].startTime >= from0;
    while from <= to
      invariant Scanned(from0, to, windowMs + 1, passed)
      invariant from <= to ==> from == from0 + passed * (windowMs + 1)
      invariant from0 <= from && FirstAt(hist, from) == FirstAt(hist, from0)
      invariant from > to ==> FirstAt(hist, from0) < |hist| ==> hist[FirstAt(hist, from0)].startTime > to
      decreases 1 + (to - from)
    {
      var windowEnd := if to < from + windowMs then to else from + windowMs;
      candles := Fetch(hist, interval, from, limit, windowEnd);
      KlineAnswers(hist, interval, from, limit, windowEnd, windowEnd);
      if candles != [] && candles[|candles| - 1].startTime >= from {
        found := true;
        break;
      }
      NothingIn(hist, from, windowEnd, candles);
      EmptyWindow(hist, interval, from, windowEnd);
      OneMoreWindow(from0, from, to, windowMs + 1, passed);
      passed := passed + 1;
      from := windowEnd + 1;
    }
  }

  /** The windows passed over are full ones, side by side, and the last of them opens by `to`. */
  ghost predicate Scanned(from: int, to: int, width: int, passed: nat) {
    passed > 0 ==> from + (passed - 1) * width <= to
  }

  lemma NothingIn(hist: seq<Candle>, from: int, until: int, answer: seq<Candle>)
    requires Answers(hist, from, until, answer) && (answer == [] || answer[|answer| - 1].startTime < from)
    ensures FirstAt(hist, from) < |hist| ==> hist[FirstAt(hist, from)].startTime > until
  {
  }

  lemma NoneScanned(from: int, to: int, width: int)
    ensures Scanned(from, to, width, 0)
  {
  }

  lemma OneMoreWindow(from0: int, from: int, to: int, width: int, passed: nat)
    requires from <= to && from == from0 + passed * width
    ensures Scanned(from0, to, width, passed + 1) && from + width == from0 + (passed + 1) * width
  {
  }

  lemma EmptyWindow(hist: seq<Candle>, interval: CandleInterval, from: int, until: int)
    requires ValidHistory(hist, interval) && from <= until
    requires FirstAt(hist, from) < |hist| ==> hist[FirstAt(hist, from)].startTime > until
    ensures FirstAt(hist, until + 1) == FirstAt(hist, from)
  {
    HistoryAscending(hist, interval);
    FirstAtSplits(hist, until + 1, FirstAt(hist, from));
  }

  /** One batch made ready: probed forward if it lies entirely before `from`, and rid of its stale prefix. */
  method Ready(hist: seq<Candle>, interval: CandleInterval, from0: int, to: int, limit: int, answer: seq<Candle>)
    returns (found: bool, from: int, candles: seq<Candle>, ghost e: nat)
    requires ValidHistory(hist, interval) && limit >= 1 && answer != []
    requires Opened(hist, interval, limit, from0, answer)
    ensures from0 <= from && FirstAt(hist, from) == FirstAt(hist, from0)
    ensures found ==> NextBatch(hist, FirstAt(hist, from), e, candles) && candles[0].startTime >= from
    ensures found ==> Drawn(hist, interval, limit, from, candles)
    ensures !found ==> FirstAt(hist, from0) < |hist| ==> hist[FirstAt(hist, from0)].startTime > to
  {
    HistoryAscending(hist, interval);
    hide ValidHistory, Ascending, Answers, Replied, Drawn, FirstAt, Kline, Reversed, NumberOfMs, Scanned;
    found, from, candles, e := true, from0, answer, 0;
    if candles[0].startTime < from {
      if candles[|candles| - 1].startTime < from {
        ghost var passed: nat;
        found, from, candles, passed := Probe(hist, interval, from, to, limit);
        if !found {
          return;
        }
      }
      ghost var b, e' := RunOf(hist, from, candles);
      Trimmed(hist, from, b, e');
      DrawnFrom(hist, interval, limit, from, candles);
      var firstValid := FirstAt(candles, from);
      candles := candles[firstValid..];
      e := e';
    } else {
      e := WholeRun(hist, from, candles);
      DrawnFrom(hist, interval, limit, from, candles);
    }
  }

  lemma DrawnFrom(hist: seq<Candle>, interval: CandleInterval, limit: int, from: int, answer: seq<Candle>)
    requires limit >= 1 && Replied(hist, interval, limit, from, answer)
    ensures Drawn(hist, interval, limit, from, answer[FirstAt(answer, from)..])
  {
    hide Replied;
  }

  lemma WholeRun(hist: seq<Candle>, from: int, w: seq<Candle>) returns (e: nat)
    requires Ascending(hist) && w != [] && w[0].startTime >= from && exists until :: Answers(hist, from, until, w)
    ensures NextBatch(hist, FirstAt(hist, from), e, w) && w[FirstAt(w, from)..] == w
  {
    NoStalePrefix(hist, from, w);
    hide Answers, Ascending;
    var b: nat;
    b, e := RunOf(hist, from, w);
    var k := FirstAt(hist, from);
    assert w[0] == hist[b];
  }

  lemma NoStalePrefix(hist: seq<Candle>, from: int, w: seq<Candle>)
    requires w != [] && w[0].startTime >= from && exists until :: Answers(hist, from, until, w)
    ensures w[|w| - 1].startTime >= from && FirstAt(w, from) == 0
  {
    var until :| Answers(hist, from, until, w);
    assert w[0].startTime <= w[|w| - 1].startTime;
    FirstAtSplits(w, from, 0);
  }

  lemma RunOf(hist: seq<Candle>, from: int, w: seq<Candle>) returns (b: nat, e: nat)
    requires w != [] && w[|w| - 1].startTime >= from && exists until :: Answers(hist, from, until, w)
    ensures RunThrough(hist, b, FirstAt(hist, from), e, w)
  {
    b, e :| RunThrough(hist, b, FirstAt(hist, from), e, w);
  }

  /** The whole download. `batches` are the calls to the writer, `starts` the starts of the open-ended requests,
      `lastAnswer` is what the last request drew from `from` on. */
  method GetHistoricalPrices(hist: seq<Candle>, interval: CandleInterval, from0: int, to: int, limit: int)
    returns (retVal: seq<Candle>, batches: seq<seq<Candle>>, starts: seq<int>, ghost lastAnswer: seq<Candle>)
    requires ValidHistory(hist, interval) && limit >= 1
    ensures Complete(hist, interval, from0, to, retVal)
    ensures retVal == UpTo(Flatten(batches), to)
    ensures Stops(hist, interval, from0, to, limit, Flatten(batches), lastAnswer)
    ensures forall i, j :: 0 <= i < j < |starts| ==> starts[i] < starts[j]
    ensures forall i :: 0 <= i < |starts| - 1 ==> starts[i] <= to
  {
    hide ValidHistory, Kline, Answers, Complete, UpTo, Progress, FirstAt, NextCandleStart, Reversed, Flatten, Climbing,
         NextBatch, Kept, Drawn, Settled, Stops, Replied, Done, Opened;
    var from := from0;
    retVal, batches, starts, lastAnswer := [], [], [from], [];
    FirstRequest(from, to);
    var candles := Fetch(hist, interval, from, limit, 0);
    OpenRequest(hist, interval, from, limit, candles);
    Begin(hist, interval, from0, to, limit);
    while candles != []
      invariant Progress(hist, from0, from, to, retVal, batches) && Settled(hist, interval, from0, from, to)
      invariant candles == [] ==> Done(hist, interval, from0, to, limit, retVal, batches, lastAnswer)
      invariant candles != [] ==> Opened(hist, interval, limit, from, candles)
      invariant Climbing(starts, from, to)
      decreases |hist| - FirstAt(hist, from)
    {
      var found: bool;
      ghost var e: nat;
      ghost var before := from;
      found, from, candles, e := Ready(hist, interval, from, to, limit, candles);
      Moved(hist, interval, from0, before, from, to, retVal, batches);
      if !found {
        lastAnswer := [];
        StopsEmpty(hist, interval, from0, from, to, limit, retVal, batches);
        break;
      }
      lastAnswer := candles;
      ghost var k := FirstAt(hist, from);
      Popped(hist, interval, k, e, to, candles);
      if NextCandleStart(candles[|candles| - 1].startTime, interval) > to {
        candles := candles[..|candles| - 1];
        e := e - 1;
      }
      KeptIsBatch(hist, interval, k, e, to, lastAnswer, candles);
      if candles == [] {
        StopsPopped(hist, interval, from0, from, to, limit, retVal, batches, e, lastAnswer);
        break;
      }
      BatchFacts(hist, from, e, candles);
      var last := candles[|candles| - 1];
      if to < last.startTime {
        StopsPast(hist, interval, from0, from, to, limit, retVal, batches, e, lastAnswer, candles);
        retVal := AppendUpTo(retVal, candles, to);
        batches := batches + [candles];
        break;
      }
      Taken(hist, interval, from0, from, to, retVal, batches, e, candles);
      TakenSettles(hist, interval, from0, from, NextCandleStart(last.startTime, interval), to, e, lastAnswer, candles);
      retVal := retVal + candles;
      from := NextCandleStart(last.startTime, interval);
      batches := batches + [candles];
      Climb(starts, before, from, to);
      starts := starts + [from];
      candles := Fetch(hist, interval, from, limit, 0);
      OpenRequest(hist, interval, from, limit, candles);
    }
    ClimbingMeans(starts, to);
    DoneMeans(hist, interval, from0, to, limit, retVal, batches, lastAnswer);
  }

  /** The open-ended requests so far: strictly later each time, and all but the last at or before `to`. */
  ghost predicate Climbing(starts: seq<int>, from: int, to: int) {
    && starts != [] && starts[|starts| - 1] == from
    && (forall i, j :: 0 <= i < j < |starts| ==> starts[i] < starts[j])
    && (forall i :: 0 <= i < |starts| - 1 ==> starts[i] <= to)
  }

  lemma FirstRequest(from: int, to: int)
    ensures Climbing([from], from, to)
  {
  }

  lemma Climb(starts: seq<int>, from: int, from': int, to: int)
    requires Climbing(starts, from, to) && from < from' && from <= to
    ensures Climbing(starts + [from'], from', to)
  {
  }

  lemma ClimbingMeans(starts: seq<int>, to: int)
    requires exists from :: Climbing(starts, from, to)
    ensures forall i, j :: 0 <= i < j < |starts| ==> starts[i] < starts[j]
    ensures forall i :: 0 <= i < |starts| - 1 ==> starts[i] <= to
  {
  }

  lemma Begin(hist: seq<Candle>, interval: CandleInterval, from: int, to: int, limit: int)
    requires limit >= 1
    ensures Progress(hist, from, from, to, [], []) && Settled(hist, interval, from, from, to)
    ensures hist == [] ==> Done(hist, interval, from, to, limit, [], [], [])
  {
    if hist == [] {
      assert CompleteUpTo(hist, interval, from, to, [], 0);
      assert StopsAt(hist, interval, from, to, limit, [], [], 0);
    }
  }

  lemma Moved(hist: seq<Candle>, interval: CandleInterval, from0: int, from: int, from': int, to: int, r: seq<Candle>,
              batches: seq<seq<Candle>>)
    requires Progress(hist, from0, from, to, r, batches) && Settled(hist, interval, from0, from, to)
    requires FirstAt(hist, from) == FirstAt(hist, from')
    ensures Progress(hist, from0, from', to, r, batches) && Settled(hist, interval, from0, from', to)
  {
    hide NextCandleStart;
  }

  method AppendUpTo(r: seq<Candle>, candles: seq<Candle>, to: int) returns (r': seq<Candle>)
    ensures r' == r + UpTo(candles, to)
  {
    r' := r;
    for i := 0 to |candles|
      invariant r' == r + UpTo(candles[..i], to)
    {
      assert candles[..i + 1][..i] == candles[..i];
      if candles[i].startTime <= to {
        r' := r' + [candles[i]];
      }
    }
    assert candles[..|candles|] == candles;
  }

  lemma NextIsLater(hist: seq<Candle>, interval: CandleInterval, k: nat, to: int)
    ensures k < |hist| && hist[k].startTime > to ==> NextCandleStart(hist[k].startTime, interval) > to
  {
  }

  /** The answer to an open-ended request from `from`. */
  ghost predicate Opened(hist: seq<Candle>, interval: CandleInterval, limit: int, from: int, answer: seq<Candle>)
    requires limit >= 1
  {
    Replied(hist, interval, limit, from, answer) && exists until :: Answers(hist, from, until, answer)
  }

  lemma OpenRequest(hist: seq<Candle>, interval: CandleInterval, from: int, limit: int, answer: seq<Candle>)
    requires ValidHistory(hist, interval) && limit >= 1 && answer == Reversed(Kline(hist, interval, from, limit, 0))
    ensures answer == [] ==> hist == []
    ensures Opened(hist, interval, limit, from, answer)
  {
    KlineAnswers(hist, interval, from, limit, 0, from + WindowMs(interval, limit));
    OpenEndedIsEmptyOnly(hist, interval, from, limit);
  }
}
