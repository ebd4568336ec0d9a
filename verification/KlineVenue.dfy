/**
 The venue's kline endpoint as a function of the candles it holds, with its window rules.
 */
module KlineVenue {
  import opened CandleCalendar
  import opened Sequences

  datatype Candle = Candle(
    startTime: int,
    open: real,
    high: real,
    low: real,
    close: real,
    volume: real,
    turnover: real)

  /** The venue's candles in order: no two overlap, gaps of any length between listings, monthly candles at month
      starts. */
  ghost predicate ValidHistory(hist: seq<Candle>, interval: CandleInterval) {
    && (forall i :: 0 <= i < |hist| - 1 ==> NextCandleStart(hist[i].startTime, interval) <= hist[i + 1].startTime)
    && (interval == IM ==> forall i :: 0 <= i < |hist| ==> AtMonthStart(hist[i].startTime))
  }

  ghost predicate AtMonthStart(t: int) {
    exists m :: t == MonthStart(m) * DAY_MS
  }

  ghost predicate Ascending(s: seq<Candle>) {
    forall i, j :: 0 <= i < j < |s| ==> s[i].startTime < s[j].startTime
  }

  /** How many candles of an ascending sequence open before `t`: `std::lower_bound`. */
  function FirstAt(s: seq<Candle>, t: int): (k: nat)
    ensures k <= |s|
    ensures k > 0 ==> s[k - 1].startTime < t
    ensures forall i :: k <= i < |s| ==> s[i].startTime >= t
  {
    if s == [] || s[|s| - 1].startTime < t then |s| else FirstAt(s[..|s| - 1], t)
  }

  /** The newest `limit` candles at or before `end`. */
  function Newest(hist: seq<Candle>, limit: int, end: int): seq<Candle>
    requires limit >= 1
  {
    var n := FirstAt(hist, end + 1);
    hist[if n <= limit then 0 else n - limit..n]
  }

  /** The window of an open-ended request. */
  function WindowMs(interval: CandleInterval, limit: int): int {
    (limit - 1) * NumberOfMs(interval)
  }

  /** Open-ended: anchored `limit - 1` intervals after `start`; a request before the first listing draws the earliest
      candles. */
  function OpenEnded(hist: seq<Candle>, interval: CandleInterval, start: int, limit: int): seq<Candle>
    requires limit >= 1
  {
    var window := Newest(hist, limit, start + WindowMs(interval, limit));
    if window != [] then window else hist[..if limit < |hist| then limit else |hist|]
  }

  /** One request as the client sends it: `end` is only sent when positive. The answer comes newest first. */
  function Kline(hist: seq<Candle>, interval: CandleInterval, start: int, limit: int, endTime: int): seq<Candle>
    requires limit >= 1
  {
    Reversed(if endTime > 0 then Newest(hist, limit, endTime) else OpenEnded(hist, interval, start, limit))
  }

  // ---------------------------------------------------------------- order

  lemma {:induction false} Spacing(hist: seq<Candle>, interval: CandleInterval, i: nat, j: nat)
    requires ValidHistory(hist, interval) && i < j < |hist|
    ensures NextCandleStart(hist[i].startTime, interval) <= hist[j].startTime
  {
    hide NextCandleStart;
    if i < j - 1 {
      Spacing(hist, interval, i, j - 1);
      assert hist[j - 1].startTime < NextCandleStart(hist[j - 1].startTime, interval) <= hist[j - 1 + 1].startTime;
    } else {
      assert NextCandleStart(hist[i].startTime, interval) <= hist[i + 1].startTime;
    }
  }

  lemma HistoryAscending(hist: seq<Candle>, interval: CandleInterval)
    requires ValidHistory(hist, interval)
    ensures Ascending(hist)
  {
    hide NextCandleStart;
    forall i, j | 0 <= i < j < |hist| ensures hist[i].startTime < hist[j].startTime {
      Spacing(hist, interval, i, j);
    }
  }

  lemma SliceAscending(s: seq<Candle>, b: nat, e: nat)
    requires Ascending(s) && b <= e <= |s|
    ensures Ascending(s[b..e])
  {
  }

  /** `FirstAt` splits an ascending sequence. */
  lemma FirstAtSplits(s: seq<Candle>, t: int, k: nat)
    requires Ascending(s) && k <= |s|
    requires k > 0 ==> s[k - 1].startTime < t
    requires k < |s| ==> s[k].startTime >= t
    ensures FirstAt(s, t) == k
  {
  }

  // ---------------------------------------------------------------- a window never overflows one answer

  lemma {:induction false} FixedSpacing(hist: seq<Candle>, interval: CandleInterval, i: nat, n: nat)
    requires ValidHistory(hist, interval) && interval != IM && i + n < |hist|
    ensures hist[i + n].startTime >= hist[i].startTime + n * NumberOfMs(interval)
  {
    hide NumberOfMs;
    if n > 0 {
      FixedSpacing(hist, interval, i, n - 1);
      Spacing(hist, interval, i + n - 1, i + n);
      assert n * NumberOfMs(interval) == (n - 1) * NumberOfMs(interval) + NumberOfMs(interval);
    }
  }

  lemma {:induction false} MonthSpacing(hist: seq<Candle>, i: nat, n: nat, m: int)
    requires ValidHistory(hist, IM) && i + n < |hist| && hist[i].startTime == MonthStart(m) * DAY_MS
    ensures hist[i + n].startTime >= MonthStart(m + n) * DAY_MS
  {
    hide MonthStart;
    if n > 0 {
      MonthSpacing(hist, i, n - 1, m);
      Spacing(hist, IM, i + n - 1, i + n);
      var a :| hist[i + n - 1].startTime == MonthStart(a) * DAY_MS;
      if a < m + n - 1 {
        MonthsGrow(a, m + n - 1 - a);
      }
      MonthLength(a);
      NextMonth(hist[i + n - 1].startTime, a);
      if m + n < a + 1 {
        MonthsGrow(m + n, a + 1 - (m + n));
      }
    }
  }

  lemma MulMonotone(a: int, b: int, c: int)
    requires a <= b && c >= 0
    ensures a * c <= b * c
  {
  }

  lemma MonthlyWindow(hist: seq<Candle>, from: int, limit: int, i: nat, j: nat)
    requires ValidHistory(hist, IM) && limit >= 1 && i <= j < |hist|
    requires from <= hist[i].startTime && hist[j].startTime <= from + (limit - 1) * (DAY_MS * 30)
    ensures j - i + 1 <= limit
  {
    var n := j - i;
    var m :| hist[i].startTime == MonthStart(m) * DAY_MS;
    hide ValidHistory, MonthStart;
    MonthSpacing(hist, i, n, m);
    MonthsAgainstThirtyDays(m, n);
    DaysInWindow(MonthStart(m), MonthStart(m + n), hist[i].startTime, hist[j].startTime, from, limit, n);
  }

  lemma DaysInWindow(first: int, last: int, firstMs: int, lastMs: int, from: int, limit: int, n: nat)
    requires last - first >= 30 * n - 2 && firstMs == first * DAY_MS && lastMs >= last * DAY_MS
    requires from <= firstMs && lastMs <= from + (limit - 1) * (DAY_MS * 30)
    ensures n + 1 <= limit
  {
  }

  lemma FixedWindow(hist: seq<Candle>, interval: CandleInterval, from: int, limit: int, i: nat, j: nat)
    requires ValidHistory(hist, interval) && interval != IM && limit >= 1 && i <= j < |hist|
    requires from <= hist[i].startTime && hist[j].startTime <= from + WindowMs(interval, limit)
    ensures j - i + 1 <= limit
  {
    FixedSpacing(hist, interval, i, j - i);
    var ms := NumberOfMs(interval);
    hide ValidHistory, NumberOfMs;
    assert (j - i) * ms <= (limit - 1) * ms;
    if limit < j - i + 1 {
      MulMonotone(limit, j - i, ms);
    }
  }

  /** [from, from + (limit - 1) intervals] holds at most `limit` candle starts, aligned or not, for calendar months with
      their 30-day arithmetic as well. */
  lemma WindowFitsOneAnswer(hist: seq<Candle>, interval: CandleInterval, from: int, limit: int, i: nat, j: nat)
    requires ValidHistory(hist, interval) && limit >= 1 && i <= j < |hist|
    requires from <= hist[i].startTime && hist[j].startTime <= from + WindowMs(interval, limit)
    ensures j - i + 1 <= limit
  {
    if interval == IM {
      assert NumberOfMs(IM) == DAY_MS * 30;
      MonthlyWindow(hist, from, limit, i, j);
    } else {
      FixedWindow(hist, interval, from, limit, i, j);
    }
  }

  // ---------------------------------------------------------------- what an answer says about [from, until]

  /** The answer `w` (oldest first) to a request from `from`: either it is a run of candles reaching from at or before
      the first one at `from` to some later one, or nothing opens in [from, until]. */
  ghost predicate Answers(hist: seq<Candle>, from: int, until: int, w: seq<Candle>) {
    var k := FirstAt(hist, from);
    && Ascending(w)
    && if w != [] && w[|w| - 1].startTime >= from then
      exists b, e :: RunThrough(hist, b, k, e, w)
    else
      k < |hist| ==> hist[k].startTime > until
  }

  ghost predicate RunThrough(hist: seq<Candle>, b: nat, k: nat, e: nat, w: seq<Candle>) {
    b <= k < e <= |hist| && w == hist[b..e]
  }

  lemma RunAnswers(hist: seq<Candle>, from: int, until: int, b: nat, e: nat)
    requires Ascending(hist) && b <= FirstAt(hist, from) < e <= |hist|
    ensures Answers(hist, from, until, hist[b..e])
  {
    hide Ascending, FirstAt;
    var k, w := FirstAt(hist, from), hist[b..e];
    SliceAscending(hist, b, e);
    assert RunThrough(hist, b, k, e, w);
    assert w[|w| - 1] == hist[e - 1];
  }

  lemma StaleAnswers(hist: seq<Candle>, from: int, until: int, b: nat, e: nat)
    requires Ascending(hist) && b <= e <= FirstAt(hist, from)
    requires forall i :: e <= i < |hist| ==> hist[i].startTime > until
    ensures Answers(hist, from, until, hist[b..e])
  {
    var w := hist[b..e];
    SliceAscending(hist, b, e);
    if b < e {
      EarlierThan(hist, from, e - 1);
      assert w[|w| - 1] == hist[e - 1];
    }
    hide Ascending, FirstAt;
  }

  lemma NewestIs(hist: seq<Candle>, limit: int, end: int) returns (b: nat, n: nat)
    requires limit >= 1
    ensures n == FirstAt(hist, end + 1) && b <= n && (n <= limit ==> b == 0) && (n > limit ==> b == n - limit)
    ensures Newest(hist, limit, end) == hist[b..n]
  {
    n := FirstAt(hist, end + 1);
    b := if n <= limit then 0 else n - limit;
  }

  lemma NewestAnswers(hist: seq<Candle>, interval: CandleInterval, from: int, limit: int, end: int)
    requires ValidHistory(hist, interval) && limit >= 1 && end <= from + WindowMs(interval, limit)
    ensures Answers(hist, from, end, Newest(hist, limit, end))
  {
    HistoryAscending(hist, interval);
    var b, n := NewestIs(hist, limit, end);
    hide ValidHistory, Ascending, Answers, WindowMs, FirstAt, Newest;
    var k := FirstAt(hist, from);
    if k < n {
      WindowFitsOneAnswer(hist, interval, from, limit, k, n - 1);
      RunAnswers(hist, from, end, b, n);
    } else {
      StaleAnswers(hist, from, end, b, n);
    }
  }

  lemma EarlierThan(s: seq<Candle>, from: int, i: nat)
    requires Ascending(s) && i < FirstAt(s, from)
    ensures s[i].startTime < from
  {
    var k := FirstAt(s, from);
    assert i < k - 1 ==> s[i].startTime < s[k - 1].startTime;
  }

  lemma WindowNotNegative(interval: CandleInterval, limit: int)
    requires limit >= 1
    ensures WindowMs(interval, limit) >= 0
  {
    MulMonotone(0, limit - 1, NumberOfMs(interval));
  }

  lemma NothingNewest(hist: seq<Candle>, limit: int, end: int)
    requires limit >= 1 && Newest(hist, limit, end) == []
    ensures forall i :: 0 <= i < |hist| ==> hist[i].startTime > end
  {
    assert FirstAt(hist, end + 1) == 0;
  }

  lemma EarliestAnswers(hist: seq<Candle>, from: int, until: int, e: nat)
    requires Ascending(hist) && from <= until && 0 < e <= |hist|
    requires forall i :: 0 <= i < |hist| ==> hist[i].startTime > until
    ensures Answers(hist, from, until, hist[..e])
  {
    assert FirstAt(hist, from) == 0;
    assert hist[..e] == hist[0..e];
    assert RunThrough(hist, 0, 0, e, hist[..e]);
  }

  lemma OpenEndedAnswers(hist: seq<Candle>, interval: CandleInterval, from: int, limit: int)
    requires ValidHistory(hist, interval) && limit >= 1
    ensures Answers(hist, from, from + WindowMs(interval, limit), OpenEnded(hist, interval, from, limit))
  {
    hide ValidHistory, WindowMs, Newest, Answers, Ascending, FirstAt;
    var anchor := from + WindowMs(interval, limit);
    NewestAnswers(hist, interval, from, limit, anchor);
    if Newest(hist, limit, anchor) == [] && hist != [] {
      WindowNotNegative(interval, limit);
      HistoryAscending(hist, interval);
      NothingNewest(hist, limit, anchor);
      EarliestAnswers(hist, from, anchor, if limit < |hist| then limit else |hist|);
    } else if hist == [] {
      NewestOfNothing(limit, anchor);
    }
  }

  /** Only a symbol without any history gets an empty open-ended answer. */
  lemma OpenEndedIsEmptyOnly(hist: seq<Candle>, interval: CandleInterval, start: int, limit: int)
    requires limit >= 1
    ensures OpenEnded(hist, interval, start, limit) == [] <==> hist == []
  {
    NewestOfNothing(limit, start + WindowMs(interval, limit));
  }

  lemma NewestOfNothing(limit: int, end: int)
    requires limit >= 1
    ensures Newest([], limit, end) == []
  {
  }

  /** Either kind of request tells the truth about [from, until] for any `until` up to the window's end. */
  lemma KlineAnswers(hist: seq<Candle>, interval: CandleInterval, from: int, limit: int, endTime: int, until: int)
    requires ValidHistory(hist, interval) && limit >= 1
    requires until <= from + WindowMs(interval, limit) && (endTime > 0 ==> endTime == until)
    ensures Answers(hist, from, until, Reversed(Kline(hist, interval, from, limit, endTime)))
  {
    hide NextCandleStart, WindowMs, Newest, OpenEnded;
    if endTime > 0 {
      NewestAnswers(hist, interval, from, limit, endTime);
      ReversedTwice(Newest(hist, limit, endTime));
    } else {
      OpenEndedAnswers(hist, interval, from, limit);
      ReversedTwice(OpenEnded(hist, interval, from, limit));
    }
  }
}
