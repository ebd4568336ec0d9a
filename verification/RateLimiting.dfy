/**
 `RateLimiter`: spacing REST requests, by the venue's rate headers once they have been seen and by a local sliding window
 before.
 */
module RateLimiting {
  import opened Wrappers

  const LOCAL_LIMIT := 10
  const WINDOW_SIZE_MS := 1000

  /** The stamps less their outdated front. */
  function DropOld(times: seq<int>, now: int): seq<int> {
    if times != [] && now - times[0] > WINDOW_SIZE_MS then DropOld(times[1..], now) else times
  }

  /** How long a caller is put to sleep in local mode; 0 for not at all. */
  function AskedLocally(times: seq<int>, now: int): (ms: nat) {
    var recent := DropOld(times, now);
    if |recent| >= LOCAL_LIMIT && recent[0] + WINDOW_SIZE_MS - now + 10 > 0 then recent[0] + WINDOW_SIZE_MS - now + 10
    else 0
  }

  /** The stamps after a call at `now` that, if it slept, woke at `woke`: the stamp pushed is the one from before the
      sleep. */
  function TimesAfter(times: seq<int>, now: int, woke: int): seq<int> {
    var recent := DropOld(times, now);
    (if AskedLocally(times, now) > 0 then DropOld(recent, woke) else recent) + [now]
  }

  /** How long a caller is put to sleep in server mode. */
  function AskedByServer(remaining: int, resetTime: int, now: int): nat {
    if remaining <= 2 && resetTime > now then resetTime - now + 50 else 0
  }

  /** In server mode a call is held back exactly while the last reading leaves at most two requests, and then returns 50 ms
      after the reset: whatever the reading, no call returns before the reset on its last two requests. */
  lemma HeldUntilReset(remaining: int, resetTime: int, now: int)
    ensures var slept := AskedByServer(remaining, resetTime, now);
      && (now + slept < resetTime <==> remaining > 2 && now < resetTime)
      && (slept > 0 <==> remaining <= 2 && now < resetTime)
      && (slept > 0 ==> now + slept == resetTime + 50)
  {
  }

  /** The two rate headers of one response, absent or present; a present one may fail to parse. */
  datatype RateHeaders = RateHeaders(status: Option<int>, reset: Option<int>)

  class RateLimiter {
    var remaining: int
    var resetTime: int
    var serverHeadersFound: bool
    var requestTimes: seq<int>

    constructor ()
      ensures !serverHeadersFound && requestTimes == [] && remaining == 50 && resetTime == 0
    {
      remaining, resetTime, serverHeadersFound, requestTimes := 50, 0, false, [];
    }

    /** Reads a response's headers. The status is stored before the reset time is parsed, so a bad reset time leaves a
        half-updated pair, in the mode of before. */
    method Update(headers: Option<RateHeaders>)
      modifies this
      ensures requestTimes == old(requestTimes)
      ensures old(serverHeadersFound) ==> serverHeadersFound
      ensures serverHeadersFound <==>
        old(serverHeadersFound) || (headers.Some? && headers.value.status.Some? && headers.value.reset.Some?)
      ensures remaining ==
        if headers.Some? && headers.value.status.Some? then headers.value.status.value else old(remaining)
      ensures resetTime == if headers.Some? && headers.value.status.Some? && headers.value.reset.Some?
                           then headers.value.reset.value else old(resetTime)
    {
      if headers.Some? && headers.value.status.Some? {
        remaining := headers.value.status.value;
        if headers.value.reset.Some? {
          resetTime := headers.value.reset.value;
          serverHeadersFound := true;
        }
      }
    }

    method PopOld(now: int)
      modifies this`requestTimes
      ensures requestTimes == DropOld(old(requestTimes), now)
    {
      while requestTimes != [] && now - requestTimes[0] > WINDOW_SIZE_MS
        invariant DropOld(requestTimes, now) == DropOld(old(requestTimes), now)
        decreases |requestTimes|
      {
        requestTimes := requestTimes[1..];
      }
    }

    /** One call under the lock: `now` is the clock on entry, `nowAfterWait` the clock after the sleep. */
    method Wait(now: int, nowAfterWait: int) returns (slept: nat)
      modifies this`requestTimes
      ensures slept == if serverHeadersFound then AskedByServer(remaining, resetTime, now)
                       else AskedLocally(old(requestTimes), now)
      ensures requestTimes == if serverHeadersFound then old(requestTimes)
                              else TimesAfter(old(requestTimes), now, nowAfterWait)
    {
      slept := 0;
      if serverHeadersFound {
        if remaining <= 2 {
          if resetTime > now {
            slept := resetTime - now + 50;
          }
        }
      } else {
        PopOld(now);
        if |requestTimes| >= LOCAL_LIMIT {
          var oldest := requestTimes[0];
          var waitTime := oldest + WINDOW_SIZE_MS - now + 10;
          if waitTime > 0 {
            slept := waitTime;
            PopOld(nowAfterWait);
          }
        }
        requestTimes := requestTimes + [now];
      }
    }
  }

  // ---------------------------------------------------------------- runs in local mode

  /** One call: the clock on entry, after the sleep (or right after entry), and on return. */
  datatype Call = Call(now: int, woke: int, returned: int)

  function TimesOf(calls: seq<Call>): seq<int> {
    if calls == [] then []
    else TimesAfter(TimesOf(calls[..|calls| - 1]), calls[|calls| - 1].now, calls[|calls| - 1].woke)
  }

  /** The clock never runs backwards, the lock lets one call in at a time, and a sleep lasts at least as long as asked. */
  ghost predicate Timely(calls: seq<Call>) {
    forall k :: 0 <= k < |calls| ==>
      && calls[k].now + AskedLocally(TimesOf(calls[..k]), calls[k].now) <= calls[k].woke <= calls[k].returned
      && (k > 0 ==> calls[k - 1].returned <= calls[k].now)
  }

  function Stamps(calls: seq<Call>): seq<int> {
    seq(|calls|, k requires 0 <= k < |calls| => calls[k].now)
  }

  /** The queue holds the latest stamps, at most ten; a stamp that is gone was more than a second old at `last`. */
  ghost predicate Tracked(stamps: seq<int>, times: seq<int>, last: int) {
    && |times| <= LOCAL_LIMIT && |times| <= |stamps|
    && times == stamps[|stamps| - |times|..]
    && (forall i :: 0 <= i < |stamps| - |times| ==> stamps[i] + WINDOW_SIZE_MS < last)
  }

  lemma {:induction false} Dropped(times: seq<int>, now: int) returns (d: nat)
    ensures d <= |times| && DropOld(times, now) == times[d..]
    ensures forall i :: 0 <= i < d ==> times[i] + WINDOW_SIZE_MS < now
    ensures d < |times| ==> now <= times[d] + WINDOW_SIZE_MS
  {
    if times != [] && now - times[0] > WINDOW_SIZE_MS {
      d := Dropped(times[1..], now);
      assert forall i :: 1 <= i < d + 1 ==> times[i] == times[1..][i - 1];
      d := d + 1;
    } else {
      d := 0;
    }
  }

  /** A call drops what is outdated, sleeping until at least one of ten is, and adds its own stamp. */
  lemma TimesShrink(times: seq<int>, now: int, woke: int) returns (d: nat)
    requires |times| <= LOCAL_LIMIT && now + AskedLocally(times, now) <= woke
    ensures d <= |times| && |times| - d < LOCAL_LIMIT && TimesAfter(times, now, woke) == times[d..] + [now]
    ensures forall i :: 0 <= i < d ==> times[i] + WINDOW_SIZE_MS < woke
  {
    d := Dropped(times, now);
    var recent := times[d..];
    if |recent| >= LOCAL_LIMIT {
      var e := Dropped(recent, woke);
      assert d == 0 && recent == times && AskedLocally(times, now) == times[0] + WINDOW_SIZE_MS - now + 10;
      d := e;
    }
  }

  lemma TrackedStep(stamps: seq<int>, times: seq<int>, last: int, now: int, woke: int, last': int)
    requires Tracked(stamps, times, last) && now + AskedLocally(times, now) <= woke <= last' && last <= last'
    ensures Tracked(stamps + [now], TimesAfter(times, now, woke), last')
  {
    hide AskedLocally, TimesAfter;
    var d := TimesShrink(times, now, woke);
    var m := |stamps| - |times|;
    assert stamps[m..][d..] == stamps[m + d..];
    forall i | m <= i < m + d ensures stamps[i] + WINDOW_SIZE_MS < last' {
      assert stamps[i] == times[i - m];
    }
  }

  /** In every run the queue is the tail of the stamps taken, never more than ten of them. */
  lemma {:induction false} AlwaysTracked(calls: seq<Call>)
    requires Timely(calls)
    ensures TimesOf([]) == []
    ensures calls != [] ==> Tracked(Stamps(calls), TimesOf(calls), calls[|calls| - 1].returned)
  {
    hide AskedLocally, TimesAfter, Tracked;
    if calls != [] {
      var init, c := calls[..|calls| - 1], calls[|calls| - 1];
      TimelyPrefix(calls, |init|);
      AlwaysTracked(init);
      assert Stamps(calls) == Stamps(init) + [c.now];
      if init == [] {
        NothingTracked(c.now);
        TrackedStep([], [], c.now, c.now, c.woke, c.returned);
      } else {
        TrackedStep(Stamps(init), TimesOf(init), init[|init| - 1].returned, c.now, c.woke, c.returned);
      }
    }
  }

  lemma NothingTracked(last: int)
    ensures Tracked([], [], last)
  {
  }

  lemma TimelyPrefix(calls: seq<Call>, n: nat)
    requires Timely(calls) && n <= |calls|
    ensures Timely(calls[..n])
  {
    hide AskedLocally, TimesOf;
    forall k | 0 <= k < n
      ensures calls[..n][k].now + AskedLocally(TimesOf(calls[..n][..k]), calls[..n][k].now) <= calls[..n][k].woke
              <= calls[..n][k].returned
    {
      assert calls[..n][..k] == calls[..k];
    }
  }

  lemma {:induction false} ClockOrder(calls: seq<Call>, i: nat, j: nat)
    requires Timely(calls) && i <= j < |calls|
    ensures calls[i].now <= calls[j].now && (i < j ==> calls[i].returned <= calls[j].now)
  {
    hide AskedLocally, TimesOf;
    if i < j - 1 {
      ClockOrder(calls, i, j - 1);
    }
  }

  lemma Returns(calls: seq<Call>, k: nat)
    requires Timely(calls) && k < |calls|
    ensures calls[k].now <= calls[k].woke <= calls[k].returned
  {
    hide AskedLocally, TimesOf;
  }

  // ---------------------------------------------------------------- the bounds

  /** The queue is sorted. */
  lemma QueueSorted(calls: seq<Call>, i: nat, j: nat)
    requires Timely(calls) && i <= j < |TimesOf(calls)|
    ensures |TimesOf(calls)| <= 10 && TimesOf(calls)[i] <= TimesOf(calls)[j]
  {
    hide Timely, TimesOf;
    AlwaysTracked(calls);
    var m := |calls| - |TimesOf(calls)|;
    assert TimesOf(calls)[i] == Stamps(calls)[m + i] && TimesOf(calls)[j] == Stamps(calls)[m + j];
    ClockOrder(calls, m + i, m + j);
  }

  /** A call never returns within a second of the stamp ten calls before it. */
  lemma TenthLater(calls: seq<Call>, k: nat)
    requires Timely(calls) && 10 <= k < |calls|
    ensures calls[k].returned > calls[k - 10].now + 1000
  {
    hide Timely, TimesOf;
    var upTo := calls[..k + 1];
    TimelyPrefix(calls, k + 1);
    AlwaysTracked(upTo);
    assert Stamps(upTo)[k - LOCAL_LIMIT] == calls[k - LOCAL_LIMIT].now;
  }

  /** Twelve returns never fit into a closed window of one second. */
  lemma ElevenPerWindow(calls: seq<Call>, i: nat, j: nat, t: int)
    requires Timely(calls) && i <= j < |calls|
    requires t <= calls[i].returned && calls[j].returned <= t + 1000
    ensures j - i + 1 <= 11
  {
    hide Timely, AskedLocally;
    if j > i + LOCAL_LIMIT {
      TenthLater(calls, j);
      ClockOrder(calls, i, j - LOCAL_LIMIT);
    }
  }

  // ---------------------------------------------------------------- when ten is the bound

  /** At most ten returns within a second of call `i`, itself included. */
  ghost predicate AtMostTen(calls: seq<Call>, i: nat)
    requires i < |calls|
  {
    forall j :: i <= j < |calls| && calls[j].returned <= calls[i].returned + 1000 ==> j - i + 1 <= 10
  }

  /** A window that opens with a call that was let through at once holds at most ten. */
  lemma TenAfterPrompt(calls: seq<Call>, i: nat)
    requires Timely(calls) && i < |calls| && calls[i].returned == calls[i].now
    ensures AtMostTen(calls, i)
  {
    hide Timely, AskedLocally, TimesOf;
    forall j | i <= j < |calls| && calls[j].returned <= calls[i].returned + WINDOW_SIZE_MS
      ensures j - i + 1 <= LOCAL_LIMIT
    {
      if j - i >= LOCAL_LIMIT {
        TenthLater(calls, i + LOCAL_LIMIT);
        ClockOrder(calls, i + LOCAL_LIMIT, j);
        Returns(calls, j);
      }
    }
  }

  lemma TimelyExtends(calls: seq<Call>, c: Call)
    requires Timely(calls) && c.now + AskedLocally(TimesOf(calls), c.now) <= c.woke <= c.returned
    requires calls != [] ==> calls[|calls| - 1].returned <= c.now
    ensures Timely(calls + [c])
  {
    hide AskedLocally, TimesOf;
    var all := calls + [c];
    forall k | 0 <= k < |all|
      ensures all[k].now + AskedLocally(TimesOf(all[..k]), all[k].now) <= all[k].woke <= all[k].returned
              && (k > 0 ==> all[k - 1].returned <= all[k].now)
    {
      TimelyBefore(calls, c, k);
    }
  }

  lemma TimelyBefore(calls: seq<Call>, c: Call, k: nat)
    requires Timely(calls) && c.now + AskedLocally(TimesOf(calls), c.now) <= c.woke <= c.returned
    requires calls != [] ==> calls[|calls| - 1].returned <= c.now
    requires k <= |calls|
    ensures var all := calls + [c];
      && all[k].now + AskedLocally(TimesOf(all[..k]), all[k].now) <= all[k].woke <= all[k].returned
      && (k > 0 ==> all[k - 1].returned <= all[k].now)
  {
    hide AskedLocally, TimesOf, Timely;
    var all := calls + [c];
    if k < |calls| {
      TimelyOne(calls, k);
      assert all[k] == calls[k] && all[..k] == calls[..k] && (k > 0 ==> all[k - 1] == calls[k - 1]);
    } else {
      assert all[k] == c && all[..k] == calls && (k > 0 ==> all[k - 1] == calls[k - 1]);
    }
  }

  lemma TimelyOne(calls: seq<Call>, k: nat)
    requires Timely(calls) && k < |calls|
    ensures calls[k].now + AskedLocally(TimesOf(calls[..k]), calls[k].now) <= calls[k].woke <= calls[k].returned
    ensures k > 0 ==> calls[k - 1].returned <= calls[k].now
  {
    hide AskedLocally, TimesOf;
  }

  lemma OldTimesGo(times: seq<int>, now: int)
    requires forall i :: 0 <= i < |times| ==> times[i] + WINDOW_SIZE_MS < now
    ensures DropOld(times, now) == []
  {
    var d := Dropped(times, now);
  }

  lemma FreshTimesStay(k: nat, t: int)
    ensures DropOld(seq(k, _ => t), t) == seq(k, _ => t)
  {
    var d := Dropped(seq(k, _ => t), t);
  }

  lemma QueueUpTo(calls: seq<Call>, i: nat)
    requires Timely(calls) && i < |TimesOf(calls)|
    ensures calls != [] && TimesOf(calls)[i] <= calls[|calls| - 1].now
  {
    hide Timely, TimesOf;
    AlwaysTracked(calls);
    var m := |calls| - |TimesOf(calls)|;
    assert TimesOf(calls)[i] == Stamps(calls)[m + i];
    ClockOrder(calls, m + i, |calls| - 1);
  }

  lemma TimesOfMore(calls: seq<Call>, c: Call)
    ensures TimesOf(calls + [c]) == TimesAfter(TimesOf(calls), c.now, c.woke)
  {
    assert (calls + [c])[..|calls + [c]| - 1] == calls;
  }

  /** `k` more calls, all at time `t`, once every stamp is outdated: none of them sleeps. */
  lemma {:induction false} Burst(calls: seq<Call>, t: int, k: nat) returns (more: seq<Call>)
    requires Timely(calls) && calls != [] && k <= LOCAL_LIMIT
    requires calls[|calls| - 1].returned <= t && calls[|calls| - 1].now + WINDOW_SIZE_MS < t
    ensures more == seq(k, _ => Call(t, t, t)) && Timely(calls + more)
    ensures k > 0 ==> TimesOf(calls + more) == seq(k, _ => t)
  {
    hide Timely, TimesOf, TimesAfter, AskedLocally;
    if k == 0 {
      more := [];
      assert calls + [] == calls;
    } else {
      var before := Burst(calls, t, k - 1);
      var c := Call(t, t, t);
      more := before + [c];
      var so := calls + before;
      assert calls + more == so + [c];
      assert k == 1 ==> so == calls;
      BurstCall(calls, so, t, k - 1);
      TimelyExtends(so, c);
      TimesOfMore(so, c);
    }
  }

  lemma BurstCall(calls: seq<Call>, so: seq<Call>, t: int, k: nat)
    requires Timely(calls) && calls != [] && k < LOCAL_LIMIT && calls[|calls| - 1].now + WINDOW_SIZE_MS < t
    requires if k == 0 then so == calls else TimesOf(so) == seq(k, _ => t)
    ensures AskedLocally(TimesOf(so), t) == 0 && TimesAfter(TimesOf(so), t, t) == seq(k + 1, _ => t)
  {
    hide Timely, TimesOf;
    if k == 0 {
      forall i | 0 <= i < |TimesOf(calls)| ensures TimesOf(calls)[i] + WINDOW_SIZE_MS < t {
        QueueUpTo(calls, i);
      }
      OldTimesGo(TimesOf(calls), t);
    } else {
      FreshTimesStay(k, t);
    }
  }

  /** Exactly when ten is the bound: whatever calls follow, at most ten return within a second of the latest call, if and
      only if that call was let through at once. After one that slept, ten more can come back before its second is over,
      because the stamp pushed is the one from before the sleep. */
  lemma TenExactlyAfterPrompt(calls: seq<Call>)
    requires Timely(calls) && calls != []
    ensures (forall more :: Timely(calls + more) ==> AtMostTen(calls + more, |calls| - 1))
            <==> calls[|calls| - 1].returned == calls[|calls| - 1].now
  {
    hide Timely, AskedLocally, TimesOf;
    var i, c := |calls| - 1, calls[|calls| - 1];
    if c.returned == c.now {
      forall more | Timely(calls + more) ensures AtMostTen(calls + more, i) {
        TenAfterPrompt(calls + more, i);
      }
    } else {
      Returns(calls, i);
      var t := if c.returned <= c.now + WINDOW_SIZE_MS then c.now + WINDOW_SIZE_MS + 1 else c.returned;
      var more := Burst(calls, t, LOCAL_LIMIT);
      var all := calls + more;
      assert all[i] == c && all[i + LOCAL_LIMIT] == Call(t, t, t);
      assert !AtMostTen(all, i);
    }
  }

  /** No call is asked to sleep more than 1010 ms. */
  lemma SleepBounded(calls: seq<Call>, now: int)
    requires Timely(calls) && (calls != [] ==> calls[|calls| - 1].returned <= now)
    ensures AskedLocally(TimesOf(calls), now) <= WINDOW_SIZE_MS + 10
  {
    hide Timely, TimesOf, DropOld;
    var times := TimesOf(calls);
    AlwaysTracked(calls);
    var d := Dropped(times, now);
    if |times| - d >= LOCAL_LIMIT {
      var m := |calls| - |times|;
      assert times[0] == Stamps(calls)[m] == calls[m].now;
      ClockOrder(calls, m, |calls| - 1);
      Returns(calls, |calls| - 1);
    }
  }

  // ---------------------------------------------------------------- ten is not the bound

  /** Eleven calls at once, then ten more when the sleeper wakes: eleven returns at the same millisecond, because the
      stamp pushed is the one from before the sleep. */
  function RushCall(i: nat): Call {
    if i < 10 then Call(0, 0, 0) else if i == 10 then Call(0, 1010, 1010) else Call(1010, 1010, 1010)
  }

  function Rush(n: nat): (calls: seq<Call>)
    ensures |calls| == n && forall i :: 0 <= i < n ==> calls[i] == RushCall(i)
  {
    if n == 0 then [] else Rush(n - 1) + [RushCall(n - 1)]
  }

  lemma RushPrefix(n: nat, k: nat)
    requires k <= n
    ensures Rush(n)[..k] == Rush(k)
  {
  }

  function RushTimes(n: nat): seq<int> {
    if n <= 10 then seq(n, _ => 0) else if n == 11 then [0] else seq(n - 11, _ => 1010)
  }

  lemma DropZeros(n: nat)
    ensures DropOld(seq(n, _ => 0), 1010) == [] && DropOld(seq(n, _ => 0), 0) == seq(n, _ => 0)
    ensures DropOld(seq(n, _ => 1010), 1010) == seq(n, _ => 1010)
  {
    var d := Dropped(seq(n, _ => 0), 1010);
    var e := Dropped(seq(n, _ => 0), 0);
    var f := Dropped(seq(n, _ => 1010), 1010);
  }

  lemma RushStep(n: nat)
    requires n <= 20
    ensures var c := RushCall(n);
      && TimesAfter(RushTimes(n), c.now, c.woke) == RushTimes(n + 1)
      && AskedLocally(RushTimes(n), c.now) == if n == 10 then 1010 else 0
  {
    DropZeros(n);
    DropZeros(1);
    hide DropOld;
    if n == 11 {
      assert RushTimes(11) == seq(1, _ => 0);
    } else if n > 11 {
      DropZeros(n - 11);
    }
  }

  lemma {:induction false} RushRun(n: nat)
    requires n <= 21
    ensures TimesOf(Rush(n)) == RushTimes(n)
  {
    hide TimesAfter;
    if n > 0 {
      RushRun(n - 1);
      RushPrefix(n, n - 1);
      RushStep(n - 1);
    }
  }

  lemma RushOnTime(k: nat)
    requires k <= 20
    ensures var calls := Rush(21);
      && calls[k].now + AskedLocally(TimesOf(calls[..k]), calls[k].now) <= calls[k].woke <= calls[k].returned
      && (k > 0 ==> calls[k - 1].returned <= calls[k].now)
  {
    hide AskedLocally, TimesOf, TimesAfter, Rush, RushTimes;
    RushPrefix(21, k);
    RushRun(k);
    RushStep(k);
  }

  lemma TenIsNotTheBound()
    ensures exists calls: seq<Call>, i: nat, j: nat ::
      Timely(calls) && i + LOCAL_LIMIT <= j < |calls| && calls[i].returned == calls[j].returned
  {
    hide AskedLocally, TimesOf, Rush;
    var calls := Rush(21);
    forall k | 0 <= k < |calls|
      ensures calls[k].now + AskedLocally(TimesOf(calls[..k]), calls[k].now) <= calls[k].woke <= calls[k].returned
    {
      RushOnTime(k);
    }
    assert Timely(calls);
    assert calls[10].returned == calls[20].returned;
  }
}
