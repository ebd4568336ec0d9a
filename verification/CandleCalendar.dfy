/**
 Candle intervals and the Gregorian months behind the monthly one.
 */
module CandleCalendar {
  import opened Wrappers

  datatype CandleInterval = I1 | I3 | I5 | I15 | I30 | I60 | I120 | I240 | I360 | I720 | ID | IM | IW

  const DAY_MS := 86400000

  /** A month counts as 30 days here. */
  function NumberOfMs(interval: CandleInterval): (ms: int)
    ensures ms > 0
  {
    match interval
    case I1 => 60000
    case I3 => 60000 * 3
    case I5 => 60000 * 5
    case I15 => 60000 * 15
    case I30 => 60000 * 30
    case I60 => 60000 * 60
    case I120 => 60000 * 120
    case I240 => 60000 * 240
    case I360 => 60000 * 360
    case I720 => 60000 * 720
    case ID => DAY_MS
    case IW => DAY_MS * 7
    case IM => DAY_MS * 30
  }

  /** `isValidCandleResolution`: the interval a number of minutes stands for. */
  function CandleIntervalOf(resolution: int): Option<CandleInterval> {
    match resolution
    case 1 => Some(I1)
    case 3 => Some(I3)
    case 5 => Some(I5)
    case 15 => Some(I15)
    case 30 => Some(I30)
    case 60 => Some(I60)
    case 120 => Some(I120)
    case 240 => Some(I240)
    case 360 => Some(I360)
    case 720 => Some(I720)
    case 1440 => Some(ID)
    case 10080 => Some(IW)
    case 43200 => Some(IM)
    case _ => None
  }

  /** A resolution stands for an interval if and only if the interval lasts that many minutes. */
  lemma ResolutionIsLength(resolution: int, interval: CandleInterval)
    ensures CandleIntervalOf(resolution) == Some(interval) <==> NumberOfMs(interval) == resolution * 60000
  {
    match interval
    case I1 =>
    case I3 =>
    case I5 =>
    case I15 =>
    case I30 =>
    case I60 =>
    case I120 =>
    case I240 =>
    case I360 =>
    case I720 =>
    case ID =>
    case IW =>
    case IM =>
  }

  // ---------------------------------------------------------------- months

  predicate IsLeap(year: int) {
    year % 4 == 0 && (year % 100 != 0 || year % 400 == 0)
  }

  /** Days from 1 January 1970 to 1 January of `year`. */
  function YearStart(year: int): int {
    365 * (year - 1970) + (year - 1) / 4 - (year - 1) / 100 + (year - 1) / 400 - 477
  }

  /** Days from 1 January to the first of month `m` (0 is January). */
  function DaysBefore(m: int, leap: bool): int
    requires 0 <= m < 12
  {
    [0, 31, 59, 90, 120, 151, 181, 212, 243, 273, 304, 334][m] + (if leap && m >= 2 then 1 else 0)
  }

  /** Day number of the first of month `month`, months counted from January of year 0. */
  function MonthStart(month: int): int {
    YearStart(month / 12) + DaysBefore(month % 12, IsLeap(month / 12))
  }

  lemma YearLength(year: int)
    ensures YearStart(year + 1) == YearStart(year) + (if IsLeap(year) then 366 else 365)
  {
    var y := year;
    assert y / 4 - (y - 1) / 4 == if y % 4 == 0 then 1 else 0;
    assert y / 100 - (y - 1) / 100 == if y % 100 == 0 then 1 else 0;
    assert y / 400 - (y - 1) / 400 == if y % 400 == 0 then 1 else 0;
  }

  lemma MonthLength(month: int)
    ensures 28 <= MonthStart(month + 1) - MonthStart(month) <= 31
  {
    YearLength(month / 12);
    if month % 12 == 11 {
      assert (month + 1) / 12 == month / 12 + 1 && (month + 1) % 12 == 0;
    } else {
      assert (month + 1) / 12 == month / 12 && (month + 1) % 12 == month % 12 + 1;
    }
  }

  lemma {:induction false} MonthsGrow(month: int, n: nat)
    ensures MonthStart(month) + 28 * n <= MonthStart(month + n)
  {
    hide MonthStart;
    if n > 0 {
      MonthsGrow(month, n - 1);
      MonthLength(month + n - 1);
    }
  }

  /** How far the calendar has run ahead of 30-day months. */
  function Drift(month: int): int {
    MonthStart(month) - 30 * month
  }

  lemma DriftWithinYear(month: int)
    ensures var year := month / 12;
      YearStart(year) - 360 * year - 1 <= Drift(month) <= YearStart(year) - 360 * year + 5
    ensures month % 12 == 0 ==> Drift(month) == YearStart(month / 12) - 360 * (month / 12)
  {
    assert 30 * month == 360 * (month / 12) + 30 * (month % 12);
  }

  lemma {:induction false} YearDriftGrows(year: int, n: nat)
    ensures YearStart(year) - 360 * year + 5 * n <= YearStart(year + n) - 360 * (year + n)
  {
    if n > 0 {
      YearDriftGrows(year, n - 1);
      YearLength(year + n - 1);
    }
  }

  /** The calendar never falls more than two days behind 30-day months: n consecutive months last at least 30 n - 2
      days. */
  lemma MonthsAgainstThirtyDays(month: int, n: nat)
    ensures MonthStart(month + n) - MonthStart(month) >= 30 * n - 2
  {
    hide YearStart, MonthStart;
    var y, y' := month / 12, (month + n) / 12;
    if y == y' {
      SameYearDrift(month, month + n);
    } else {
      assert y' > y;
      YearDriftGrows(y, y' - y);
      DriftWithinYear(month);
      DriftWithinYear(month + n);
    }
  }

  lemma SameYearDrift(a: int, b: int)
    requires a <= b && a / 12 == b / 12
    ensures Drift(b) >= Drift(a) - 2
  {
    assert 30 * a == 360 * (a / 12) + 30 * (a % 12);
    assert 30 * b == 360 * (b / 12) + 30 * (b % 12);
    assert a % 12 <= b % 12;
  }

  /** Walks to the month that holds a day. */
  function SeekMonth(day: int, month: int): (m: int)
    ensures MonthStart(m) <= day < MonthStart(m + 1)
    decreases if day < MonthStart(month) then MonthStart(month) - day else day - MonthStart(month)
  {
    hide MonthStart;
    MonthLength(month);
    MonthLength(month - 1);
    if day < MonthStart(month) then
      if MonthStart(month - 1) <= day then month - 1 else SeekMonth(day, month - 1)
    else if day < MonthStart(month + 1) then month
    else SeekMonth(day, month + 1)
  }

  /** The month a day falls in, searched from January 1970. */
  function MonthOf(day: int): (m: int)
    ensures MonthStart(m) <= day < MonthStart(m + 1)
  {
    hide MonthStart;
    SeekMonth(day, 12 * 1970)
  }

  lemma MonthOrder(a: int, b: int)
    requires a < b
    ensures MonthStart(a + 1) <= MonthStart(b)
  {
    hide MonthStart;
    MonthsGrow(a + 1, b - a - 1);
  }

  /** There is only one such month. */
  lemma MonthUnique(day: int, m: int)
    requires MonthStart(m) <= day < MonthStart(m + 1)
    ensures MonthOf(day) == m
  {
    hide MonthStart, SeekMonth;
    var n := MonthOf(day);
    if n < m {
      MonthOrder(n, m);
    } else if m < n {
      MonthOrder(m, n);
    }
  }

  // ---------------------------------------------------------------- the next candle

  /** `floor<days>`: Dafny's division rounds down for a positive divisor, also below zero. */
  function DayOf(ms: int): int {
    ms / DAY_MS
  }

  function NextCandleStart(open: int, interval: CandleInterval): (next: int)
    ensures open < next
  {
    hide MonthStart, MonthOf;
    if interval != IM then open + NumberOfMs(interval)
    else
      var m := MonthOf(DayOf(open));
      DayEnds(open, MonthStart(m + 1));
      MonthStart(m + 1) * DAY_MS
  }

  lemma DayEnds(ms: int, day: int)
    requires DayOf(ms) < day
    ensures ms < day * DAY_MS
  {
    assert ms < (DayOf(ms) + 1) * DAY_MS;
  }

  /** The calendar at work: from anywhere inside a month, the next candle opens with the following month. */
  lemma NextMonth(open: int, m: int)
    requires MonthStart(m) * DAY_MS <= open < MonthStart(m + 1) * DAY_MS
    ensures NextCandleStart(open, IM) == MonthStart(m + 1) * DAY_MS
  {
    hide MonthStart, MonthOf;
    assert MonthStart(m) <= DayOf(open) < MonthStart(m + 1);
    MonthUnique(DayOf(open), m);
  }

  lemma NotBeforeOne(step: int, k: nat)
    requires step > 0 && k > 0
    ensures step <= k * step
  {
  }

  /** A fixed interval's next candle opens that many minutes later, and none on its grid is skipped. */
  lemma NextOnGrid(open: int, interval: CandleInterval, minutes: int, k: nat)
    requires CandleIntervalOf(minutes) == Some(interval) && interval != IM && k > 0
    ensures NextCandleStart(open, interval) == open + minutes * 60000 <= open + k * (minutes * 60000)
  {
    ResolutionIsLength(minutes, interval);
    var step := minutes * 60000;
    assert step == NumberOfMs(interval) && NextCandleStart(open, interval) == open + step by { hide CandleIntervalOf, NumberOfMs; }
    hide *;
    NotBeforeOne(step, k);
  }

  /** No month is skipped: no month starts strictly between a time and its next candle. */
  lemma NoMonthSkipped(open: int, m: int)
    requires open < MonthStart(m) * DAY_MS
    ensures NextCandleStart(open, IM) <= MonthStart(m) * DAY_MS
  {
    hide MonthStart, MonthOf;
    var here := MonthOf(DayOf(open));
    assert DayOf(open) < MonthStart(m);
    if m < here {
      MonthOrder(m, here);
      MonthLength(m);
    }
    assert here < m;
    MonthOrder(here, m);
  }

  lemma NextMonotone(a: int, b: int, interval: CandleInterval)
    requires a <= b
    ensures NextCandleStart(a, interval) <= NextCandleStart(b, interval)
  {
    hide MonthStart, MonthOf;
    if interval == IM {
      var m, n := MonthOf(DayOf(a)), MonthOf(DayOf(b));
      assert DayOf(a) <= DayOf(b);
      if n < m {
        MonthOrder(n, m);
      } else if m < n {
        MonthOrder(m, n);
      }
    }
  }
}
