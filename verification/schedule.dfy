/**
 * When the cron endpoint notifies a user (routes.py:282-305): the wall-clock time in
 * US/Eastern, the market hours of config.py:22-23, and the per-user frequency setting.
 */
module Schedule {
  import opened Wrappers

  /** A `datetime.time`: hour, minute, second and microsecond. */
  datatype Clock = Clock(hour: int, minute: int, second: int, micro: int)

  predicate ValidClock(t: Clock) {
    0 <= t.hour < 24 && 0 <= t.minute < 60 && 0 <= t.second < 60 && 0 <= t.micro < 1000000
  }

  /** `datetime.time` ordering: field by field, hour first. */
  predicate ClockLe(a: Clock, b: Clock) {
    || a.hour < b.hour
    || (a.hour == b.hour && a.minute < b.minute)
    || (a.hour == b.hour && a.minute == b.minute && a.second < b.second)
    || (a.hour == b.hour && a.minute == b.minute && a.second == b.second && a.micro <= b.micro)
  }

  /** config.py:22-23. */
  const MARKET_OPEN := Clock(9, 30, 0, 0)
  const MARKET_CLOSE := Clock(16, 0, 0, 0)

  /** routes.py:290: both ends included, so 16:00:00 exactly is still open. */
  predicate IsOpen(t: Clock)
    ensures ValidClock(t) ==>
      (IsOpen(t) <==> (t.hour == 9 && 30 <= t.minute) || 10 <= t.hour <= 15 || t == MARKET_CLOSE)
  {
    ClockLe(MARKET_OPEN, t) && ClockLe(t, MARKET_CLOSE)
  }

  /** routes.py:285-288: the half hour starting at `th:tm`, by minutes since midnight. */
  predicate IsTimeMatch(t: Clock, th: int, tm: int)
    ensures ValidClock(t) && 0 <= tm <= 30 ==> (IsTimeMatch(t, th, tm) <==> t.hour == th && tm <= t.minute < tm + 30)
  {
    th * 60 + tm <= t.hour * 60 + t.minute < th * 60 + tm + 30
  }

  /** The `notify_freq` setting. */
  datatype Freq = NoneFreq | OpenFreq | OpenCloseFreq | Hourly | TwoHours | OtherFreq

  /** routes.py:295: a missing setting reads as `'none'`; an unknown one never matches. */
  function ParseFreq(s: Option<string>): (f: Freq)
    ensures s.None? ==> f == NoneFreq
    ensures f == OtherFreq <==> s.Some? && s.value !in {"none", "open", "open_close", "hourly", "2hours"}
  {
    match s
    case None => NoneFreq
    case Some(v) =>
      if v == "none" then NoneFreq
      else if v == "open" then OpenFreq
      else if v == "open_close" then OpenCloseFreq
      else if v == "hourly" then Hourly
      else if v == "2hours" then TwoHours
      else OtherFreq
  }

  /** routes.py:296-305: whether a user with setting `f` is notified at time `t`. */
  predicate ShouldSend(f: Freq, t: Clock)
    ensures ValidClock(t) && ShouldSend(f, t) ==> IsOpen(t)
  {
    match f
    case NoneFreq => false
    case OpenFreq => IsTimeMatch(t, 9, 30)
    case OpenCloseFreq => IsTimeMatch(t, 9, 30) || IsTimeMatch(t, 15, 30)
    case Hourly => IsOpen(t) && t.minute < 30
    case TwoHours => IsOpen(t) && t.hour % 2 != 0 && t.minute < 30
    case OtherFreq => false
  }

  /** Minutes since midnight place a valid clock within its hour. */
  lemma MinutesInHour(t: Clock, lo: int, hi: int)
    requires ValidClock(t) && lo % 60 == 0 && hi % 60 == 0
    ensures lo <= t.hour * 60 + t.minute < hi <==> lo / 60 <= t.hour < hi / 60
  {
  }

  /** `'open'`: from 9:30 to 9:59, whatever the seconds. */
  lemma OpenWindow(t: Clock)
    requires ValidClock(t)
    ensures ShouldSend(OpenFreq, t) <==> t.hour == 9 && 30 <= t.minute
  {
    MinutesInHour(t, 540, 600);
  }

  /** `'open_close'`: the opening half hour and 15:30 to 15:59. */
  lemma OpenCloseWindow(t: Clock)
    requires ValidClock(t)
    ensures ShouldSend(OpenCloseFreq, t) <==> (t.hour == 9 || t.hour == 15) && 30 <= t.minute
    ensures ShouldSend(OpenFreq, t) ==> ShouldSend(OpenCloseFreq, t)
  {
    MinutesInHour(t, 540, 600);
    MinutesInHour(t, 900, 960);
  }

  /**
   * `'hourly'`: the first half of every hour from 10 to 15, and the single instant
   * 16:00:00.000000 at which the market still counts as open. The 9 o'clock half hour
   * never matches: before 9:30 the market is closed.
   */
  lemma HourlyWindow(t: Clock)
    requires ValidClock(t)
    ensures ShouldSend(Hourly, t) <==> (10 <= t.hour <= 15 && t.minute < 30) || t == MARKET_CLOSE
  {
  }

  /** `'2hours'`: the first half of 11, 13 and 15 o'clock. */
  lemma TwoHoursWindow(t: Clock)
    requires ValidClock(t)
    ensures ShouldSend(TwoHours, t) <==> (t.hour == 11 || t.hour == 13 || t.hour == 15) && t.minute < 30
    ensures ShouldSend(TwoHours, t) ==> ShouldSend(Hourly, t)
  {
    HourlyWindow(t);
  }

  /** `'none'` and unknown settings are never notified. */
  lemma NeverSends(t: Clock)
    ensures !ShouldSend(NoneFreq, t) && !ShouldSend(OtherFreq, t)
  {
  }
}
