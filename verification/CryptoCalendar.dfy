/** The 24-hour crypto calendar: one session a UTC day, bars on clock, session and calendar periods. */
module CryptoCalendar {
  import opened Wrappers
  import opened Candles
  import Ticks

  const SECOND := Ticks.SECOND
  const DAY := Ticks.DAY
  const DAY_SECS := 86_400
  const CRYPTO_ID := "CRYPTO"

  datatype CalendarError = OutOfRange | UnsupportedPeriod

  function Date(ts: int): int { ts / DAY }

  /** The days from 1 January 1970 up to 1 January 2100. */
  const COVERAGE_DAYS := 47_482

  predicate InCoverage(date: int) { 0 <= date < COVERAGE_DAYS }

  /** The coverage ends with the year before 2100. */
  lemma {:induction false} CoverageEnds(year: int)
    ensures year == 2100 ==> Ticks.FirstDay(12 * year) == COVERAGE_DAYS
  {
    Ticks.FirstDayOfYear(year);
  }

  predicate Covered(ts: int) { InCoverage(Date(ts)) }

  /** A time is covered exactly from the start of 1970 up to the start of the year 2100. */
  lemma {:induction false} CoveredIff(ts: int, year: int)
    requires year == 2100
    ensures Covered(ts) <==> 0 <= ts < Ticks.FirstDay(12 * year) * DAY
  {
    CoverageEnds(year);
    Ticks.WithinDays(ts, 0, COVERAGE_DAYS);
  }

  function DaySession(date: int): Session { Session(CRYPTO_ID, Regular, date * DAY, date * DAY + DAY) }

  function Classify(ts: int): Session {
    if Covered(ts) then DaySession(Date(ts)) else Session(CRYPTO_ID, Closed, ts, ts)
  }

  function SecsPerBar(ci: ClockInterval): nat {
    match ci
    case Seconds(s) => s
    case Minutes(m) => m * 60
    case Hours(h) => h * 3600
  }

  function ClockWindow(ts: int, secs: int): BarWindow
    requires secs > 0
  {
    var seconds := ts / SECOND;
    var start := seconds - seconds % secs;
    BarWindow(start * SECOND, (start + secs) * SECOND, Classify(ts))
  }

  function StepOf(span: CalendarSpan): Ticks.NiceStep {
    match span
    case Week => Ticks.WeekStep
    case Month => Ticks.MonthStep
    case Quarter => Ticks.QuarterStep
    case Year => Ticks.YearStep
  }

  /** First day of the span that holds a date, and of the one after it. */
  function SpanDays(date: int, month: int, span: CalendarSpan): (int, int) {
    var y, m := Ticks.YearNo(month), Ticks.MonthNo(month);
    match span
    case Week => var monday := date - (Ticks.Weekday(date) - 1); (monday, monday + 7)
    case Month => (FirstOf(y, m), if m == 12 then FirstOf(y + 1, 1) else FirstOf(y, m + 1))
    case Quarter =>
      var q := Ticks.QuarterNo(m);
      (FirstOf(y, q), if q + 3 > 12 then FirstOf(y + 1, q + 3 - 12) else FirstOf(y, q + 3))
    case Year => (FirstOf(y, 1), FirstOf(y + 1, 1))
  }

  function FirstOf(year: int, month: int): int
    requires 1 <= month <= 12
  {
    Ticks.FirstDay(year * 12 + month - 1)
  }

  function CalendarWindow(ts: int, span: CalendarSpan): BarWindow {
    DaysWindow(SpanDays(Date(ts), Ticks.MonthOf(ts), span))
  }

  /** From the open of the first day to the close of the one before the last. */
  function DaysWindow(days: (int, int)): BarWindow {
    BarWindow(DaySession(days.0).open, DaySession(days.1 - 1).close, DaySession(days.0))
  }

  function Window(ts: int, period: BarPeriod): Result<BarWindow, CalendarError> {
    match period
    case ClockPeriod(ci) => if SecsPerBar(ci) <= 0 then Err(UnsupportedPeriod) else Ok(ClockWindow(ts, SecsPerBar(ci)))
    case SessionPeriod(span) =>
      if span.EthSpan? then Err(UnsupportedPeriod)
      else if !Covered(ts) then Err(OutOfRange)
      else var s := DaySession(Date(ts)); Ok(BarWindow(s.open, s.close, s))
    case CalendarPeriod(span) => Ok(CalendarWindow(ts, span))
  }

  /**
   Which times have a window: clock bars of any positive interval, weeks to years always, and regular or
   extended sessions on covered days, each running over the whole day. Night sessions are unsupported.
   */
  lemma {:induction false} WindowExistsIff(ts: int, period: BarPeriod)
    ensures Window(ts, period).Ok? <==>
            match period
            case ClockPeriod(ci) => ci.n > 0
            case SessionPeriod(span) => !span.EthSpan? && Covered(ts)
            case CalendarPeriod(_) => true
    ensures Window(ts, period) == Err(OutOfRange) <==>
              period.SessionPeriod? && !period.span.EthSpan? && !Covered(ts)
    ensures period.SessionPeriod? && Window(ts, period).Ok? ==>
              var w := Window(ts, period).value;
              && w.open <= ts < w.open + 86_400_000_000_000 == w.close && w.open % 86_400_000_000_000 == 0
              && w.session == Session(CRYPTO_ID, Regular, w.open, w.close)
  {
  }

  // ---------------------------------------------------------------- clock windows

  function Bucket(ts: int, secs: int): int
    requires secs > 0
  {
    ts / SECOND / secs
  }

  lemma {:induction false} ClockBounds(ts: int, secs: int)
    requires secs > 0
    ensures ClockWindow(ts, secs).open == Bucket(ts, secs) * (secs * SECOND)
    ensures ClockWindow(ts, secs).close == Bucket(ts, secs) * (secs * SECOND) + secs * SECOND
    ensures ClockWindow(ts, secs).open <= ts < ClockWindow(ts, secs).close
  {
    var q := Ticks.SplitSeconds(ts, secs);
    var seconds := ts / SECOND;
    assert seconds == q * secs + seconds % secs;
    assert q * secs * SECOND == q * (secs * SECOND);
  }

  /** A clock window lasts as long as its interval says, whatever the unit. */
  lemma {:induction false} ClockWindowLasts(ts: int, ci: ClockInterval)
    ensures Window(ts, ClockPeriod(ci)).Ok? ==>
              var w := Window(ts, ClockPeriod(ci)).value;
              match ci
              case Seconds(n) => n > 0 && w.close - w.open == n * 1_000_000_000
              case Minutes(n) => n > 0 && w.close - w.open == n * 60_000_000_000
              case Hours(n) => n > 0 && w.close - w.open == n * 3_600_000_000_000
    ensures Window(ts, ClockPeriod(ci)).Err? ==> ci in {Seconds(0), Minutes(0), Hours(0)}
  {
  }

  lemma {:induction false} EqualMultiples(a: int, b: int, w: int)
    requires w > 0
    ensures a * w == b * w <==> a == b
  {
    if a < b { Ticks.ClockAscends(a, b, w); }
    if b < a { Ticks.ClockAscends(b, a, w); }
  }

  lemma {:induction false} SameSessionIff(t: int, u: int)
    requires Covered(t) && Covered(u)
    ensures Classify(t) == Classify(u) <==> Date(t) == Date(u)
  {
  }

  /** Two covered timestamps share a clock window exactly when they share an epoch-aligned bucket and a UTC day. */
  lemma {:induction false} ClockWindowsEqualIff(t: int, u: int, secs: int)
    requires secs > 0 && Covered(t) && Covered(u)
    ensures ClockWindow(t, secs) == ClockWindow(u, secs) <==> Bucket(t, secs) == Bucket(u, secs) && Date(t) == Date(u)
  {
    ClockBounds(t, secs);
    ClockBounds(u, secs);
    EqualMultiples(Bucket(t, secs), Bucket(u, secs), secs * SECOND);
    SameSessionIff(t, u);
  }

  predicate DividesDay(secs: int)
    requires secs > 0
  {
    DAY_SECS % secs == 0
  }

  lemma {:induction false} DivideTwice(x: int, m: int, n: int)
    requires m > 0 && n > 0
    ensures x / (m * n) == x / m / n
  {
    var q, r := x / m / n, x / m % n;
    assert x == (q * n + r) * m + x % m;
    assert (q * n + r) * m == q * (m * n) + r * m;
    var rest := r * m + x % m;
    assert r * m <= (n - 1) * m;
    assert 0 <= rest < m * n;
    Quotient(x, m * n, q, rest);
  }

  lemma {:induction false} Quotient(x: int, d: int, q: int, r: int)
    requires d > 0 && x == q * d + r && 0 <= r < d
    ensures x / d == q
  {
    var e := x / d - q;
    assert e * d == r - x % d;
    if e > 0 { AtLeastOnce(e, d); }
    if e < 0 { AtLeastOnce(-e, d); }
  }

  lemma {:induction false} AtLeastOnce(n: int, d: int)
    requires n >= 1 && d > 0
    ensures n * d >= d
  {
  }

  /** When bars divide the day, a bucket lies within one day. */
  lemma {:induction false} BucketFixesDay(t: int, u: int, secs: int)
    requires secs > 0 && DividesDay(secs) && Bucket(t, secs) == Bucket(u, secs)
    ensures Date(t) == Date(u)
  {
    var perDay := DAY_SECS / secs;
    assert secs * perDay == DAY_SECS;
    DateByBucket(t, secs, perDay);
    DateByBucket(u, secs, perDay);
  }

  lemma {:induction false} DateByBucket(t: int, secs: int, perDay: int)
    requires secs > 0 && perDay > 0 && secs * perDay == DAY_SECS
    ensures Date(t) == Bucket(t, secs) / perDay
  {
    DivideTwice(t, SECOND, DAY_SECS);
    DivideTwice(t / SECOND, secs, perDay);
  }

  lemma {:induction false} DayOneIsCovered()
    ensures Covered((DAY_SECS - 1) * SECOND) && Covered(DAY_SECS * SECOND)
  {
    assert Date((DAY_SECS - 1) * SECOND) == 0 && Date(DAY_SECS * SECOND) == 1;
  }

  lemma {:induction false} Straddles(secs: int)
    requires secs > 0 && !DividesDay(secs)
    ensures Bucket((DAY_SECS - 1) * SECOND, secs) == Bucket(DAY_SECS * SECOND, secs)
  {
    var q, r := DAY_SECS / secs, DAY_SECS % secs;
    assert DAY_SECS == q * secs + r;
    Quotient(DAY_SECS - 1, secs, q, r - 1);
  }

  /** Clock windows are the epoch-aligned buckets, over all covered times, exactly when the interval divides the day. */
  lemma {:induction false} WindowsAreBucketsIff(secs: int)
    requires secs > 0
    ensures (forall t, u | Covered(t) && Covered(u) ::
               ClockWindow(t, secs) == ClockWindow(u, secs) <==> Bucket(t, secs) == Bucket(u, secs))
            <==> DividesDay(secs)
  {
    if DividesDay(secs) {
      forall t, u | Covered(t) && Covered(u)
        ensures ClockWindow(t, secs) == ClockWindow(u, secs) <==> Bucket(t, secs) == Bucket(u, secs)
      {
        ClockWindowsEqualIff(t, u, secs);
        if Bucket(t, secs) == Bucket(u, secs) { BucketFixesDay(t, u, secs); }
      }
    } else {
      var t, u := (DAY_SECS - 1) * SECOND, DAY_SECS * SECOND;
      DayOneIsCovered();
      Straddles(secs);
      ClockWindowsEqualIff(t, u, secs);
      assert Date(t) == 0 && Date(u) == 1;
    }
  }

  // ---------------------------------------------------------------- calendar windows

  ghost predicate SpanAt(span: CalendarSpan, k: int, start: int, end: int) {
    start * DAY == Ticks.Boundary(StepOf(span), k) && end * DAY == Ticks.Boundary(StepOf(span), k + 1)
  }

  lemma {:induction false} WeekDays(date: int, month: int) returns (k: int, start: int, end: int)
    ensures (start, end) == SpanDays(date, month, Week) && SpanAt(Week, k, start, end) && start <= date < end
  {
    k := (date + 3) / 7;
    assert date - (Ticks.Weekday(date) - 1) == 7 * k - 3;
    start, end := 7 * k - 3, 7 * k + 4;
  }

  lemma {:induction false} MonthDays(date: int, month: int) returns (k: int, start: int, end: int)
    requires Ticks.FirstDay(month) <= date < Ticks.FirstDay(month + 1)
    ensures (start, end) == SpanDays(date, month, Month) && SpanAt(Month, k, start, end) && start <= date < end
  {
    k, start, end := month, Ticks.FirstDay(month), Ticks.FirstDay(month + 1);
    MonthFirsts(month);
  }

  lemma {:induction false} MonthFirsts(month: int)
    ensures SpanDays(0, month, Month) == (Ticks.FirstDay(month), Ticks.FirstDay(month + 1))
  {
  }

  lemma {:induction false} QuarterHolds(date: int, month: int, k: int)
    requires Ticks.FirstDay(month) <= date < Ticks.FirstDay(month + 1) && 3 * k <= month < 3 * (k + 1)
    ensures Ticks.FirstDay(3 * k) <= date < Ticks.FirstDay(3 * (k + 1))
  {
    Ticks.MonthsAscend(3 * k, month);
    Ticks.MonthsAscend(month + 1, 3 * (k + 1));
  }

  lemma {:induction false} QuarterDays(date: int, month: int) returns (k: int, start: int, end: int)
    requires Ticks.FirstDay(month) <= date < Ticks.FirstDay(month + 1)
    ensures (start, end) == SpanDays(date, month, Quarter) && SpanAt(Quarter, k, start, end) && start <= date < end
  {
    k := Ticks.QuarterOf(month);
    start, end := Ticks.FirstDay(3 * k), Ticks.FirstDay(3 * (k + 1));
    QuarterFirsts(date, month, k);
    QuarterHolds(date, month, k);
  }

  lemma {:induction false} QuarterMonths(y: int, q: int, k: int)
    requires y * 12 + q - 1 == 3 * k && 1 <= q <= 10
    ensures FirstOf(y, q) == Ticks.FirstDay(3 * k)
    ensures (if q + 3 > 12 then FirstOf(y + 1, q + 3 - 12) else FirstOf(y, q + 3)) == Ticks.FirstDay(3 * (k + 1))
  {
    assert (y + 1) * 12 + (q + 3 - 12) - 1 == 3 * (k + 1) == y * 12 + (q + 3) - 1;
  }

  lemma {:induction false} QuarterFirsts(date: int, month: int, k: int)
    requires Ticks.YearNo(month) * 12 + Ticks.QuarterNo(Ticks.MonthNo(month)) - 1 == 3 * k
    ensures SpanDays(date, month, Quarter) == (Ticks.FirstDay(3 * k), Ticks.FirstDay(3 * (k + 1)))
  {
    QuarterMonths(Ticks.YearNo(month), Ticks.QuarterNo(Ticks.MonthNo(month)), k);
  }

  lemma {:induction false} YearDays(date: int, month: int) returns (k: int, start: int, end: int)
    requires Ticks.FirstDay(month) <= date < Ticks.FirstDay(month + 1)
    ensures (start, end) == SpanDays(date, month, Year) && SpanAt(Year, k, start, end) && start <= date < end
  {
    k := Ticks.YearNo(month);
    start, end := Ticks.FirstDay(12 * k), Ticks.FirstDay(12 * (k + 1));
    Ticks.MonthsAscend(12 * k, month);
    Ticks.MonthsAscend(month + 1, 12 * (k + 1));
  }

  lemma {:induction false} SpanBounds(date: int, month: int, span: CalendarSpan) returns (k: int, start: int, end: int)
    requires Ticks.FirstDay(month) <= date < Ticks.FirstDay(month + 1)
    ensures (start, end) == SpanDays(date, month, span) && SpanAt(span, k, start, end) && start <= date < end
  {
    match span
    case Week => k, start, end := WeekDays(date, month);
    case Month => k, start, end := MonthDays(date, month);
    case Quarter => k, start, end := QuarterDays(date, month);
    case Year => k, start, end := YearDays(date, month);
  }

  lemma {:induction false} MonthOfDate(ts: int) returns (month: int)
    ensures month == Ticks.MonthOf(ts) && Ticks.FirstDay(month) <= Date(ts) < Ticks.FirstDay(month + 1)
  {
    month := Ticks.MonthOf(ts);
  }

  lemma {:induction false} WindowOfDays(start: int, end: int)
    ensures DaysWindow((start, end)) == BarWindow(start * DAY, end * DAY, DaySession(start))
  {
  }

  /** A calendar window is the stretch between two consecutive boundaries of its span; its session is the first day. */
  lemma {:induction false} CalendarBounds(ts: int, span: CalendarSpan) returns (k: int, w: BarWindow)
    ensures w == CalendarWindow(ts, span) && w.open <= ts < w.close
    ensures w.open == Ticks.Boundary(StepOf(span), k) && w.close == Ticks.Boundary(StepOf(span), k + 1)
    ensures w.session == Session(CRYPTO_ID, Regular, w.open, w.open + DAY)
  {
    var month := MonthOfDate(ts);
    var start, end;
    k, start, end := SpanBounds(Date(ts), month, span);
    WindowOfDays(start, end);
    Ticks.WithinDays(ts, start, end);
    w := DaysWindow((start, end));
  }

  // ---------------------------------------------------------------- windows tile time

  /** Periods whose windows never share a bucket across days. */
  predicate Tiling(period: BarPeriod) {
    period.ClockPeriod? ==> SecsPerBar(period.interval) > 0 && DividesDay(SecsPerBar(period.interval))
  }

  /** The same window, or one that ends before the other opens. */
  predicate InTurn(v: BarWindow, w: BarWindow) { v == w || (v.open < w.open && v.close <= w.open) }

  lemma {:induction false} WindowContains(ts: int, period: BarPeriod)
    requires Window(ts, period).Ok?
    ensures Window(ts, period).value.open <= ts < Window(ts, period).value.close
    ensures Window(ts, period).value.session.calendar == CRYPTO_ID
  {
    match period
    case ClockPeriod(ci) => ClockBounds(ts, SecsPerBar(ci));
    case SessionPeriod(_) => Ticks.DayOf(ts);
    case CalendarPeriod(span) => var k, w := CalendarBounds(ts, span);
  }

  lemma {:induction false} ClockInTurn(t: int, u: int, secs: int)
    requires secs > 0 && DividesDay(secs) && t <= u && Covered(t) && Covered(u)
    ensures InTurn(ClockWindow(t, secs), ClockWindow(u, secs))
  {
    var i, j := Bucket(t, secs), Bucket(u, secs);
    ClockBounds(t, secs);
    ClockBounds(u, secs);
    ClockWindowsEqualIff(t, u, secs);
    if i == j {
      BucketFixesDay(t, u, secs);
    } else if i < j {
      Ticks.ClockAscends(i, j, secs * SECOND);
      NextMultiple(i, j, secs * SECOND);
    } else {
      NextMultiple(j, i, secs * SECOND);
    }
  }

  lemma {:induction false} StraddledOverlap(secs: int)
    requires secs > 0 && !DividesDay(secs)
    ensures !InTurn(ClockWindow((DAY_SECS - 1) * SECOND, secs), ClockWindow(DAY_SECS * SECOND, secs))
  {
    var t, u := (DAY_SECS - 1) * SECOND, DAY_SECS * SECOND;
    DayOneIsCovered();
    Straddles(secs);
    ClockBounds(t, secs);
    ClockBounds(u, secs);
    ClockWindowsEqualIff(t, u, secs);
    assert Date(t) == 0 && Date(u) == 1;
  }

  /** Clock windows of successive covered times follow one another exactly when the interval divides the day. */
  lemma {:induction false} ClockWindowsTileIff(secs: int)
    requires secs > 0
    ensures (forall t, u | Covered(t) && Covered(u) && t <= u :: InTurn(ClockWindow(t, secs), ClockWindow(u, secs)))
            <==> DividesDay(secs)
  {
    if DividesDay(secs) {
      forall t, u | Covered(t) && Covered(u) && t <= u
        ensures InTurn(ClockWindow(t, secs), ClockWindow(u, secs))
      {
        ClockInTurn(t, u, secs);
      }
    } else {
      DayOneIsCovered();
      StraddledOverlap(secs);
    }
  }

  lemma {:induction false} NextMultiple(i: int, j: int, w: int)
    requires i < j && w > 0
    ensures i * w + w <= j * w
  {
    AtLeastOnce(j - i, w);
  }

  /** The window between a boundary and the next, with the session of its first day. */
  ghost predicate Between(step: Ticks.NiceStep, k: int, ts: int, w: BarWindow) {
    && w.open == Ticks.Boundary(step, k) && w.close == Ticks.Boundary(step, k + 1) && w.open <= ts < w.close
    && w.session == Session(CRYPTO_ID, Regular, w.open, w.open + DAY)
  }

  lemma {:induction false} BoundsInTurn(step: Ticks.NiceStep, i: int, j: int, t: int, u: int, v: BarWindow,
                                        w: BarWindow)
    requires step.Positive() && t <= u && Between(step, i, t, v) && Between(step, j, u, w)
    ensures InTurn(v, w)
  {
    if i < j {
      Ticks.BoundariesAscend(step, i, j);
      if i + 1 < j { Ticks.BoundariesAscend(step, i + 1, j); }
    } else if j < i {
      if j + 1 < i { Ticks.BoundariesAscend(step, j + 1, i); }
    }
  }

  lemma {:induction false} CalendarInTurn(t: int, u: int, span: CalendarSpan)
    requires t <= u
    ensures InTurn(CalendarWindow(t, span), CalendarWindow(u, span))
  {
    var i, v := CalendarBounds(t, span);
    var j, w := CalendarBounds(u, span);
    BoundsInTurn(StepOf(span), i, j, t, u, v, w);
  }

  /** Windows of successive covered times are the same or follow one another. */
  lemma {:induction false} WindowsTile(t: int, u: int, period: BarPeriod)
    requires Tiling(period) && t <= u && Covered(t) && Covered(u) && Window(t, period).Ok? && Window(u, period).Ok?
    ensures InTurn(Window(t, period).value, Window(u, period).value)
  {
    match period
    case ClockPeriod(ci) => ClockInTurn(t, u, SecsPerBar(ci));
    case SessionPeriod(_) =>
    case CalendarPeriod(span) => CalendarInTurn(t, u, span);
  }
}
