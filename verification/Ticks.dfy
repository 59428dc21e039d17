/** Tick boundaries on UTC calendar and clock steps. Timestamps are nanoseconds since the epoch. */
module Ticks {
  import opened Wrappers

  const SECOND := 1_000_000_000
  const DAY := 86_400 * SECOND
  const MAX_TICKS := 10_000

  // ---------------------------------------------------------------- the proleptic Gregorian calendar

  predicate Leap(y: int) { y % 4 == 0 && (y % 100 != 0 || y % 400 == 0) }

  /** A month is counted as year * 12 + month - 1. */
  function MonthDays(month: int): (days: int)
    ensures 28 <= days <= 31
  {
    var m := month % 12;
    if m == 1 then (if Leap(month / 12) then 29 else 28)
    else if m == 3 || m == 5 || m == 8 || m == 10 then 30 else 31
  }

  const EPOCH_MONTH := 1970 * 12

  /** The first day of a month, in days since the epoch. */
  function FirstDay(month: int): int
    decreases if month >= EPOCH_MONTH then month - EPOCH_MONTH else EPOCH_MONTH - month
  {
    if month == EPOCH_MONTH then 0
    else if month > EPOCH_MONTH then FirstDay(month - 1) + MonthDays(month - 1)
    else FirstDay(month + 1) - MonthDays(month)
  }

  lemma {:induction false} MonthLength(month: int)
    ensures FirstDay(month + 1) == FirstDay(month) + MonthDays(month)
  {
  }

  lemma {:induction false} MonthsAscend(i: int, j: int)
    requires i <= j
    ensures FirstDay(i) + 28 * (j - i) <= FirstDay(j)
    decreases j - i
  {
    if i < j {
      MonthsAscend(i, j - 1);
      MonthLength(j - 1);
    }
  }

  function DaysIn(m: int, leap: bool): int {
    if m == 1 then (if leap then 29 else 28) else if m == 3 || m == 5 || m == 8 || m == 10 then 30 else 31
  }

  lemma {:induction false} MonthInYear(y: int, m: int)
    requires 0 <= m < 12
    ensures FirstDay(12 * y + m + 1) == FirstDay(12 * y + m) + DaysIn(m, Leap(y))
  {
    assert (12 * y + m) / 12 == y && (12 * y + m) % 12 == m;
    MonthLength(12 * y + m);
  }

  lemma {:induction false} MonthsInYear(y: int, m: int) returns (days: int)
    requires 0 <= m <= 12
    ensures FirstDay(12 * y + m) == FirstDay(12 * y) + days
    ensures days == [0, 31, 59, 90, 120, 151, 181, 212, 243, 273, 304, 334, 365][m] + if Leap(y) && m >= 2 then 1 else 0
    decreases m
  {
    if m == 0 {
      days := 0;
    } else {
      var before := MonthsInYear(y, m - 1);
      MonthInYear(y, m - 1);
      days := before + DaysIn(m - 1, Leap(y));
    }
  }

  lemma {:induction false} YearLength(y: int)
    ensures FirstDay(12 * (y + 1)) == FirstDay(12 * y) + if Leap(y) then 366 else 365
  {
    var days := MonthsInYear(y, 12);
  }

  /** Days from 1 January of year 1 to 1 January of year y, by the leap-year rule. */
  function YearDays(y: int): int { 365 * (y - 1) + (y - 1) / 4 - (y - 1) / 100 + (y - 1) / 400 }

  lemma {:induction false} EveryFourth(y: int)
    ensures y / 4 == (y - 1) / 4 + if y % 4 == 0 then 1 else 0
  {
  }

  lemma {:induction false} EveryHundredth(y: int)
    ensures y / 100 == (y - 1) / 100 + if y % 100 == 0 then 1 else 0
  {
  }

  lemma {:induction false} EveryFourHundredth(y: int)
    ensures y / 400 == (y - 1) / 400 + if y % 400 == 0 then 1 else 0
  {
  }

  /** The leap-year rule as a count: one for each fourth year, less the centuries, plus every fourth of them. */
  lemma {:induction false} LeapCount(y: int)
    ensures (if y % 4 == 0 then 1 else 0) - (if y % 100 == 0 then 1 else 0) + (if y % 400 == 0 then 1 else 0)
            == if Leap(y) then 1 else 0
  {
  }

  lemma {:induction false} YearDaysStep(y: int)
    ensures YearDays(y + 1) == YearDays(y) + if Leap(y) then 366 else 365
  {
    EveryFourth(y);
    EveryHundredth(y);
    EveryFourHundredth(y);
    LeapCount(y);
  }

  /** The first day of every year, in closed form. */
  lemma {:induction false} FirstDayOfYear(y: int)
    ensures FirstDay(12 * y) == YearDays(y) - YearDays(1970)
    decreases if y >= 1970 then y - 1970 else 1970 - y
  {
    if y > 1970 {
      FirstDayOfYear(y - 1);
      YearLength(y - 1);
      YearDaysStep(y - 1);
    } else if y < 1970 {
      FirstDayOfYear(y + 1);
      YearLength(y);
      YearDaysStep(y);
    }
  }

  /** The month that a day falls in, searched upwards from one that starts at or before it. */
  function MonthFrom(day: int, from: int): (month: int)
    requires FirstDay(from) <= day
    ensures FirstDay(month) <= day < FirstDay(month + 1)
    decreases day - FirstDay(from)
  {
    MonthLength(from);
    if day < FirstDay(from + 1) then from else MonthFrom(day, from + 1)
  }

  function EarlyMonth(day: int): (month: int)
    ensures FirstDay(month) <= day
  {
    if day >= 0 then EPOCH_MONTH
    else MonthsAscend(EPOCH_MONTH + day / 28, EPOCH_MONTH); EPOCH_MONTH + day / 28
  }

  lemma {:induction false} WithinDays(ts: int, start: int, end: int)
    ensures start <= ts / DAY < end <==> start * DAY <= ts < end * DAY
  {
  }

  function MonthOf(ts: int): (month: int)
    ensures FirstDay(month) * DAY <= ts < FirstDay(month + 1) * DAY
  {
    var month := MonthFrom(ts / DAY, EarlyMonth(ts / DAY));
    WithinDays(ts, FirstDay(month), FirstDay(month + 1));
    month
  }

  function YearNo(month: int): int { month / 12 }

  /** From 1 to 12. */
  function MonthNo(month: int): (m: int)
    ensures 1 <= m <= 12
  {
    month % 12 + 1
  }

  /** The first month of the quarter of a month from 1 to 12. */
  function QuarterNo(m: int): (q: int)
    requires 1 <= m <= 12
    ensures q == 1 || q == 4 || q == 7 || q == 10
    ensures q <= m <= q + 2
  {
    (m - 1) / 3 * 3 + 1
  }

  /** Midnight on the first of a month. */
  function Ymd(year: int, month: int): int
    requires 1 <= month <= 12
  {
    FirstDay(year * 12 + month - 1) * DAY
  }

  // ---------------------------------------------------------------- steps

  datatype NiceStep =
    | YearStep | QuarterStep | MonthStep | WeekStep | DayStep
    | Hours(n: int) | Minutes(n: int) | Seconds(n: int)
  {
    /** Clock steps are positive, as in the table of steps. */
    predicate Positive() { (Hours? || Minutes? || Seconds?) ==> n > 0 }

    function Modulus(): int {
      match this
      case Hours(h) => h * 3_600
      case Minutes(m) => m * 60
      case Seconds(s) => s
      case _ => 86_400
    }
  }

  function AlignUpMod(ts: int, modulus: int): int
    requires modulus > 0
  {
    var epoch, nanos := ts / SECOND, ts % SECOND;
    var rem := epoch % modulus;
    if rem == 0 && nanos == 0 then ts else ts + (modulus - rem) * SECOND - nanos
  }

  /** From 1, Monday, to 7; the epoch was a Thursday. */
  function Weekday(day: int): int { (day + 3) % 7 + 1 }

  /** Aligning within the months: `month` is the one that holds `ts`. */
  function AlignUpYear(ts: int, month: int): int {
    var y := YearNo(month);
    if Ymd(y, 1) >= ts then Ymd(y, 1) else Ymd(y + 1, 1)
  }

  function AlignUpQuarter(ts: int, month: int): int {
    var y, q := YearNo(month), QuarterNo(MonthNo(month));
    if Ymd(y, q) >= ts then Ymd(y, q)
    else if q + 3 > 12 then Ymd(y + 1, q + 3 - 12) else Ymd(y, q + 3)
  }

  function AlignUpMonth(ts: int, month: int): int {
    var y, m := YearNo(month), MonthNo(month);
    if Ymd(y, m) >= ts then Ymd(y, m) else if m == 12 then Ymd(y + 1, 1) else Ymd(y, m + 1)
  }

  function AlignUp(ts: int, step: NiceStep): int
    requires step.Positive()
  {
    match step
    case YearStep => AlignUpYear(ts, MonthOf(ts))
    case QuarterStep => AlignUpQuarter(ts, MonthOf(ts))
    case MonthStep => AlignUpMonth(ts, MonthOf(ts))
    case WeekStep =>
      var day := ts / DAY;
      var monday := (day - (Weekday(day) - 1)) * DAY;
      if monday >= ts then monday else monday + 7 * DAY
    case DayStep =>
      var midnight := ts / DAY * DAY;
      if midnight >= ts then midnight else midnight + DAY
    case _ => AlignUpMod(ts, step.Modulus())
  }

  function AdvanceMonths(month: int, step: NiceStep): int
    requires step.YearStep? || step.QuarterStep? || step.MonthStep?
  {
    var y, m := YearNo(month), MonthNo(month);
    match step
    case YearStep => Ymd(y + 1, m)
    case QuarterStep => if m + 3 > 12 then Ymd(y + 1, m + 3 - 12) else Ymd(y, m + 3)
    case MonthStep => if m == 12 then Ymd(y + 1, 1) else Ymd(y, m + 1)
  }

  function Advance(ts: int, step: NiceStep): int {
    match step
    case YearStep => AdvanceMonths(MonthOf(ts), step)
    case QuarterStep => AdvanceMonths(MonthOf(ts), step)
    case MonthStep => AdvanceMonths(MonthOf(ts), step)
    case WeekStep => ts + 7 * DAY
    case DayStep => ts + DAY
    case _ => ts + step.Modulus() * SECOND
  }

  // ---------------------------------------------------------------- the boundaries of a step

  /** The k-th boundary: years and quarters from January, weeks from Monday, clock steps from the epoch. */
  function Boundary(step: NiceStep, k: int): int {
    match step
    case YearStep => FirstDay(12 * k) * DAY
    case QuarterStep => FirstDay(3 * k) * DAY
    case MonthStep => FirstDay(k) * DAY
    case WeekStep => (7 * k - 3) * DAY
    case DayStep => k * DAY
    case _ => k * (step.Modulus() * SECOND)
  }

  lemma {:induction false} NextClock(k: int, width: int)
    ensures (k + 1) * width == k * width + width
  {
  }

  /** How far apart the boundaries of a step are, in nanoseconds; months and longer begin on first days. */
  lemma {:induction false} BoundaryGap(step: NiceStep, k: int)
    ensures var gap := Boundary(step, k + 1) - Boundary(step, k);
            match step
            case Seconds(n) => gap == n * 1_000_000_000 && Boundary(step, 0) == 0
            case Minutes(n) => gap == n * 60_000_000_000 && Boundary(step, 0) == 0
            case Hours(n) => gap == n * 3_600_000_000_000 && Boundary(step, 0) == 0
            case DayStep => gap == 86_400_000_000_000 && Boundary(step, 0) == 0
            case WeekStep => gap == 7 * 86_400_000_000_000 && Boundary(step, 0) == -3 * 86_400_000_000_000
            case MonthStep => gap == MonthDays(k) * 86_400_000_000_000
            case QuarterStep => Boundary(step, k) == Boundary(MonthStep, 3 * k)
            case YearStep => Boundary(step, k) == Boundary(MonthStep, 12 * k)
  {
    match step
    case MonthStep => MonthLength(k);
    case Seconds(n) => NextClock(k, n * SECOND);
    case Minutes(n) => NextClock(k, n * 60 * SECOND);
    case Hours(n) => NextClock(k, n * 3_600 * SECOND);
    case _ =>
  }

  lemma {:induction false} ClockAscends(i: int, j: int, width: int)
    requires i < j && width > 0
    ensures i * width < j * width
  {
    assert (j - i) * width > 0;
  }

  lemma {:induction false} FirstsAscend(i: int, j: int)
    requires i < j
    ensures FirstDay(i) * DAY < FirstDay(j) * DAY
  {
    MonthsAscend(i, j);
  }

  lemma {:induction false} BoundariesAscend(step: NiceStep, i: int, j: int)
    requires step.Positive() && i < j
    ensures Boundary(step, i) < Boundary(step, j)
  {
    match step
    case YearStep => FirstsAscend(12 * i, 12 * j);
    case QuarterStep => FirstsAscend(3 * i, 3 * j);
    case MonthStep => FirstsAscend(i, j);
    case WeekStep =>
    case DayStep =>
    case _ => ClockAscends(i, j, step.Modulus() * SECOND);
  }

  lemma {:induction false} SplitSeconds(ts: int, modulus: int) returns (q: int)
    requires modulus > 0
    ensures q == ts / SECOND / modulus
    ensures ts == q * (modulus * SECOND) + (ts / SECOND % modulus) * SECOND + ts % SECOND
    ensures 0 <= (ts / SECOND % modulus) * SECOND + ts % SECOND < modulus * SECOND
  {
    q := ts / SECOND / modulus;
    var epoch, rem := ts / SECOND, ts / SECOND % modulus;
    assert epoch == q * modulus + rem;
    assert q * modulus * SECOND == q * (modulus * SECOND);
  }

  lemma {:induction false} ClockAligned(ts: int, modulus: int) returns (k: int)
    requires modulus > 0
    ensures AlignUpMod(ts, modulus) == k * (modulus * SECOND)
    ensures (k - 1) * (modulus * SECOND) < ts <= k * (modulus * SECOND)
  {
    var q := SplitSeconds(ts, modulus);
    k := if ts / SECOND % modulus == 0 && ts % SECOND == 0 then q else q + 1;
    assert (q + 1) * (modulus * SECOND) == q * (modulus * SECOND) + modulus * SECOND;
    assert (q - 1) * (modulus * SECOND) == q * (modulus * SECOND) - modulus * SECOND;
  }

  ghost predicate Holds(month: int, ts: int) { FirstDay(month) * DAY <= ts < FirstDay(month + 1) * DAY }

  /** Three months around `ts`, as timestamps. */
  lemma {:induction false} MonthsAround(ts: int, month: int, before: int, at: int, after: int)
    requires Holds(month, ts) && before < at <= month < after
    ensures FirstDay(before) * DAY < FirstDay(at) * DAY <= ts < FirstDay(after) * DAY
  {
    FirstsAscend(before, at);
    if at < month { FirstsAscend(at, month); }
    if month + 1 < after { FirstsAscend(month + 1, after); }
  }

  lemma {:induction false} YearStarts(month: int) returns (y: int)
    ensures y == YearNo(month) && 12 * y <= month < 12 * (y + 1)
    ensures Ymd(y, 1) == FirstDay(12 * y) * DAY && Ymd(y + 1, 1) == FirstDay(12 * (y + 1)) * DAY
  {
    y := YearNo(month);
  }

  lemma {:induction false} YearAligned(ts: int, month: int) returns (k: int)
    requires Holds(month, ts)
    ensures AlignUpYear(ts, month) == FirstDay(12 * k) * DAY
            && FirstDay(12 * (k - 1)) * DAY < ts <= FirstDay(12 * k) * DAY
  {
    var y := YearStarts(month);
    MonthsAround(ts, month, 12 * (y - 1), 12 * y, 12 * (y + 1));
    if FirstDay(12 * y) * DAY >= ts { k := y; } else { k := y + 1; }
  }

  lemma {:induction false} QuarterOf(month: int) returns (k: int)
    ensures 3 * k <= month < 3 * (k + 1)
    ensures YearNo(month) * 12 + QuarterNo(MonthNo(month)) - 1 == 3 * k
  {
    k := month / 3;
    assert month / 3 == 4 * (month / 12) + month % 12 / 3;
  }

  /** The first days that aligning to a quarter chooses between. */
  lemma {:induction false} QuarterStarts(month: int) returns (k: int)
    ensures 3 * k <= month < 3 * (k + 1)
    ensures var y, q := YearNo(month), QuarterNo(MonthNo(month));
            && Ymd(y, q) == FirstDay(3 * k) * DAY
            && (if q + 3 > 12 then Ymd(y + 1, q + 3 - 12) else Ymd(y, q + 3)) == FirstDay(3 * (k + 1)) * DAY
  {
    k := QuarterOf(month);
    var y, q := YearNo(month), QuarterNo(MonthNo(month));
    assert (y + 1) * 12 + (q + 3 - 12) - 1 == 3 * (k + 1) == y * 12 + (q + 3) - 1;
  }

  lemma {:induction false} MonthStarts(month: int)
    ensures var y, m := YearNo(month), MonthNo(month);
            && Ymd(y, m) == FirstDay(month) * DAY
            && (if m == 12 then Ymd(y + 1, 1) else Ymd(y, m + 1)) == FirstDay(month + 1) * DAY
  {
  }

  lemma {:induction false} QuarterAligned(ts: int, month: int) returns (k: int)
    requires Holds(month, ts)
    ensures AlignUpQuarter(ts, month) == FirstDay(3 * k) * DAY
            && FirstDay(3 * (k - 1)) * DAY < ts <= FirstDay(3 * k) * DAY
  {
    var at := QuarterStarts(month);
    MonthsAround(ts, month, 3 * (at - 1), 3 * at, 3 * (at + 1));
    if FirstDay(3 * at) * DAY >= ts { k := at; } else { k := at + 1; }
  }

  lemma {:induction false} MonthAligned(ts: int, month: int) returns (k: int)
    requires Holds(month, ts)
    ensures AlignUpMonth(ts, month) == FirstDay(k) * DAY && FirstDay(k - 1) * DAY < ts <= FirstDay(k) * DAY
  {
    MonthStarts(month);
    MonthsAround(ts, month, month - 1, month, month + 1);
    if FirstDay(month) * DAY >= ts { k := month; } else { k := month + 1; }
  }

  lemma {:induction false} DayOf(ts: int)
    ensures ts / DAY * DAY <= ts < ts / DAY * DAY + DAY
  {
  }

  lemma {:induction false} WeekAligned(ts: int) returns (k: int)
    ensures AlignUp(ts, WeekStep) == Boundary(WeekStep, k) && Boundary(WeekStep, k - 1) < ts <= Boundary(WeekStep, k)
  {
    var day := ts / DAY;
    DayOf(ts);
    k := (day + 3) / 7;
    assert day - (Weekday(day) - 1) == 7 * k - 3;
    if Boundary(WeekStep, k) < ts { k := k + 1; }
  }

  lemma {:induction false} DayAligned(ts: int) returns (k: int)
    ensures AlignUp(ts, DayStep) == Boundary(DayStep, k) && Boundary(DayStep, k - 1) < ts <= Boundary(DayStep, k)
  {
    DayOf(ts);
    k := ts / DAY;
    if Boundary(DayStep, k) < ts { k := k + 1; }
  }

  /** `AlignUp` is the least boundary at or after `ts`. */
  lemma {:induction false} AlignUpIsLeast(ts: int, step: NiceStep) returns (k: int)
    requires step.Positive()
    ensures AlignUp(ts, step) == Boundary(step, k) && Boundary(step, k - 1) < ts <= Boundary(step, k)
  {
    match step
    case YearStep => k := YearAligned(ts, MonthOf(ts));
    case QuarterStep => k := QuarterAligned(ts, MonthOf(ts));
    case MonthStep => k := MonthAligned(ts, MonthOf(ts));
    case WeekStep => k := WeekAligned(ts);
    case DayStep => k := DayAligned(ts);
    case _ => k := ClockAligned(ts, step.Modulus());
  }

  lemma {:induction false} EarlierMonth(ts: int, m: int, month: int)
    requires Holds(m, ts) && m < month
    ensures ts < FirstDay(month) * DAY
  {
    if m + 1 < month { FirstsAscend(m + 1, month); }
  }

  lemma {:induction false} MonthIsUnique(ts: int, m: int, month: int)
    requires Holds(m, ts) && Holds(month, ts)
    ensures m == month
  {
    if m < month { EarlierMonth(ts, m, month); }
    if m > month { EarlierMonth(ts, month, m); }
  }

  lemma {:induction false} MonthOfFirst(month: int)
    ensures MonthOf(FirstDay(month) * DAY) == month
  {
    FirstHolds(month);
    var ts := FirstDay(month) * DAY;
    assert Holds(MonthOf(ts), ts);
    MonthIsUnique(ts, MonthOf(ts), month);
  }

  lemma {:induction false} FirstHolds(month: int)
    ensures Holds(month, FirstDay(month) * DAY)
  {
    FirstsAscend(month, month + 1);
  }

  lemma {:induction false} MonthsOn(month: int, step: NiceStep, n: int)
    requires (step == YearStep && n == 12) || (step == QuarterStep && n == 3) || (step == MonthStep && n == 1)
    ensures AdvanceMonths(month, step) == FirstDay(month + n) * DAY
  {
  }

  /** From a boundary, `Advance` goes to the next one. */
  lemma {:induction false} AdvanceIsNext(step: NiceStep, k: int)
    requires step.Positive()
    ensures Advance(Boundary(step, k), step) == Boundary(step, k + 1)
  {
    match step
    case YearStep => MonthOfFirst(12 * k); MonthsOn(12 * k, step, 12);
    case QuarterStep => MonthOfFirst(3 * k); MonthsOn(3 * k, step, 3);
    case MonthStep => MonthOfFirst(k); MonthsOn(k, step, 1);
    case WeekStep =>
    case DayStep =>
    case _ => NextClock(k, step.Modulus() * SECOND);
  }

  // ---------------------------------------------------------------- enumeration

  datatype Tick = Tick(x: real, ts: int)

  /** The ticks of at most `room` boundaries from the k-th, up to `end`, where the projection has a pixel. */
  ghost function TicksFrom(step: NiceStep, k: int, end: int, room: nat, project: int -> Option<real>): seq<Tick>
    decreases room
  {
    if room == 0 || Boundary(step, k) > end then []
    else TickAt(Boundary(step, k), project) + TicksFrom(step, k + 1, end, room - 1, project)
  }

  function TickAt(ts: int, project: int -> Option<real>): seq<Tick> {
    match project(ts)
    case Some(x) => [Tick(x, ts)]
    case None => []
  }

  lemma {:induction false} NextBoundary(step: NiceStep, k: int, ts: int) returns (next: int)
    requires step.Positive() && ts == Boundary(step, k)
    ensures next == Advance(ts, step) == Boundary(step, k + 1) && ts < next
  {
    next := Advance(ts, step);
    AdvanceIsNext(step, k);
    BoundariesAscend(step, k, k + 1);
  }

  lemma {:induction false} TicksStep(out: seq<Tick>, step: NiceStep, k: int, ts: int, end: int, room: nat,
                                     project: int -> Option<real>)
    requires ts == Boundary(step, k) && room > 0
    ensures ts > end ==> TicksFrom(step, k, end, room, project) == []
    ensures ts <= end ==> out + TicksFrom(step, k, end, room, project)
                          == out + TickAt(ts, project) + TicksFrom(step, k + 1, end, room - 1, project)
  {
  }

  /** The enumeration loop from an aligned cursor; its guard against a step that does not advance never fires. */
  method Enumerate(start: int, ghost first: int, end: int, step: NiceStep, project: int -> Option<real>)
    returns (out: seq<Tick>)
    requires step.Positive() && start == Boundary(step, first)
    ensures out == TicksFrom(step, first, end, MAX_TICKS, project)
  {
    out := [];
    var cursor, i := start, 0;
    ghost var all, k := TicksFrom(step, first, end, MAX_TICKS, project), first;
    while cursor <= end && i < MAX_TICKS
      invariant 0 <= i <= MAX_TICKS && cursor == Boundary(step, k)
      invariant out + TicksFrom(step, k, end, MAX_TICKS - i, project) == all
      decreases MAX_TICKS - i
    {
      TicksStep(out, step, k, cursor, end, MAX_TICKS - i, project);
      out := out + TickAt(cursor, project);
      var next := Advance(cursor, step);
      ghost var after := NextBoundary(step, k, cursor);
      if next <= cursor { break; }
      cursor, i, k := next, i + 1, k + 1;
    }
    if i < MAX_TICKS { TicksStep(out, step, k, cursor, end, MAX_TICKS - i, project); }
  }

  /** All boundaries from the first one at or after `start`, at most 10,000 of them. */
  method EnumerateTicks(start: int, end: int, step: NiceStep, project: int -> Option<real>) returns (out: seq<Tick>)
    requires step.Positive()
    ensures exists first :: Boundary(step, first - 1) < start <= Boundary(step, first)
                            && out == TicksFrom(step, first, end, MAX_TICKS, project)
  {
    ghost var first := AlignUpIsLeast(start, step);
    out := Enumerate(AlignUp(start, step), first, end, step, project);
  }

  /** `ts` is a boundary of the step. */
  ghost predicate Aligned(step: NiceStep, ts: int) { exists k :: ts == Boundary(step, k) }

  /** Only aligned moments of [start, end] with their pixels are there, in order and each once. */
  ghost predicate Sound(out: seq<Tick>, step: NiceStep, start: int, end: int, project: int -> Option<real>) {
    && (forall i | 0 <= i < |out| ::
         Aligned(step, out[i].ts) && start <= out[i].ts <= end && project(out[i].ts) == Some(out[i].x))
    && (forall i, j | 0 <= i < j < |out| :: out[i].ts < out[j].ts)
  }

  lemma {:induction false} SoundCons(rest: seq<Tick>, step: NiceStep, k: int, ts: int, next: int, end: int,
                                     project: int -> Option<real>)
    requires ts == Boundary(step, k) && ts < next && ts <= end && Sound(rest, step, next, end, project)
    ensures Sound(TickAt(ts, project) + rest, step, ts, end, project)
  {
    var out, n := TickAt(ts, project) + rest, |TickAt(ts, project)|;
    forall i | 0 <= i < |out|
      ensures Aligned(step, out[i].ts) && ts <= out[i].ts <= end && project(out[i].ts) == Some(out[i].x)
    {
      if i >= n { assert out[i] == rest[i - n]; }
    }
    forall i, j | 0 <= i < j < |out| ensures out[i].ts < out[j].ts {
      assert out[j] == rest[j - n];
      if i >= n { assert out[i] == rest[i - n]; }
    }
  }

  lemma {:induction false} TicksAreSound(step: NiceStep, k: int, end: int, room: nat, project: int -> Option<real>)
    requires step.Positive()
    ensures Sound(TicksFrom(step, k, end, room, project), step, Boundary(step, k), end, project)
    decreases room
  {
    if room > 0 && Boundary(step, k) <= end {
      TicksAreSound(step, k + 1, end, room - 1, project);
      BoundariesAscend(step, k, k + 1);
      SoundCons(TicksFrom(step, k + 1, end, room - 1, project), step, k, Boundary(step, k), Boundary(step, k + 1),
                end, project);
    }
  }

  lemma {:induction false} BoundaryIsListed(step: NiceStep, k: int, end: int, room: nat, project: int -> Option<real>,
                                            j: int)
    requires step.Positive() && k <= j < k + room && Boundary(step, j) <= end && project(Boundary(step, j)).Some?
    ensures Tick(project(Boundary(step, j)).value, Boundary(step, j)) in TicksFrom(step, k, end, room, project)
    decreases room
  {
    if k < j {
      BoundariesAscend(step, k, j);
      BoundaryIsListed(step, k + 1, end, room - 1, project, j);
    }
  }

  lemma {:induction false} BeyondIsNotListed(step: NiceStep, k: int, end: int, room: nat,
                                             project: int -> Option<real>, j: int, x: real)
    requires step.Positive() && k + room <= j
    ensures Tick(x, Boundary(step, j)) !in TicksFrom(step, k, end, room, project)
    decreases room
  {
    if room > 0 && Boundary(step, k) <= end {
      BoundariesAscend(step, k, j);
      BeyondIsNotListed(step, k + 1, end, room - 1, project, j, x);
    }
  }

  /** Every aligned moment of [start, end] that has a pixel is there, with that pixel. */
  ghost predicate Complete(out: seq<Tick>, step: NiceStep, start: int, end: int, project: int -> Option<real>) {
    forall k | start <= Boundary(step, k) <= end && project(Boundary(step, k)).Some? ::
      Tick(project(Boundary(step, k)).value, Boundary(step, k)) in out
  }

  lemma {:induction false} FromFirst(step: NiceStep, start: int, first: int, k: int)
    requires step.Positive() && Boundary(step, first - 1) < start <= Boundary(step, k)
    ensures first <= k
  {
    if k < first - 1 { BoundariesAscend(step, k, first - 1); }
  }

  /**
   The ticks are aligned moments of [start, end] in order; with a projection that is total, none is
   missing exactly when the boundary after the first 10,000 lies past the end.
   */
  lemma {:induction false} EnumerationIsExact(step: NiceStep, start: int, end: int, first: int,
                                              project: int -> Option<real>)
    requires step.Positive() && Boundary(step, first - 1) < start <= Boundary(step, first)
    ensures var out := TicksFrom(step, first, end, 10_000, project);
            && Sound(out, step, start, end, project)
            && (Boundary(step, first + 10_000) > end ==> Complete(out, step, start, end, project))
            && ((forall ts :: project(ts).Some?) ==>
                 (Complete(out, step, start, end, project) <==> Boundary(step, first + 10_000) > end))
  {
    var out := TicksFrom(step, first, end, MAX_TICKS, project);
    var past := first + MAX_TICKS;
    TicksAreSound(step, first, end, MAX_TICKS, project);
    if Boundary(step, past) > end {
      forall k | start <= Boundary(step, k) <= end && project(Boundary(step, k)).Some?
        ensures Tick(project(Boundary(step, k)).value, Boundary(step, k)) in out
      {
        FromFirst(step, start, first, k);
        if past < k { BoundariesAscend(step, past, k); }
        BoundaryIsListed(step, first, end, MAX_TICKS, project, k);
      }
    } else if forall ts :: project(ts).Some? {
      BoundariesAscend(step, first, past);
      BeyondIsNotListed(step, first, end, MAX_TICKS, project, past, project(Boundary(step, past)).value);
    }
  }
}
