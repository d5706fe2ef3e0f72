/** The current month and the current week, computed from a UTC `now`. */
module DateHelpers {
  import opened Wrappers

  /** Microseconds in a day. */
  const DayLength: nat := 86_400_000_000

  /** A naive UTC `datetime`: the calendar date and the microseconds since midnight. */
  datatype DateTime = DateTime(year: int, month: int, day: int, time: nat)

  predicate IsLeap(y: int) {
    y % 4 == 0 && (y % 100 != 0 || y % 400 == 0)
  }

  function DaysInMonth(y: int, m: int): (r: int)
    ensures 28 <= r <= 31
  {
    if m == 2 then (if IsLeap(y) then 29 else 28)
    else if m == 4 || m == 6 || m == 9 || m == 11 then 30
    else 31
  }

  /** `datetime.MINYEAR` and `datetime.MAXYEAR`. */
  const MinYear := 1
  const MaxYear := 9999

  /** A date `datetime` would accept. */
  predicate Valid(dt: DateTime) {
    MinYear <= dt.year <= MaxYear && 1 <= dt.month <= 12 && 1 <= dt.day <= DaysInMonth(dt.year, dt.month)
    && dt.time < DayLength
  }

  /** The exception a `datetime` constructor or `datetime` arithmetic raises. */
  datatype DateError = ValueError(message: string) | OverflowError(message: string)

  /** What `datetime(10000, 1, 1)` raises. */
  const YearOutOfRange := ValueError("year 10000 is out of range")

  /** What adding a `timedelta` past 9999-12-31 raises. */
  const DateOutOfRange := OverflowError("date value out of range")

  /** The order of `datetime` values: by date, then by time of day. */
  predicate Before(a: DateTime, b: DateTime) {
    a.year < b.year
    || (a.year == b.year && a.month < b.month)
    || (a.year == b.year && a.month == b.month && a.day < b.day)
    || (a.year == b.year && a.month == b.month && a.day == b.day && a.time < b.time)
  }

  /** `get_current_month_range`: midnight on the first of this month, and midnight on the first
      of the next month, December rolling over to January of the next year; in December of the
      last year `datetime` accepts, that January cannot be built. */
  function MonthRange(now: DateTime): (r: Result<(DateTime, DateTime), DateError>)
    requires Valid(now)
    ensures r.Failure? <==> now.year == MaxYear && now.month == 12
    ensures r.Failure? ==> r.error == YearOutOfRange
    ensures r.Success? ==>
      var (start, end) := r.value;
      && Valid(start) && Valid(end)
      && start == DateTime(now.year, now.month, 1, 0)
      && end.day == 1 && end.time == 0
      && (now.month == 12 ==> end.year == now.year + 1 && end.month == 1)
      && (now.month < 12 ==> end.year == now.year && end.month == now.month + 1)
      && !Before(now, start) && Before(now, end)
      && Before(start, end)
  {
    var start := DateTime(now.year, now.month, 1, 0);
    if now.month == 12 then
      if now.year + 1 > MaxYear then Failure(YearOutOfRange)
      else Success((start, DateTime(now.year + 1, 1, 1, 0)))
    else Success((start, DateTime(now.year, now.month + 1, 1, 0)))
  }

  /** A moment as a day number (0 is 1 January 1970) and the microseconds since midnight. */
  datatype Instant = Instant(days: int, time: nat)

  /** The day number of the first of a month in the proleptic Gregorian calendar, counting
      years from March so that the leap day comes last. */
  function MonthStart(y: int, m: int): int {
    var y' := if m <= 2 then y - 1 else y;
    var era := y' / 400;
    var yoe := y' - era * 400;
    var doy := (153 * (if m > 2 then m - 3 else m + 9) + 2) / 5;
    var doe := yoe * 365 + yoe / 4 - yoe / 100 + doy;
    era * 146097 + doe - 719468
  }

  /** The day number of a date. */
  function DaysFromCivil(y: int, m: int, d: int): int {
    MonthStart(y, m) + d - 1
  }

  function ToInstant(dt: DateTime): Instant {
    Instant(DaysFromCivil(dt.year, dt.month, dt.day), dt.time)
  }

  /** `datetime.weekday()`: Monday is 0; 1 January 1970 was a Thursday. */
  function Weekday(days: int): (r: int)
    ensures 0 <= r < 7
  {
    (days + 3) % 7
  }

  /** The day number of 9999-12-31, the last date `datetime` accepts. */
  const LastDay := 2932896

  /** `get_current_week_range`: `now` moved back to this week's Monday, keeping the time of day,
      and seven days after that; an end past the last date overflows. */
  function WeekRange(now: DateTime): (r: Result<(Instant, Instant), DateError>)
    ensures var n := ToInstant(now).days;
      r.Failure? <==> n - Weekday(n) + 7 > LastDay
    ensures r.Failure? ==> r.error == DateOutOfRange
    ensures r.Success? ==>
      var (start, end) := r.value;
      && Weekday(start.days) == 0
      && start.time == now.time && end.time == now.time
      && end.days == start.days + 7
      && start.days <= ToInstant(now).days < end.days
      && ToInstant(now).days - start.days == Weekday(ToInstant(now).days)
  {
    var n := ToInstant(now);
    var start := Instant(n.days - Weekday(n.days), n.time);
    if start.days + 7 > LastDay then Failure(DateOutOfRange)
    else Success((start, Instant(start.days + 7, start.time)))
  }

  /** The day numbering starts on 1 January 1970, a Thursday. */
  lemma Epoch()
    ensures DaysFromCivil(1970, 1, 1) == 0 && Weekday(0) == 3
  {
  }

  /** The last date `datetime` accepts, 9999-12-31, is day `LastDay`, a Friday; the Monday of
      its week is 9999-12-27. */
  lemma LastDayIsLastDate()
    ensures DaysFromCivil(MaxYear, 12, DaysInMonth(MaxYear, 12)) == LastDay && Weekday(LastDay) == 4
    ensures DaysFromCivil(MaxYear, 12, 27) == LastDay - 4
  {
  }

  /** The week range overflows exactly from the Monday 9999-12-27 on: the Monday of that week
      plus seven days is past the last date, and the Monday of any earlier week is not. */
  lemma WeekRangeOverflow(now: DateTime)
    ensures WeekRange(now).Failure? <==> ToInstant(now).days >= DaysFromCivil(MaxYear, 12, 27)
  {
    LastDayIsLastDate();
    var n := ToInstant(now).days;
    var q := (n + 3) / 7;
    assert n - Weekday(n) == 7 * q - 3;
    assert LastDay - 4 == 7 * 418985 - 3;
  }

  /** The day after a given day is the next weekday. */
  lemma WeekdayNext(days: int)
    ensures Weekday(days + 1) == (Weekday(days) + 1) % 7
  {
    var q := (days + 3) / 7;
    var r := (days + 3) % 7;
    assert days + 4 == 7 * q + (r + 1);
    if r < 6 {
      assert (days + 4) % 7 == r + 1;
    } else {
      assert days + 4 == 7 * (q + 1);
    }
  }

  /** Within a month, the next date is the next day number, and the next weekday. */
  lemma NextDay(y: int, m: int, d: int)
    requires 1 <= m <= 12 && 1 <= d < DaysInMonth(y, m)
    ensures DaysFromCivil(y, m, d + 1) == DaysFromCivil(y, m, d) + 1
    ensures Weekday(DaysFromCivil(y, m, d + 1)) == (Weekday(DaysFromCivil(y, m, d)) + 1) % 7
  {
    WeekdayNext(DaysFromCivil(y, m, d));
  }

  /** The first of a month follows the last day of the month before it. */
  lemma NextMonth(y: int, m: int)
    requires 1 <= m < 12
    ensures DaysFromCivil(y, m + 1, 1) == DaysFromCivil(y, m, DaysInMonth(y, m)) + 1
  {
    if m == 2 {
      MarchFollowsFebruary(y);
    }
  }

  /** 1 January follows 31 December of the year before. */
  lemma NextYear(y: int)
    ensures DaysFromCivil(y + 1, 1, 1) == DaysFromCivil(y, 12, DaysInMonth(y, 12)) + 1
  {
  }

  /** The counted years begin in March, so February closes one of them: it ends 365 days after
      the March before it, or 366 when it has a leap day. */
  lemma MarchFollowsFebruary(y: int)
    ensures MonthStart(y, 3) == MonthStart(y, 2) + DaysInMonth(y, 2)
  {
    var era := (y - 1) / 400;
    var yoe := (y - 1) % 400;
    EraOf(y - 1, era, yoe);
    var base := era * 146097 - 719468;
    var feb := base + yoe * 365 + (yoe / 4 - yoe / 100) + 337;
    assert MonthStart(y, 2) == feb;
    if yoe < 399 {
      EraOf(y, era, yoe + 1);
      var leap := if IsLeap(y) then 1 else 0;
      LeapInEra(y, yoe + 1);
      assert (yoe + 1) / 4 - (yoe + 1) / 100 == yoe / 4 - yoe / 100 + leap;
      assert MonthStart(y, 3) == base + (yoe + 1) * 365 + ((yoe + 1) / 4 - (yoe + 1) / 100);
      assert DaysInMonth(y, 2) == 28 + leap;
    } else {
      EraOf(y, era + 1, 0);
      ModOfEra(y);
      assert IsLeap(y);
      assert feb == base + 145731 + 337;
      assert MonthStart(y, 3) == base + 146097;
    }
  }

  /** A year split into its 400-year era and its place in that era. */
  lemma EraOf(y: int, era: int, n: int)
    requires y == 400 * era + n && 0 <= n < 400
    ensures y / 400 == era && y % 400 == n
  {
  }

  /** Within a 400-year era, the year `n` of the era (1 to 399) adds a leap day to the count
      `n / 4 - n / 100` exactly when its year is a leap year. */
  lemma LeapInEra(y: int, n: int)
    requires 1 <= n < 400 && y % 400 == n
    ensures n / 4 - n / 100 == (n - 1) / 4 - (n - 1) / 100 + (if IsLeap(y) then 1 else 0)
  {
    StepOver(n);
    ModOfEra(y);
  }

  /** Divisibility by 4 and by 100 is decided by the year within its 400-year era. */
  lemma ModOfEra(y: int)
    ensures y % 4 == (y % 400) % 4 && y % 100 == (y % 400) % 100
  {
    var e := y / 400;
    var n := y % 400;
    assert y == 400 * e + n;
    Mod4Of(y, 100 * e + n / 4, n % 4);
    Mod100Of(y, 4 * e + n / 100, n % 100);
  }

  /** The remainder by 4 of `4 * q + r`, for `r` from 0 to 3, is `r`. */
  lemma Mod4Of(y: int, q: int, r: int)
    requires y == 4 * q + r && 0 <= r < 4
    ensures y % 4 == r
  {
  }

  /** The remainder by 100 of `100 * q + r`, for `r` from 0 to 99, is `r`. */
  lemma Mod100Of(y: int, q: int, r: int)
    requires y == 100 * q + r && 0 <= r < 100
    ensures y % 100 == r
  {
  }

  /** Counting up by one passes a multiple of 4 (of 100) exactly when it lands on one. */
  lemma StepOver(n: int)
    ensures n / 4 == (n - 1) / 4 + (if n % 4 == 0 then 1 else 0)
    ensures n / 100 == (n - 1) / 100 + (if n % 100 == 0 then 1 else 0)
  {
  }
}
