/**
 Calendar stepping of recurring schedules.  Instants are microseconds since 1 January of year 1 in
 the proleptic Gregorian calendar, read in UTC, at the resolution of `timestamptz`.
 */
module Calendar {
  type Instant = nat

  const SECOND: nat := 1_000_000
  const DAY: nat := 86_400_000_000

  datatype Interval = ONCE | DAILY | WEEKLY | MONTHLY

  datatype Date = Date(year: nat, month: nat, day: nat) {
    predicate Valid() {
      1 <= year && 1 <= month <= 12 && 1 <= day <= DaysInMonth(year, month)
    }

    // Position of the calendar month on the axis of all months.
    function MonthIndex(): int {
      12 * year + month - 1
    }
  }

  predicate Leap(year: nat) {
    year % 4 == 0 && (year % 100 != 0 || year % 400 == 0)
  }

  function DaysInMonth(year: nat, month: nat): (n: nat)
    ensures 28 <= n <= 31
  {
    if month == 2 then if Leap(year) then 29 else 28
    else if month == 4 || month == 6 || month == 9 || month == 11 then 30
    else 31
  }

  // Days of `year` that precede the first day of `month`; month 13 gives the length of the year.
  function MonthStart(year: nat, month: nat): nat
    requires 1 <= month
  {
    if month == 1 then 0 else MonthStart(year, month - 1) + DaysInMonth(year, month - 1)
  }

  function DaysInYear(year: nat): nat {
    MonthStart(year, 13)
  }

  function YearStart(year: nat): nat
    requires 1 <= year
  {
    if year == 1 then 0 else YearStart(year - 1) + DaysInYear(year - 1)
  }

  // Day number of a date, counted from 0 for 1 January of year 1.
  function ToDays(date: Date): nat
    requires date.Valid()
  {
    YearStart(date.year) + MonthStart(date.year, date.month) + date.day - 1
  }

  // The date `rest` days after the first of `month`.
  function FromMonth(year: nat, month: nat, rest: nat): Date
    requires 1 <= month <= 12
    decreases 12 - month
  {
    if rest < DaysInMonth(year, month) || month == 12 then Date(year, month, rest + 1)
    else FromMonth(year, month + 1, rest - DaysInMonth(year, month))
  }

  // The date `rest` days after the first of `year`.
  function FromYear(year: nat, rest: nat): Date
    decreases rest
  {
    assert DaysInYear(year) >= 1 by { YearIsNotEmpty(year); }
    if rest < DaysInYear(year) then FromMonth(year, 1, rest)
    else FromYear(year + 1, rest - DaysInYear(year))
  }

  function FromDays(days: nat): Date {
    FromYear(1, days)
  }

  // `date + interval '1 month'`: the same day of the next month, clamped to that month's length.
  function PlusMonth(date: Date): Date
    requires date.Valid()
  {
    var year := if date.month == 12 then date.year + 1 else date.year;
    var month := if date.month == 12 then 1 else date.month + 1;
    var last := DaysInMonth(year, month);
    Date(year, month, if date.day <= last then date.day else last)
  }

  // `next_run_at + interval STEP[kind]`.
  function NextRun(kind: Interval, at: Instant): (next: Instant)
  {
    match kind
    case ONCE => at
    case DAILY => at + DAY
    case WEEKLY => at + 7 * DAY
    case MONTHLY => NextMonthDay(at / DAY) * DAY + at % DAY
  }

  function NextMonthDay(days: nat): nat {
    FromDaysIsValid(days);
    ToDays(PlusMonth(FromDays(days)))
  }

  // The date of the k-th run of a monthly schedule that starts on `date`.
  function Chain(date: Date, k: nat): (r: Date)
    requires date.Valid()
    ensures r.Valid()
  {
    if k == 0 then date else PlusMonth(Chain(date, k - 1))
  }

  lemma {:induction false} YearIsNotEmpty(year: nat)
    ensures DaysInYear(year) >= 1
  {
    assert DaysInYear(year) == MonthStart(year, 12) + DaysInMonth(year, 12);
  }

  lemma {:induction false} FromMonthIsExact(year: nat, month: nat, rest: nat)
    requires 1 <= year && 1 <= month <= 12
    requires MonthStart(year, month) + rest < DaysInYear(year)
    ensures FromMonth(year, month, rest).Valid()
    ensures FromMonth(year, month, rest).year == year
    ensures ToDays(FromMonth(year, month, rest)) == YearStart(year) + MonthStart(year, month) + rest
    decreases 12 - month
  {
    if rest < DaysInMonth(year, month) {
    } else {
      assert MonthStart(year, month + 1) == MonthStart(year, month) + DaysInMonth(year, month);
      if month < 12 {
        FromMonthIsExact(year, month + 1, rest - DaysInMonth(year, month));
      }
    }
  }

  lemma YearFollows(year: nat)
    requires 1 <= year
    ensures YearStart(year + 1) == YearStart(year) + DaysInYear(year)
  {
  }

  lemma WithinYear(year: nat, rest: nat)
    requires 1 <= year && rest < DaysInYear(year)
    ensures FromYear(year, rest) == FromMonth(year, 1, rest) && FromYear(year, rest).Valid()
    ensures ToDays(FromYear(year, rest)) == YearStart(year) + rest
  {
    FromMonthIsExact(year, 1, rest);
  }

  lemma BeyondYear(year: nat, rest: nat)
    requires rest >= DaysInYear(year)
    ensures DaysInYear(year) >= 1 && FromYear(year, rest) == FromYear(year + 1, rest - DaysInYear(year))
  {
    YearIsNotEmpty(year);
  }

  // Where a count of days from the first of a year leads.
  predicate Exact(year: nat, rest: nat)
    requires 1 <= year
  {
    FromYear(year, rest).Valid() && ToDays(FromYear(year, rest)) == YearStart(year) + rest
  }

  lemma ExactBeyond(year: nat, rest: nat)
    requires 1 <= year && rest >= DaysInYear(year) && Exact(year + 1, rest - DaysInYear(year))
    ensures Exact(year, rest)
  {
    BeyondYear(year, rest);
    YearFollows(year);
  }

  lemma {:induction false} FromYearIsExact(year: nat, rest: nat)
    requires 1 <= year
    ensures Exact(year, rest)
    decreases rest
  {
    if rest < DaysInYear(year) {
      WithinYear(year, rest);
    } else {
      YearIsNotEmpty(year);
      FromYearIsExact(year + 1, rest - DaysInYear(year));
      ExactBeyond(year, rest);
    }
  }

  lemma FromDaysIsValid(days: nat)
    ensures FromDays(days).Valid()
    ensures ToDays(FromDays(days)) == days
  {
    FromYearIsExact(1, days);
  }

  // One month later is the same day of the next month, or that month's last day when it has no such day;
  // that is between 28 and 31 days later.
  lemma PlusMonthAdvances(date: Date)
    requires date.Valid()
    ensures PlusMonth(date).Valid() && PlusMonth(date).MonthIndex() == date.MonthIndex() + 1
    ensures PlusMonth(date).day == date.day
            || (PlusMonth(date).day < date.day
                && PlusMonth(date).day == DaysInMonth(PlusMonth(date).year, PlusMonth(date).month))
    ensures ToDays(date) + 28 <= ToDays(PlusMonth(date)) <= ToDays(date) + 31
  {
    var next := PlusMonth(date);
    if date.month == 12 {
      assert YearStart(next.year) == YearStart(date.year) + DaysInYear(date.year);
      assert DaysInYear(date.year) == MonthStart(date.year, 12) + DaysInMonth(date.year, 12);
    }
  }

  lemma NextMonthDayAdvances(days: nat)
    ensures days + 28 <= NextMonthDay(days) <= days + 31
  {
    FromDaysIsValid(days);
    PlusMonthAdvances(FromDays(days));
  }

  lemma SameTimeOfDay(days: nat, at: Instant)
    ensures (days * DAY + at % DAY) % DAY == at % DAY
  {
  }

  lemma LaterSameTime(at: Instant, days: nat)
    ensures (at + days * DAY) % DAY == at % DAY
  {
  }

  // Every step of a recurring schedule moves it strictly forward, by a day, a week, or 28 to 31 days, and
  // leaves the time of day alone.
  lemma NextRunAdvances(kind: Interval, at: Instant)
    requires kind != ONCE
    ensures kind == DAILY ==> NextRun(kind, at) == at + DAY
    ensures kind == WEEKLY ==> NextRun(kind, at) == at + 7 * DAY
    ensures NextRun(kind, at) % DAY == at % DAY
    ensures kind == MONTHLY ==> at + 28 * DAY <= NextRun(kind, at) <= at + 31 * DAY
  {
    LaterSameTime(at, 1);
    LaterSameTime(at, 7);
    if kind == MONTHLY {
      NextMonthDayAdvances(at / DAY);
      SameTimeOfDay(NextMonthDay(at / DAY), at);
      assert at == at / DAY * DAY + at % DAY;
    }
  }

  // A monthly chain visits every calendar month from the first on, each exactly once, in order,
  // and its day of the month never rises.
  lemma {:induction false} ChainVisitsEveryMonth(date: Date, k: nat)
    requires date.Valid()
    ensures Chain(date, k).MonthIndex() == date.MonthIndex() + k
    ensures Chain(date, k).day <= date.day
    ensures date.day <= 28 ==> Chain(date, k).day == date.day
    ensures ToDays(date) + 28 * k <= ToDays(Chain(date, k)) <= ToDays(date) + 31 * k
  {
    if k > 0 {
      ChainVisitsEveryMonth(date, k - 1);
      PlusMonthAdvances(Chain(date, k - 1));
    }
  }

  // A monthly transfer is meant to stay on its day of the month.  It does so for
  // ever exactly when it starts on a day that every month has.
  lemma MonthlyKeepsItsDayIff(date: Date)
    requires date.Valid()
    ensures (forall k: nat :: Chain(date, k).day == date.day) <==> date.day <= 28
  {
    if date.day <= 28 {
      forall k: nat ensures Chain(date, k).day == date.day {
        ChainVisitsEveryMonth(date, k);
      }
    } else {
      var k := CommonFebruary(date);
      assert Chain(date, k).day != date.day;
    }
  }

  lemma SameMonth(a: Date, b: Date)
    requires a.Valid() && b.Valid() && a.MonthIndex() == b.MonthIndex()
    ensures a.year == b.year && a.month == b.month
  {
  }

  // Every chain reaches the February of a common year.
  lemma CommonFebruary(date: Date) returns (k: nat)
    requires date.Valid()
    ensures Chain(date, k).day <= 28
  {
    var ahead := if Leap(date.year + 1) then 2 else 1;
    LeapYearsAreApart(date.year + 1);
    k := 12 * ahead + 2 - date.month;
    ChainVisitsEveryMonth(date, k);
    var feb := Chain(date, k);
    SameMonth(feb, Date(date.year + ahead, 2, 1));
  }

  lemma LeapYearsAreApart(year: nat)
    ensures Leap(year) ==> !Leap(year + 1)
  {
  }

  // Two runs after 31 January the transfer goes out on 28 March.
  lemma MonthlyDriftsFromTheEndOfJanuary()
    ensures Chain(Date(2026, 1, 31), 2) == Date(2026, 3, 28)
  {
    assert Chain(Date(2026, 1, 31), 1) == Date(2026, 2, 28);
  }
}
