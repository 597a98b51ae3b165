/** UTC calendar arithmetic of recurring payments (standing_orders.go) on the Gregorian calendar. */
module Calendar {
  import opened Decimal

  // ----- months and days -----

  predicate IsLeap(year: nat) {
    year % 4 == 0 && (year % 100 != 0 || year % 400 == 0)
  }

  /** The number of days of a month; months are counted from January of year 0. */
  function MonthLength(month: nat): (days: nat)
    ensures 28 <= days <= 31
  {
    DaysIn(month % 12, IsLeap(month / 12))
  }

  /** The days of a month of the year, counted from 0. */
  function DaysIn(month: nat, leap: bool): (days: nat)
    ensures 28 <= days <= 31
  {
    match month
    case 1 => if leap then 29 else 28
    case 3 => 30
    case 5 => 30
    case 8 => 30
    case 10 => 30
    case _ => 31
  }

  /** The day number of the first day of a month. */
  function MonthStart(month: nat): nat {
    if month == 0 then 0 else MonthStart(month - 1) + MonthLength(month - 1)
  }

  /** The months of a year, January being the first. */
  lemma {:induction false} MonthOfYear(year: nat, month: nat)
    requires 1 <= month <= 12
    ensures MonthLength(12 * year + month - 1)
         == if month == 2 then (if year % 400 == 0 || (year % 4 == 0 && year % 100 != 0) then 29 else 28)
            else if month == 4 || month == 6 || month == 9 || month == 11 then 30 else 31
  {
    LengthOf(year, month - 1);
    HundredthIsFourth(year);
  }

  lemma LengthOf(year: nat, k: nat)
    requires k < 12
    ensures MonthLength(12 * year + k) == DaysIn(k, IsLeap(year))
  {
    hide IsLeap, DaysIn;
    YearAndMonth(year, k);
  }

  lemma YearAndMonth(year: nat, k: nat)
    requires k < 12
    ensures (12 * year + k) / 12 == year && (12 * year + k) % 12 == k
  {
  }

  /** The Gregorian rule in closed form: 365 days a year, and one for every fourth year, but not every hundredth, yet every
      four hundredth. */
  lemma {:induction false} YearStart(year: nat)
    ensures MonthStart(12 * year) == 365 * year + (year + 3) / 4 - (year + 99) / 100 + (year + 399) / 400
  {
    if year > 0 {
      var y: nat := year - 1;
      YearStart(y);
      YearAdds(y);
      LeapCounts(y);
    }
  }

  lemma LeapCounts(y: nat)
    ensures (y + 1 + 3) / 4 == (y + 3) / 4 + if y % 4 == 0 then 1 else 0
    ensures (y + 1 + 99) / 100 == (y + 99) / 100 + if y % 100 == 0 then 1 else 0
    ensures (y + 1 + 399) / 400 == (y + 399) / 400 + if y % 400 == 0 then 1 else 0
    ensures y % 100 == 0 ==> y % 4 == 0
    ensures y % 400 == 0 ==> y % 100 == 0
  {
    FourthYear(y);
    HundredthYear(y);
    FourHundredthYear(y);
    HundredthIsFourth(y);
  }

  lemma FourthYear(y: nat)
    ensures (y + 4) / 4 == (y + 3) / 4 + if y % 4 == 0 then 1 else 0
  {
  }

  lemma HundredthYear(y: nat)
    ensures (y + 100) / 100 == (y + 99) / 100 + if y % 100 == 0 then 1 else 0
  {
    var q, r := y / 100, y % 100;
    assert y == 100 * q + r;
    if r == 0 {
      assert (100 * q + 99) / 100 == q;
    } else {
      assert (100 * (q + 1) + (r - 1)) / 100 == q + 1;
    }
  }

  lemma FourHundredthYear(y: nat)
    ensures (y + 400) / 400 == (y + 399) / 400 + if y % 400 == 0 then 1 else 0
  {
    var q, r := y / 400, y % 400;
    assert y == 400 * q + r;
    if r == 0 {
      assert (400 * q + 399) / 400 == q;
    } else {
      assert (400 * (q + 1) + (r - 1)) / 400 == q + 1;
    }
  }

  lemma HundredthIsFourth(y: nat)
    ensures y % 100 == 0 ==> y % 4 == 0
    ensures y % 400 == 0 ==> y % 100 == 0
  {
    assert y == 100 * (y / 100) + y % 100 && y == 400 * (y / 400) + y % 400;
    assert y % 100 == 0 ==> y == 4 * (25 * (y / 100));
    assert y % 400 == 0 ==> y == 100 * (4 * (y / 400));
  }

  lemma YearAdds(year: nat)
    ensures MonthStart(12 * (year + 1)) == MonthStart(12 * year) + 365 + if IsLeap(year) then 1 else 0
  {
    hide MonthStart, MonthLength, IsLeap, DaysIn;
    TwelveMonths(12 * year);
    YearLengths(year, IsLeap(year));
    assert 12 * year + 12 == 12 * (year + 1);
  }

  lemma TwelveMonths(m: nat)
    ensures MonthStart(m + 12) == MonthStart(m)
      + (MonthLength(m) + MonthLength(m + 1) + MonthLength(m + 2)) + (MonthLength(m + 3) + MonthLength(m + 4) + MonthLength(m + 5))
      + (MonthLength(m + 6) + MonthLength(m + 7) + MonthLength(m + 8)) + (MonthLength(m + 9) + MonthLength(m + 10) + MonthLength(m + 11))
  {
    hide MonthStart, MonthLength;
    QuarterAdds(m, m + 1, m + 2, m + 3);
    QuarterAdds(m + 3, m + 4, m + 5, m + 6);
    QuarterAdds(m + 6, m + 7, m + 8, m + 9);
    QuarterAdds(m + 9, m + 10, m + 11, m + 12);
  }

  lemma YearLengths(year: nat, leap: bool)
    requires leap == IsLeap(year)
    ensures var m := 12 * year;
      && MonthLength(m) + MonthLength(m + 1) + MonthLength(m + 2) == 90 + (if leap then 1 else 0)
      && MonthLength(m + 3) + MonthLength(m + 4) + MonthLength(m + 5) == 91
      && MonthLength(m + 6) + MonthLength(m + 7) + MonthLength(m + 8) == 92
      && MonthLength(m + 9) + MonthLength(m + 10) + MonthLength(m + 11) == 92
  {
    hide MonthLength, IsLeap;
    LengthOf(year, 0);
    LengthOf(year, 1);
    LengthOf(year, 2);
    LengthOf(year, 3);
    LengthOf(year, 4);
    LengthOf(year, 5);
    LengthOf(year, 6);
    LengthOf(year, 7);
    LengthOf(year, 8);
    LengthOf(year, 9);
    LengthOf(year, 10);
    LengthOf(year, 11);
  }

  lemma QuarterAdds(a: nat, b: nat, c: nat, d: nat)
    requires b == a + 1 && c == a + 2 && d == a + 3
    ensures MonthStart(d) == MonthStart(a) + MonthLength(a) + MonthLength(b) + MonthLength(c)
  {
    hide MonthLength;
    assert MonthStart(d) == MonthStart(c) + MonthLength(c);
    assert MonthStart(c) == MonthStart(b) + MonthLength(b);
  }

  lemma {:induction false} MonthStartMonotone(m: nat, n: nat)
    requires m <= n
    ensures MonthStart(m) + 28 * (n - m) <= MonthStart(n)
  {
    if m < n {
      MonthStartMonotone(m, n - 1);
    }
  }

  /** The month that contains a day number, searched upwards from a month that does not start after it. */
  function MonthFrom(day: nat, month: nat): (m: nat)
    requires MonthStart(month) <= day
    ensures MonthStart(m) <= day < MonthStart(m + 1)
    decreases day - MonthStart(month)
  {
    if day < MonthStart(month + 1) then month else MonthFrom(day, month + 1)
  }

  function MonthOf(day: nat): nat {
    MonthFrom(day, 0)
  }

  /** The day of the month, from 1. */
  function DayOf(day: nat): (d: nat)
    ensures 1 <= d <= MonthLength(MonthOf(day))
  {
    day - MonthStart(MonthOf(day)) + 1
  }

  /** Decomposition is unique. */
  lemma {:induction false} InMonth(day: nat, month: nat)
    requires MonthStart(month) <= day < MonthStart(month) + MonthLength(month)
    ensures MonthOf(day) == month && DayOf(day) == day - MonthStart(month) + 1
  {
    var m := MonthOf(day);
    if m < month {
      MonthStartMonotone(m + 1, month);
    } else if month < m {
      MonthStartMonotone(month + 1, m);
    }
  }

  // ----- instants -----

  const DAY_NANOS := 86_400_000_000_000

  /** A UTC instant: a day number and the time of day. */
  datatype Instant = Instant(day: nat, nanos: nat)

  predicate Before(a: Instant, b: Instant) {
    a.day < b.day || (a.day == b.day && a.nanos < b.nanos)
  }

  /** time.Date with a normalised month count: day 1 is the first of the month, day 0 the last of the month before. */
  function Date(month: nat, day: nat, nanos: nat): Instant
    requires MonthStart(month) + day >= 1
  {
    Instant(MonthStart(month) + day - 1, nanos)
  }

  datatype Frequency = Weekly | Monthly | Quarterly | Yearly

  function Min(a: nat, b: nat): nat {
    if a <= b then a else b
  }

  function AddMonthsClamped(current: Instant, months: nat): Instant {
    var targetMonthStart := Date(MonthOf(current.day) + months, 1, current.nanos);
    var nextMonth := MonthOf(targetMonthStart.day) + 1;
    var lastDay := DayOf(Date(nextMonth, 0, current.nanos).day);
    var day := Min(DayOf(current.day), lastDay);
    Date(MonthOf(targetMonthStart.day), day, current.nanos)
  }

  function MonthsOf(frequency: Frequency): nat {
    match frequency
    case Monthly => 1
    case Quarterly => 3
    case _ => 12
  }

  function Next(current: Instant, frequency: Frequency): Instant {
    if frequency.Weekly? then Instant(current.day + 7, current.nanos)
    else AddMonthsClamped(current, MonthsOf(frequency))
  }

  lemma DateInMonth(month: nat, day: nat, nanos: nat)
    requires 1 <= day <= MonthLength(month)
    ensures MonthOf(Date(month, day, nanos).day) == month && DayOf(Date(month, day, nanos).day) == day
  {
    InMonth(MonthStart(month) + day - 1, month);
  }

  /** Day 0 of the next month is the last day of this one. */
  lemma DayZero(month: nat, nanos: nat)
    ensures Date(month + 1, 0, nanos) == Date(month, MonthLength(month), nanos)
  {
  }

  /** The target month, the same day or its last one, the same time of day. */
  lemma {:induction false} AddMonthsMeaning(current: Instant, months: nat)
    ensures var next := AddMonthsClamped(current, months);
      && MonthOf(next.day) == MonthOf(current.day) + months
      && DayOf(next.day) == Min(DayOf(current.day), MonthLength(MonthOf(current.day) + months))
      && next.nanos == current.nanos
  {
    AddMonthsIsDate(current, months);
    var m := MonthOf(current.day) + months;
    DateInMonth(m, Min(DayOf(current.day), MonthLength(m)), current.nanos);
  }

  lemma AddMonthsIsDate(current: Instant, months: nat)
    ensures var m := MonthOf(current.day) + months;
      AddMonthsClamped(current, months) == Date(m, Min(DayOf(current.day), MonthLength(m)), current.nanos)
  {
    var m, nanos := MonthOf(current.day) + months, current.nanos;
    DateInMonth(m, 1, nanos);
    LastDayOf(m, nanos);
  }

  lemma LastDayOf(month: nat, nanos: nat)
    ensures DayOf(Date(month + 1, 0, nanos).day) == MonthLength(month)
  {
    DayZero(month, nanos);
    DateInMonth(month, MonthLength(month), nanos);
  }

  /** Successive executions strictly increase: 7 days apart weekly, 28 to 31 days apart monthly. */
  lemma {:induction false} NextIsLater(current: Instant, frequency: Frequency)
    ensures Before(current, Next(current, frequency)) && Next(current, frequency).nanos == current.nanos
    ensures frequency.Weekly? ==> Next(current, frequency).day == current.day + 7
    ensures frequency.Monthly? ==> 28 <= Next(current, frequency).day - current.day <= 31
    ensures frequency.Monthly? ==> MonthOf(Next(current, frequency).day) == MonthOf(current.day) + 1
    ensures frequency.Quarterly? ==> MonthOf(Next(current, frequency).day) == MonthOf(current.day) + 3
    ensures frequency.Yearly? ==> MonthOf(Next(current, frequency).day) == MonthOf(current.day) + 12
    ensures Next(current, frequency).day >= current.day + 7
  {
    if !frequency.Weekly? {
      MonthsAreLater(current, MonthsOf(frequency));
      AddMonthsMeaning(current, MonthsOf(frequency));
    }
  }

  lemma MonthsAreLater(current: Instant, months: nat)
    requires months >= 1
    ensures AddMonthsClamped(current, months).nanos == current.nanos
    ensures 28 <= AddMonthsClamped(current, months).day - current.day
    ensures months == 1 ==> AddMonthsClamped(current, months).day - current.day <= 31
  {
    AddMonthsMeaning(current, months);
    DaysApart(current.day, AddMonthsClamped(current, months).day, months);
  }

  /** Days of different months, the later one on the same day of the month or on the last one. */
  lemma DaysApart(a: nat, b: nat, months: nat)
    requires months >= 1 && MonthOf(b) == MonthOf(a) + months
    requires DayOf(b) == Min(DayOf(a), MonthLength(MonthOf(b)))
    ensures a + 28 <= b && (months == 1 ==> b <= a + 31)
  {
    var m, n := MonthOf(a), MonthOf(b);
    var x, y := DayOf(a), DayOf(b);
    assert a == MonthStart(m) + x - 1 && b == MonthStart(n) + y - 1;
    MonthStartMonotone(m + 1, n);
    assert MonthStart(m + 1) == MonthStart(m) + MonthLength(m);
  }

  // ----- RFC 3339 -----

  function ClockText(second: nat): string {
    Field(second / 3600, 2) + [':'] + (Field(second / 60 % 60, 2) + [':'] + (Field(second % 60, 2) + ['Z']))
  }

  /** YYYY-MM-DDTHH:MM:SSZ. */
  function Rfc3339(day: nat, second: nat): string {
    Field(MonthOf(day) / 12, 4) + ['-']
    + (Field(MonthOf(day) % 12 + 1, 2) + ['-'] + (Field(DayOf(day), 2) + ['T'] + ClockText(second)))
  }

  lemma {:induction false} ClockTextInjective(a: nat, b: nat)
    requires ClockText(a) == ClockText(b)
    ensures a == b
  {
    hide Field;
    var secondsA, secondsB := Field(a % 60, 2) + ['Z'], Field(b % 60, 2) + ['Z'];
    assert secondsA + "" == secondsA && secondsB + "" == secondsB;
    SplitUnique(Field(a / 3600, 2), Field(b / 3600, 2), ':', Field(a / 60 % 60, 2) + [':'] + secondsA,
                Field(b / 60 % 60, 2) + [':'] + secondsB);
    SplitUnique(Field(a / 60 % 60, 2), Field(b / 60 % 60, 2), ':', secondsA, secondsB);
    SplitUnique(Field(a % 60, 2), Field(b % 60, 2), 'Z', "", "");
    FieldInjective(a / 3600, b / 3600, 2);
    FieldInjective(a / 60 % 60, b / 60 % 60, 2);
    FieldInjective(a % 60, b % 60, 2);
    ClockParts(a);
    ClockParts(b);
  }

  lemma ClockParts(second: nat)
    ensures second == second / 3600 * 3600 + second / 60 % 60 * 60 + second % 60
  {
  }

  /** Different seconds are written differently. */
  lemma {:induction false} Rfc3339Injective(day: nat, second: nat, otherDay: nat, otherSecond: nat)
    requires Rfc3339(day, second) == Rfc3339(otherDay, otherSecond)
    ensures day == otherDay && second == otherSecond
  {
    hide MonthOf, DayOf, ClockText, Field;
    var m, n := MonthOf(day), MonthOf(otherDay);
    var restA := Field(DayOf(day), 2) + ['T'] + ClockText(second);
    var restB := Field(DayOf(otherDay), 2) + ['T'] + ClockText(otherSecond);
    SplitUnique(Field(m / 12, 4), Field(n / 12, 4), '-', Field(m % 12 + 1, 2) + ['-'] + restA, Field(n % 12 + 1, 2) + ['-'] + restB);
    SplitUnique(Field(m % 12 + 1, 2), Field(n % 12 + 1, 2), '-', restA, restB);
    SplitUnique(Field(DayOf(day), 2), Field(DayOf(otherDay), 2), 'T', ClockText(second), ClockText(otherSecond));
    FieldInjective(m / 12, n / 12, 4);
    FieldInjective(m % 12 + 1, n % 12 + 1, 2);
    FieldInjective(DayOf(day), DayOf(otherDay), 2);
    ClockTextInjective(second, otherSecond);
    DayFromParts(day);
    DayFromParts(otherDay);
  }

  lemma DayFromParts(day: nat)
    ensures day == MonthStart(MonthOf(day)) + DayOf(day) - 1
  {
  }

  /** The text of a valid date and time of day. */
  lemma {:induction false} Rfc3339OfDate(year: nat, month: nat, day: nat, hour: nat, minute: nat, second: nat)
    requires 1 <= month <= 12 && 1 <= day <= MonthLength(12 * year + month - 1) && minute < 60 && second < 60
    ensures Rfc3339(MonthStart(12 * year + month - 1) + day - 1, 3600 * hour + 60 * minute + second)
         == Field(year, 4) + ['-'] + (Field(month, 2) + ['-'] + (Field(day, 2) + ['T']
            + (Field(hour, 2) + [':'] + (Field(minute, 2) + [':'] + (Field(second, 2) + ['Z'])))))
  {
    hide *;
    var m: nat := 12 * year + month - 1;
    YearAndMonth(year, month - 1);
    ClockTextOf(hour, minute, second);
    DayInMonth(m, year, month, day, 3600 * hour + 60 * minute + second);
  }

  lemma DayInMonth(m: nat, year: nat, month: nat, day: nat, time: nat)
    requires m / 12 == year && m % 12 + 1 == month && 1 <= day <= MonthLength(m)
    ensures Rfc3339(MonthStart(m) + day - 1, time)
         == Field(year, 4) + ['-'] + (Field(month, 2) + ['-'] + (Field(day, 2) + ['T'] + ClockText(time)))
  {
    hide MonthOf, DayOf, Field, ClockText, Rfc3339;
    InMonth(MonthStart(m) + day - 1, m);
    DateText(MonthStart(m) + day - 1, time, m, year, month, day);
  }

  lemma DateText(date: nat, time: nat, m: nat, year: nat, month: nat, day: nat)
    requires MonthOf(date) == m && m / 12 == year && m % 12 + 1 == month && DayOf(date) == day
    ensures Rfc3339(date, time)
         == Field(year, 4) + ['-'] + (Field(month, 2) + ['-'] + (Field(day, 2) + ['T'] + ClockText(time)))
  {
    hide MonthOf, DayOf, Field, ClockText;
  }

  lemma ClockTextOf(hour: nat, minute: nat, second: nat)
    requires minute < 60 && second < 60
    ensures ClockText(3600 * hour + 60 * minute + second)
         == Field(hour, 2) + [':'] + (Field(minute, 2) + [':'] + (Field(second, 2) + ['Z']))
  {
    HourAndMinute(hour, minute, second);
    hide Field;
  }

  lemma HourAndMinute(hour: nat, minute: nat, second: nat)
    requires minute < 60 && second < 60
    ensures var t := 3600 * hour + 60 * minute + second;
      t / 3600 == hour && t / 60 % 60 == minute && t % 60 == second
  {
    var t, n := 3600 * hour + 60 * minute + second, 60 * hour + minute;
    Sixty(n, second);
    Sixty(hour, minute);
    assert t == 60 * n + second;
    SixtySixty(hour, 60 * minute + second);
  }

  lemma Sixty(n: nat, rest: nat)
    requires rest < 60
    ensures (60 * n + rest) / 60 == n && (60 * n + rest) % 60 == rest
  {
  }

  lemma SixtySixty(n: nat, rest: nat)
    requires rest < 3600
    ensures (3600 * n + rest) / 3600 == n
  {
  }

  // ----- many steps -----

  /** The k-th execution. */
  function Execution(start: Instant, frequency: Frequency, k: nat): Instant {
    if k == 0 then start else Next(Execution(start, frequency, k - 1), frequency)
  }

  /** The shortest of the months landed on in steps 1..k, and the start day. */
  function ClampedDay(month: nat, day: nat, step: nat, k: nat): nat {
    if k == 0 then day else Min(ClampedDay(month, day, step, k - 1), MonthLength(month + k * step))
  }

  /** The closed form: the day is clamped by every month landed on so far, once and for all, and never below 28. */
  lemma {:induction false} ExecutionClosedForm(start: Instant, frequency: Frequency, k: nat)
    requires !frequency.Weekly?
    ensures var n := if frequency == Monthly then 1 else if frequency == Quarterly then 3 else 12;
      var m, d := MonthOf(start.day), DayOf(start.day);
      var t := Execution(start, frequency, k);
      && MonthOf(t.day) == m + k * n
      && DayOf(t.day) == ClampedDay(m, d, n, k)
      && t.nanos == start.nanos
      && Min(d, 28) <= DayOf(t.day) <= d
  {
    var at := (i: nat) => Execution(start, frequency, i);
    ClosedForm(at, MonthsOf(frequency), MonthOf(start.day), DayOf(start.day), start.nanos, k);
    ClampedDayBounds(MonthOf(start.day), DayOf(start.day), MonthsOf(frequency), k);
  }

  lemma {:induction false} ClampedDayBounds(month: nat, day: nat, step: nat, k: nat)
    ensures Min(day, 28) <= ClampedDay(month, day, step, k) <= day
  {
    if k > 0 {
      ClampedDayBounds(month, day, step, k - 1);
    }
  }

  predicate MonthsApart(at: nat -> Instant, n: nat, k: nat) {
    at(k + 1) == AddMonthsClamped(at(k), n)
  }

  /** The k-th instant is in the k-th month, on the clamped day. */
  predicate IsClamped(t: Instant, m: nat, d: nat, n: nat, k: nat, nanos: nat) {
    MonthOf(t.day) == m + k * n && DayOf(t.day) == ClampedDay(m, d, n, k) && t.nanos == nanos
  }

  lemma {:induction false} ClosedForm(at: nat -> Instant, n: nat, m: nat, d: nat, nanos: nat, k: nat)
    requires forall i: nat :: MonthsApart(at, n, i)
    requires IsClamped(at(0), m, d, n, 0, nanos)
    ensures IsClamped(at(k), m, d, n, k, nanos)
  {
    if k > 0 {
      ClosedForm(at, n, m, d, nanos, k - 1);
      assert MonthsApart(at, n, k - 1);
      ClosedFormStep(at(k - 1), m, d, n, k);
    }
  }

  lemma ClosedFormStep(previous: Instant, m: nat, d: nat, n: nat, k: nat)
    requires k > 0 && MonthOf(previous.day) == m + (k - 1) * n && DayOf(previous.day) == ClampedDay(m, d, n, k - 1)
    ensures MonthOf(AddMonthsClamped(previous, n).day) == m + k * n
    ensures DayOf(AddMonthsClamped(previous, n).day) == ClampedDay(m, d, n, k)
    ensures AddMonthsClamped(previous, n).nanos == previous.nanos
  {
    assert m + (k - 1) * n + n == m + k * n;
    AddMonthsMeaning(previous, n);
  }

  /** The clamped day is the minimum of the start day and the lengths of the months landed on. */
  lemma {:induction false} ClampedDayIsMinimum(month: nat, day: nat, step: nat, k: nat, j: nat)
    requires 1 <= j <= k
    ensures ClampedDay(month, day, step, k) <= day
    ensures ClampedDay(month, day, step, k) <= MonthLength(month + j * step)
    ensures ClampedDay(month, day, step, k) == day
         || exists i :: 1 <= i <= k && ClampedDay(month, day, step, k) == MonthLength(month + i * step)
  {
    ClampedDayBounds(month, day, step, k);
    ClampedDayBelow(month, day, step, k, j);
    var _ := ClampedDayAttained(month, day, step, k);
  }

  lemma {:induction false} ClampedDayBelow(month: nat, day: nat, step: nat, k: nat, j: nat)
    requires 1 <= j <= k
    ensures ClampedDay(month, day, step, k) <= MonthLength(month + j * step)
  {
    if j < k {
      ClampedDayBelow(month, day, step, k - 1, j);
    }
  }

  lemma {:induction false} ClampedDayAttained(month: nat, day: nat, step: nat, k: nat) returns (i: nat)
    ensures i <= k && ClampedDay(month, day, step, k) == if i == 0 then day else MonthLength(month + i * step)
  {
    if k == 0 {
      i := 0;
    } else if ClampedDay(month, day, step, k) == ClampedDay(month, day, step, k - 1) {
      i := ClampedDayAttained(month, day, step, k - 1);
    } else {
      i := k;
    }
  }

  lemma {:induction false} ExecutionWeekly(start: Instant, k: nat)
    ensures Execution(start, Weekly, k) == Instant(start.day + 7 * k, start.nanos)
  {
    if k > 0 {
      ExecutionWeekly(start, k - 1);
    }
  }

  /** The executions are strictly increasing, at least a week apart. */
  lemma {:induction false} ExecutionsIncrease(start: Instant, frequency: Frequency, i: nat, j: nat)
    requires i < j
    ensures Before(Execution(start, frequency, i), Execution(start, frequency, j))
    ensures Execution(start, frequency, i).day + 7 * (j - i) <= Execution(start, frequency, j).day
  {
    var at := (k: nat) => Execution(start, frequency, k);
    forall k: nat ensures WeekApart(at, k) {
      NextIsLater(Execution(start, frequency, k), frequency);
    }
    WeeksAddUp(at, i, j);
  }

  predicate WeekApart(at: nat -> Instant, k: nat) {
    at(k).day + 7 <= at(k + 1).day
  }

  lemma {:induction false} WeeksAddUp(at: nat -> Instant, i: nat, j: nat)
    requires i <= j && forall k: nat :: WeekApart(at, k)
    ensures at(i).day + 7 * (j - i) <= at(j).day
    decreases j - i
  {
    if i < j {
      WeeksAddUp(at, i, j - 1);
      assert WeekApart(at, j - 1);
    }
  }
}
