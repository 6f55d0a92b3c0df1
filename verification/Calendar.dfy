/** The quota calendar: PeriodKey names the day, ISO week or month an instant lies in, ResetAfter
    computes where that period ends. Two separate computations, proved to agree at every instant.

    Instants are nanoseconds (UTC) since 0001-01-01T00:00:00Z, the zero of Go's time.Time; day 0 is
    0001-01-01, a Monday. Every instant from year 1 on is covered. */
module Calendar {
  import opened Text

  type Instant = nat

  const NANOS_PER_DAY: nat := 86_400_000_000_000

  datatype Window = Daily | Weekly | Monthly

  function DayOf(t: Instant): nat { t / NANOS_PER_DAY }

  function Midnight(day: nat): Instant { day * NANOS_PER_DAY }

  // ---------- Gregorian years and months ----------

  predicate IsLeap(y: nat) { y % 4 == 0 && (y % 100 != 0 || y % 400 == 0) }

  function YearLength(y: nat): nat { if IsLeap(y) then 366 else 365 }

  /** Day number of 1 January of year y. */
  function YearStart(y: nat): nat
    requires y >= 1
  {
    if y == 1 then 0 else YearStart(y - 1) + YearLength(y - 1)
  }

  lemma {:induction false} YearStartMonotone(y: nat, z: nat)
    requires 1 <= y <= z
    ensures YearStart(y) + 365 * (z - y) <= YearStart(z)
    decreases z - y
  {
    if y < z {
      assert YearStart(y + 1) == YearStart(y) + YearLength(y);
      YearStartMonotone(y + 1, z);
    }
  }

  function YearFrom(day: nat, y: nat): (r: nat)
    requires y >= 1 && YearStart(y) <= day
    ensures r >= y && YearStart(r) <= day < YearStart(r + 1)
    decreases day - YearStart(y)
  {
    assert YearStart(y + 1) == YearStart(y) + YearLength(y);
    if day < YearStart(y + 1) then y else YearFrom(day, y + 1)
  }

  /** The civil year of a day. */
  function YearOf(day: nat): (y: nat)
    ensures y >= 1 && YearStart(y) <= day < YearStart(y + 1)
  {
    YearFrom(day, 1)
  }

  lemma YearUnique(day: nat, y: nat)
    requires y >= 1 && YearStart(y) <= day < YearStart(y + 1)
    ensures YearOf(day) == y
  {
    var r := YearOf(day);
    if r < y {
      YearStartMonotone(r + 1, y);
    } else if y < r {
      YearStartMonotone(y + 1, r);
    }
  }

  function MonthLength(y: nat, m: nat): nat
    requires 1 <= m <= 12
  {
    if m == 2 then (if IsLeap(y) then 29 else 28)
    else if m == 4 || m == 6 || m == 9 || m == 11 then 30 else 31
  }

  function DaysBeforeMonth(y: nat, m: nat): nat
    requires 1 <= m <= 13
  {
    if m == 1 then 0 else DaysBeforeMonth(y, m - 1) + MonthLength(y, m - 1)
  }

  lemma TwelveMonths(y: nat)
    ensures DaysBeforeMonth(y, 13) == YearLength(y)
  {
    assert DaysBeforeMonth(y, 2) == 31;
    assert DaysBeforeMonth(y, 3) == 31 + MonthLength(y, 2);
    assert DaysBeforeMonth(y, 5) == DaysBeforeMonth(y, 3) + 61;
    assert DaysBeforeMonth(y, 7) == DaysBeforeMonth(y, 5) + 61;
    assert DaysBeforeMonth(y, 9) == DaysBeforeMonth(y, 7) + 62;
    assert DaysBeforeMonth(y, 11) == DaysBeforeMonth(y, 9) + 61;
  }

  lemma {:induction false} MonthsMonotone(y: nat, m: nat, n: nat)
    requires 1 <= m <= n <= 13
    ensures DaysBeforeMonth(y, m) <= DaysBeforeMonth(y, n)
    decreases n - m
  {
    if m < n {
      MonthsMonotone(y, m + 1, n);
    }
  }

  /** Day number of the first of a month. */
  function MonthStart(y: nat, m: nat): nat
    requires y >= 1 && 1 <= m <= 12
  {
    YearStart(y) + DaysBeforeMonth(y, m)
  }

  function MonthFrom(y: nat, dayOfYear: nat, m: nat): (r: nat)
    requires 1 <= m <= 12 && DaysBeforeMonth(y, m) <= dayOfYear < DaysBeforeMonth(y, 13)
    ensures m <= r <= 12 && DaysBeforeMonth(y, r) <= dayOfYear < DaysBeforeMonth(y, r + 1)
    decreases 12 - m
  {
    if dayOfYear < DaysBeforeMonth(y, m + 1) then m else MonthFrom(y, dayOfYear, m + 1)
  }

  datatype Date = Date(year: nat, month: nat, day: nat)

  ghost predicate IsDate(c: Date) {
    c.year >= 1 && 1 <= c.month <= 12 && 1 <= c.day <= MonthLength(c.year, c.month)
  }

  function CivilDate(day: nat): (c: Date)
    ensures IsDate(c) && day == MonthStart(c.year, c.month) + c.day - 1
  {
    var y := YearOf(day);
    TwelveMonths(y);
    var m := MonthFrom(y, day - YearStart(y), 1);
    Date(y, m, day - MonthStart(y, m) + 1)
  }

  lemma MonthInsideYear(c: Date)
    requires IsDate(c)
    ensures YearStart(c.year) <= MonthStart(c.year, c.month) + c.day - 1 < YearStart(c.year + 1)
  {
    MonthsMonotone(c.year, c.month + 1, 13);
    TwelveMonths(c.year);
  }

  /** No day has two dates and no date has two days. */
  lemma DateUnique(day: nat, c: Date)
    requires IsDate(c) && day == MonthStart(c.year, c.month) + c.day - 1
    ensures CivilDate(day) == c
  {
    MonthInsideYear(c);
    YearUnique(day, c.year);
    MonthUnique(c.year, CivilDate(day).month, c.month, day - YearStart(c.year));
  }

  lemma MonthUnique(y: nat, m: nat, n: nat, dayOfYear: nat)
    requires 1 <= m <= 12 && 1 <= n <= 12
    requires DaysBeforeMonth(y, m) <= dayOfYear < DaysBeforeMonth(y, m + 1)
    requires DaysBeforeMonth(y, n) <= dayOfYear < DaysBeforeMonth(y, n + 1)
    ensures m == n
  {
    if m < n {
      MonthsMonotone(y, m + 1, n);
    } else if n < m {
      MonthsMonotone(y, n + 1, m);
    }
  }

  // ---------- the Gregorian calendar, by counting ----------

  /** Days before year y: 365 a year, one more every four years, but not every hundred, but every four hundred. */
  function DaysBeforeYear(y: nat): int
    requires y >= 1
  {
    365 * (y - 1) + (y - 1) / 4 - (y - 1) / 100 + (y - 1) / 400
  }

  lemma {:induction false} YearStartIsClosed(y: nat)
    requires y >= 1
    ensures YearStart(y) == DaysBeforeYear(y)
  {
    if y > 1 {
      YearStartIsClosed(y - 1);
      LeapDays(y - 1);
      hide YearLength;
    }
  }

  lemma LeapDays(z: nat)
    requires z >= 1
    ensures YearLength(z) == 365 + (z / 4 - (z - 1) / 4) - (z / 100 - (z - 1) / 100) + (z / 400 - (z - 1) / 400)
  {
    FourAHundredFourHundred(z);
    Divisors(z);
    LeapYear(z, z / 4 - (z - 1) / 4, z / 100 - (z - 1) / 100, z / 400 - (z - 1) / 400);
    hide YearLength;
  }

  lemma LeapYear(z: nat, four: int, hundred: int, fourHundred: int)
    requires four == (if z % 4 == 0 then 1 else 0) && hundred == (if z % 100 == 0 then 1 else 0)
    requires fourHundred == (if z % 400 == 0 then 1 else 0)
    requires (z % 400 == 0 ==> z % 100 == 0) && (z % 100 == 0 ==> z % 4 == 0)
    ensures YearLength(z) == 365 + four - hundred + fourHundred
  {
  }

  lemma Divisors(z: nat)
    ensures (z % 400 == 0 ==> z % 100 == 0) && (z % 100 == 0 ==> z % 4 == 0)
  {
    if z % 400 == 0 {
      assert z == 400 * (z / 400) == 100 * (4 * (z / 400));
    }
    if z % 100 == 0 {
      assert z == 100 * (z / 100) == 4 * (25 * (z / 100));
    }
  }

  lemma FourAHundredFourHundred(z: nat)
    requires z >= 1
    ensures z / 4 - (z - 1) / 4 == if z % 4 == 0 then 1 else 0
    ensures z / 100 - (z - 1) / 100 == if z % 100 == 0 then 1 else 0
    ensures z / 400 - (z - 1) / 400 == if z % 400 == 0 then 1 else 0
  {
  }

  /** Days before each month of a common year. */
  const MONTH_TABLE: seq<nat> := [0, 31, 59, 90, 120, 151, 181, 212, 243, 273, 304, 334]

  /** The number of a date, counted from 0001-01-01: what the year's length has over 365 falls at the end of February. */
  function DayNumber(y: nat, m: nat, d: nat): int
    requires y >= 1 && 1 <= m <= 12
  {
    DaysBeforeYear(y) + MONTH_TABLE[m - 1] + (if m > 2 then DaysBeforeYear(y + 1) - DaysBeforeYear(y) - 365 else 0) + d - 1
  }

  lemma MonthStartIsClosed(y: nat, m: nat)
    requires y >= 1 && 1 <= m <= 12
    ensures MonthStart(y, m) == DayNumber(y, m, 1)
  {
    YearStartIsClosed(y);
    YearStartIsClosed(y + 1);
    assert YearStart(y + 1) == YearStart(y) + YearLength(y);
    assert DaysBeforeMonth(y, 2) == 31;
    assert DaysBeforeMonth(y, 3) == 31 + MonthLength(y, 2);
    assert DaysBeforeMonth(y, 5) == DaysBeforeMonth(y, 3) + 61 && DaysBeforeMonth(y, 4) == DaysBeforeMonth(y, 3) + 31;
    assert DaysBeforeMonth(y, 7) == DaysBeforeMonth(y, 5) + 61 && DaysBeforeMonth(y, 6) == DaysBeforeMonth(y, 5) + 31;
    assert DaysBeforeMonth(y, 9) == DaysBeforeMonth(y, 7) + 62 && DaysBeforeMonth(y, 8) == DaysBeforeMonth(y, 7) + 31;
    assert DaysBeforeMonth(y, 11) == DaysBeforeMonth(y, 9) + 61 && DaysBeforeMonth(y, 10) == DaysBeforeMonth(y, 9) + 30;
    assert DaysBeforeMonth(y, 12) == DaysBeforeMonth(y, 11) + 30;
    hide YearStart, DaysBeforeYear;
  }

  /** The number of the first of the next month. */
  function NextFirst(y: nat, m: nat): int
    requires y >= 1 && 1 <= m <= 12
  {
    if m == 12 then DayNumber(y + 1, 1, 1) else DayNumber(y, m + 1, 1)
  }

  lemma NextFirstIsClosed(y: nat, m: nat)
    requires y >= 1 && 1 <= m <= 12
    ensures NextFirst(y, m) == MonthStart(y, m) + MonthLength(y, m)
  {
    NextMonth(y, m);
    if m == 12 {
      MonthStartIsClosed(y + 1, 1);
    } else {
      MonthStartIsClosed(y, m + 1);
    }
    hide DayNumber, MonthStart, MonthLength;
  }

  /** The date of a day is the one Gregorian date with its number: a date whose number lies in its own month is the
      day's date exactly if the number is the day. */
  lemma CivilDateIsGregorian(day: nat, c: Date)
    requires c.year >= 1 && 1 <= c.month <= 12 && c.day >= 1
    requires DayNumber(c.year, c.month, c.day) < NextFirst(c.year, c.month)
    ensures CivilDate(day) == c <==> DayNumber(c.year, c.month, c.day) == day
  {
    MonthStartIsClosed(c.year, c.month);
    NextFirstIsClosed(c.year, c.month);
    assert DayNumber(c.year, c.month, c.day) == DayNumber(c.year, c.month, 1) + c.day - 1;
    hide DayNumber, NextFirst, MonthStart, MonthLength, CivilDate;
    assert IsDate(c);
    if DayNumber(c.year, c.month, c.day) == day {
      DateUnique(day, c);
    }
  }

  /** And every day has such a date. */
  lemma CivilDateHasNumber(day: nat)
    ensures var c := CivilDate(day);
            && c.year >= 1 && 1 <= c.month <= 12 && c.day >= 1
            && DayNumber(c.year, c.month, c.day) == day < NextFirst(c.year, c.month)
  {
    var c := CivilDate(day);
    MonthStartIsClosed(c.year, c.month);
    NextFirstIsClosed(c.year, c.month);
    assert DayNumber(c.year, c.month, c.day) == DayNumber(c.year, c.month, 1) + c.day - 1;
    hide DayNumber, NextFirst, MonthStart, MonthLength, CivilDate;
  }

  // ---------- ISO weeks ----------

  /** time.Weekday: Sunday is 0. */
  function Weekday(day: nat): nat { (day + 1) % 7 }

  /** Go's ISOWeek: move to the Thursday of the same week, then read its year and day of year. */
  function IsoWeek(day: nat): (nat, nat) {
    var d := 4 - Weekday(day);
    var thursday := day + (if d == 4 then -3 else d);
    var y := YearOf(thursday);
    (y, (thursday - YearStart(y)) / 7 + 1)
  }

  /** Monday of ISO week 01 of year y: the week that holds 4 January. */
  function WeekOneMonday(y: nat): nat
    requires y >= 1
  {
    var jan4 := YearStart(y) + 3;
    jan4 - jan4 % 7
  }

  /** IsoWeek is the standard's week date: Monday-to-Sunday weeks counted from the one holding 4 January
      (equivalently the year's first Thursday), up to week 01 of the next year. */
  lemma IsoWeekIsStandard(day: nat)
    ensures var (y, k) := IsoWeek(day);
            y >= 1 && WeekOneMonday(y) <= day < WeekOneMonday(y + 1)
            && k == (day - WeekOneMonday(y)) / 7 + 1 && 1 <= k <= 53
  {
    ThursdayOf(day);
    var y := YearOf(day / 7 * 7 + 3);
    assert YearStart(y + 1) == YearStart(y) + YearLength(y);
    hide YearStart, YearOf;
    WeekArithmetic(day, YearStart(y), YearStart(y + 1));
  }

  lemma WeekOneMonotone(y: nat, z: nat)
    requires 1 <= y <= z
    ensures WeekOneMonday(y) <= WeekOneMonday(z)
  {
    YearStartMonotone(y, z);
  }

  /** And it is the only week date of the day: whatever year's week one the day is counted from, before the next
      year's week one, the year and the week are those IsoWeek gives. */
  lemma IsoWeekIsOnly(day: nat, y: nat, k: nat)
    requires y >= 1 && k >= 1
    requires WeekOneMonday(y) + 7 * (k - 1) <= day < WeekOneMonday(y) + 7 * k && day < WeekOneMonday(y + 1)
    ensures IsoWeek(day) == (y, k)
  {
    IsoWeekIsStandard(day);
    var r := IsoWeek(day).0;
    if r < y {
      WeekOneMonotone(r + 1, y);
    } else if y < r {
      WeekOneMonotone(y + 1, r);
    }
    hide IsoWeek, WeekOneMonday;
  }

  lemma WeekArithmetic(day: nat, start: nat, next: nat)
    requires start <= day / 7 * 7 + 3 < next <= start + 366
    ensures var (one, two) := (start + 3 - (start + 3) % 7, next + 3 - (next + 3) % 7);
            one <= day < two
            && (day / 7 * 7 + 3 - start) / 7 == (day - one) / 7
            && (day - one) / 7 <= 52
  {
    var (a, c) := ((start + 3) / 7, day / 7);
    assert start + 3 - (start + 3) % 7 == 7 * a;
    assert (day - 7 * a) / 7 == c - a;
  }

  lemma ThursdayOf(day: nat)
    ensures var d := 4 - Weekday(day); day + (if d == 4 then -3 else d) == day / 7 * 7 + 3
  {
  }

  // ---------- the two computations under test ----------

  function DayKey(c: Date): string { Padded(c.year, 4) + "-" + (Padded(c.month, 2) + "-" + Padded(c.day, 2)) }

  function WeekKey(y: nat, k: nat): string { Decimal(y) + "-" + ("W" + Padded(k, 2)) }

  function MonthKey(c: Date): string { Padded(c.year, 4) + "-" + Padded(c.month, 2) }

  /** PeriodKey: "2006-01-02", "2006-W02" or "2006-01". */
  function PeriodKey(w: Window, t: Instant): string {
    match w
    case Daily => DayKey(CivilDate(DayOf(t)))
    case Weekly => var (y, k) := IsoWeek(DayOf(t)); WeekKey(y, k)
    case Monthly => MonthKey(CivilDate(DayOf(t)))
  }

  /** time.Date(y, m, 1) with the month overflow Go normalises. */
  function FirstOfMonth(y: nat, m: nat): nat
    requires y >= 1 && 1 <= m <= 13
  {
    if m > 12 then MonthStart(y + 1, m - 12) else MonthStart(y, m)
  }

  /** ResetAfter, in days. */
  function ResetDay(w: Window, day: nat): nat {
    match w
    case Daily => day + 1
    case Weekly =>
      var offset := (8 - Weekday(day)) % 7;
      day + (if offset == 0 then 7 else offset)
    case Monthly => var c := CivilDate(day); FirstOfMonth(c.year, c.month + 1)
  }

  function ResetAfter(w: Window, t: Instant): Instant { Midnight(ResetDay(w, DayOf(t))) }

  // ---------- periods ----------

  /** The first day of the period a day lies in. */
  function FirstDay(w: Window, day: nat): (r: nat)
    ensures r <= day
  {
    match w
    case Daily => day
    case Weekly => day - day % 7
    case Monthly => var c := CivilDate(day); MonthStart(c.year, c.month)
  }

  lemma NextMonth(y: nat, m: nat)
    requires y >= 1 && 1 <= m <= 12
    ensures FirstOfMonth(y, m + 1) == MonthStart(y, m) + MonthLength(y, m)
  {
    TwelveMonths(y);
  }

  lemma ResetIsLater(w: Window, day: nat)
    ensures FirstDay(w, day) <= day < ResetDay(w, day)
  {
    if w == Monthly {
      var c := CivilDate(day);
      NextMonth(c.year, c.month);
    }
  }

  lemma SameWeek(d: nat, e: nat)
    ensures FirstDay(Weekly, d) == d / 7 * 7 && ResetDay(Weekly, d) == d / 7 * 7 + 7
    ensures FirstDay(Weekly, d) == FirstDay(Weekly, e) <==> FirstDay(Weekly, d) <= e < ResetDay(Weekly, d)
  {
  }

  lemma SameMonth(d: nat, e: nat)
    ensures FirstDay(Monthly, d) == FirstDay(Monthly, e) <==> FirstDay(Monthly, d) <= e < ResetDay(Monthly, d)
  {
    hide CivilDate, YearLength, MonthLength;
    var (b, c) := (CivilDate(d), CivilDate(e));
    NextMonth(b.year, b.month);
    NextMonth(c.year, c.month);
    MonthStartInjective(d, e);
    if FirstDay(Monthly, d) <= e < ResetDay(Monthly, d) {
      DateUnique(e, Date(b.year, b.month, e - FirstDay(Monthly, d) + 1));
    }
  }

  /** A period is exactly the days from its first day up to the reset: two days share it or not. */
  lemma SamePeriod(w: Window, d: nat, e: nat)
    ensures FirstDay(w, d) == FirstDay(w, e) <==> FirstDay(w, d) <= e < ResetDay(w, d)
  {
    hide CivilDate, Weekday;
    match w
    case Daily =>
    case Weekly => SameWeek(d, e);
    case Monthly => SameMonth(d, e);
  }

  lemma MonthStartInjective(d: nat, e: nat)
    ensures FirstDay(Monthly, d) == FirstDay(Monthly, e)
       <==> CivilDate(d).year == CivilDate(e).year && CivilDate(d).month == CivilDate(e).month
  {
    var b, c := CivilDate(d), CivilDate(e);
    DateUnique(MonthStart(b.year, b.month), Date(b.year, b.month, 1));
    DateUnique(MonthStart(c.year, c.month), Date(c.year, c.month, 1));
  }

  lemma DayKeyUnique(b: Date, c: Date)
    ensures DayKey(b) == DayKey(c) <==> b == c
  {
    var (y, z) := (Padded(b.year, 4), Padded(c.year, 4));
    var (m, n) := (Padded(b.month, 2), Padded(c.month, 2));
    var (i, j) := (Padded(b.day, 2), Padded(c.day, 2));
    DateIsDigits(b);
    DateIsDigits(c);
    if DayKey(b) == DayKey(c) {
      SplitUnique(y, m + "-" + i, z, n + "-" + j, '-');
      SplitUnique(m, i, n, j, '-');
    }
    PaddedInjective(b.year, c.year, 4);
    PaddedInjective(b.month, c.month, 2);
    PaddedInjective(b.day, c.day, 2);
  }

  lemma DateIsDigits(c: Date)
    ensures IsDigits(Padded(c.year, 4)) && IsDigits(Padded(c.month, 2)) && IsDigits(Padded(c.day, 2))
  {
    PaddedIsDigits(c.year, 4);
    PaddedIsDigits(c.month, 2);
    PaddedIsDigits(c.day, 2);
  }

  lemma MonthKeyUnique(b: Date, c: Date)
    ensures MonthKey(b) == MonthKey(c) <==> b.year == c.year && b.month == c.month
  {
    DateIsDigits(b);
    DateIsDigits(c);
    if MonthKey(b) == MonthKey(c) {
      SplitUnique(Padded(b.year, 4), Padded(b.month, 2), Padded(c.year, 4), Padded(c.month, 2), '-');
    }
    PaddedInjective(b.year, c.year, 4);
    PaddedInjective(b.month, c.month, 2);
  }

  lemma WeekKeyUnique(y: nat, k: nat, z: nat, l: nat)
    ensures WeekKey(y, k) == WeekKey(z, l) <==> y == z && k == l
  {
    var (a, b) := ("W" + Padded(k, 2), "W" + Padded(l, 2));
    DecimalIsDigits(y);
    DecimalIsDigits(z);
    if WeekKey(y, k) == WeekKey(z, l) {
      SplitUnique(Decimal(y), a, Decimal(z), b, '-');
      assert a[1..] == Padded(k, 2) && b[1..] == Padded(l, 2);
    }
    DecimalInjective(y, z);
    PaddedInjective(k, l, 2);
  }

  lemma IsoWeekUnique(d: nat, e: nat)
    ensures IsoWeek(d) == IsoWeek(e) <==> d / 7 == e / 7
  {
    IsoWeekIsStandard(d);
    IsoWeekIsStandard(e);
    ThursdayOf(d);
    ThursdayOf(e);
  }

  /** The key names the period: equal keys mean the same period, for days, ISO weeks and months. */
  lemma KeyNamesPeriod(w: Window, t: Instant, u: Instant)
    ensures PeriodKey(w, t) == PeriodKey(w, u) <==> FirstDay(w, DayOf(t)) == FirstDay(w, DayOf(u))
  {
    hide DayKey, WeekKey, MonthKey;
    var d, e := DayOf(t), DayOf(u);
    match w
    case Daily => DayKeyUnique(CivilDate(d), CivilDate(e));
    case Monthly =>
      MonthStartInjective(d, e);
      MonthKeyUnique(CivilDate(d), CivilDate(e));
    case Weekly =>
      WeekKeyUnique(IsoWeek(d).0, IsoWeek(d).1, IsoWeek(e).0, IsoWeek(e).1);
      IsoWeekUnique(d, e);
  }

  /** Keys of different windows never coincide, so one table can hold all three counters. */
  lemma WindowsNeverCollide(w: Window, t: Instant, v: Window, u: Instant)
    requires w != v
    ensures PeriodKey(w, t) != PeriodKey(v, u)
  {
    var (b, c) := (CivilDate(DayOf(t)), CivilDate(DayOf(u)));
    if w == Weekly || v == Weekly {
      var x := if w == Weekly then IsoWeek(DayOf(t)) else IsoWeek(DayOf(u));
      WeekKeyMark(x.0, x.1, if w == Weekly then c else b);
    } else if w == Daily {
      DayKeyIsNoMonthKey(b, c);
    } else {
      DayKeyIsNoMonthKey(c, b);
    }
  }

  lemma WeekKeyMark(y: nat, k: nat, c: Date)
    ensures 'W' in WeekKey(y, k) && 'W' !in DayKey(c) && 'W' !in MonthKey(c)
  {
    assert WeekKey(y, k)[|Decimal(y)| + 1] == 'W';
    DateIsDigits(c);
  }

  lemma DayKeyIsNoMonthKey(b: Date, c: Date)
    ensures DayKey(b) != MonthKey(c)
  {
    var rest := Padded(b.month, 2) + "-" + Padded(b.day, 2);
    assert rest[|Padded(b.month, 2)|] == '-';
    DateIsDigits(b);
    DateIsDigits(c);
    assert '-' !in Padded(c.month, 2);
    if DayKey(b) == MonthKey(c) {
      SplitUnique(Padded(b.year, 4), rest, Padded(c.year, 4), Padded(c.month, 2), '-');
    }
  }

  // ---------- how the keys read ----------

  /** "2006-01-02": year, month and day can be read off their places. */
  lemma DayKeyReads(c: Date)
    requires c.year < 10000 && c.month < 100 && c.day < 100
    ensures var k := DayKey(c);
            && |k| == 10 && Value(k[..4]) == c.year && k[4] == '-' && Value(k[5..7]) == c.month && k[7] == '-'
            && Value(k[8..]) == c.day
  {
    var (y, m, d) := (Padded(c.year, 4), Padded(c.month, 2), Padded(c.day, 2));
    FieldReads(c.year, 4);
    FieldReads(c.month, 2);
    FieldReads(c.day, 2);
    PaddedToFour(c.year);
    PaddedToTwo(c.month);
    PaddedToTwo(c.day);
    hide Padded, Value;
    var k := DayKey(c);
    assert k[..4] == y && k[5..7] == m && k[8..] == d;
  }

  /** "2006-01". */
  lemma MonthKeyReads(c: Date)
    requires c.year < 10000 && c.month < 100
    ensures var k := MonthKey(c);
            |k| == 7 && Value(k[..4]) == c.year && k[4] == '-' && Value(k[5..]) == c.month
  {
    FieldReads(c.year, 4);
    FieldReads(c.month, 2);
    PaddedToFour(c.year);
    PaddedToTwo(c.month);
    hide Padded, Value;
    var k := MonthKey(c);
    assert k[..4] == Padded(c.year, 4) && k[5..] == Padded(c.month, 2);
  }

  /** "2006-W02": the year as it is, the week in two digits. */
  lemma WeekKeyReads(y: nat, w: nat)
    requires y >= 1 && w < 100
    ensures var k := WeekKey(y, w);
            && |k| > 4 && k[|k| - 4..|k| - 2] == "-W" && Value(k[..|k| - 4]) == y && k[0] != '0' && Value(k[|k| - 2..]) == w
  {
    DecimalValue(y);
    NoLeadingZero(y);
    FieldReads(w, 2);
    PaddedToTwo(w);
    hide Padded, Value, Decimal;
    var k := WeekKey(y, w);
    assert k[..|k| - 4] == Decimal(y) && k[|k| - 2..] == Padded(w, 2);
  }

  lemma FieldReads(n: nat, width: nat)
    ensures Value(Padded(n, width)) == n
  {
    DecimalValue(n);
    ZeroFillValue(Decimal(n), width);
  }

  /** The epoch of Unix time, 1970-01-01, is a Thursday, 62,135,596,800 seconds from the first instant. */
  lemma UnixEpochIsThursday()
    ensures DayNumber(1970, 1, 1) * 86_400 == 62_135_596_800 && DayNumber(1970, 1, 1) % 7 == 3
    ensures forall day: nat :: Weekday(day) == 0 <==> day % 7 == 6
    ensures forall day: nat :: Midnight(day) == day * 86_400 * 1_000_000_000
  {
  }

  /** Whether an instant lies on the day that begins at that Unix second. */
  predicate OnDay(t: Instant, unix: int) {
    (62_135_596_800 + unix) * 1_000_000_000 <= t < (62_135_596_800 + unix + 86_400) * 1_000_000_000
  }

  /** Known days: 2026-01-15 lies in week 3; 2004-12-31 and 2005-01-01 both in week 53 of 2004; 2024-12-30 in week 1 of
      2025. KnownInstants says which instants lie on them. */
  lemma KnownDates(day: nat)
    ensures day == 739630 ==> CivilDate(day) == Date(2026, 1, 15) && IsoWeek(day) == (2026, 3)
    ensures day == 731945 ==> CivilDate(day) == Date(2004, 12, 31) && IsoWeek(day) == (2004, 53)
    ensures day == 731946 ==> CivilDate(day) == Date(2005, 1, 1) && IsoWeek(day) == (2004, 53)
    ensures day == 739249 ==> CivilDate(day) == Date(2024, 12, 30) && IsoWeek(day) == (2025, 1)
  {
    hide CivilDate, IsoWeek;
    KnownDay(day, 739630, Date(2026, 1, 15), 2026, 3);
    KnownDay(day, 731945, Date(2004, 12, 31), 2004, 53);
    KnownDay(day, 731946, Date(2005, 1, 1), 2004, 53);
    KnownDay(day, 739249, Date(2024, 12, 30), 2025, 1);
  }

  /** A day's date and week date, checked by counting. */
  lemma KnownDay(day: nat, known: nat, c: Date, y: nat, w: nat)
    requires c.year >= 1 && 1 <= c.month <= 12 && c.day >= 1 && y >= 1 && w >= 1
    requires DayNumber(c.year, c.month, c.day) == known < NextFirst(c.year, c.month)
    requires InWeek(known, y, w)
    ensures day == known ==> CivilDate(day) == c && IsoWeek(day) == (y, w)
  {
    if day == known {
      CivilDateIsGregorian(day, c);
      KnownWeek(day, y, w);
    }
    hide CivilDate, IsoWeek;
  }

  /** The w-th week from the Monday of the week that holds 4 January, before the next year's first. */
  predicate InWeek(day: nat, y: nat, w: nat)
    requires y >= 1
  {
    var (jan4, next) := (DaysBeforeYear(y) + 3, DaysBeforeYear(y + 1) + 3);
    w >= 1 && jan4 - jan4 % 7 + 7 * (w - 1) <= day < jan4 - jan4 % 7 + 7 * w && day < next - next % 7
  }

  lemma KnownInstants(t: Instant)
    ensures OnDay(t, 1_768_435_200) ==> DayOf(t) == 739630
    ensures OnDay(t, 1_104_451_200) ==> DayOf(t) == 731945
    ensures OnDay(t, 1_104_537_600) ==> DayOf(t) == 731946
    ensures OnDay(t, 1_735_516_800) ==> DayOf(t) == 739249
  {
  }

  lemma KnownWeek(day: nat, y: nat, w: nat)
    requires y >= 1 && InWeek(day, y, w)
    ensures IsoWeek(day) == (y, w)
  {
    YearStartIsClosed(y);
    YearStartIsClosed(y + 1);
    hide DaysBeforeYear, YearStart;
    IsoWeekIsOnly(day, y, w);
  }

  // ---------- the agreement ----------

  lemma MidnightOrder(day: nat, t: Instant)
    ensures Midnight(day) <= t <==> day <= DayOf(t)
  {
  }

  /** ResetAfter is later than t, and from t on the key stays the same exactly until ResetAfter: it is the
      least later instant at which the key changes, and no later instant ever shows the old key again. */
  lemma KeyChangesExactlyAtReset(w: Window, t: Instant, u: Instant)
    requires t <= u
    ensures t < ResetAfter(w, t)
    ensures PeriodKey(w, u) == PeriodKey(w, t) <==> u < ResetAfter(w, t)
  {
    ResetIsLater(w, DayOf(t));
    MidnightOrder(ResetDay(w, DayOf(t)), t);
    MidnightOrder(ResetDay(w, DayOf(t)), u);
    assert DayOf(t) <= DayOf(u);
    KeyNamesPeriod(w, t, u);
    SamePeriod(w, DayOf(t), DayOf(u));
  }

  /** Equal day keys force equal week and month keys. */
  lemma DayRefinesWindow(w: Window, t: Instant, u: Instant)
    requires PeriodKey(Daily, t) == PeriodKey(Daily, u)
    ensures PeriodKey(w, t) == PeriodKey(w, u)
  {
    KeyNamesPeriod(Daily, t, u);
    KeyNamesPeriod(w, t, u);
  }
}
