/** Calendar periods: days, Monday-based weeks and months of the proleptic Gregorian calendar. */
module Calendar {

  datatype Granularity = Daily | Weekly | Monthly

  datatype LocalDate = LocalDate(year: int, month: int, day: int)

  /** Both ends inclusive, as days since 1970-01-01. */
  datatype Period = Period(start: int, end: int) {
    function Days(): int {
      end - start + 1
    }

    predicate Contains(day: int) {
      start <= day <= end
    }
  }

  predicate IsLeap(year: int) {
    year % 4 == 0 && (year % 100 != 0 || year % 400 == 0)
  }

  function MonthLength(year: int, month: int): int {
    if month == 2 then (if IsLeap(year) then 29 else 28)
    else if month == 4 || month == 6 || month == 9 || month == 11 then 30
    else 31
  }

  /** The calendar's months. */
  lemma MonthLengths(year: int)
    ensures MonthLength(year, 2) == if IsLeap(year) then 29 else 28
    ensures MonthLength(year, 1) == MonthLength(year, 3) == MonthLength(year, 5) == MonthLength(year, 7) == 31
    ensures MonthLength(year, 8) == MonthLength(year, 10) == MonthLength(year, 12) == 31
    ensures MonthLength(year, 4) == MonthLength(year, 6) == MonthLength(year, 9) == MonthLength(year, 11) == 30
  {}

  predicate ValidDate(d: LocalDate) {
    1 <= d.month <= 12 && 1 <= d.day <= MonthLength(d.year, d.month)
  }

  /** The day number of 1 January, in closed form. */
  function YearStart(year: int): int {
    365 * year + (year + 3) / 4 - (year + 99) / 100 + (year + 399) / 400 - 719528
  }

  /** Days of the year before the first of a month. */
  function MonthOffset(year: int, month: int): int
    requires 1 <= month <= 12
    decreases month
  {
    if month == 1 then 0 else MonthOffset(year, month - 1) + MonthLength(year, month - 1)
  }

  function EpochDay(d: LocalDate): int
    requires 1 <= d.month <= 12
  {
    YearStart(d.year) + MonthOffset(d.year, d.month) + d.day - 1
  }

  function FirstOfMonth(d: LocalDate): LocalDate {
    d.(day := 1)
  }

  function LastOfMonth(d: LocalDate): LocalDate {
    d.(day := MonthLength(d.year, d.month))
  }

  function PeriodContaining(g: Granularity, d: LocalDate): Period
    requires ValidDate(d)
  {
    match g
    case Daily => Period(EpochDay(d), EpochDay(d))
    case Weekly =>
      var monday := EpochDay(d) - (EpochDay(d) + 3) % 7;
      Period(monday, monday + 6)
    case Monthly => Period(EpochDay(FirstOfMonth(d)), EpochDay(LastOfMonth(d)))
  }

  // ---- The day numbering is the Gregorian calendar ----

  lemma FloorSteps(y: int, k: int)
    requires k == 4 || k == 100 || k == 400
    ensures (y + 1 + (k - 1)) / k - (y + (k - 1)) / k == if y % k == 0 then 1 else 0
  {}

  /** A whole multiple leaves no remainder. */
  lemma NoRemainder(q: int, k: int)
    requires k == 4 || k == 100
    ensures (q * k) % k == 0
  {}

  lemma Multiples(y: int)
    ensures y % 400 == 0 ==> y % 100 == 0
    ensures y % 100 == 0 ==> y % 4 == 0
  {
    NoRemainder(4 * (y / 400), 100);
    NoRemainder(25 * (y / 100), 4);
  }

  /** The closed form steps by exactly the length of each year. */
  lemma YearLength(year: int)
    ensures YearStart(year + 1) - YearStart(year) == if IsLeap(year) then 366 else 365
  {
    FloorSteps(year, 4);
    FloorSteps(year, 100);
    FloorSteps(year, 400);
    Multiples(year);
  }

  lemma {:induction false} MonthsFillTheYear(year: int)
    ensures MonthOffset(year, 12) + 31 == if IsLeap(year) then 366 else 365
  {}

  /** Months numbered consecutively: month n is month n % 12 + 1 of year n / 12. */
  function MonthIndex(d: LocalDate): int {
    12 * d.year + d.month - 1
  }

  function MonthStart(n: int): int {
    EpochDay(LocalDate(n / 12, n % 12 + 1, 1))
  }

  function LengthOf(n: int): int {
    MonthLength(n / 12, n % 12 + 1)
  }

  lemma {:induction false} NextMonthInYear(y: int, m: int)
    requires 1 <= m <= 11
    ensures EpochDay(LocalDate(y, m + 1, 1)) == EpochDay(LocalDate(y, m, 1)) + MonthLength(y, m)
  {}

  lemma {:induction false} NextYear(y: int)
    ensures EpochDay(LocalDate(y + 1, 1, 1)) == EpochDay(LocalDate(y, 12, 1)) + MonthLength(y, 12)
  {
    YearLength(y);
    MonthsFillTheYear(y);
  }

  /** Each month starts where the previous one ends, across year boundaries too. */
  lemma {:induction false} MonthsAreConsecutive(n: int)
    ensures MonthStart(n + 1) == MonthStart(n) + LengthOf(n)
    ensures 28 <= LengthOf(n) <= 31
  {
    var y, m := n / 12, n % 12 + 1;
    if m == 12 {
      NextYear(y);
      assert (n + 1) / 12 == y + 1 && (n + 1) % 12 == 0;
    } else {
      NextMonthInYear(y, m);
      assert (n + 1) / 12 == y && (n + 1) % 12 + 1 == m + 1;
    }
  }

  /** A walk with non-negative strides climbs. */
  lemma {:induction false} StridesAscend(at: int -> int, stride: int -> int, n: int, k: int)
    requires n < k
    requires forall i :: n <= i < k ==> at(i + 1) == at(i) + stride(i)
    requires forall i :: n <= i < k ==> stride(i) >= 0
    ensures at(n) + stride(n) <= at(k)
    decreases k - n
  {
    if n + 1 < k {
      StridesAscend(at, stride, n + 1, k);
      assert stride(n + 1) >= 0;
    }
  }

  lemma {:induction false} MonthsAscend(n: int, k: int)
    requires n < k
    ensures MonthStart(n) + LengthOf(n) <= MonthStart(k)
  {
    forall i | n <= i < k ensures MonthStart(i + 1) == MonthStart(i) + LengthOf(i) && LengthOf(i) >= 0 {
      MonthsAreConsecutive(i);
    }
    StridesAscend(MonthStart, LengthOf, n, k);
  }

  lemma {:induction false} DayInItsMonth(d: LocalDate)
    requires ValidDate(d)
    ensures EpochDay(d) == MonthStart(MonthIndex(d)) + d.day - 1
    ensures LengthOf(MonthIndex(d)) == MonthLength(d.year, d.month)
    ensures var n := MonthIndex(d);
            PeriodContaining(Monthly, d) == Period(MonthStart(n), MonthStart(n) + LengthOf(n) - 1)
  {
    assert MonthIndex(d) / 12 == d.year && MonthIndex(d) % 12 + 1 == d.month;
  }

  lemma {:induction false} EpochIsDayZero()
    ensures MonthStart(12 * 1970) == 0
  {
    assert (12 * 1970) / 12 == 1970 && (12 * 1970) % 12 == 0;
    assert MonthOffset(1970, 1) == 0;
  }

  /** Every day number belongs to some month. */
  lemma {:induction false} EveryDayHasAMonth(day: int) returns (n: int)
    ensures MonthStart(n) <= day < MonthStart(n) + LengthOf(n)
    decreases if day < 0 then -day else day
  {
    if day == 0 {
      n := 12 * 1970;
      EpochIsDayZero();
    } else if day > 0 {
      var m := EveryDayHasAMonth(day - 1);
      MonthsAreConsecutive(m);
      MonthsAreConsecutive(m + 1);
      n := if day < MonthStart(m + 1) then m else m + 1;
    } else {
      var m := EveryDayHasAMonth(day + 1);
      MonthsAreConsecutive(m - 1);
      n := if day >= MonthStart(m) then m else m - 1;
    }
  }

  /** Every day number is a date: the numbering has no gaps. */
  lemma {:induction false} EveryDayIsADate(day: int) returns (d: LocalDate)
    ensures ValidDate(d) && EpochDay(d) == day
  {
    var n := EveryDayHasAMonth(day);
    d := LocalDate(n / 12, n % 12 + 1, day - MonthStart(n) + 1);
  }

  /** Different dates have different day numbers. */
  lemma {:induction false} DatesAreDistinct(a: LocalDate, b: LocalDate)
    requires ValidDate(a) && ValidDate(b) && EpochDay(a) == EpochDay(b)
    ensures a == b
  {
    DayInItsMonth(a);
    DayInItsMonth(b);
    var m, n := MonthIndex(a), MonthIndex(b);
    if m < n { MonthsAscend(m, n); }
    if n < m { MonthsAscend(n, m); }
    assert m == n;
    assert a.year == m / 12 && b.year == n / 12;
  }

  // ---- The periods of each granularity partition the calendar ----

  lemma WeeksPartition(x: int, y: int)
    ensures x - (x + 3) % 7 <= y <= x - (x + 3) % 7 + 6 <==> x - (x + 3) % 7 == y - (y + 3) % 7
  {}

  lemma {:induction false} MonthsPartition(a: LocalDate, b: LocalDate)
    requires ValidDate(a) && ValidDate(b)
    ensures PeriodContaining(Monthly, a).Contains(EpochDay(b)) <==>
            PeriodContaining(Monthly, b) == PeriodContaining(Monthly, a)
  {
    DayInItsMonth(a);
    DayInItsMonth(b);
    var m, n := MonthIndex(a), MonthIndex(b);
    MonthsAreConsecutive(m);
    MonthsAreConsecutive(n);
    if m < n { MonthsAscend(m, n); }
    if n < m { MonthsAscend(n, m); }
  }

  /**
   * A period contains the date it was asked for, and it contains another date exactly when that date
   * has the same period: no overlaps, no gaps.
   */
  lemma PeriodsPartitionTheCalendar(g: Granularity, a: LocalDate, b: LocalDate)
    requires ValidDate(a) && ValidDate(b)
    ensures PeriodContaining(g, a).Contains(EpochDay(a))
    ensures PeriodContaining(g, a).Contains(EpochDay(b)) <==> PeriodContaining(g, b) == PeriodContaining(g, a)
  {
    match g
    case Daily =>
    case Weekly => WeeksPartition(EpochDay(a), EpochDay(b));
    case Monthly =>
      DayInItsMonth(a);
      MonthsPartition(a, b);
  }

  /** 1, 7, or the length of the month; and a week starts on a Monday (day 0 was a Thursday). */
  lemma PeriodLengths(d: LocalDate)
    requires ValidDate(d)
    ensures PeriodContaining(Daily, d).Days() == 1
    ensures PeriodContaining(Weekly, d).Days() == 7 && (PeriodContaining(Weekly, d).start + 3) % 7 == 0
    ensures PeriodContaining(Monthly, d).Days() == MonthLength(d.year, d.month)
  {
    DayInItsMonth(d);
    MondayOf(EpochDay(d));
  }

  lemma MondayOf(day: int)
    ensures (day - (day + 3) % 7 + 3) % 7 == 0
  {}
}
