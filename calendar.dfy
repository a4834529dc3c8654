/** Calendar days and a day-by-day counter over the proleptic Gregorian
    calendar. The generator walks every day from 2022-01-01 to 2024-12-31;
    this module stands in for the date range it obtains from its data
    library, and proves the range has no gap, no repetition and the right
    ends. Weekdays are numbered as the source numbers them: Monday = 0 ..
    Sunday = 6. */
module Calendar {

  datatype Date = Date(year: int, month: int, day: int)

  predicate IsLeapYear(y: int) {
    y % 4 == 0 && (y % 100 != 0 || y % 400 == 0)
  }

  function DaysInMonth(y: int, m: int): (n: int)
    requires 1 <= m <= 12
    ensures 28 <= n <= 31
  {
    if m == 2 then (if IsLeapYear(y) then 29 else 28)
    else if m == 4 || m == 6 || m == 9 || m == 11 then 30
    else 31
  }

  /** Days of year `y` that come before the first of month `m`. */
  function DaysBeforeMonth(y: int, m: int): int
    requires 1 <= m <= 12
  {
    [0, 31, 59, 90, 120, 151, 181, 212, 243, 273, 304, 334][m - 1]
      + (if IsLeapYear(y) && m > 2 then 1 else 0)
  }

  predicate Valid(d: Date) {
    1 <= d.month <= 12 && 1 <= d.day <= DaysInMonth(d.year, d.month)
  }

  /** Strict chronological order. */
  predicate Before(a: Date, b: Date) {
    || a.year < b.year
    || (a.year == b.year && a.month < b.month)
    || (a.year == b.year && a.month == b.month && a.day < b.day)
  }

  /** The following calendar day: no valid day lies strictly between `d` and it. */
  function NextDay(d: Date): (r: Date)
    requires Valid(d)
    ensures Valid(r) && Before(d, r)
  {
    if d.day < DaysInMonth(d.year, d.month) then Date(d.year, d.month, d.day + 1)
    else if d.month < 12 then Date(d.year, d.month + 1, 1)
    else Date(d.year + 1, 1, 1)
  }

  /** No valid day lies strictly between a day and the next. */
  lemma NextDayIsNext(d: Date, e: Date)
    requires Valid(d) && Valid(e) && Before(d, e)
    ensures NextDay(d) == e || Before(NextDay(d), e)
  {
  }

  /** The day `n` days after `d`. */
  function Advance(d: Date, n: nat): (r: Date)
    requires Valid(d)
    ensures Valid(r)
    ensures n > 0 ==> Before(d, r)
  {
    if n == 0 then d else NextDay(Advance(d, n - 1))
  }

  /** `n` consecutive days starting at `start`. */
  function DaysFrom(start: Date, n: nat): (r: seq<Date>)
    requires Valid(start)
  {
    seq(n, i requires 0 <= i => Advance(start, i))
  }

  const RangeStart := Date(2022, 1, 1)
  const RangeEnd := Date(2024, 12, 31)
  /** 2022-01-01 was a Saturday. */
  const StartWeekday := 5
  /** 2022, 2023 and 2024, both ends included: 365 + 365 + 366 days. */
  const RangeLength := 1096

  /** Every day the generator visits, in order. */
  function DateRange(): (r: seq<Date>)
    ensures |r| == RangeLength
  {
    DaysFrom(RangeStart, RangeLength)
  }

  /** Weekday (Monday = 0) of the `i`-th day of the range. */
  function WeekdayAt(i: nat): (w: int)
    ensures 0 <= w < 7
  {
    (StartWeekday + i) % 7
  }

  lemma {:induction false} AdvanceAdd(d: Date, a: nat, b: nat)
    requires Valid(d)
    ensures Advance(d, a + b) == Advance(Advance(d, a), b)
    decreases b
  {
    if b > 0 {
      AdvanceAdd(d, a, b - 1);
    }
  }

  /** Inside a month the counter moves one day-of-month per step. */
  lemma {:induction false} AdvanceWithinMonth(y: int, m: int, k: nat)
    requires 1 <= m <= 12 && k < DaysInMonth(y, m)
    ensures Advance(Date(y, m, 1), k) == Date(y, m, 1 + k)
  {
    if k > 0 {
      AdvanceWithinMonth(y, m, k - 1);
    }
  }

  /** From January 1st, `DaysBeforeMonth(y, m)` steps reach the first of month `m`. */
  lemma {:induction false} AdvanceToMonth(y: int, m: int)
    requires 1 <= m <= 12
    ensures Advance(Date(y, 1, 1), DaysBeforeMonth(y, m)) == Date(y, m, 1)
  {
    if m > 1 {
      var first := Date(y, m - 1, 1);
      var len := DaysInMonth(y, m - 1);
      AdvanceToMonth(y, m - 1);
      assert DaysBeforeMonth(y, m) == DaysBeforeMonth(y, m - 1) + len;
      AdvanceAdd(Date(y, 1, 1), DaysBeforeMonth(y, m - 1), len);
      AdvanceWithinMonth(y, m - 1, len - 1);
      assert Advance(first, len) == NextDay(Date(y, m - 1, len));
    }
  }

  /** The day of year `y` at offset `DaysBeforeMonth(y, m) + k` from January 1st. */
  lemma AdvanceToDay(y: int, m: int, k: nat)
    requires 1 <= m <= 12 && k < DaysInMonth(y, m)
    ensures Advance(Date(y, 1, 1), DaysBeforeMonth(y, m) + k) == Date(y, m, 1 + k)
  {
    AdvanceToMonth(y, m);
    AdvanceAdd(Date(y, 1, 1), DaysBeforeMonth(y, m), k);
    AdvanceWithinMonth(y, m, k);
  }

  /** A whole year of steps moves January 1st to the next January 1st. */
  lemma AdvanceYear(y: int)
    ensures Advance(Date(y, 1, 1), if IsLeapYear(y) then 366 else 365) == Date(y + 1, 1, 1)
  {
    var len := if IsLeapYear(y) then 366 else 365;
    AdvanceToDay(y, 12, 30);
    assert len == DaysBeforeMonth(y, 12) + 30 + 1;
    AdvanceAdd(Date(y, 1, 1), DaysBeforeMonth(y, 12) + 30, 1);
  }

  /** Three years from January 1st of a common, a common and a leap year end on
      the leap year's December 31st, 1095 steps later. */
  lemma {:induction false} ThreeYears(y: int)
    requires !IsLeapYear(y) && !IsLeapYear(y + 1) && IsLeapYear(y + 2)
    ensures Advance(Date(y, 1, 1), 1095) == Date(y + 2, 12, 31)
  {
    AdvanceYear(y);
    AdvanceYear(y + 1);
    AdvanceAdd(Date(y, 1, 1), 365, 365);
    AdvanceToDay(y + 2, 12, 30);
    assert DaysBeforeMonth(y + 2, 12) + 30 == 365;
    AdvanceAdd(Date(y, 1, 1), 730, 365);
  }

  /** The range starts on 2022-01-01 and its last day is 2024-12-31. */
  lemma RangeEnds()
    ensures DateRange()[0] == RangeStart
    ensures DateRange()[RangeLength - 1] == RangeEnd
  {
    ThreeYears(2022);
  }

  /** A day of 2022 sits in the range at its offset from January 1st. */
  lemma DayOf2022(i: nat, m: int, k: nat)
    requires 1 <= m <= 12 && k < DaysInMonth(2022, m) && i == DaysBeforeMonth(2022, m) + k
    ensures i < RangeLength && DateRange()[i] == Date(2022, m, 1 + k)
  {
    AdvanceToDay(2022, m, k);
  }

  /** ... and at no other index. */
  lemma DayOf2022Unique(i: nat, m: int, k: nat)
    requires 1 <= m <= 12 && k < DaysInMonth(2022, m)
    requires i < RangeLength && DateRange()[i] == Date(2022, m, 1 + k)
    ensures i == DaysBeforeMonth(2022, m) + k
  {
    var j := DaysBeforeMonth(2022, m) + k;
    DayOf2022(j, m, k);
    if i < j {
      DaysFromIncreasing(RangeStart, RangeLength, i, j);
    } else if i > j {
      DaysFromIncreasing(RangeStart, RangeLength, j, i);
    }
  }

  /** Days listed later are strictly later: the range has no repeated day. */
  lemma DaysFromIncreasing(start: Date, n: nat, i: nat, j: nat)
    requires Valid(start) && i < j < n
    ensures Before(DaysFrom(start, n)[i], DaysFrom(start, n)[j])
  {
    AdvanceAdd(start, i, j - i);
  }

  /** Every day of the range lies between its two ends. */
  lemma DateRangeBounds(i: nat)
    requires i < RangeLength
    ensures Valid(DateRange()[i])
    ensures !Before(DateRange()[i], RangeStart) && !Before(RangeEnd, DateRange()[i])
  {
    RangeEnds();
    if i < RangeLength - 1 {
      DaysFromIncreasing(RangeStart, RangeLength, i, RangeLength - 1);
    }
  }

  /** Every valid day between `start` and `n` days later is reached within `n` steps. */
  lemma {:induction false} AdvanceCovers(start: Date, n: nat, e: Date)
    requires Valid(start) && Valid(e)
    requires !Before(e, start) && !Before(Advance(start, n), e)
    ensures exists k :: 0 <= k <= n && Advance(start, k) == e
  {
    if n == 0 {
      assert Advance(start, 0) == e;
    } else if Advance(start, n) == e {
    } else {
      var prev := Advance(start, n - 1);
      if Before(prev, e) {
        NextDayIsNext(prev, e);
      }
      AdvanceCovers(start, n - 1, e);
    }
  }

  /** No gaps: every valid day from 2022-01-01 to 2024-12-31 is in the range. */
  lemma DateRangeCovers(e: Date)
    requires Valid(e) && !Before(e, RangeStart) && !Before(RangeEnd, e)
    ensures exists i :: 0 <= i < RangeLength && DateRange()[i] == e
  {
    RangeEnds();
    AdvanceCovers(RangeStart, RangeLength - 1, e);
    var k :| 0 <= k <= RangeLength - 1 && Advance(RangeStart, k) == e;
    assert DateRange()[k] == e;
  }
}
