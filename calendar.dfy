/**
 * The part of Python's datetime.date the join-now reply uses: replace(day=...), adding
 * a timedelta of whole days, and the strftime fields %-d and %B (English month names).
 */
module Calendar {
  import opened Values

  datatype Date = Date(year: int, month: int, day: int)

  /** The time of day datetime.datetime.now() adds to a date. */
  datatype DateTime = DateTime(date: Date, hour: int, minute: int, second: int, microsecond: int)

  /** datetime.MAXYEAR: no date lies after 31 December of this year. */
  const MaxYear := 9999

  /** The Gregorian rule. */
  predicate IsLeapYear(y: int)
  {
    y % 4 == 0 && (y % 100 != 0 || y % 400 == 0)
  }

  function DaysInMonth(y: int, m: int): (n: int)
    requires 1 <= m <= 12
    ensures 28 <= n <= 31
    ensures m == 2 ==> (n == 29 <==> IsLeapYear(y))
  {
    if m == 2 then (if IsLeapYear(y) then 29 else 28)
    else if m == 4 || m == 6 || m == 9 || m == 11 then 30
    else 31
  }

  /** A date Python's datetime.date can hold. */
  predicate ValidDate(d: Date)
  {
    1 <= d.year <= MaxYear && 1 <= d.month <= 12 && 1 <= d.day <= DaysInMonth(d.year, d.month)
  }

  /** The same month on another day; ValueError when the month has no such day. */
  function ReplaceDay(d: Date, day: int): (r: Result<Date>)
    requires ValidDate(d)
    ensures r.Ok? <==> 1 <= day <= DaysInMonth(d.year, d.month)
    ensures r.Ok? ==> ValidDate(r.value) && r.value == Date(d.year, d.month, day)
  {
    if 1 <= day <= DaysInMonth(d.year, d.month) then Ok(Date(d.year, d.month, day)) else Err(ValueError)
  }

  /** The last date Python's datetime.date can hold. */
  const LastDate := Date(MaxYear, 12, 31)

  /** The days of the years before year y, counted from 1 January of year 1. */
  function DaysBeforeYear(y: int): int
  {
    var p := y - 1;
    365 * p + p / 4 - p / 100 + p / 400
  }

  /** The days of the months of year y before month m. */
  function DaysBeforeMonth(y: int, m: int): int
    requires 1 <= m <= 12
  {
    [0, 31, 59, 90, 120, 151, 181, 212, 243, 273, 304, 334][m - 1]
    + (if m > 2 && IsLeapYear(y) then 1 else 0)
  }

  /** The ordinal of a date, as date.toordinal() counts it: 1 January of year 1 is day 1. */
  function DayNumber(d: Date): int
    requires 1 <= d.month <= 12
  {
    DaysBeforeYear(d.year) + DaysBeforeMonth(d.year, d.month) + d.day
  }

  /** A year holds 366 days when it is a leap year and 365 otherwise. */
  lemma YearLength(y: int)
    ensures DaysBeforeYear(y + 1) == DaysBeforeYear(y) + (if IsLeapYear(y) then 366 else 365)
    ensures DaysBeforeMonth(y, 12) + 31 == (if IsLeapYear(y) then 366 else 365)
  {
    MultipleStep(y, 4);
    MultipleStep(y, 100);
    MultipleStep(y, 400);
  }

  /** Going from y - 1 to y, the count of multiples of k grows by one exactly when k divides y. */
  lemma MultipleStep(y: int, k: int)
    requires k == 4 || k == 100 || k == 400
    ensures y / k - (y - 1) / k == if y % k == 0 then 1 else 0
  {
    var q, r := (y - 1) / k, (y - 1) % k;
    assert y - 1 == k * q + r && 0 <= r < k;
    if r == k - 1 {
      assert y == k * (q + 1);
    } else {
      assert y == k * q + (r + 1) && 0 <= r + 1 < k;
    }
  }

  /** Later years start later. */
  lemma DaysBeforeYearGrows(y1: int, y2: int)
    requires y1 <= y2
    ensures DaysBeforeYear(y1) <= DaysBeforeYear(y2)
  {
    var p1, p2 := y1 - 1, y2 - 1;
    assert p2 / 100 - p1 / 100 <= p2 - p1;
  }

  /** No valid date comes after the last one. */
  lemma DayNumberAtMostLast(d: Date)
    requires ValidDate(d)
    ensures DayNumber(d) <= DayNumber(LastDate)
    ensures DayNumber(d) == DayNumber(LastDate) <==> d == LastDate
  {
    YearLength(d.year);
    YearLength(MaxYear);
    if d.year < MaxYear {
      DaysBeforeYearGrows(d.year + 1, MaxYear);
    }
  }

  /** The next calendar day; OverflowError after the last representable date. */
  function NextDay(d: Date): (r: Result<Date>)
    requires ValidDate(d)
    ensures r.Err? <==> d == LastDate
    ensures r.Err? ==> r.error == OverflowError
    ensures r.Ok? ==> ValidDate(r.value)
  {
    if d.day < DaysInMonth(d.year, d.month) then Ok(Date(d.year, d.month, d.day + 1))
    else if d.month < 12 then Ok(Date(d.year, d.month + 1, 1))
    else if d.year < MaxYear then Ok(Date(d.year + 1, 1, 1))
    else Err(OverflowError)
  }

  /** The next day is the date whose ordinal is one more. */
  lemma NextDayCounts(d: Date)
    requires ValidDate(d)
    ensures NextDay(d).Ok? ==> DayNumber(NextDay(d).value) == DayNumber(d) + 1
  {
    YearLength(d.year);
  }

  /** The date n days later, one day at a time; OverflowError past the last date. */
  function AddDays(d: Date, n: nat): (r: Result<Date>)
    requires ValidDate(d)
    ensures r.Err? ==> r.error == OverflowError
    ensures r.Ok? ==> ValidDate(r.value)
    decreases n
  {
    if n == 0 then Ok(d)
    else
      var next :- NextDay(d);
      AddDays(next, n - 1)
  }

  /**
   * Adding n days gives the date whose ordinal is n more, and raises exactly when that
   * ordinal lies past the last date.
   */
  lemma {:induction false} AddDaysCounts(d: Date, n: nat)
    requires ValidDate(d)
    ensures AddDays(d, n).Err? <==> DayNumber(d) + n > DayNumber(LastDate)
    ensures AddDays(d, n).Ok? ==> DayNumber(AddDays(d, n).value) == DayNumber(d) + n
    decreases n
  {
    DayNumberAtMostLast(d);
    if n > 0 && d != LastDate {
      NextDayCounts(d);
      AddDaysCounts(NextDay(d).value, n - 1);
    }
  }

  /** The month that follows m, December wrapping round to January. */
  function FollowingMonth(m: int): int
    requires 1 <= m <= 12
  {
    if m == 12 then 1 else m + 1
  }

  /**
   * today.replace(day=28) + timedelta(days=4) lands in the following calendar month, on
   * day 32 minus the length of the current month, in every month of every year but the
   * last December Python can represent, where the addition overflows.
   */
  lemma NextMonthFromThe28th(today: Date)
    requires ValidDate(today)
    ensures ReplaceDay(today, 28) == Ok(Date(today.year, today.month, 28))
    ensures var r := AddDays(Date(today.year, today.month, 28), 4);
      if today.year == MaxYear && today.month == 12 then r == Err(OverflowError)
      else
        && r.Ok?
        && r.value.month == FollowingMonth(today.month)
        && r.value.year == (if today.month == 12 then today.year + 1 else today.year)
        && r.value.day == 32 - DaysInMonth(today.year, today.month)
        && 1 <= r.value.day <= 4
  {
    var y, m := today.year, today.month;
    var len := DaysInMonth(y, m);
    var d0 := Date(y, m, 28);
    if y == MaxYear && m == 12 {
      var d1 := Date(y, m, 29);
      var d2 := Date(y, m, 30);
      var d3 := Date(y, m, 31);
      assert NextDay(d0) == Ok(d1) && NextDay(d1) == Ok(d2) && NextDay(d2) == Ok(d3);
      assert NextDay(d3) == Err(OverflowError);
      assert AddDays(d3, 1) == Err(OverflowError);
      assert AddDays(d2, 2) == Err(OverflowError);
      assert AddDays(d1, 3) == Err(OverflowError);
    } else {
      var ny, nm := if m == 12 then y + 1 else y, FollowingMonth(m);
      // The first day of the following month, then four steps from the 28th.
      var first := Date(ny, nm, 1);
      assert ValidDate(first);
      if len == 28 {
        assert NextDay(d0) == Ok(first);
        assert AddDays(Date(ny, nm, 3), 1) == Ok(Date(ny, nm, 4));
        assert AddDays(Date(ny, nm, 2), 2) == Ok(Date(ny, nm, 4));
        assert AddDays(first, 3) == Ok(Date(ny, nm, 4));
      } else if len == 29 {
        var d1 := Date(y, m, 29);
        assert NextDay(d0) == Ok(d1) && NextDay(d1) == Ok(first);
        assert AddDays(Date(ny, nm, 2), 1) == Ok(Date(ny, nm, 3));
        assert AddDays(first, 2) == Ok(Date(ny, nm, 3));
        assert AddDays(d1, 3) == Ok(Date(ny, nm, 3));
      } else if len == 30 {
        var d1 := Date(y, m, 29);
        var d2 := Date(y, m, 30);
        assert NextDay(d0) == Ok(d1) && NextDay(d1) == Ok(d2) && NextDay(d2) == Ok(first);
        assert AddDays(first, 1) == Ok(Date(ny, nm, 2));
        assert AddDays(d2, 2) == Ok(Date(ny, nm, 2));
        assert AddDays(d1, 3) == Ok(Date(ny, nm, 2));
      } else {
        var d1 := Date(y, m, 29);
        var d2 := Date(y, m, 30);
        var d3 := Date(y, m, 31);
        assert NextDay(d0) == Ok(d1) && NextDay(d1) == Ok(d2) && NextDay(d2) == Ok(d3);
        assert NextDay(d3) == Ok(first);
        assert AddDays(d3, 1) == Ok(first);
        assert AddDays(d2, 2) == Ok(first);
        assert AddDays(d1, 3) == Ok(first);
      }
    }
  }

  /** strftime("%B") in the C locale. */
  function MonthName(m: int): string
    requires 1 <= m <= 12
  {
    ["January", "February", "March", "April", "May", "June", "July",
     "August", "September", "October", "November", "December"][m - 1]
  }

  /** No two months share a name, so a name tells its month. */
  lemma MonthNamesDistinct(m1: int, m2: int)
    requires 1 <= m1 <= 12 && 1 <= m2 <= 12
    ensures MonthName(m1) == MonthName(m2) <==> m1 == m2
  {
  }

  /** The following month is always named differently from this one. */
  lemma FollowingMonthNamedOtherwise(m: int)
    requires 1 <= m <= 12
    ensures MonthName(FollowingMonth(m)) != MonthName(m)
  {
    MonthNamesDistinct(FollowingMonth(m), m);
  }
}
