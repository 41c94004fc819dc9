/**
 The Julian Day conversions of src/time/Date.cpp.

 Both conversions are closed forms made of nested integer divisions. They are compared here
 with the calendar itself: month lengths, the Gregorian leap rule (section 3.2.1 of
 ISO 8601:2004) and counting one day at a time.
 */
module Date {
  import opened CArithmetic

  datatype YearMonthDay = YearMonthDay(year: int, month: int, day: int)

  // ---------- The two conversions ----------

  function GetJulianDayNumber(ymd: YearMonthDay): int
  {
    var a := TruncDiv(14 - ymd.month, 12);
    var y := ymd.year + 4800 - a;
    var m := ymd.month + 12 * a - 3;
    ymd.day + TruncDiv(153 * m + 2, 5) + y * 365 + TruncDiv(y, 4) - TruncDiv(y, 100) + TruncDiv(y, 400) - 32045
  }

  function GetYearMonthDay(julianDayNumber: int): YearMonthDay
  {
    var a := julianDayNumber + 32044;
    var b := TruncDiv(4 * a + 3, 146097);
    YearInCentury(b, a - TruncDiv(b * 146097, 4))
  }

  /** The middle steps of GetYearMonthDay, from the century and the day in it. */
  function YearInCentury(b: int, c: int): YearMonthDay
  {
    var d := TruncDiv(4 * c + 3, 1461);
    MonthAndDay(b * 100 + d, c - TruncDiv(1461 * d, 4))
  }

  /** The last steps of GetYearMonthDay, from the year that begins in March and the day in it. */
  function MonthAndDay(y: int, e: int): YearMonthDay
  {
    var m := TruncDiv(5 * e + 2, 153);
    YearMonthDay(y - 4800 + TruncDiv(m, 10),
                 m + 3 - 12 * TruncDiv(m, 10),
                 e - TruncDiv(153 * m + 2, 5) + 1)
  }

  function WeekDay(julianDayNumber: int): int
  {
    TruncMod(julianDayNumber + 1, 7)
  }

  // ---------- The calendar ----------

  predicate IsLeapYear(year: int)
  {
    year % 4 == 0 && (year % 100 != 0 || year % 400 == 0)
  }

  function DaysInMonth(year: int, month: int): (days: int)
    requires 1 <= month <= 12
    ensures 28 <= days <= 31
  {
    if month == 2 then (if IsLeapYear(year) then 29 else 28)
    else if month in {4, 6, 9, 11} then 30
    else 31
  }

  predicate IsCalendarDate(ymd: YearMonthDay)
  {
    1 <= ymd.month <= 12 && 1 <= ymd.day <= DaysInMonth(ymd.year, ymd.month)
  }

  /** Calendar order. */
  predicate Before(x: YearMonthDay, y: YearMonthDay)
  {
    x.year < y.year || (x.year == y.year && (x.month < y.month || (x.month == y.month && x.day < y.day)))
  }

  /** The first day both conversions agree on. */
  const FIRST_DAY := YearMonthDay(-4800, 3, 1)
  const FIRST_JULIAN_DAY := -32044

  function NextDay(ymd: YearMonthDay): YearMonthDay
    requires IsCalendarDate(ymd)
  {
    if ymd.day < DaysInMonth(ymd.year, ymd.month) then ymd.(day := ymd.day + 1)
    else if ymd.month < 12 then YearMonthDay(ymd.year, ymd.month + 1, 1)
    else YearMonthDay(ymd.year + 1, 1, 1)
  }

  /** The calendar counted by hand: the n-th day after FIRST_DAY. */
  function DayAfterFirst(n: nat): (ymd: YearMonthDay)
    ensures IsCalendarDate(ymd) && !Before(ymd, FIRST_DAY)
  {
    if n == 0 then FIRST_DAY else NextDay(DayAfterFirst(n - 1))
  }

  // ---------- Years that begin in March ----------

  function MarchYear(ymd: YearMonthDay): int
  {
    ymd.year + 4800 - (if ymd.month <= 2 then 1 else 0)
  }

  function MarchMonth(ymd: YearMonthDay): int
  {
    if ymd.month <= 2 then ymd.month + 9 else ymd.month - 3
  }

  function MonthStart(m: int): int
  {
    (153 * m + 2) / 5
  }

  function DayOfMarchYear(ymd: YearMonthDay): int
  {
    MonthStart(MarchMonth(ymd)) + ymd.day - 1
  }

  function YearStart(y: int): int
  {
    365 * y + y / 4 - y / 100 + y / 400
  }

  function MarchYearLength(y: int): int
  {
    if IsLeapYear(y + 1) then 366 else 365
  }

  lemma MarchForm(ymd: YearMonthDay)
    requires IsCalendarDate(ymd)
    ensures 0 <= MarchMonth(ymd) <= 11
    ensures 0 <= DayOfMarchYear(ymd) < MarchYearLength(MarchYear(ymd))
    ensures MonthStart(MarchMonth(ymd)) <= DayOfMarchYear(ymd) < MonthStart(MarchMonth(ymd) + 1)
    ensures 0 <= MarchYear(ymd) <==> !Before(ymd, FIRST_DAY)
    ensures 0 <= MarchYear(ymd) ==>
              GetJulianDayNumber(ymd) == YearStart(MarchYear(ymd)) + DayOfMarchYear(ymd) - 32044
  {
    var leap := IsLeapYear(ymd.year);
    assert ymd.month <= 2 ==> (leap <==> IsLeapYear(MarchYear(ymd) + 1)) by { LeapShift(ymd.year); }
    assert TruncDiv(14 - ymd.month, 12) == if ymd.month <= 2 then 1 else 0;
  }

  lemma LeapShift(year: int)
    ensures IsLeapYear(year) == IsLeapYear(year + 4800)
  {
    var q4, r4 := year / 4, year % 4;
    assert (year + 4800) % 4 == r4 by { assert year + 4800 == 4 * (q4 + 1200) + r4; }
    HundredShift(year);
  }

  lemma HundredShift(year: int)
    ensures (year + 4800) % 100 == year % 100
    ensures (year + 4800) % 400 == year % 400
  {
    var q, r := year / 100, year % 100;
    assert (year + 4800) % 100 == r by { assert year + 4800 == 100 * (q + 48) + r; }
    var p, s := year / 400, year % 400;
    assert (year + 4800) % 400 == s by { assert year + 4800 == 400 * (p + 12) + s; }
  }

  /** A year that begins in March ends where the next one begins. */
  lemma YearStartStep(y: int)
    ensures YearStart(y + 1) == YearStart(y) + MarchYearLength(y)
  {
    FloorStep(y, 4);
    FloorStep(y, 100);
    FloorStep(y, 400);
    assert (y + 1) % 400 == 0 ==> (y + 1) % 100 == 0;
    assert (y + 1) % 100 == 0 ==> (y + 1) % 4 == 0;
  }

  lemma FloorStep(y: int, k: int)
    requires k in {4, 100, 400}
    ensures (y + 1) / k == y / k + if (y + 1) % k == 0 then 1 else 0
  {
  }

  lemma {:induction false} YearStartMonotone(y: int, z: int)
    requires y <= z
    ensures YearStart(y) + 365 * (z - y) <= YearStart(z)
    decreases z - y
  {
    if y < z {
      YearStartMonotone(y, z - 1);
      YearStartStep(z - 1);
    }
  }

  // ---------- GetYearMonthDay inverts GetJulianDayNumber ----------

  /** Splitting a year number into centuries splits the day count the same way. */
  lemma CenturySplit(b: nat, d: nat)
    requires d < 100
    ensures YearStart(100 * b + d) == (146097 * b) / 4 + (1461 * d) / 4
  {
    assert (100 * b + d) / 100 == b;
    assert (100 * b + d) / 4 == 25 * b + d / 4;
    assert (100 * b + d) / 400 == b / 4 by {
      var q, r := b / 4, b % 4;
      assert 100 * b + d == 400 * q + (100 * r + d);
    }
    assert (146097 * b) / 4 == 36524 * b + b / 4;
    assert (1461 * d) / 4 == 365 * d + d / 4;
  }

  lemma CenturyYearLength(b: nat, d: nat)
    requires d < 100
    ensures MarchYearLength(100 * b + d) ==
              if d < 99 then (if d % 4 == 3 then 366 else 365) else if b % 4 == 3 then 366 else 365
  {
    if d < 99 {
      assert 100 * b + (d + 1) == 100 * b + d + 1;
      WithinCentury(b, d + 1);
    } else {
      assert 100 * (b + 1) == 100 * b + d + 1;
      CenturyYear(b + 1);
    }
  }

  lemma WithinCentury(b: nat, r: nat)
    requires 0 < r < 100
    ensures IsLeapYear(100 * b + r) <==> r % 4 == 0
  {
    RemainderOfCentury(b, r);
    RemainderOfFour(b, r);
  }

  lemma RemainderOfCentury(b: nat, r: nat)
    requires r < 100
    ensures (100 * b + r) % 100 == r
  {
  }

  lemma RemainderOfFour(b: nat, r: nat)
    ensures (100 * b + r) % 4 == r % 4
  {
    var q, s := r / 4, r % 4;
    assert 100 * b + r == 4 * (25 * b + q) + s;
  }

  lemma CenturyYear(b: nat)
    ensures IsLeapYear(100 * b) <==> b % 4 == 0
  {
    assert (100 * b) % 100 == 0;
    assert (100 * b) % 4 == 0 by { assert 100 * b == 4 * (25 * b); }
    var q, r := b / 4, b % 4;
    assert (100 * b) % 400 == 100 * r by { assert 100 * b == 400 * q + 100 * r; }
  }

  /** A day of a century lies before the next century begins. */
  lemma DayOfCentury(b: nat, d: nat, e: nat)
    requires d < 100 && e < MarchYearLength(100 * b + d)
    ensures (1461 * d) / 4 + e < (146097 * (b + 1)) / 4 - (146097 * b) / 4
    ensures e < (1461 * (d + 1)) / 4 - (1461 * d) / 4
  {
    CenturyYearLength(b, d);
    assert (146097 * (b + 1)) / 4 == 36524 * (b + 1) + (b + 1) / 4;
    assert (146097 * b) / 4 == 36524 * b + b / 4;
    assert (1461 * d) / 4 == 365 * d + d / 4;
    assert (1461 * (d + 1)) / 4 == 365 * (d + 1) + (d + 1) / 4;
  }

  /** The century and the year in it are recovered one division at a time. */
  lemma DivisionChain(b: nat, d: nat, e: nat)
    requires d < 100 && e < MarchYearLength(100 * b + d)
    ensures (4 * ((146097 * b) / 4 + (1461 * d) / 4 + e) + 3) / 146097 == b
    ensures (4 * ((1461 * d) / 4 + e) + 3) / 1461 == d
  {
    DayOfCentury(b, d, e);
    assert 146097 * b <= 4 * ((146097 * b) / 4 + (1461 * d) / 4 + e) + 3 < 146097 * (b + 1);
    assert 1461 * d <= 4 * ((1461 * d) / 4 + e) + 3 < 1461 * (d + 1);
  }

  lemma MonthChain(e: nat)
    requires e < 366
    ensures var m := (5 * e + 2) / 153;
            0 <= m <= 11 && MonthStart(m) <= e < MonthStart(m + 1)
    ensures forall m | 0 <= m <= 11 && MonthStart(m) <= e < MonthStart(m + 1) :: m == (5 * e + 2) / 153
  {
  }

  /** The year that begins in March and the day in it determine the calendar date. */
  function FromMarchForm(y: int, e: int): YearMonthDay
  {
    var m := (5 * e + 2) / 153;
    YearMonthDay(y - 4800 + (if m >= 10 then 1 else 0), (if m >= 10 then m - 9 else m + 3), e - MonthStart(m) + 1)
  }

  lemma YearInCenturyOf(b: nat, d: nat, e: nat)
    requires e < 366 && (4 * ((1461 * d) / 4 + e) + 3) / 1461 == d
    ensures YearInCentury(b, (1461 * d) / 4 + e) == FromMarchForm(100 * b + d, e)
  {
    MonthAndDayOf(100 * b + d, e);
    assert TruncDiv(4 * ((1461 * d) / 4 + e) + 3, 1461) == d;
    assert TruncDiv(1461 * d, 4) == (1461 * d) / 4;
  }

  lemma CenturyOf(j: int, b: nat, c: nat)
    requires j + 32044 == (146097 * b) / 4 + c
    requires (4 * ((146097 * b) / 4 + c) + 3) / 146097 == b
    ensures GetYearMonthDay(j) == YearInCentury(b, c)
  {
    assert TruncDiv(4 * (j + 32044) + 3, 146097) == b;
    assert TruncDiv(b * 146097, 4) == (146097 * b) / 4;
  }

  lemma MonthAndDayOf(y: int, e: nat)
    requires e < 366
    ensures MonthAndDay(y, e) == FromMarchForm(y, e)
  {
    var m := (5 * e + 2) / 153;
    assert 0 <= m <= 11;
    assert TruncDiv(m, 10) == if m >= 10 then 1 else 0;
  }

  lemma GetYearMonthDayOf(j: int, y: nat, e: nat)
    requires e < MarchYearLength(y) && j == YearStart(y) + e - 32044
    ensures GetYearMonthDay(j) == FromMarchForm(y, e)
  {
    var b, d := SplitYear(y);
    var c := (1461 * d) / 4 + e;
    DivisionChain(b, d, e);
    CenturyOf(j, b, c);
    YearInCenturyOf(b, d, e);
  }

  lemma SplitYear(y: nat) returns (b: nat, d: nat)
    ensures d < 100 && y == 100 * b + d
    ensures YearStart(y) == (146097 * b) / 4 + (1461 * d) / 4
  {
    b, d := y / 100, y % 100;
    CenturySplit(b, d);
  }

  lemma FromMarchFormIsDate(y: nat, e: nat)
    requires e < MarchYearLength(y)
    ensures var ymd := FromMarchForm(y, e);
            IsCalendarDate(ymd) && MarchYear(ymd) == y && DayOfMarchYear(ymd) == e
  {
    MonthChain(e);
    LeapShift(FromMarchForm(y, e).year);
  }

  lemma FromMarchFormInverse(ymd: YearMonthDay)
    requires IsCalendarDate(ymd)
    ensures FromMarchForm(MarchYear(ymd), DayOfMarchYear(ymd)) == ymd
  {
    MarchForm(ymd);
    MonthChain(DayOfMarchYear(ymd));
    var m := MarchMonth(ymd);
    assert 0 <= m <= 11 && MonthStart(m) <= DayOfMarchYear(ymd) < MonthStart(m + 1);
  }

  /** Every day count from 0 on falls in exactly one year that begins in March. */
  lemma {:induction false} FindMarchYear(a: nat) returns (y: nat, e: nat)
    ensures a == YearStart(y) + e && e < MarchYearLength(y)
  {
    if a == 0 {
      y, e := 0, 0;
    } else {
      y, e := FindMarchYear(a - 1);
      YearStartStep(y);
      if e + 1 < MarchYearLength(y) {
        e := e + 1;
      } else {
        y, e := y + 1, 0;
      }
    }
  }

  /**
   Main result: a calendar date survives the two conversions if and only if it is
   1 March -4800 or later. Earlier dates fail because C++ division truncates.
   */
  lemma DateRoundTrip(ymd: YearMonthDay)
    requires IsCalendarDate(ymd)
    ensures GetYearMonthDay(GetJulianDayNumber(ymd)) == ymd <==> !Before(ymd, FIRST_DAY)
  {
    MarchForm(ymd);
    if !Before(ymd, FIRST_DAY) {
      GetYearMonthDayOf(GetJulianDayNumber(ymd), MarchYear(ymd), DayOfMarchYear(ymd));
      FromMarchFormInverse(ymd);
    } else {
      var j := GetJulianDayNumber(ymd);
      JulianDayRoundTrip(j);
    }
  }

  /**
   Main result: a Julian Day Number becomes a calendar date if and only if it is at least
   -32044, and then the date is 1 March -4800 or later and maps back to it.
   */
  lemma JulianDayRoundTrip(j: int)
    ensures IsCalendarDate(GetYearMonthDay(j)) <==> FIRST_JULIAN_DAY <= j
    ensures FIRST_JULIAN_DAY <= j ==>
              GetJulianDayNumber(GetYearMonthDay(j)) == j && !Before(GetYearMonthDay(j), FIRST_DAY)
  {
    if FIRST_JULIAN_DAY <= j {
      var y, e := FindMarchYear(j + 32044);
      GetYearMonthDayOf(j, y, e);
      FromMarchFormRoundTrip(y, e);
    } else {
      BeforeFirstJulianDay(j);
    }
  }

  lemma FromMarchFormRoundTrip(y: nat, e: nat)
    requires e < MarchYearLength(y)
    ensures var ymd := FromMarchForm(y, e);
            && IsCalendarDate(ymd) && !Before(ymd, FIRST_DAY)
            && GetJulianDayNumber(ymd) == YearStart(y) + e - 32044
  {
    FromMarchFormIsDate(y, e);
    MarchForm(FromMarchForm(y, e));
  }

  /** Below -32044 truncation makes the day of the month zero or negative. */
  lemma BeforeFirstJulianDay(j: int)
    requires j < FIRST_JULIAN_DAY
    ensures GetYearMonthDay(j).day <= 0
  {
    var a := j + 32044;
    var b := TruncDiv(4 * a + 3, 146097);
    var c := a - TruncDiv(b * 146097, 4);
    var d := TruncDiv(4 * c + 3, 1461);
    var e := c - TruncDiv(1461 * d, 4);
    var m := TruncDiv(5 * e + 2, 153);
    assert b <= 0 && c < 0;
    assert d <= 0 && e < 0;
    assert m <= 0;
  }

  // ---------- Julian order is calendar order ----------

  /** Main result: the next calendar day has the next Julian Day Number. */
  lemma NextDayIsNextNumber(ymd: YearMonthDay)
    requires IsCalendarDate(ymd) && !Before(ymd, FIRST_DAY)
    ensures IsCalendarDate(NextDay(ymd)) && !Before(NextDay(ymd), FIRST_DAY)
    ensures GetJulianDayNumber(NextDay(ymd)) == GetJulianDayNumber(ymd) + 1
  {
    MarchForm(ymd);
    MarchForm(NextDay(ymd));
    NextDayInMarchForm(ymd);
    YearStartStep(MarchYear(ymd));
  }

  lemma NextDayInMarchForm(ymd: YearMonthDay)
    requires IsCalendarDate(ymd)
    ensures IsCalendarDate(NextDay(ymd))
    ensures var y, e := MarchYear(ymd), DayOfMarchYear(ymd);
            if e + 1 < MarchYearLength(y)
            then MarchYear(NextDay(ymd)) == y && DayOfMarchYear(NextDay(ymd)) == e + 1
            else MarchYear(NextDay(ymd)) == y + 1 && DayOfMarchYear(NextDay(ymd)) == 0
  {
    LeapShift(ymd.year);
  }

  /** Counting days by hand and the closed forms agree on every day from the first. */
  lemma CountingAgrees(n: nat)
    ensures GetJulianDayNumber(DayAfterFirst(n)) == FIRST_JULIAN_DAY + n
    ensures GetYearMonthDay(FIRST_JULIAN_DAY + n) == DayAfterFirst(n)
  {
    CountedNumber(n);
    DateRoundTrip(DayAfterFirst(n));
  }

  lemma {:induction false} CountedNumber(n: nat)
    ensures GetJulianDayNumber(DayAfterFirst(n)) == FIRST_JULIAN_DAY + n
  {
    if n > 0 {
      CountedNumber(n - 1);
      var previous := DayAfterFirst(n - 1);
      NextDayIsNextNumber(previous);
      assert DayAfterFirst(n) == NextDay(previous);
    }
  }

  /** Comparing Julian Day Numbers compares dates. */
  lemma JulianOrderIsDateOrder(x: YearMonthDay, y: YearMonthDay)
    requires IsCalendarDate(x) && !Before(x, FIRST_DAY)
    requires IsCalendarDate(y) && !Before(y, FIRST_DAY)
    ensures Before(x, y) <==> GetJulianDayNumber(x) < GetJulianDayNumber(y)
  {
    if Before(x, y) {
      BeforeIsSmaller(x, y);
    } else if x != y {
      BeforeIsSmaller(y, x);
    }
  }

  lemma BeforeIsSmaller(x: YearMonthDay, y: YearMonthDay)
    requires IsCalendarDate(x) && !Before(x, FIRST_DAY) && IsCalendarDate(y) && Before(x, y)
    ensures GetJulianDayNumber(x) < GetJulianDayNumber(y)
  {
    MarchForm(x);
    MarchForm(y);
    if MarchYear(x) < MarchYear(y) {
      YearStartStep(MarchYear(x));
      YearStartMonotone(MarchYear(x) + 1, MarchYear(y));
    } else {
      assert MarchYear(x) == MarchYear(y);
      assert MarchMonth(x) <= MarchMonth(y);
    }
  }

  // ---------- Weekdays and machine integers ----------

  /** The Unix epoch, 1 January 1970, is Julian day 2440588. */
  lemma EpochNumber()
    ensures GetJulianDayNumber(YearMonthDay(1970, 1, 1)) == 2440588
  {
    assert TruncDiv(14 - 1, 12) == 1 && TruncDiv(153 * 10 + 2, 5) == 306;
    assert TruncDiv(6769, 4) == 1692 && TruncDiv(6769, 100) == 67 && TruncDiv(6769, 400) == 16;
  }

  /** From day -1 on the weekday is in range and cycles once every seven days. */
  lemma WeekDayCycle(j: int)
    requires -1 <= j
    ensures 0 <= WeekDay(j) <= 6
    ensures WeekDay(j + 1) == if WeekDay(j) == 6 then 0 else WeekDay(j) + 1
    ensures WeekDay(j + 7) == WeekDay(j)
  {
  }

  /** The epoch was a Thursday, Sunday being 0, and the days of the week follow each other from there. */
  lemma {:induction false} WeekDaysFromEpoch(n: nat)
    ensures WeekDay(GetJulianDayNumber(YearMonthDay(1970, 1, 1)) + n) == (4 + n) % 7
  {
    EpochNumber();
    if n == 0 {
      assert WeekDay(2440588) == 4;
    } else {
      WeekDaysFromEpoch(n - 1);
      WeekDayCycle(2440588 + (n - 1));
    }
  }

  predicate FitsInt32(x: int) { -0x8000_0000 <= x < 0x8000_0000 }

  /** Every intermediate value GetYearMonthDay computes fits a 32-bit int. */
  predicate NoOverflow(j: int)
  {
    var a := j + 32044;
    var b := TruncDiv(4 * a + 3, 146097);
    var c := a - TruncDiv(b * 146097, 4);
    var d := TruncDiv(4 * c + 3, 1461);
    var e := c - TruncDiv(1461 * d, 4);
    var m := TruncDiv(5 * e + 2, 153);
    && FitsInt32(a) && FitsInt32(4 * a) && FitsInt32(4 * a + 3)
    && FitsInt32(b * 146097) && FitsInt32(c) && FitsInt32(4 * c + 3)
    && FitsInt32(1461 * d) && FitsInt32(e) && FitsInt32(5 * e + 2) && FitsInt32(153 * m + 2)
    && FitsInt32(b * 100 + d - 4800 + 1)
  }

  /** From the first day on, 32-bit arithmetic is exact if and only if 4 * a + 3 fits. */
  lemma NoOverflowRange(j: int)
    requires FIRST_JULIAN_DAY <= j
    ensures NoOverflow(j) <==> j <= 536_838_867
  {
  }

  /** Every intermediate value GetJulianDayNumber computes, from left to right, fits a 32-bit int. */
  predicate NumberNoOverflow(ymd: YearMonthDay)
  {
    var a := TruncDiv(14 - ymd.month, 12);
    var m := ymd.month + 12 * a - 3;
    && FitsInt32(ymd.year + 4800) && FitsInt32(153 * m + 2)
    && SumsFit(ymd.year + 4800 - a, ymd.day + TruncDiv(153 * m + 2, 5))
  }

  predicate SumsFit(y: int, days: int)
  {
    var common := days + y * 365;
    var fourth := common + TruncDiv(y, 4);
    var hundredth := fourth - TruncDiv(y, 100);
    var last := hundredth + TruncDiv(y, 400);
    && FitsInt32(y) && FitsInt32(days) && FitsInt32(y * 365) && FitsInt32(common) && FitsInt32(fourth)
    && FitsInt32(hundredth) && FitsInt32(last) && FitsInt32(last - 32045)
  }

  const LAST_NUMBERED_DAY := YearMonthDay(5874689, 12, 15)

  lemma LeapTerms(y: nat)
    ensures 0 <= y / 400 <= y / 100 <= y / 4 <= y
  {
  }

  /** The largest of the sums is the one with the leap days every fourth year. */
  lemma LargestSum(y: nat, days: int)
    requires 1 <= days <= 366
    ensures SumsFit(y, days) <==> days + y * 365 + y / 4 < 0x8000_0000
  {
    LeapTerms(y);
  }

  lemma NumberParts(ymd: YearMonthDay)
    requires 1 <= ymd.month <= 12
    ensures NumberNoOverflow(ymd) <==> FitsInt32(ymd.year + 4800) && SumsFit(MarchYear(ymd), DayOfMarchYear(ymd) + 1)
  {
    assert TruncDiv(14 - ymd.month, 12) == if ymd.month <= 2 then 1 else 0;
  }

  lemma MarchBounds(ymd: YearMonthDay)
    requires IsCalendarDate(ymd) && !Before(ymd, FIRST_DAY)
    ensures 0 <= MarchYear(ymd) && 0 <= DayOfMarchYear(ymd) < 366
    ensures MarchYear(ymd) <= ymd.year + 4800 <= MarchYear(ymd) + 1
  {
    MarchForm(ymd);
  }

  lemma OverflowInMarchForm(ymd: YearMonthDay)
    requires IsCalendarDate(ymd) && !Before(ymd, FIRST_DAY)
    ensures NumberNoOverflow(ymd) <==>
              DayOfMarchYear(ymd) + 1 + MarchYear(ymd) * 365 + MarchYear(ymd) / 4 < 0x8000_0000
  {
    NumberParts(ymd);
    MarchBounds(ymd);
    LargestSum(MarchYear(ymd), DayOfMarchYear(ymd) + 1);
  }

  /** The leap days added before the centuries are taken away overflow first, after 15 December 5874689. */
  lemma NumberNoOverflowRange(ymd: YearMonthDay)
    requires IsCalendarDate(ymd) && !Before(ymd, FIRST_DAY)
    ensures NumberNoOverflow(ymd) <==> !Before(LAST_NUMBERED_DAY, ymd)
  {
    MarchBounds(ymd);
    OverflowInMarchForm(ymd);
    assert MarchYear(LAST_NUMBERED_DAY) == 5879489 && DayOfMarchYear(LAST_NUMBERED_DAY) == 289;
  }
}
