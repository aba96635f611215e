/** The timeline's week numbers, with the calendar arithmetic of `Date.UTC`, against ISO 8601. */
module IsoWeek {

  /** A calendar date; months count from 0, as in `Date`. */
  datatype Date = Date(year: int, month: int, day: int)

  predicate IsLeap(y: int) {
    y % 4 == 0 && (y % 100 != 0 || y % 400 == 0)
  }

  function MonthLength(y: int, m: int): int {
    if m == 1 then if IsLeap(y) then 29 else 28
    else if m == 3 || m == 5 || m == 8 || m == 10 then 30
    else 31
  }

  predicate IsDate(d: Date) {
    0 <= d.month < 12 && 1 <= d.day <= MonthLength(d.year, d.month)
  }

  function YearLength(y: int): int {
    if IsLeap(y) then 366 else 365
  }

  /** The days before a month within its year. */
  function MonthStart(y: int, m: int): int
    requires 0 <= m <= 12
    decreases m
  {
    if m == 0 then 0 else MonthStart(y, m - 1) + MonthLength(y, m - 1)
  }

  /** The days before a year, counted from 1 January of year 1, which was a Monday. */
  function YearStart(y: int): int {
    365 * (y - 1) + (y - 1) / 4 - (y - 1) / 100 + (y - 1) / 400
  }

  function DayNumber(d: Date): int
    requires 0 <= d.month < 12
  {
    YearStart(d.year) + MonthStart(d.year, d.month) + d.day - 1
  }

  /** Each day's number is one more than the last day's, over the ends of months and years. */
  lemma NextDay(d: Date)
    requires IsDate(d)
    ensures var e := if d.day < MonthLength(d.year, d.month) then Date(d.year, d.month, d.day + 1)
                     else if d.month < 11 then Date(d.year, d.month + 1, 1)
                     else Date(d.year + 1, 0, 1);
            IsDate(e) && DayNumber(e) == DayNumber(d) + 1
  {
    hide YearStart;
    MonthsMakeYear(d.year);
    YearStartNext(d.year);
    NoMonths(d.year + 1);
  }

  lemma MonthsMakeYear(y: int)
    ensures MonthStart(y, 12) == YearLength(y)
  {
    assert MonthStart(y, 3) == (if IsLeap(y) then 91 else 90);
    assert MonthStart(y, 6) == MonthStart(y, 3) + 91;
    assert MonthStart(y, 9) == MonthStart(y, 6) + 92;
    assert MonthStart(y, 12) == MonthStart(y, 9) + 92;
  }

  // ---------- the timeline ----------

  /** `Date.UTC`: years 0 to 99 stand for 1900 to 1999; the day may lie outside its month. */
  function Utc(y: int, m: int, day: int): int
    requires 0 <= m < 12
  {
    DayNumber(Date(if 0 <= y <= 99 then 1900 + y else y, m, day))
  }

  /** `getUTCDay`: Sunday is 0. */
  function UtcDay(n: int): int {
    (n + 1) % 7
  }

  /** `getUTCFullYear`, from year 1 on. */
  function UtcYear(n: nat): (y: int)
    ensures y >= 1 && YearStart(y) <= n < YearStart(y + 1)
  {
    YearFrom(n, 1)
  }

  function YearFrom(n: nat, y: int): (r: int)
    requires y >= 1 && YearStart(y) <= n
    ensures r >= y && YearStart(r) <= n < YearStart(r + 1)
    decreases n - YearStart(y)
  {
    YearStartNext(y);
    if n < YearStart(y + 1) then y else YearFrom(n, y + 1)
  }

  lemma YearStartNext(y: int)
    ensures YearStart(y + 1) == YearStart(y) + YearLength(y)
  {
    NextFourth(y - 1);
    NextHundredth(y - 1);
    NextFourHundredth(y - 1);
    Multiples(y);
    Leaping(y);
    YearStartIs(y, y - 1);
    YearStartIs(y + 1, y);
    hide YearStart, YearLength;
  }

  lemma YearStartIs(y: int, before: int)
    requires before == y - 1
    ensures YearStart(y) == 365 * before + before / 4 - before / 100 + before / 400
  {
  }

  lemma Leaping(y: int)
    ensures YearLength(y) ==
              365 + (if y % 4 == 0 then 1 else 0) - (if y % 100 == 0 then 1 else 0) + (if y % 400 == 0 then 1 else 0)
  {
    Multiples(y);
  }

  lemma NextFourth(a: int)
    ensures (a + 1) / 4 == a / 4 + if (a + 1) % 4 == 0 then 1 else 0
  {
  }

  lemma NextHundredth(a: int)
    ensures (a + 1) / 100 == a / 100 + if (a + 1) % 100 == 0 then 1 else 0
  {
  }

  lemma NextFourHundredth(a: int)
    ensures (a + 1) / 400 == a / 400 + if (a + 1) % 400 == 0 then 1 else 0
  {
  }

  lemma Multiples(y: int)
    ensures y % 400 == 0 ==> y % 100 == 0
    ensures y % 100 == 0 ==> y % 4 == 0
  {
  }

  /** `Math.ceil(k / 7)`. */
  function CeilSeventh(k: int): int {
    -((-k) / 7)
  }

  function GetWeekNumber(d: Date): int
    requires IsDate(d) && d.year >= 100
  {
    var sunday0 := UtcDay(Utc(d.year, d.month, d.day));
    var dayOfWeek := if sunday0 == 0 then 7 else sunday0;
    var thursday := Utc(d.year, d.month, d.day + 4 - dayOfWeek);
    LateEnough(d);
    var yearStart := Utc(UtcYear(thursday), 0, 1);
    CeilSeventh(thursday - yearStart + 1)
  }

  lemma LateEnough(d: Date)
    requires IsDate(d) && d.year >= 100
    ensures DayNumber(d) >= YearStart(100) >= 7
  {
    MonthStartBound(d.year, d.month);
    YearStartGrows(100, d.year);
  }

  lemma {:induction false} MonthStartBound(y: int, m: int)
    requires 0 <= m <= 12
    ensures 28 * m <= MonthStart(y, m) <= 31 * m
    decreases m
  {
    if m > 0 { MonthStartBound(y, m - 1); }
  }

  lemma {:induction false} YearStartGrows(x: int, y: int)
    requires x <= y
    ensures YearStart(x) + 365 * (y - x) <= YearStart(y)
    decreases y - x
  {
    hide YearStart;
    if x < y {
      YearStartGrows(x, y - 1);
      YearStartNext(y - 1);
    }
  }

  // ---------- ISO 8601:2004, section 2.2.10 ----------

  /** The week of day `n`, from Monday on, has its year's first Thursday. */
  predicate HasFirstThursday(monday: int)
    requires monday >= 0
  {
    monday + 3 < YearStart(UtcYear(monday + 3)) + 7
  }

  /** Weeks run from Monday to Sunday; the one with a year's first Thursday is its first, and the others count on. */
  function IsoWeekNumber(n: int): int
    requires n >= 0
    decreases n
  {
    var monday := n - n % 7;
    if monday < 7 || HasFirstThursday(monday) then 1 else 1 + IsoWeekNumber(monday - 7)
  }

  lemma UtcYearIs(n: nat, y: int)
    requires y >= 1 && YearStart(y) <= n < YearStart(y + 1)
    ensures UtcYear(n) == y
  {
    var r := UtcYear(n);
    if r < y { YearStartGrows(r + 1, y); }
    if y < r { YearStartGrows(y + 1, r); }
  }

  /** The week's number is the number of its Thursday among the Thursdays of that day's year. */
  lemma {:induction false} IsoByThursday(n: int)
    requires n >= 0
    ensures var thursday := n - n % 7 + 3;
            IsoWeekNumber(n) == (thursday - YearStart(UtcYear(thursday))) / 7 + 1
    decreases n
  {
    hide UtcYear, YearStart;
    var monday := n - n % 7;
    var y := UtcYear(monday + 3);
    if monday < 7 {
      assert monday == 0;
      FirstYear();
      UtcYearIs(3, 1);
    } else if !HasFirstThursday(monday) {
      UtcYearIs(monday - 4, y);
      IsoByThursday(monday - 7);
      WeekBefore(monday);
    }
  }

  lemma FirstYear()
    ensures YearStart(1) == 0 && YearStart(2) == 365
  {
  }

  lemma WeekBefore(monday: int)
    requires monday >= 7 && monday % 7 == 0
    ensures (monday - 7) % 7 == 0
  {
  }

  lemma WeekNumberOfThursday(thursday: int, y: int)
    requires YearStart(y) <= thursday
    ensures CeilSeventh(thursday - YearStart(y) + 1) == (thursday - YearStart(y)) / 7 + 1
  {
  }

  /** 1 to 3 January of year 100, which began on a Friday. */
  lemma FirstDaysOf100(d: Date)
    requires IsDate(d) && d.year >= 100
    ensures DayNumber(d) < YearStart(100) + 3 <==> d.year == 100 && d.month == 0 && d.day <= 3
  {
    MonthStartBound(d.year, d.month);
    if d.year > 100 {
      YearStartGrows(101, d.year);
      YearStartNext(100);
    }
  }

  /** The week's Thursday lies in a year before 100 only then. */
  lemma ThursdayBefore100(n: int)
    requires n >= YearStart(100)
    ensures UtcYear(n - n % 7 + 3) < 100 <==> n < YearStart(100) + 3
  {
    var thursday := n - n % 7 + 3;
    var y := UtcYear(thursday);
    assert YearStart(100) == 36159;
    if y < 100 { YearStartGrows(y + 1, 100); } else { YearStartGrows(100, y); }
  }

  /** A number holds from Monday to Sunday, and goes up by one each week until it restarts at 1. */
  lemma WeeksCountOn(n: int, k: int)
    requires n >= 0 && 0 <= k < 7
    ensures var monday := n - n % 7;
            && IsoWeekNumber(monday + k) == IsoWeekNumber(n)
            && IsoWeekNumber(n + 7) == if HasFirstThursday(monday + 7) then 1 else IsoWeekNumber(n) + 1
  {
    hide HasFirstThursday;
    var monday := n - n % 7;
    SameMonday(monday, k);
    SameMonday(monday, n % 7);
    SameMonday(monday + 7, n % 7);
  }

  lemma SameMonday(monday: int, k: int)
    requires monday >= 0 && monday % 7 == 0 && 0 <= k < 7
    ensures (monday + k) - (monday + k) % 7 == monday
  {
  }

  /** The standard numbers weeks from 1 to 53. */
  lemma IsoRange(n: int)
    requires n >= 0
    ensures 1 <= IsoWeekNumber(n) <= 53
  {
    IsoByThursday(n);
    YearStartNext(UtcYear(n - n % 7 + 3));
  }

  lemma WeekNumberIs(d: Date)
    requires IsDate(d) && d.year >= 100
    ensures DayNumber(d) >= 0
    ensures var thursday := DayNumber(d) - DayNumber(d) % 7 + 3;
            var y := UtcYear(thursday);
            GetWeekNumber(d) == CeilSeventh(thursday - YearStart(if y <= 99 then 1900 + y else y) + 1)
  {
    hide UtcYear, YearStart, CeilSeventh, MonthStart, UtcDay;
    LateEnough(d);
    var n := DayNumber(d);
    assert Utc(d.year, d.month, d.day) == n;
    var dayOfWeek := if UtcDay(n) == 0 then 7 else UtcDay(n);
    IsoDay(n);
    assert Utc(d.year, d.month, d.day + 4 - dayOfWeek) == n - n % 7 + 3;
    var y := UtcYear(n - n % 7 + 3);
    assert MonthStart(if y <= 99 then 1900 + y else y, 0) == 0 by { NoMonths(if y <= 99 then 1900 + y else y); }
  }

  lemma NoMonths(y: int)
    ensures MonthStart(y, 0) == 0
  {
  }

  lemma IsoDay(n: int)
    ensures (if UtcDay(n) == 0 then 7 else UtcDay(n)) == n % 7 + 1
  {
  }

  /** From year 100 on the timeline shows the ISO week number, except on the first three days of year 100. */
  lemma WeekNumberIsIsoIff(d: Date)
    requires IsDate(d) && d.year >= 100
    ensures DayNumber(d) >= 0
    ensures GetWeekNumber(d) == IsoWeekNumber(DayNumber(d)) <==> !(d.year == 100 && d.month == 0 && d.day <= 3)
  {
    hide GetWeekNumber, IsoWeekNumber, DayNumber, UtcYear, YearStart, CeilSeventh;
    LateEnough(d);
    var n := DayNumber(d);
    var thursday := n - n % 7 + 3;
    var y := UtcYear(thursday);
    WeekNumberIs(d);
    FirstDaysOf100(d);
    ThursdayBefore100(n);
    IsoByThursday(n);
    if y >= 100 {
      WeekNumberOfThursday(thursday, y);
    } else {
      IsoRange(n);
      TooSmall(thursday, y);
    }
  }

  lemma TooSmall(thursday: int, y: int)
    requires 1 <= y <= 99 && thursday < YearStart(y + 1)
    ensures CeilSeventh(thursday - YearStart(1900 + y) + 1) <= 0
  {
    YearStartGrows(y + 1, 1900 + y);
  }
}
