/**
 * Calendar helpers of the planner (backend/utils/helpers.js): the seven dates of a requested
 * week, the ISO 8601 week number of a date, and the day names.
 *
 * A date is a day count in the proleptic Gregorian calendar, day 0 being 1970-01-01
 * (a Thursday). The source's `Date` objects at local midnight become such day counts.
 */
module Calendar {

  /** Days from 0001-01-01 to January 1st of year `y`. Dafny's `/` floors for a positive divisor. */
  function DaysBeforeYear(y: int): int
  {
    365 * (y - 1) + (y - 1) / 4 - (y - 1) / 100 + (y - 1) / 400
  }

  /** The day count of January 1st of year `y`. */
  function Jan1(y: int): int
  {
    DaysBeforeYear(y) - DaysBeforeYear(1970)
  }

  predicate IsLeap(y: int)
  {
    y % 4 == 0 && (y % 100 != 0 || y % 400 == 0)
  }

  /** `getDay()`: 0 for Sunday, 1 for Monday, ..., 6 for Saturday. */
  function Weekday(n: int): (d: int)
    ensures 0 <= d < 7
  {
    (n + 4) % 7
  }

  /** `getDay() || 7`: 1 for Monday, ..., 7 for Sunday. */
  function IsoWeekday(n: int): (d: int)
    ensures 1 <= d <= 7
    ensures d % 7 == Weekday(n)
  {
    if Weekday(n) == 0 then 7 else Weekday(n)
  }

  /** Quotient and remainder by 7 are unique. */
  lemma DivMod7(a: int, q: int, r: int)
    requires a == 7 * q + r && 0 <= r < 7
    ensures a / 7 == q && a % 7 == r
  {
  }

  /** Two days with the same weekday are a whole number of weeks apart. */
  lemma SameWeekdayApart(a: int, b: int)
    requires Weekday(a) == Weekday(b)
    ensures a - b == 7 * ((a + 4) / 7 - (b + 4) / 7)
  {
    DivMod7(a + 4, (a + 4) / 7, Weekday(a));
    DivMod7(b + 4, (b + 4) / 7, Weekday(b));
  }

  // ---------------------------------------------------------------------------
  // Years
  // ---------------------------------------------------------------------------

  lemma DivStep(y: int, d: int)
    requires d == 4 || d == 100 || d == 400
    ensures y / d - (y - 1) / d == if y % d == 0 then 1 else 0
  {
    var q := (y - 1) / d;
    var r := (y - 1) % d;
    assert y - 1 == d * q + r && 0 <= r < d;
    if r == d - 1 {
      assert y == d * (q + 1) + 0;
    } else {
      assert y == d * q + (r + 1);
    }
  }

  /** A year has 366 days when it is a leap year and 365 otherwise. */
  lemma YearLength(y: int)
    ensures Jan1(y + 1) - Jan1(y) == if IsLeap(y) then 366 else 365
  {
    DivStep(y, 4);
    DivStep(y, 100);
    DivStep(y, 400);
    LeapDivisors(y);
    assert Jan1(y + 1) - Jan1(y)
        == 365 + (y / 4 - (y - 1) / 4) - (y / 100 - (y - 1) / 100) + (y / 400 - (y - 1) / 400);
  }

  /** A multiple of 400 is a multiple of 100, and a multiple of 100 one of 4. */
  lemma LeapDivisors(y: int)
    ensures y % 400 == 0 ==> y % 100 == 0
    ensures y % 100 == 0 ==> y % 4 == 0
  {
    var q400, q100 := y / 400, y / 100;
    if y % 400 == 0 {
      assert y == 100 * (4 * q400) + 0;
    }
    if y % 100 == 0 {
      assert y == 4 * (25 * q100) + 0;
    }
  }

  lemma {:induction false} Jan1Monotonic(y: int, z: int)
    requires y < z
    ensures Jan1(y) + 365 * (z - y) <= Jan1(z)
    decreases z - y
  {
    YearLength(y);
    if y + 1 < z {
      Jan1Monotonic(y + 1, z);
    }
  }

  /** Years before 1970 start at least 365 days per year before day 0. */
  lemma {:induction false} Jan1Before1970(y: int)
    requires y <= 1970
    ensures Jan1(y) <= 365 * (y - 1970)
  {
    if y < 1970 {
      Jan1Monotonic(y, 1970);
    }
  }

  /** The year containing day `n`, searched upwards from a year that starts on or before `n`. */
  function YearUp(y: int, n: int): (r: int)
    requires Jan1(y) <= n
    ensures y <= r && Jan1(r) <= n < Jan1(r + 1)
    decreases n - Jan1(y)
  {
    YearLength(y);
    if Jan1(y + 1) <= n then YearUp(y + 1, n) else y
  }

  /** The calendar year (`getUTCFullYear()`) of day `n`. */
  function YearOf(n: int): (y: int)
    ensures Jan1(y) <= n < Jan1(y + 1)
  {
    if n >= 0 then YearUp(1970, n)
    else
      Jan1Before1970(1970 + n);
      YearUp(1970 + n, n)
  }

  /** Exactly one year contains a given day. */
  lemma YearOfIs(n: int, y: int)
    requires Jan1(y) <= n < Jan1(y + 1)
    ensures YearOf(n) == y
  {
    YearUnique(n, y, YearOf(n));
  }

  /** No day lies in two years. */
  lemma YearUnique(n: int, y: int, z: int)
    requires Jan1(y) <= n < Jan1(y + 1) && Jan1(z) <= n < Jan1(z + 1)
    ensures y == z
  {
    if z < y {
      Jan1Monotonic(z + 1, y);
    } else if y < z {
      Jan1Monotonic(y + 1, z);
    }
  }

  // ---------------------------------------------------------------------------
  // getWeekNumber
  // ---------------------------------------------------------------------------

  /** The Thursday of the Monday-to-Sunday week containing `n` (`d + 4 - dayNum`). */
  function Thursday(n: int): (t: int)
    ensures Weekday(t) == 4 && n - 3 <= t <= n + 3
  {
    n + 4 - IsoWeekday(n)
  }

  /** `getWeekNumber(date)`: ceil((days from January 1st to the week's Thursday + 1) / 7), computed
      in whole days, counted in the year of that Thursday. */
  function WeekNumber(n: int): (w: int)
    ensures 1 <= w <= 53
  {
    var t := Thursday(n);
    var y := YearOf(t);
    YearLength(y);
    (t - Jan1(y) + 1 + 6) / 7
  }

  /** The first Thursday of year `y`, which lies in week 1 of ISO 8601 (section 4.1.4 of
      ISO 8601:2004: the first week of a year is the one containing its first Thursday). */
  function FirstThursday(y: int): (t: int)
    ensures Weekday(t) == 4 && Jan1(y) <= t < Jan1(y) + 7
  {
    var j := Jan1(y);
    DivMod7(j + 4, (j + 4) / 7, Weekday(j));
    if Weekday(j) <= 4 then
      DivMod7(j + 4 - Weekday(j) + 4, (j + 4) / 7, 4);
      j + 4 - Weekday(j)
    else
      DivMod7(j + 11 - Weekday(j) + 4, (j + 4) / 7 + 1, 4);
      j + 11 - Weekday(j)
  }

  /** The ISO week-numbering year of day `n`: the year its week's Thursday falls in. */
  function IsoYear(n: int): int
  {
    YearOf(Thursday(n))
  }

  /** The week number is ISO 8601's: one more than the number of whole weeks between the Monday
      of week 1 of the date's ISO year and the date. */
  lemma WeekNumberIsIso(n: int)
    ensures 0 <= n - (FirstThursday(IsoYear(n)) - 3) < 7 * 53
    ensures WeekNumber(n) == (n - (FirstThursday(IsoYear(n)) - 3)) / 7 + 1
  {
    var t := Thursday(n);
    var y := YearOf(t);
    YearLength(y);
    WeeksFromFirstThursday(n, t, Jan1(y), FirstThursday(y), Jan1(y + 1) - Jan1(y));
  }

  /** The week count of `WeekNumberIsIso` on plain integers: `t` is the Thursday of `n`'s week,
      `th` the first Thursday of a year starting on day `j` and `len` days long, which holds `t`. */
  lemma WeeksFromFirstThursday(n: int, t: int, j: int, th: int, len: int)
    requires t == Thursday(n) && Weekday(th) == 4 && j <= th < j + 7 && j <= t < j + len && len <= 366
    ensures 0 <= n - (th - 3) < 7 * 53
    ensures (t - j + 1 + 6) / 7 == (n - (th - 3)) / 7 + 1
  {
    SameWeekdayApart(t, th);
    var k := (t + 4) / 7 - (th + 4) / 7;
    assert t == th + 7 * k;
    assert k >= 0;
    DivMod7(t - j + 7, k + 1, th - j);
    DivMod7(n - (th - 3), k, IsoWeekday(n) - 1);
  }

  /** Every day of a Monday-to-Sunday week has the same week number. */
  lemma SameWeekSameNumber(m: int, i: int)
    requires IsoWeekday(m) == 1 && 0 <= i < 7
    ensures Thursday(m + i) == m + 3
    ensures WeekNumber(m + i) == WeekNumber(m)
  {
    ThursdayOfMondayWeek(m, i);
  }

  lemma ThursdayOfMondayWeek(m: int, i: int)
    requires Weekday(m) == 1 && 0 <= i < 7
    ensures Thursday(m + i) == m + 3
  {
    var q := (m + 4) / 7;
    DivMod7(m + 4, q, 1);
    if i < 6 {
      DivMod7(m + i + 4, q, 1 + i);
    } else {
      DivMod7(m + i + 4, q + 1, 0);
    }
  }

  /** Day 3 of a year (January 4th) is always in week 1. */
  lemma January4InWeek1(y: int)
    ensures IsoYear(Jan1(y) + 3) == y
    ensures WeekNumber(Jan1(y) + 3) == 1
  {
    var n := Jan1(y) + 3;
    YearLength(y);
    YearOfIs(Thursday(n), y);
  }

  // ---------------------------------------------------------------------------
  // getWeekDates
  // ---------------------------------------------------------------------------

  /** The Monday `getWeekDates(year, week)` starts from: January 1st plus
      (week - 1) * 7 - getDay(January 1st) + 1 days. */
  function WeekMonday(year: int, week: int): int
  {
    Jan1(year) + (week - 1) * 7 - Weekday(Jan1(year)) + 1
  }

  /** The first date of every requested week is a Monday. */
  lemma WeekMondayIsMonday(year: int, week: int)
    ensures Weekday(WeekMonday(year, week)) == 1
    ensures IsoWeekday(WeekMonday(year, week)) == 1
  {
    MondayAfter(Jan1(year), week);
  }

  /** Going back `getDay()` days from day `j` and on by `1 + 7 * (week - 1)` lands on a Monday. */
  lemma MondayAfter(j: int, week: int)
    ensures Weekday(j + (week - 1) * 7 - Weekday(j) + 1) == 1
  {
    var q := (j + 4) / 7;
    DivMod7(j + 4, q, Weekday(j));
    DivMod7(j + (week - 1) * 7 - Weekday(j) + 1 + 4, q + week - 1, 1);
  }

  /** `getWeekDates(year, week)`: seven consecutive dates starting from `WeekMonday(year, week)`. */
  method GetWeekDates(year: int, week: int) returns (dates: seq<int>)
    ensures |dates| == 7
    ensures forall i :: 0 <= i < 7 ==> dates[i] == WeekMonday(year, week) + i
    ensures IsoWeekday(dates[0]) == 1
    ensures forall i :: 0 < i < 7 ==> dates[i] == dates[i - 1] + 1
  {
    var monday := WeekMonday(year, week);
    WeekMondayIsMonday(year, week);
    dates := [];
    var i := 0;
    while i < 7
      invariant 0 <= i <= 7 && |dates| == i
      invariant forall j :: 0 <= j < i ==> dates[j] == monday + j
    {
      dates := dates + [monday + i];
      i := i + 1;
    }
  }

  /** Day `d` of a requested week is ISO weekday `d + 1`: Monday for 0, ..., Sunday for 6. */
  lemma WeekDayOfWeekDates(year: int, week: int, d: int)
    requires 0 <= d < 7
    ensures IsoWeekday(WeekMonday(year, week) + d) == d + 1
  {
    WeekMondayIsMonday(year, week);
    assert Weekday(WeekMonday(year, week) + d) == (1 + d) % 7;
  }

  /** The requested week and the week number of its dates agree for weeks 1 to 52 exactly when
      January 1st is not a Friday or a Saturday. */
  lemma WeekDatesMatchWeekNumber(year: int, week: int)
    requires 1 <= week <= 52
    ensures WeekNumber(WeekMonday(year, week)) == week
        <==> Weekday(Jan1(year)) != 5 && Weekday(Jan1(year)) != 6
  {
    var m := WeekMonday(year, week);
    var j := Jan1(year);
    var wd := Weekday(j);
    WeekMondayIsMonday(year, week);
    YearLength(year);
    YearLength(year - 1);
    var t := Thursday(m);
    assert t == m + 3;
    assert t == j + (week - 1) * 7 + 4 - wd;
    if wd <= 4 {
      YearOfIs(t, year);
    } else if week >= 2 {
      YearOfIs(t, year);
    } else {
      YearOfIs(t, year - 1);
    }
  }

  /** When January 1st is a Friday or a Saturday, the requested week's dates fall in the ISO week
      before it: week `week - 1`, and for week 1 the last week (52 or 53) of the previous year. */
  lemma WeekDatesLagWhenYearStartsLate(year: int, week: int)
    requires 1 <= week <= 53
    requires Weekday(Jan1(year)) == 5 || Weekday(Jan1(year)) == 6
    ensures week >= 2 ==> WeekNumber(WeekMonday(year, week)) == week - 1
    ensures week == 1 ==> IsoYear(WeekMonday(year, week)) == year - 1
    ensures week == 1 ==> WeekNumber(WeekMonday(year, week)) >= 52
  {
    var m := WeekMonday(year, week);
    var j := Jan1(year);
    WeekMondayIsMonday(year, week);
    YearLength(year);
    YearLength(year - 1);
    var t := Thursday(m);
    assert t == m + 3;
    if week >= 2 {
      YearOfIs(t, year);
    } else {
      YearOfIs(t, year - 1);
    }
  }

  // ---------------------------------------------------------------------------
  // getDayNames
  // ---------------------------------------------------------------------------

  /** `getDayNames()`. */
  function DayNames(): (names: seq<string>)
    ensures |names| == 7
    ensures names[0] == "Monday" && names[6] == "Sunday"
  {
    ["Monday", "Tuesday", "Wednesday", "Thursday", "Friday", "Saturday", "Sunday"]
  }

  /** The seven day names are pairwise distinct, so a name identifies its day. */
  lemma DayNamesDistinct()
    ensures forall i, j :: 0 <= i < j < 7 ==> DayNames()[i] != DayNames()[j]
  {
    var names := DayNames();
    assert names[0][0] == 'M' && names[1][0] == 'T' && names[2][0] == 'W' && names[3][0] == 'T';
    assert names[4][0] == 'F' && names[5][0] == 'S' && names[6][0] == 'S';
    assert names[1][1] == 'u' && names[3][1] == 'h' && names[5][1] == 'a' && names[6][1] == 'u';
  }
}
