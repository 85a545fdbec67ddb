/**
 * The business-day calendar of the appointment step: civil dates, weekdays,
 * the eight fixed public holidays, the earliest bookable date (two business
 * days after today) and the month grid of 7-slot weeks.
 *
 * A date is a (year, month, day) record; `DayNumber` counts days from
 * 1970-01-01, which was a Thursday, so the weekday (0 = Sunday, as returned
 * by `Date.prototype.getDay`) is `(DayNumber + 4) % 7`. Stepping with
 * `setDate(getDate() + 1)` is `NextDay`, which rolls over month and year.
 */
module BusinessCalendar {
  import opened Common

  datatype Date = Date(year: int, month: int, day: int)

  predicate IsLeapYear(y: int)
  {
    (y % 4 == 0 && y % 100 != 0) || y % 400 == 0
  }

  /** The day of `new Date(year, month, 0)`: the length of the month (1-based). */
  function DaysInMonth(y: int, m: int): (n: int)
    requires 1 <= m <= 12
    ensures 28 <= n <= 31
    ensures n == 29 <==> m == 2 && IsLeapYear(y)
  {
    if m == 2 then (if IsLeapYear(y) then 29 else 28)
    else if m == 4 || m == 6 || m == 9 || m == 11 then 30
    else 31
  }

  predicate ValidDate(d: Date)
  {
    1 <= d.month <= 12 && 1 <= d.day <= DaysInMonth(d.year, d.month)
  }

  /** A date a JavaScript `Date` can denote (months 1-based here). */
  type CivilDate = d: Date | ValidDate(d) witness Date(1970, 1, 1)

  function LeapYearsBefore(y: int): int
  {
    (y - 1) / 4 - (y - 1) / 100 + (y - 1) / 400
  }

  function DaysBeforeYear(y: int): int
  {
    365 * (y - 1970) + LeapYearsBefore(y) - LeapYearsBefore(1970)
  }

  /** Days of the year `y` before the first of month `m`. */
  function DaysBeforeMonth(y: int, m: int): int
    requires 1 <= m <= 12
  {
    var leap := if IsLeapYear(y) then 1 else 0;
    if m == 1 then 0
    else if m == 2 then 31
    else if m == 3 then 59 + leap
    else if m == 4 then 90 + leap
    else if m == 5 then 120 + leap
    else if m == 6 then 151 + leap
    else if m == 7 then 181 + leap
    else if m == 8 then 212 + leap
    else if m == 9 then 243 + leap
    else if m == 10 then 273 + leap
    else if m == 11 then 304 + leap
    else 334 + leap
  }

  /** Days from 1970-01-01 to `d`. */
  function DayNumber(d: CivilDate): int
  {
    DaysBeforeYear(d.year) + DaysBeforeMonth(d.year, d.month) + d.day - 1
  }

  /** `date.getDay()`: 0 is Sunday, 6 is Saturday. */
  function Weekday(d: CivilDate): (w: int)
    ensures 0 <= w < 7
  {
    (DayNumber(d) + 4) % 7
  }

  /** `isWeekday`. */
  predicate IsWeekday(d: CivilDate)
  {
    Weekday(d) != 0 && Weekday(d) != 6
  }

  /** `date.setDate(date.getDate() + 1)`. */
  function NextDay(d: CivilDate): CivilDate
  {
    if d.day < DaysInMonth(d.year, d.month) then Date(d.year, d.month, d.day + 1)
    else if d.month < 12 then Date(d.year, d.month + 1, 1)
    else Date(d.year + 1, 1, 1)
  }

  lemma MonthLengths(y: int, m: int)
    requires 1 <= m < 12
    ensures DaysBeforeMonth(y, m + 1) == DaysBeforeMonth(y, m) + DaysInMonth(y, m)
  {
  }

  lemma LeapStep(y: int)
    ensures LeapYearsBefore(y + 1) - LeapYearsBefore(y) == if IsLeapYear(y) then 1 else 0
  {
    DivStep4(y);
    DivStep100(y);
    DivStep400(y);
    if y % 100 == 0 {
      Multiple100(y);
    }
    if y % 400 == 0 {
      Multiple400(y);
    }
  }

  lemma DivStep4(y: int)
    ensures y / 4 - (y - 1) / 4 == if y % 4 == 0 then 1 else 0
  {
  }

  lemma DivStep100(y: int)
    ensures y / 100 - (y - 1) / 100 == if y % 100 == 0 then 1 else 0
  {
  }

  lemma DivStep400(y: int)
    ensures y / 400 - (y - 1) / 400 == if y % 400 == 0 then 1 else 0
  {
  }

  lemma Multiple100(y: int)
    requires y % 100 == 0
    ensures y % 4 == 0
  {
    assert y == 4 * (25 * (y / 100));
  }

  lemma Multiple400(y: int)
    requires y % 400 == 0
    ensures y % 100 == 0
  {
    assert y == 100 * (4 * (y / 400));
  }

  lemma ModShift(a: int, k: int)
    ensures (a + k) % 7 == (a % 7 + k) % 7
  {
  }

  /** Stepping to the next day advances the day number by exactly one. */
  lemma NextDayNumber(d: CivilDate)
    ensures DayNumber(NextDay(d)) == DayNumber(d) + 1
  {
    if d.day < DaysInMonth(d.year, d.month) {
    } else if d.month < 12 {
      MonthLengths(d.year, d.month);
    } else {
      LeapStep(d.year);
    }
  }

  /** The date `k` days after `d`, by repeated `NextDay`. */
  function Advance(d: CivilDate, k: nat): CivilDate
  {
    if k == 0 then d else NextDay(Advance(d, k - 1))
  }

  lemma {:induction false} AdvanceNumber(d: CivilDate, k: nat)
    ensures DayNumber(Advance(d, k)) == DayNumber(d) + k
  {
    if k > 0 {
      AdvanceNumber(d, k - 1);
      NextDayNumber(Advance(d, k - 1));
    }
  }

  lemma {:induction false} AdvanceAdd(d: CivilDate, j: nat, k: nat)
    ensures Advance(Advance(d, j), k) == Advance(d, j + k)
  {
    if k > 0 {
      AdvanceAdd(d, j, k - 1);
    }
  }

  // ---------------------------------------------------------------------
  // Holidays
  // ---------------------------------------------------------------------

  /** `String(n).padStart(2, '0')`. */
  function Pad2(n: nat): (r: string)
    ensures n < 100 ==> r == [DigitChar(n / 10), DigitChar(n % 10)]
  {
    var s := NatToString(n);
    if |s| < 2 then "0" + s else s
  }

  /** The text after the year in `${year}-${MM}-${DD}`. */
  function MonthDayKey(m: nat, d: nat): string
  {
    "-" + Pad2(m) + "-" + Pad2(d)
  }

  /** `${year}-${MM}-${DD}`, the key `isHoliday` looks up. */
  function DateKey(d: CivilDate): string
  {
    IntToString(d.year) + MonthDayKey(d.month, d.day)
  }

  /** The holiday list `isHoliday` builds for a year. */
  function HolidayKeys(year: int): seq<string>
  {
    var y := IntToString(year);
    [y + "-01-01", y + "-03-01", y + "-05-05", y + "-06-06",
     y + "-08-15", y + "-10-03", y + "-10-09", y + "-12-25"]
  }

  /** `isHoliday`: the date's key is one of the year's holiday keys. */
  predicate IsHoliday(d: CivilDate)
  {
    DateKey(d) in HolidayKeys(d.year)
  }

  /** The eight fixed holidays as (month, day). */
  const FixedHolidays: seq<(int, int)> :=
    [(1, 1), (3, 1), (5, 5), (6, 6), (8, 15), (10, 3), (10, 9), (12, 25)]

  /** The date falls on one of the fixed holidays. */
  predicate IsFixedHoliday(d: CivilDate)
  {
    match d.month
    case 1 => d.day == 1
    case 3 => d.day == 1
    case 5 => d.day == 5
    case 6 => d.day == 6
    case 8 => d.day == 15
    case 10 => d.day == 3 || d.day == 9
    case 12 => d.day == 25
    case _ => false
  }

  lemma MonthDayKeyInjective(m1: nat, d1: nat, m2: nat, d2: nat)
    requires m1 < 100 && d1 < 100 && m2 < 100 && d2 < 100
    requires MonthDayKey(m1, d1) == MonthDayKey(m2, d2)
    ensures m1 == m2 && d1 == d2
  {
    var a := MonthDayKey(m1, d1);
    var b := MonthDayKey(m2, d2);
    assert a[1] == b[1] && a[2] == b[2] && a[4] == b[4] && a[5] == b[5];
    assert m1 / 10 == m2 / 10 && m1 % 10 == m2 % 10;
    assert d1 / 10 == d2 / 10 && d1 % 10 == d2 % 10;
  }

  lemma HolidayKeysAreMonthDays(year: int)
    ensures |HolidayKeys(year)| == |FixedHolidays|
    ensures forall i :: 0 <= i < |FixedHolidays| ==>
      HolidayKeys(year)[i] == IntToString(year) + MonthDayKey(FixedHolidays[i].0, FixedHolidays[i].1)
  {
    var y := IntToString(year);
    assert MonthDayKey(1, 1) == "-01-01";
    assert MonthDayKey(3, 1) == "-03-01";
    assert MonthDayKey(5, 5) == "-05-05";
    assert MonthDayKey(6, 6) == "-06-06";
    assert MonthDayKey(8, 15) == "-08-15";
    assert MonthDayKey(10, 3) == "-10-03";
    assert MonthDayKey(10, 9) == "-10-09";
    assert MonthDayKey(12, 25) == "-12-25";
  }

  lemma PrefixCancel(p: string, a: string, b: string)
    requires p + a == p + b
    ensures a == b
  {
    assert a == (p + a)[|p|..];
    assert b == (p + b)[|p|..];
  }

  lemma KeyMatch(y: string, m: nat, d: nat, hm: nat, hd: nat)
    requires m < 100 && d < 100 && hm < 100 && hd < 100
    ensures y + MonthDayKey(m, d) == y + MonthDayKey(hm, hd) <==> m == hm && d == hd
  {
    if y + MonthDayKey(m, d) == y + MonthDayKey(hm, hd) {
      PrefixCancel(y, MonthDayKey(m, d), MonthDayKey(hm, hd));
      MonthDayKeyInjective(m, d, hm, hd);
    }
  }

  /** `isHoliday` holds exactly on the eight fixed (month, day) pairs, in every year. */
  lemma HolidayIff(d: CivilDate)
    ensures IsHoliday(d) <==> (d.month, d.day) in FixedHolidays
    ensures IsHoliday(d) <==> IsFixedHoliday(d)
  {
    HolidayKeysAreMonthDays(d.year);
    FixedHolidayCases(d.month, d.day);
    var y := IntToString(d.year);
    var keys := HolidayKeys(d.year);
    assert DateKey(d) == y + MonthDayKey(d.month, d.day);
    forall i | 0 <= i < |FixedHolidays|
      ensures keys[i] == DateKey(d) <==> FixedHolidays[i] == (d.month, d.day)
    {
      KeyMatch(y, d.month, d.day, FixedHolidays[i].0, FixedHolidays[i].1);
    }
  }

  /** A weekday that is not a holiday: a day an appointment may be booked on. */
  predicate IsBusinessDay(d: CivilDate)
  {
    IsWeekday(d) && !IsFixedHoliday(d)
  }

  lemma FixedHolidayCases(m: int, d: int)
    ensures (m, d) in FixedHolidays <==>
      (m == 1 && d == 1) || (m == 3 && d == 1) || (m == 5 && d == 5) || (m == 6 && d == 6) ||
      (m == 8 && d == 15) || (m == 10 && d == 3) || (m == 10 && d == 9) || (m == 12 && d == 25)
  {
  }

  /** No fixed holiday is followed by another one. */
  lemma NoConsecutiveHolidays(d: CivilDate)
    ensures !(IsFixedHoliday(d) && IsFixedHoliday(NextDay(d)))
  {
    var n := NextDay(d);
    if d.day < DaysInMonth(d.year, d.month) {
      assert n.month == d.month && n.day == d.day + 1;
    } else {
      assert n.day == 1 && d.day >= 28;
    }
  }

  lemma {:induction false} AdvanceWeekday(d: CivilDate, k: nat)
    ensures Weekday(Advance(d, k)) == (Weekday(d) + k) % 7
  {
    AdvanceNumber(d, k);
    ModShift(DayNumber(d) + 4, k);
  }

  predicate IsWeekdayIndex(w: int)
  {
    w != 0 && w != 6
  }

  /** Of two consecutive weekdays, at least one is a business day. */
  lemma BusinessDayInPair(d: CivilDate, i: nat)
    requires IsWeekdayIndex((Weekday(d) + i) % 7) && IsWeekdayIndex((Weekday(d) + i + 1) % 7)
    ensures IsBusinessDay(Advance(d, i)) || IsBusinessDay(Advance(d, i + 1))
  {
    AdvanceWeekday(d, i);
    AdvanceWeekday(d, i + 1);
    NoConsecutiveHolidays(Advance(d, i));
  }

  /** Any seven consecutive days hold a business day. */
  lemma BusinessDayWithinWeek(d: CivilDate)
    ensures exists i :: 1 <= i <= 7 && IsBusinessDay(Advance(d, i))
  {
    var w := Weekday(d);
    // a Monday-Tuesday, Tuesday-Wednesday or Wednesday-Thursday pair within the week
    var i := if w == 0 then 1 else if w == 1 then 1 else if w == 2 then 6 else if w == 3 then 5
      else if w == 4 then 4 else if w == 5 then 3 else 2;
    BusinessDayInPair(d, i);
    if !IsBusinessDay(Advance(d, i)) {
      assert IsBusinessDay(Advance(d, i + 1));
    }
  }

  // ---------------------------------------------------------------------
  // Earliest bookable date
  // ---------------------------------------------------------------------

  /** How many of the `k` days after `d` are business days. */
  function CountBusiness(d: CivilDate, k: nat): (n: nat)
    ensures n <= k
  {
    if k == 0 then 0
    else CountBusiness(d, k - 1) + (if IsBusinessDay(Advance(d, k)) then 1 else 0)
  }

  lemma {:induction false} CountBusinessMonotone(d: CivilDate, j: nat, k: nat)
    requires j <= k
    ensures CountBusiness(d, j) <= CountBusiness(d, k)
  {
    if j < k {
      CountBusinessMonotone(d, j, k - 1);
    }
  }

  lemma CountBusinessStrict(d: CivilDate, j: nat, k: nat)
    requires j < k && IsBusinessDay(Advance(d, k))
    ensures CountBusiness(d, j) < CountBusiness(d, k)
  {
    CountBusinessMonotone(d, j, k - 1);
  }

  /** Every week adds at least one business day to the count. */
  lemma CountGrowsOverWeek(today: CivilDate, a: nat)
    ensures CountBusiness(today, a + 7) >= CountBusiness(today, a) + 1
  {
    BusinessDayWithinWeek(Advance(today, a));
    var i :| 1 <= i <= 7 && IsBusinessDay(Advance(Advance(today, a), i));
    AdvanceAdd(today, a, i);
    CountBusinessWindow(today, a, a + i);
  }

  lemma CountBusinessWindow(today: CivilDate, a: nat, k: nat)
    requires a < k <= a + 7 && IsBusinessDay(Advance(today, k))
    ensures CountBusiness(today, a + 7) >= CountBusiness(today, a) + 1
  {
    CountBusinessMonotone(today, a, k - 1);
    assert CountBusiness(today, k) == CountBusiness(today, k - 1) + 1;
    CountBusinessMonotone(today, k, a + 7);
  }

  /** Two weeks always hold at least two business days. */
  lemma TwoBusinessDaysWithinTwoWeeks(today: CivilDate, k: nat)
    requires k >= 14
    ensures CountBusiness(today, k) >= 2
  {
    assert CountBusiness(today, 0) == 0;
    CountGrowsOverWeek(today, 0);
    CountGrowsOverWeek(today, 7);
    CountBusinessMonotone(today, 14, k);
  }

  /**
   * `m` is the earliest bookable date for `today`: a business day after
   * today, with exactly two business days from tomorrow up to and including it.
   */
  ghost predicate IsMinimumDate(today: CivilDate, m: CivilDate)
  {
    exists k: nat {:trigger Advance(today, k)} ::
      k >= 1 && m == Advance(today, k) && CountBusiness(today, k) == 2 && IsBusinessDay(m)
  }

  /** At most one date is the earliest bookable date. */
  lemma MinimumDateUnique(today: CivilDate, a: CivilDate, b: CivilDate)
    requires IsMinimumDate(today, a) && IsMinimumDate(today, b)
    ensures a == b
  {
    var j: nat :| j >= 1 && a == Advance(today, j) && CountBusiness(today, j) == 2 && IsBusinessDay(a);
    var k: nat :| k >= 1 && b == Advance(today, k) && CountBusiness(today, k) == 2 && IsBusinessDay(b);
    if j < k {
      CountBusinessStrict(today, j, k);
    } else if k < j {
      CountBusinessStrict(today, k, j);
    }
  }

  /** The earliest bookable date lies after today. */
  lemma MinimumDateAfterToday(today: CivilDate, m: CivilDate)
    requires IsMinimumDate(today, m)
    ensures DayNumber(m) > DayNumber(today)
  {
    var k: nat :| k >= 1 && m == Advance(today, k) && CountBusiness(today, k) == 2 && IsBusinessDay(m);
    AdvanceNumber(today, k);
  }

  /** `getMinimumDate`: step a day at a time until two business days were passed. */
  method MinimumDate(today: CivilDate) returns (minDate: CivilDate, ghost steps: nat)
    ensures steps >= 1 && minDate == Advance(today, steps)
    ensures CountBusiness(today, steps) == 2 && IsBusinessDay(minDate)
    ensures CountBusiness(today, steps - 1) < 2
    ensures DayNumber(minDate) > DayNumber(today)
    ensures IsMinimumDate(today, minDate)
  {
    minDate := today;
    var businessDaysAdded := 0;
    steps := 0;
    while businessDaysAdded < 2
      invariant businessDaysAdded <= 2 && steps <= 14
      invariant minDate == Advance(today, steps)
      invariant businessDaysAdded == CountBusiness(today, steps)
      invariant steps > 0 ==> CountBusiness(today, steps - 1) < 2
      decreases 14 - steps
    {
      if steps == 14 {
        TwoBusinessDaysWithinTwoWeeks(today, steps);
      }
      minDate := NextDay(minDate);
      steps := steps + 1;
      HolidayIff(minDate);
      if IsWeekday(minDate) && !IsHoliday(minDate) {
        businessDaysAdded := businessDaysAdded + 1;
      }
    }
    AdvanceNumber(today, steps);
  }

  // ---------------------------------------------------------------------
  // Month grid
  // ---------------------------------------------------------------------

  /** One filled calendar slot: `{ day, date, isAvailable }`. */
  datatype DayCell = DayCell(day: int, date: CivilDate, isAvailable: bool)

  /**
   * What the grid holds for day `k` of the month: nothing outside 1..length,
   * otherwise the day, available iff on or after the earliest bookable date
   * and a business day.
   */
  function CellAt(year: int, month: int, minDay: int, k: int): Option<DayCell>
    requires 1 <= month <= 12
  {
    if 1 <= k <= DaysInMonth(year, month) then
      var date: CivilDate := Date(year, month, k);
      Some(DayCell(k, date, DayNumber(date) >= minDay && IsBusinessDay(date)))
    else None
  }

  function FirstWeekday(year: int, month: int): (w: int)
    requires 1 <= month <= 12
    ensures 0 <= w < 7
  {
    Weekday(Date(year, month, 1))
  }

  /** The number of 7-slot weeks the month spans. */
  function WeekCount(year: int, month: int): (n: int)
    requires 1 <= month <= 12
    ensures 4 <= n <= 6
    ensures 7 * (n - 1) < FirstWeekday(year, month) + DaysInMonth(year, month) <= 7 * n
  {
    (FirstWeekday(year, month) + DaysInMonth(year, month) - 1) / 7 + 1
  }

  /** `cal` is the grid of the month: week `w`, slot `s` holds day `7w + s - first + 1`. */
  ghost predicate IsMonthGrid(cal: seq<seq<Option<DayCell>>>, year: int, month: int, minDay: int)
    requires 1 <= month <= 12
  {
    |cal| == WeekCount(year, month) && WeeksDone(cal, year, month, minDay)
  }

  lemma WeekdayInMonth(year: int, month: int, k: int)
    requires 1 <= month <= 12 && 1 <= k <= DaysInMonth(year, month)
    ensures Weekday(Date(year, month, k)) == (FirstWeekday(year, month) + k - 1) % 7
  {
    ModShift(DayNumber(Date(year, month, 1)) + 4, k - 1);
  }

  /**
   * Every day of the month sits in exactly one slot of the grid: week
   * `(k - 1 + first) / 7`, at the slot of its own weekday.
   */
  lemma GridPlacesEachDayOnce(cal: seq<seq<Option<DayCell>>>, year: int, month: int, minDay: int, k: int)
    requires 1 <= month <= 12 && IsMonthGrid(cal, year, month, minDay)
    requires 1 <= k <= DaysInMonth(year, month)
    ensures var w := (k - 1 + FirstWeekday(year, month)) / 7;
      var s := Weekday(Date(year, month, k));
      0 <= w < |cal| && cal[w][s].Some? && cal[w][s].value.day == k
    ensures forall w, s :: 0 <= w < |cal| && 0 <= s < 7 && cal[w][s].Some? && cal[w][s].value.day == k ==>
      w == (k - 1 + FirstWeekday(year, month)) / 7 && s == Weekday(Date(year, month, k))
  {
    WeekdayInMonth(year, month, k);
  }

  /** The completed weeks of `cal` hold the month's days at their slots. */
  ghost predicate WeeksDone(cal: seq<seq<Option<DayCell>>>, year: int, month: int, minDay: int)
    requires 1 <= month <= 12
  {
    forall w :: 0 <= w < |cal| ==>
      |cal[w]| == 7 &&
      forall s :: 0 <= s < 7 ==>
        cal[w][s] == CellAt(year, month, minDay, 7 * w + s - FirstWeekday(year, month) + 1)
  }

  /** Week `w` under construction holds the days before `day` and nothing else. */
  ghost predicate WeekSoFar(week: seq<Option<DayCell>>, w: int, day: int, year: int, month: int, minDay: int)
    requires 1 <= month <= 12
  {
    |week| == 7 &&
    forall s :: 0 <= s < 7 ==>
      week[s] == (if 7 * w + s - FirstWeekday(year, month) + 1 < day
                  then CellAt(year, month, minDay, 7 * w + s - FirstWeekday(year, month) + 1)
                  else None)
  }

  lemma EmptyWeek(year: int, month: int, minDay: int)
    requires 1 <= month <= 12
    ensures WeekSoFar(seq(7, _ => None), 0, 1, year, month, minDay)
  {
  }

  /** Placing day `day` at its weekday slot extends the week by that day. */
  lemma PlaceDay(week: seq<Option<DayCell>>, w: int, day: int, year: int, month: int, minDay: int)
    requires 1 <= month <= 12 && 1 <= day <= DaysInMonth(year, month)
    requires w == (day - 1 + FirstWeekday(year, month)) / 7
    requires WeekSoFar(week, w, day, year, month, minDay)
    ensures WeekSoFar(week[Weekday(Date(year, month, day)) := CellAt(year, month, minDay, day)],
                      w, day + 1, year, month, minDay)
  {
    WeekdayInMonth(year, month, day);
  }

  /** A week that ends on Saturday or on the last day is complete. */
  lemma CloseWeek(cal: seq<seq<Option<DayCell>>>, week: seq<Option<DayCell>>, day: int,
                  year: int, month: int, minDay: int)
    requires 1 <= month <= 12 && 1 <= day <= DaysInMonth(year, month)
    requires |cal| == (day - 1 + FirstWeekday(year, month)) / 7
    requires Weekday(Date(year, month, day)) == 6 || day == DaysInMonth(year, month)
    requires WeeksDone(cal, year, month, minDay)
    requires WeekSoFar(week, |cal|, day + 1, year, month, minDay)
    ensures WeeksDone(cal + [week], year, month, minDay)
    ensures day < DaysInMonth(year, month) ==>
      |cal| + 1 == (day + FirstWeekday(year, month)) / 7 &&
      WeekSoFar(seq(7, _ => None), |cal| + 1, day + 1, year, month, minDay)
    ensures day == DaysInMonth(year, month) ==> |cal| + 1 == WeekCount(year, month)
  {
    WeekdayInMonth(year, month, day);
    var cal' := cal + [week];
    forall w | 0 <= w < |cal'|
      ensures |cal'[w]| == 7 && forall s :: 0 <= s < 7 ==>
        cal'[w][s] == CellAt(year, month, minDay, 7 * w + s - FirstWeekday(year, month) + 1)
    {
      if w < |cal| {
        assert cal'[w] == cal[w];
      }
    }
  }

  /** A week not yet complete stays the current week for the next day. */
  lemma KeepWeek(n: int, day: int, year: int, month: int)
    requires 1 <= month <= 12 && 1 <= day < DaysInMonth(year, month)
    requires n == (day - 1 + FirstWeekday(year, month)) / 7
    requires Weekday(Date(year, month, day)) != 6
    ensures n == (day + FirstWeekday(year, month)) / 7
  {
    WeekdayInMonth(year, month, day);
  }

  /** `generateCalendar` for the month `month` (1-based) of `year`. */
  method GenerateCalendar(today: CivilDate, year: int, month: int)
    returns (calendar: seq<seq<Option<DayCell>>>, ghost minimumDate: CivilDate)
    requires 1 <= month <= 12
    ensures IsMinimumDate(today, minimumDate)
    ensures IsMonthGrid(calendar, year, month, DayNumber(minimumDate))
  {
    ghost var steps;
    var minDate;
    minDate, steps := MinimumDate(today);
    minimumDate := minDate;
    var minDay := DayNumber(minDate);
    var daysInMonth := DaysInMonth(year, month);
    var startingDayOfWeek := FirstWeekday(year, month);

    calendar := [];
    var week := new Option<DayCell>[7](_ => None);
    for i := 0 to startingDayOfWeek
      invariant forall s :: 0 <= s < 7 ==> week[s] == None
    {
      week[i] := None;
    }

    assert week[..] == seq(7, _ => None);
    EmptyWeek(year, month, minDay);

    for day := 1 to daysInMonth + 1
      invariant fresh(week) && week.Length == 7
      invariant WeeksDone(calendar, year, month, minDay)
      invariant day <= daysInMonth ==> |calendar| == (day - 1 + startingDayOfWeek) / 7
      invariant day <= daysInMonth ==> WeekSoFar(week[..], |calendar|, day, year, month, minDay)
      invariant day == daysInMonth + 1 ==> |calendar| == WeekCount(year, month)
    {
      var date: CivilDate := Date(year, month, day);
      var dayOfWeek := Weekday(date);
      HolidayIff(date);
      ghost var before := week[..];
      week[dayOfWeek] := Some(DayCell(day, date, DayNumber(date) >= minDay && IsWeekday(date) && !IsHoliday(date)));
      assert week[..] == before[dayOfWeek := CellAt(year, month, minDay, day)];
      PlaceDay(before, |calendar|, day, year, month, minDay);
      if dayOfWeek == 6 || day == daysInMonth {
        CloseWeek(calendar, week[..], day, year, month, minDay);
        calendar := calendar + [week[..]];
        week := new Option<DayCell>[7](_ => None);
        assert week[..] == seq(7, _ => None);
      } else {
        KeepWeek(|calendar|, day, year, month);
      }
    }
  }
}
