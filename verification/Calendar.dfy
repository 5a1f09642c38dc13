/** Day numbers and Gregorian dates (section 5.7 and Appendix C of RFC 3339). */
module Calendar {

  datatype Date = Date(year: int, month: int, day: int)

  /** The date `days` after 1970-01-01. */
  function Civil(days: int): Date {
    var z := days + 719468;
    DateOfEra(z / 146097, z % 146097)
  }

  /** The date of a day of an era: 400 years that begin in March. */
  function DateOfEra(era: int, doe: int): Date {
    var yoe := YearOfEra(doe);
    DateOf(yoe + era * 400, doe - (365 * yoe + yoe / 4 - yoe / 100))
  }

  function YearOfEra(doe: int): int {
    (doe - doe / 1460 + doe / 36524 - doe / 146096) / 365
  }

  /** The date of the `doy`-th day of a year that begins in March. */
  function DateOf(marchYear: int, doy: int): Date {
    var mp := (5 * doy + 2) / 153;
    var month := if mp < 10 then mp + 3 else mp - 9;
    Date(marchYear + (if month <= 2 then 1 else 0), month, doy - (153 * mp + 2) / 5 + 1)
  }

  // -- the calendar --------------------------------------------------------------------

  predicate Leap(year: int) {
    year % 4 == 0 && (year % 100 != 0 || year % 400 == 0)
  }

  function DaysIn(year: int, month: int): int {
    if month == 2 then (if Leap(year) then 29 else 28)
    else if month == 4 || month == 6 || month == 9 || month == 11 then 30
    else 31
  }

  predicate Valid(date: Date) {
    1 <= date.month <= 12 && 1 <= date.day <= DaysIn(date.year, date.month)
  }

  function NextDay(date: Date): Date {
    if date.day < DaysIn(date.year, date.month) then date.(day := date.day + 1)
    else if date.month < 12 then Date(date.year, date.month + 1, 1)
    else Date(date.year + 1, 1, 1)
  }

  // -- counting days -------------------------------------------------------------------

  /** The leap years up to `year`, from year 1. */
  function Leaps(year: int): int {
    year / 4 - year / 100 + year / 400
  }

  /** The days before `month` in `year`. */
  function DaysBefore(year: int, month: nat): int {
    if month <= 1 then 0 else DaysBefore(year, month - 1) + DaysIn(year, month - 1)
  }

  /** The day after 1970-01-01 a date is, counted by years, months and days. */
  function DayNumber(date: Date): int
    requires Valid(date)
  {
    365 * (date.year - 1) + Leaps(date.year - 1) + DaysBefore(date.year, date.month) + date.day - 719163
  }

  lemma MultiplesGrow(year: int)
    ensures year / 4 == (year - 1) / 4 + (if year % 4 == 0 then 1 else 0)
    ensures year / 100 == (year - 1) / 100 + (if year % 100 == 0 then 1 else 0)
    ensures year / 400 == (year - 1) / 400 + (if year % 400 == 0 then 1 else 0)
  {
  }

  lemma MultiplesNest(year: int)
    ensures year % 100 == 0 ==> year % 4 == 0
    ensures year % 400 == 0 ==> year % 100 == 0
  {
    assert year % 100 == 0 ==> year == 4 * (25 * (year / 100));
    assert year % 400 == 0 ==> year == 100 * (4 * (year / 400));
  }

  lemma LeapsGrow(year: int)
    ensures Leaps(year) == Leaps(year - 1) + if Leap(year) then 1 else 0
  {
    MultiplesGrow(year);
    MultiplesNest(year);
  }

  lemma MonthStarts(year: int)
    ensures var leap := if Leap(year) then 1 else 0;
      && DaysBefore(year, 1) == 0 && DaysBefore(year, 2) == 31
      && DaysBefore(year, 3) == 59 + leap && DaysBefore(year, 4) == 90 + leap
      && DaysBefore(year, 5) == 120 + leap && DaysBefore(year, 6) == 151 + leap
      && DaysBefore(year, 7) == 181 + leap && DaysBefore(year, 8) == 212 + leap
      && DaysBefore(year, 9) == 243 + leap && DaysBefore(year, 10) == 273 + leap
      && DaysBefore(year, 11) == 304 + leap && DaysBefore(year, 12) == 334 + leap
  {
    assert DaysBefore(year, 4) == DaysBefore(year, 3) + 31;
    assert DaysBefore(year, 8) == DaysBefore(year, 7) + 31;
  }

  lemma NextDayCounts(date: Date)
    requires Valid(date)
    ensures Valid(NextDay(date)) && DayNumber(NextDay(date)) == DayNumber(date) + 1
  {
    LeapsGrow(date.year);
    MonthStarts(date.year);
  }

  lemma {:induction false} YearStarts(y: int, y': int)
    requires y < y'
    ensures 365 * (y' - 1) + Leaps(y' - 1) >= 365 * y + Leaps(y)
    decreases y' - y
  {
    if y + 1 < y' {
      YearStarts(y, y' - 1);
      LeapsGrow(y' - 1);
    }
  }

  lemma {:induction false} MonthsGrow(year: int, m: nat, m': nat)
    requires 1 <= m < m'
    ensures DaysBefore(year, m') >= DaysBefore(year, m) + DaysIn(year, m)
    decreases m' - m
  {
    if m + 1 < m' {
      MonthsGrow(year, m, m' - 1);
    }
  }

  lemma WithinYear(date: Date)
    requires Valid(date)
    ensures 0 <= DaysBefore(date.year, date.month) + date.day - 1 < 365 + if Leap(date.year) then 1 else 0
  {
    MonthStarts(date.year);
  }

  lemma EarlierCountsLess(a: Date, b: Date)
    requires Valid(a) && Valid(b)
    requires a.year < b.year || (a.year == b.year && (a.month < b.month || (a.month == b.month && a.day < b.day)))
    ensures DayNumber(a) < DayNumber(b)
  {
    if a.year < b.year {
      WithinYear(a);
      WithinYear(b);
      YearStarts(a.year, b.year);
      LeapsGrow(a.year);
    } else if a.month < b.month {
      MonthsGrow(a.year, a.month, b.month);
    }
  }

  lemma DayNumberIsInjective(a: Date, b: Date)
    requires Valid(a) && Valid(b) && DayNumber(a) == DayNumber(b)
    ensures a == b
  {
    if a != b {
      if a.year < b.year || (a.year == b.year && (a.month < b.month || (a.month == b.month && a.day < b.day))) {
        EarlierCountsLess(a, b);
      } else {
        EarlierCountsLess(b, a);
      }
    }
  }

  // -- the formula ---------------------------------------------------------------------

  /** A day of an era by centuries, four-year spans and years, all but the
      last of each as long as the others. */
  lemma Split(doe: int) returns (c: int, q: int, y: int, t: int)
    requires 0 <= doe < 146097
    ensures doe == 36524 * c + 1461 * q + 365 * y + t
    ensures 0 <= c <= 3 && 0 <= q <= 24 && 0 <= y <= 3 && 0 <= t <= 365
    ensures t == 365 ==> y == 3 && (q == 24 ==> c == 3)
  {
    c := if doe == 146096 then 3 else doe / 36524;
    var r := doe - 36524 * c;
    q := r / 1461;
    var s := r - 1461 * q;
    y := if s == 1460 then 3 else s / 365;
    t := s - 365 * y;
  }

  lemma YearFromSplit(c: int, q: int, y: int, t: int)
    requires 0 <= c <= 3 && 0 <= q <= 24 && 0 <= y <= 3 && 0 <= t <= 365
    requires t == 365 ==> y == 3 && (q == 24 ==> c == 3)
    ensures YearOfEra(36524 * c + 1461 * q + 365 * y + t) == 100 * c + 4 * q + y
  {
    var s := 365 * y + t;
    var doe := 36524 * c + 1461 * q + s;
    var e := if 24 * c + q + s >= 1460 then 1 else 0;
    assert doe == 1460 * (25 * c + q + e) + (24 * c + q + s - 1460 * e);
    assert doe / 1460 == 25 * c + q + e;
    assert doe == 146096 <==> c == 3 && q == 24 && s == 1460;
    assert doe / 36524 - doe / 146096 == c;
    assert doe - doe / 1460 + doe / 36524 - doe / 146096 == 365 * (100 * c + 4 * q) + (s - e);
    assert (s - e) / 365 == y;
  }

  /** The formula's year of an era holds the day: its day of the year is one
      of that year's, and the last day of a long year only in one. */
  lemma DayOfYear(doe: int)
    requires 0 <= doe < 146097
    ensures var yoe := YearOfEra(doe);
      var doy := doe - (365 * yoe + yoe / 4 - yoe / 100);
      0 <= yoe < 400 && 0 <= doy <= 365 && (doy == 365 ==> Leap(yoe + 1))
  {
    var c, q, y, t := Split(doe);
    YearFromSplit(c, q, y, t);
    var yoe := 100 * c + 4 * q + y;
    assert yoe / 4 == 25 * c + q && yoe / 100 == c;
    if t == 365 {
      assert yoe + 1 == 100 * c + 4 * (q + 1);
    }
  }

  /** The months from March on, and how many days of the year are behind each. */
  lemma MonthOfDoy(doy: int)
    requires 0 <= doy <= 365
    ensures var mp := (5 * doy + 2) / 153;
      && 0 <= mp <= 11 && (153 * mp + 2) / 5 <= doy < (153 * (mp + 1) + 2) / 5
  {
  }

  /** January and February are the next year's. */
  lemma MarchMonths(year: int, mp: int)
    requires 0 <= mp <= 11
    ensures mp < 10 ==> DaysBefore(year, mp + 3) == (153 * mp + 2) / 5 + 59 + (if Leap(year) then 1 else 0)
    ensures mp >= 10 ==> DaysBefore(year + 1, mp - 9) == (153 * mp + 2) / 5 - 306
    ensures mp < 10 ==> DaysIn(year, mp + 3) == (153 * (mp + 1) + 2) / 5 - (153 * mp + 2) / 5
    ensures mp == 10 ==> DaysIn(year + 1, 1) == 31
  {
    MonthStarts(year);
    MonthStarts(year + 1);
  }

  lemma MonthOfDay(marchYear: int, doy: int)
    requires 0 <= doy <= 365 && (doy == 365 ==> Leap(marchYear + 1))
    ensures Valid(DateOf(marchYear, doy))
    ensures DayNumber(DateOf(marchYear, doy)) == 365 * marchYear + Leaps(marchYear) + doy - 719468
  {
    MonthOfDoy(doy);
    MarchMonths(marchYear, (5 * doy + 2) / 153);
    LeapsGrow(marchYear);
  }

  lemma MultiplesOfEra(y: int, era: int)
    ensures (y + era * 400) / 4 == y / 4 + 100 * era && (y + era * 400) % 4 == y % 4
    ensures (y + era * 400) / 100 == y / 100 + 4 * era && (y + era * 400) % 100 == y % 100
    ensures (y + era * 400) / 400 == y / 400 + era && (y + era * 400) % 400 == y % 400
  {
  }

  lemma LeapsOfEra(yoe: int, era: int)
    requires 0 <= yoe < 400
    ensures Leaps(yoe + era * 400) == yoe / 4 - yoe / 100 + 97 * era
    ensures Leap(yoe + era * 400 + 1) == Leap(yoe + 1)
  {
    MultiplesOfEra(yoe, era);
    MultiplesOfEra(yoe + 1, era);
    assert yoe + era * 400 + 1 == yoe + 1 + era * 400;
  }

  lemma EraCounts(era: int, doe: int)
    requires 0 <= doe < 146097
    ensures Valid(DateOfEra(era, doe)) && DayNumber(DateOfEra(era, doe)) == 146097 * era + doe - 719468
  {
    var yoe := YearOfEra(doe);
    DayOfYear(doe);
    LeapsOfEra(yoe, era);
    MonthOfDay(yoe + era * 400, doe - (365 * yoe + yoe / 4 - yoe / 100));
  }

  /** Every day number's date is a date of the calendar, and counting its days
      gives the number back. */
  lemma CivilCounts(days: int)
    ensures Valid(Civil(days)) && DayNumber(Civil(days)) == days
  {
    var z := days + 719468;
    EraCounts(z / 146097, z % 146097);
    assert 146097 * (z / 146097) + z % 146097 == z;
  }

  /** And every date is the date of its day number. */
  lemma CivilOfDayNumber(date: Date)
    requires Valid(date)
    ensures Civil(DayNumber(date)) == date
  {
    CivilCounts(DayNumber(date));
    DayNumberIsInjective(Civil(DayNumber(date)), date);
  }

  /** The day after a day number's date is the next number's date. */
  lemma CivilFollowsTheCalendar(days: int)
    ensures Civil(days + 1) == NextDay(Civil(days))
  {
    CivilCounts(days);
    CivilCounts(days + 1);
    NextDayCounts(Civil(days));
    DayNumberIsInjective(Civil(days + 1), NextDay(Civil(days)));
  }

  lemma FirstYear()
    ensures YearOfEra(135080) == 369 && DateOf(1969, 306) == Date(1970, 1, 1)
  {
  }

  lemma CivilBegins()
    ensures Civil(0) == Date(1970, 1, 1)
  {
    FirstYear();
    assert 719468 / 146097 == 4 && 719468 % 146097 == 135080;
  }
}
