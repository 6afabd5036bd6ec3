// The proleptic Gregorian calendar in UTC.
//
// Day 0 is 1 January of year 1, a Monday.  DayNumber and CivilOf are inverse to
// each other; everything the schedule needs about months, weekdays and leap
// days is derived from that pair.

module Calendar {
  datatype Date = Date(year: int, month: int, day: int)

  predicate IsLeap(y: int) {
    y % 4 == 0 && (y % 100 != 0 || y % 400 == 0)
  }

  function DaysInYear(y: int): int {
    if IsLeap(y) then 366 else 365
  }

  function DaysInMonth(y: int, m: int): int
    requires 1 <= m <= 12
  {
    if m == 2 then (if IsLeap(y) then 29 else 28)
    else if m == 4 || m == 6 || m == 9 || m == 11 then 30
    else 31
  }

  predicate ValidDate(d: Date) {
    1 <= d.month <= 12 && 1 <= d.day <= DaysInMonth(d.year, d.month)
  }

  /** Number of days from day 0 to 1 January of year y. */
  function YearStart(y: int): int {
    var p := y - 1;
    365 * p + p / 4 - p / 100 + p / 400
  }

  /** Number of days from 1 January to the first of month m; 13 stands for the end of the year. */
  function MonthStart(y: int, m: int): int
    requires 1 <= m <= 13
  {
    if m == 1 then 0 else MonthStart(y, m - 1) + DaysInMonth(y, m - 1)
  }

  function DayNumber(d: Date): int
    requires ValidDate(d)
  {
    YearStart(d.year) + MonthStart(d.year, d.month) + d.day - 1
  }

  /** 0 is Sunday, as in Go's time.Weekday. */
  function Weekday(n: int): int {
    (n + 1) % 7
  }

  lemma YearStartStep(y: int)
    ensures YearStart(y + 1) == YearStart(y) + DaysInYear(y)
  {
    hide IsLeap;
    QuotientStep(y);
    LeapCount(y);
  }

  /** The leap rule as it enters the day count. */
  lemma LeapCount(y: int)
    ensures (if IsLeap(y) then 1 else 0)
         == (if y % 4 == 0 then 1 else 0) - (if y % 100 == 0 then 1 else 0) + (if y % 400 == 0 then 1 else 0)
  {
    FourHundreds(y);
    Hundreds(y);
  }

  lemma FourHundreds(y: int)
    ensures y % 400 == 0 ==> y % 100 == 0
  {
    assert y % 400 == y - 400 * (y / 400);
  }

  lemma Hundreds(y: int)
    ensures y % 100 == 0 ==> y % 4 == 0
  {
    assert y % 100 == y - 100 * (y / 100);
  }

  lemma QuotientStep(y: int)
    ensures y / 4 == (y - 1) / 4 + (if y % 4 == 0 then 1 else 0)
    ensures y / 100 == (y - 1) / 100 + (if y % 100 == 0 then 1 else 0)
    ensures y / 400 == (y - 1) / 400 + (if y % 400 == 0 then 1 else 0)
  {
  }

  lemma {:induction false} YearStartMonotone(y: int, z: int)
    requires y <= z
    ensures YearStart(y) + 365 * (z - y) <= YearStart(z) <= YearStart(y) + 366 * (z - y)
    decreases z - y
  {
    if y < z {
      YearStartMonotone(y, z - 1);
      YearStartStep(z - 1);
    }
  }

  /** The month table in closed form. */
  lemma MonthTable(y: int)
    ensures var l := if IsLeap(y) then 1 else 0;
      && MonthStart(y, 1) == 0 && MonthStart(y, 2) == 31 && MonthStart(y, 3) == 59 + l
      && MonthStart(y, 4) == 90 + l && MonthStart(y, 5) == 120 + l && MonthStart(y, 6) == 151 + l
      && MonthStart(y, 7) == 181 + l && MonthStart(y, 8) == 212 + l && MonthStart(y, 9) == 243 + l
      && MonthStart(y, 10) == 273 + l && MonthStart(y, 11) == 304 + l && MonthStart(y, 12) == 334 + l
      && MonthStart(y, 13) == 365 + l
  {
    assert MonthStart(y, 2) == 31;
    assert MonthStart(y, 4) == MonthStart(y, 3) + 31;
    assert MonthStart(y, 6) == MonthStart(y, 5) + 31;
    assert MonthStart(y, 8) == MonthStart(y, 7) + 31;
    assert MonthStart(y, 10) == MonthStart(y, 9) + 30;
    assert MonthStart(y, 12) == MonthStart(y, 11) + 30;
  }

  lemma {:induction false} MonthStartMonotone(y: int, m: int, k: int)
    requires 1 <= m <= k <= 13
    ensures MonthStart(y, m) + 28 * (k - m) <= MonthStart(y, k)
    decreases k - m
  {
    if m < k {
      MonthStartMonotone(y, m, k - 1);
    }
  }

  /** A first guess that is at most one year early, corrected by one comparison. */
  function YearOf(n: int): (y: int)
    ensures YearStart(y) <= n < YearStart(y + 1)
  {
    var q, r := n / 146097, n % 146097;
    var guess := 400 * q + r / 366 + 1;
    YearGuess(n);
    if n < YearStart(guess + 1) then guess else guess + 1
  }

  lemma YearGuess(n: int)
    ensures var g := 400 * (n / 146097) + n % 146097 / 366 + 1;
      YearStart(g) <= n < YearStart(g + 2)
  {
    var q, r := n / 146097, n % 146097;
    var k := r / 366;
    var p := 400 * q + k;
    assert p / 400 == q && p / 100 == 4 * q + k / 100 && p / 4 == 100 * q + k / 4;
    assert YearStart(p + 1) == 146097 * q + 365 * k + k / 4 - k / 100 + k / 400;
    YearStartStep(p + 1);
    YearStartStep(p + 2);
    YearGuessUpper(q, r);
  }

  lemma YearGuessUpper(q: int, r: int)
    requires 0 <= r < 146097
    ensures 146097 * q + r < YearStart(400 * q + r / 366 + 3)
  {
    var k := r / 366;
    var p := 400 * q + k + 2;
    assert k <= 399;
    assert p / 4 >= 100 * q + (k + 2) / 4;
    assert p / 400 >= q && p / 100 <= 4 * q + (k + 2) / 100;
    assert YearStart(p + 1) >= 146097 * q + 365 * (k + 2) + (k + 2) / 4 - (k + 2) / 100;
  }

  function MonthOf(y: int, offset: int, m: int): (r: int)
    requires 1 <= m <= 12 && MonthStart(y, m) <= offset < DaysInYear(y)
    ensures m <= r <= 12 && MonthStart(y, r) <= offset < MonthStart(y, r + 1)
    decreases 12 - m
  {
    MonthTable(y);
    if offset < MonthStart(y, m + 1) then m else MonthOf(y, offset, m + 1)
  }

  function CivilOf(n: int): (d: Date)
    ensures ValidDate(d) && DayNumber(d) == n
  {
    var y := YearOf(n);
    YearStartStep(y);
    var m := MonthOf(y, n - YearStart(y), 1);
    Date(y, m, n - YearStart(y) - MonthStart(y, m) + 1)
  }

  /** Two valid dates with the same day number are equal, so CivilOf is the inverse of DayNumber. */
  lemma DayNumberInjective(a: Date, b: Date)
    requires ValidDate(a) && ValidDate(b) && DayNumber(a) == DayNumber(b)
    ensures a == b
  {
    hide YearStart;
    DayNumberInYear(a);
    DayNumberInYear(b);
    if a.year < b.year {
      YearStartMonotone(a.year + 1, b.year);
    } else if b.year < a.year {
      YearStartMonotone(b.year + 1, a.year);
    } else if a.month < b.month {
      MonthStartMonotone(a.year, a.month + 1, b.month);
    } else if b.month < a.month {
      MonthStartMonotone(a.year, b.month + 1, a.month);
    }
  }

  lemma DayNumberInYear(d: Date)
    requires ValidDate(d)
    ensures YearStart(d.year) <= DayNumber(d) < YearStart(d.year + 1)
  {
    MonthStartMonotone(d.year, 1, d.month);
    MonthStartMonotone(d.year, d.month + 1, 13);
    MonthTable(d.year);
    YearStartStep(d.year);
  }

  /** Round trip: the civil date of a date's day number is that date. */
  lemma CivilOfDayNumber(d: Date)
    requires ValidDate(d)
    ensures CivilOf(DayNumber(d)) == d
  {
    DayNumberInjective(CivilOf(DayNumber(d)), d);
  }

  /** The epoch of the calendar agrees with a date whose weekday and distance are well known. */
  lemma UnixEpoch()
    ensures DayNumber(Date(1970, 1, 1)) == 719162 && Weekday(719162) == 4
  {
  }
}
