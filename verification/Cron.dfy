// Schedule specifications, the cron day rule and the bounded search for the
// next firing.
//
// An instant is a number of nanoseconds since 0001-01-01 00:00 UTC, which is
// also what Go truncates to whole minutes against.

module Cron {
  import opened Options
  import opened Calendar

  const MINUTE := 60_000_000_000

  /** The number of candidate minutes NextAfter looks at. */
  const WINDOW_DAYS := 4 * 366
  const WINDOW := WINDOW_DAYS * 24 * 60

  datatype Spec =
    | Interval(every: int)
    | Clock(minutes: set<int>, hours: set<int>, days: set<int>, months: set<int>, weekdays: set<int>,
            daysFree: bool, weekFree: bool)

  /** What Parse guarantees of a clock specification. */
  predicate WellFormed(s: Spec) {
    s.Clock? ==>
      && s.minutes != {} && s.hours != {} && s.days != {} && s.months != {} && s.weekdays != {}
      && (forall v | v in s.minutes :: 0 <= v <= 59)
      && (forall v | v in s.hours :: 0 <= v <= 23)
      && (forall v | v in s.days :: 1 <= v <= 31)
      && (forall v | v in s.months :: 1 <= v <= 12)
      && (forall v | v in s.weekdays :: 0 <= v <= 6)
  }

  /** The day rule: with both day fields restricted either one is enough. */
  predicate DayMatches(s: Spec, day: int)
    requires s.Clock?
  {
    var date := CivilOf(day);
    var domOK := date.day in s.days;
    var dowOK := Weekday(day) in s.weekdays;
    && date.month in s.months
    && if s.daysFree && s.weekFree then true
       else if s.daysFree then dowOK
       else if s.weekFree then domOK
       else domOK || dowOK
  }

  /** Whether an instant satisfies the schedule; n counts minutes since the origin. */
  predicate MinuteMatches(s: Spec, n: int) {
    s.Interval? || (DayMatches(s, n / 1440) && n / 60 % 24 in s.hours && n % 60 in s.minutes)
  }

  predicate Match(s: Spec, t: int) {
    MinuteMatches(s, t / MINUTE)
  }

  /** The first minute in [n, stop) that matches, as an instant. */
  function Scan(s: Spec, n: int, stop: int): Option<int>
    decreases stop - n
  {
    if n >= stop then None
    else if MinuteMatches(s, n) then Some(n * MINUTE)
    else Scan(s, n + 1, stop)
  }

  function NextFiring(s: Spec, t: int): Option<int> {
    if s.Interval? then Some(t + s.every) else Scan(s, t / MINUTE + 1, t / MINUTE + 1 + WINDOW)
  }

  /** The start of the minute after the one t lies in. */
  function NextMinute(t: int): int {
    t - t % MINUTE + MINUTE
  }

  lemma NextFiringOpens(s: Spec, t: int)
    ensures s.Interval? ==> NextFiring(s, t) == Some(t + s.every)
    ensures s.Clock? ==> var first := t / MINUTE + 1;
      NextMinute(t) == first * MINUTE && NextFiring(s, t) == Scan(s, first, first + WINDOW)
  {
    hide Scan;
  }

  lemma ScanEmpty(s: Spec, n: int)
    ensures Scan(s, n, n) == None
  {
  }

  lemma ScanStep(s: Spec, n: int, stop: int)
    requires n < stop
    ensures Scan(s, n, stop) == if Match(s, n * MINUTE) then Some(n * MINUTE) else Scan(s, n + 1, stop)
  {
    hide MinuteMatches;
    assert n * MINUTE / MINUTE == n;
  }

  /** The search itself: truncate to the minute, then step minute by minute. */
  method NextAfter(s: Spec, t: int) returns (r: Option<int>)
    ensures r == NextFiring(s, t)
  {
    hide Match, Scan, NextFiring, NextMinute;
    NextFiringOpens(s, t);
    if s.Interval? {
      return Some(t + s.every);
    }
    var c := NextMinute(t);
    ghost var first := t / MINUTE + 1;
    ghost var stop := first + WINDOW;
    var i := 0;
    while i < WINDOW
      invariant 0 <= i <= WINDOW
      invariant c == (first + i) * MINUTE
      invariant NextFiring(s, t) == Scan(s, first + i, stop)
    {
      ScanStep(s, first + i, stop);
      if Match(s, c) {
        return Some(c);
      }
      c := c + MINUTE;
      i := i + 1;
    }
    ScanEmpty(s, stop);
    return None;
  }

  lemma {:induction false} ScanFinds(s: Spec, n: int, stop: int)
    ensures match Scan(s, n, stop)
      case None => forall i :: n <= i < stop ==> !MinuteMatches(s, i)
      case Some(r) => exists j :: n <= j < stop && r == j * MINUTE && MinuteMatches(s, j)
                             && forall i :: n <= i < j ==> !MinuteMatches(s, i)
    decreases stop - n
  {
    hide MinuteMatches;
    if n < stop && !MinuteMatches(s, n) {
      ScanFinds(s, n + 1, stop);
    }
  }

  /** The firing is the least matching whole minute strictly after t, and there is none exactly when
      no minute of the window matches. */
  lemma NextFiringIsLeast(s: Spec, t: int)
    requires s.Clock?
    ensures match NextFiring(s, t)
      case None => forall n :: t < n * MINUTE && n < t / MINUTE + 1 + 4 * 366 * 24 * 60 ==> !MinuteMatches(s, n)
      case Some(r) => r > t && r % MINUTE == 0 && Match(s, r) && r <= (t / MINUTE + 4 * 366 * 24 * 60) * MINUTE
                      && forall u :: t < u < r && u % MINUTE == 0 ==> !Match(s, u)
  {
    hide MinuteMatches, Scan;
    ScanFinds(s, t / MINUTE + 1, t / MINUTE + 1 + WINDOW);
    var next := NextFiring(s, t);
    if next.Some? {
      var j :| t / MINUTE + 1 <= j < t / MINUTE + 1 + WINDOW && next.value == j * MINUTE && MinuteMatches(s, j)
               && forall i :: t / MINUTE + 1 <= i < j ==> !MinuteMatches(s, i);
      assert j * MINUTE / MINUTE == j;
      forall u | t < u < next.value && u % MINUTE == 0
        ensures !Match(s, u)
      {
        assert u / MINUTE * MINUTE == u;
      }
    }
  }

  // ----- what matches -------------------------------------------------------

  /** The instant at which a minute of a date begins. */
  function At(date: Date, h: int, m: int): int
    requires ValidDate(date)
  {
    ((DayNumber(date) * 24 + h) * 60 + m) * MINUTE
  }

  /** The day rule, date by date.  One day field restricts alone; two restrict together, and then a day matches
      when it would with either of them freed. */
  lemma DayRule(s: Spec, date: Date)
    requires s.Clock? && ValidDate(date)
    ensures var n := DayNumber(date);
      && (s.daysFree && s.weekFree ==> (DayMatches(s, n) <==> date.month in s.months))
      && (!s.daysFree && s.weekFree ==> (DayMatches(s, n) <==> date.month in s.months && date.day in s.days))
      && (s.daysFree && !s.weekFree ==> (DayMatches(s, n) <==> date.month in s.months && Weekday(n) in s.weekdays))
      && (!s.daysFree && !s.weekFree ==>
            (DayMatches(s, n) <==> DayMatches(s.(weekFree := true), n) || DayMatches(s.(daysFree := true), n)))
  {
    hide CivilOf, DayNumber, Weekday;
    CivilOfDayNumber(date);
  }

  /** An instant matches a clock schedule exactly when its hour, its minute and its date do, whatever its
      seconds. */
  lemma MatchesAt(s: Spec, date: Date, h: int, m: int, rest: int)
    requires s.Clock? && ValidDate(date) && 0 <= h <= 23 && 0 <= m <= 59 && 0 <= rest < MINUTE
    ensures Match(s, At(date, h, m) + rest) <==> h in s.hours && m in s.minutes && DayMatches(s, DayNumber(date))
  {
    hide DayMatches, DayNumber;
    var d := DayNumber(date);
    assert (At(date, h, m) + rest) / MINUTE == d * 1440 + h * 60 + m;
    MinuteOfDay(d, h, m);
  }

  // ----- window completeness ------------------------------------------------

  /** The first day whose minute h:m lies in the window opened by t. */
  function FirstDay(t: int, h: int, m: int): int {
    var n := t / MINUTE + 1;
    if n % 1440 <= h * 60 + m then n / 1440 else n / 1440 + 1
  }

  predicate InWindow(t: int, h: int, m: int, d: int) {
    FirstDay(t, h, m) <= d < FirstDay(t, h, m) + WINDOW_DAYS
  }

  lemma MinuteOfDay(d: int, h: int, m: int)
    requires 0 <= h <= 23 && 0 <= m <= 59
    ensures var n := d * 1440 + h * 60 + m; n / 1440 == d && n / 60 % 24 == h && n % 60 == m
  {
    assert (d * 1440 + h * 60 + m) / 60 == d * 24 + h;
  }

  lemma MinuteSplit(n: int)
    ensures n == n / 1440 * 1440 + n / 60 % 24 * 60 + n % 60
    ensures 0 <= n / 60 % 24 <= 23 && 0 <= n % 60 <= 59
  {
    assert n / 60 / 24 == n / 1440;
  }

  /** The window holds exactly WINDOW_DAYS consecutive days of every minute of the day. */
  lemma WindowIsDays(t: int, d: int, h: int, m: int)
    requires 0 <= h <= 23 && 0 <= m <= 59
    ensures var n := d * 1440 + h * 60 + m;
      t / MINUTE + 1 <= n < t / MINUTE + 1 + WINDOW
      <==> InWindow(t, h, m, d)
  {
  }

  /** The search fails exactly when no allowed minute of the day meets a matching day in its window. */
  lemma FailsIffNoDay(s: Spec, t: int)
    requires s.Clock? && WellFormed(s)
    ensures NextFiring(s, t).None? <==>
            forall h, m, d | h in s.hours && m in s.minutes && InWindow(t, h, m, d) :: !DayMatches(s, d)
  {
    hide Scan, DayMatches, FirstDay, NextFiring;
    NextFiringIsLeast(s, t);
    var first := t / MINUTE + 1;
    if NextFiring(s, t).None? {
      forall h, m, d | h in s.hours && m in s.minutes && InWindow(t, h, m, d)
        ensures !DayMatches(s, d)
      {
        WindowIsDays(t, d, h, m);
        MinuteOfDay(d, h, m);
        var n := d * 1440 + h * 60 + m;
        assert t < n * MINUTE;
        assert !MinuteMatches(s, n);
      }
    } else {
      var n := NextFiring(s, t).value / MINUTE;
      MinuteSplit(n);
      var d, h, m := n / 1440, n / 60 % 24, n % 60;
      WindowIsDays(t, d, h, m);
      assert MinuteMatches(s, n);
      assert h in s.hours && m in s.minutes && InWindow(t, h, m, d) && DayMatches(s, d);
    }
  }

  /** A date that exists in common years. */
  predicate CommonDate(m: int, d: int) {
    1 <= m <= 12 && 1 <= d <= DaysInMonth(1, m)
  }

  /** Such a date recurs within any 366 consecutive days. */
  lemma CommonDateRecurs(day: int, m: int, d: int) returns (k: int)
    requires CommonDate(m, d)
    ensures day <= k < day + 366
    ensures CivilOf(k).month == m && CivilOf(k).day == d
  {
    var y := YearOf(day);
    var here, next := Date(y, m, d), Date(y + 1, m, d);
    k := DayNumber(here);
    CivilOfDayNumber(here);
    if k < day {
      k := DayNumber(next);
      CivilOfDayNumber(next);
      MonthTable(y);
      MonthTable(y + 1);
      YearStartStep(y);
      YearStartStep(y + 1);
      DayNumberInYear(here);
      DayNumberInYear(next);
      DateGap(y, m, d);
    } else {
      DayNumberInYear(here);
      DateGap(y, m, d);
      YearStartStep(y);
    }
  }

  lemma DateGap(y: int, m: int, d: int)
    requires CommonDate(m, d)
    ensures DayNumber(Date(y + 1, m, d)) - DayNumber(Date(y, m, d)) <= 366
  {
    MonthTable(y);
    MonthTable(y + 1);
    YearStartStep(y);
  }

  lemma WeekdayShift(n: int, w: int)
    requires 0 <= w <= 6
    ensures Weekday(n + (w - Weekday(n)) % 7) == w
  {
  }

  /** Every weekday occurs in the first week of a month. */
  lemma WeekdayInMonth(first: int, w: int) returns (k: int)
    requires CivilOf(first).day == 1 && 0 <= w <= 6
    ensures first <= k < first + 7 && Weekday(k) == w && CivilOf(k).month == CivilOf(first).month
  {
    hide CivilOf;
    k := first + (w - Weekday(first)) % 7;
    var date := CivilOf(first).(day := 1 + (k - first));
    assert ValidDate(date) && DayNumber(date) == k;
    CivilOfDayNumber(date);
    assert Weekday(k) == w by {
      WeekdayShift(first, w);
    }
  }

  predicate HasCommonDate(s: Spec)
    requires s.Clock?
  {
    exists m, d :: m in s.months && d in s.days && CommonDate(m, d)
  }

  /** The specifications that can fail at all: only the day of month restricts, and no allowed date
      exists in common years. */
  predicate OnlyRareDates(s: Spec)
    requires s.Clock?
  {
    s.weekFree && !s.daysFree && !HasCommonDate(s)
  }

  predicate AllowsLeapDay(s: Spec)
    requires s.Clock?
  {
    2 in s.months && 29 in s.days
  }

  lemma Element<T>(vs: set<T>) returns (v: T)
    requires vs != {}
    ensures v in vs
  {
    v :| v in vs;
  }

  /** Every other specification has a matching day within any WINDOW_DAYS days. */
  lemma CommonSpecRecurs(s: Spec, day: int) returns (k: int)
    requires s.Clock? && WellFormed(s) && !OnlyRareDates(s)
    ensures day <= k < day + WINDOW_DAYS && DayMatches(s, k)
  {
    hide CivilOf, Weekday;
    if s.weekFree && !s.daysFree {
      var m, d :| m in s.months && d in s.days && CommonDate(m, d);
      k := CommonDateRecurs(day, m, d);
    } else {
      var m := Element(s.months);
      k := CommonDateRecurs(day, m, 1);
      if !s.weekFree {
        var w := Element(s.weekdays);
        k := WeekdayInMonth(k, w);
      }
    }
  }

  function LeapDay(y: int): int {
    YearStart(y) + 59
  }

  /** `day` opens a window of WINDOW_DAYS that lies strictly between the leap days on both sides of a
      century year that is not a leap year. */
  ghost predicate CenturyGap(day: int) {
    exists c :: c % 100 == 0 && c % 400 != 0 && LeapDay(c - 4) < day && day + WINDOW_DAYS <= LeapDay(c + 4)
  }

  lemma LeapDayIsFeb29(y: int)
    requires IsLeap(y)
    ensures CivilOf(LeapDay(y)) == Date(y, 2, 29)
  {
    MonthTable(y);
    CivilOfDayNumber(Date(y, 2, 29));
  }

  lemma LeapIsFourth(y: int)
    ensures IsLeap(y) ==> y % 4 == 0
  {
  }

  lemma OneLeapYearInFour(y: int)
    ensures DaysInYear(y) + DaysInYear(y + 1) + DaysInYear(y + 2) + DaysInYear(y + 3) <= 1461
  {
    hide IsLeap;
    LeapIsFourth(y);
    LeapIsFourth(y + 1);
    LeapIsFourth(y + 2);
    LeapIsFourth(y + 3);
  }

  lemma FourYears(y: int)
    ensures 1460 <= LeapDay(y + 4) - LeapDay(y) <= 1461
  {
    hide YearStart, IsLeap;
    YearStartStep(y);
    YearStartStep(y + 1);
    YearStartStep(y + 2);
    YearStartStep(y + 3);
    OneLeapYearInFour(y);
  }

  /** The year, a multiple of four, whose leap-day slot is the first on or after `day`. */
  lemma NextSlot(day: int) returns (y: int)
    ensures y % 4 == 0 && LeapDay(y - 4) < day <= LeapDay(y)
  {
    hide YearStart, YearOf;
    var z := YearOf(day);
    y := z - z % 4;
    YearStartMonotone(y, z);
    YearStartMonotone(z + 1, y + 4);
    YearStartMonotone(y - 4, z);
    if LeapDay(y) < day {
      y := y + 4;
    } else if LeapDay(y - 4) >= day {
      y := y - 4;
      YearStartMonotone(y - 4, z);
    }
  }

  /** A window of WINDOW_DAYS contains a 29 February unless it lies in a century gap. */
  lemma LeapDayRecurs(day: int) returns (y: int)
    requires !CenturyGap(day)
    ensures IsLeap(y) && day <= LeapDay(y) < day + WINDOW_DAYS
  {
    hide LeapDay;
    y := NextSlot(day);
    FourYears(y - 4);
    FourYears(y);
    if !IsLeap(y) {
      CenturyNeighbours(y);
      y := y + 4;
    }
  }

  lemma CenturyNeighbours(y: int)
    requires y % 4 == 0 && !IsLeap(y)
    ensures y % 100 == 0 && y % 400 != 0 && IsLeap(y + 4)
  {
  }

  lemma CenturyGapHasNoLeapDay(day: int, y: int)
    requires CenturyGap(day) && IsLeap(y)
    ensures !(day <= LeapDay(y) < day + WINDOW_DAYS)
  {
    hide YearStart;
    var c :| c % 100 == 0 && c % 400 != 0 && LeapDay(c - 4) < day && day + WINDOW_DAYS <= LeapDay(c + 4);
    if y <= c - 4 {
      YearStartMonotone(y, c - 4);
    } else if y >= c + 4 {
      YearStartMonotone(c + 4, y);
    }
  }

  /** The only day a rare specification can match is 29 February. */
  lemma RareMatchIsLeapDay(s: Spec, d: int)
    requires s.Clock? && WellFormed(s) && OnlyRareDates(s) && DayMatches(s, d)
    ensures AllowsLeapDay(s) && IsLeap(CivilOf(d).year) && d == LeapDay(CivilOf(d).year)
  {
    var date := CivilOf(d);
    assert !CommonDate(date.month, date.day);
    MonthTable(date.year);
  }

  lemma LeapDayFound(s: Spec, t: int, h: int, m: int)
    requires s.Clock? && WellFormed(s) && AllowsLeapDay(s) && s.weekFree && h in s.hours && m in s.minutes
    requires !CenturyGap(FirstDay(t, h, m))
    ensures NextFiring(s, t).Some?
  {
    hide NextFiring, CivilOf, YearStart, FirstDay;
    var y := LeapDayRecurs(FirstDay(t, h, m));
    LeapDayIsFeb29(y);
    assert InWindow(t, h, m, LeapDay(y)) && DayMatches(s, LeapDay(y));
    FailsIffNoDay(s, t);
  }

  /** Main result: exactly which specifications find no firing, and from where. */
  lemma WindowComplete(s: Spec, t: int)
    requires s.Clock? && WellFormed(s)
    ensures NextFiring(s, t).None? <==>
            && OnlyRareDates(s)
            && (AllowsLeapDay(s) ==> forall h, m :: h in s.hours && m in s.minutes ==> CenturyGap(FirstDay(t, h, m)))
  {
    hide NextFiring, CivilOf, YearStart, FirstDay;
    FailsIffNoDay(s, t);
    if !OnlyRareDates(s) {
      var h := Element(s.hours);
      var m := Element(s.minutes);
      var k := CommonSpecRecurs(s, FirstDay(t, h, m));
    } else if NextFiring(s, t).None? {
      if AllowsLeapDay(s) {
        forall h, m | h in s.hours && m in s.minutes
          ensures CenturyGap(FirstDay(t, h, m))
        {
          if !CenturyGap(FirstDay(t, h, m)) {
            LeapDayFound(s, t, h, m);
          }
        }
      }
    } else {
      var h, m, d :| h in s.hours && m in s.minutes && InWindow(t, h, m, d) && DayMatches(s, d);
      RareMatchIsLeapDay(s, d);
      if CenturyGap(FirstDay(t, h, m)) {
        CenturyGapHasNoLeapDay(FirstDay(t, h, m), CivilOf(d).year);
      }
    }
  }

  /** A specification that can only fire on 29 February finds it from every t whose window touches no
      year that is a century but not a leap year. */
  lemma LeapDayFoundAwayFromCenturies(s: Spec, t: int)
    requires s.Clock? && WellFormed(s) && AllowsLeapDay(s)
    requires forall d :: t / MINUTE / 1440 <= d <= t / MINUTE / 1440 + WINDOW_DAYS + 1 ==>
                         var y := CivilOf(d).year; y % 100 != 0 || y % 400 == 0
    ensures NextFiring(s, t).Some?
  {
    hide NextFiring, CivilOf, YearStart;
    WindowComplete(s, t);
    if NextFiring(s, t).None? {
      var h := Element(s.hours);
      var m := Element(s.minutes);
      CenturyYearTouched(FirstDay(t, h, m));
    }
  }

  lemma CenturyYearTouched(first: int)
    requires CenturyGap(first)
    ensures exists d :: first <= d < first + WINDOW_DAYS && CivilOf(d).year % 100 == 0 && CivilOf(d).year % 400 != 0
  {
    hide YearStart, CivilOf;
    var c :| c % 100 == 0 && c % 400 != 0 && LeapDay(c - 4) < first && first + WINDOW_DAYS <= LeapDay(c + 4);
    FourYears(c - 4);
    FourYears(c);
    LeapDayIsMarch1(c);
    assert CivilOf(LeapDay(c)).year == c;
  }

  lemma LeapDayIsMarch1(y: int)
    requires !IsLeap(y)
    ensures CivilOf(LeapDay(y)) == Date(y, 3, 1)
  {
    hide CivilOf;
    MonthTable(y);
    CivilOfDayNumber(Date(y, 3, 1));
  }

  /** The "four years is enough" of the documentation is false: `0 0 29 2 *` has no firing from
      1 March 2096 although 29 February 2104 lies ahead. */
  lemma FourYearsIsNotEnough()
    ensures var s := Clock({0}, {0}, {29}, {2}, {0, 1, 2, 3, 4, 5, 6}, false, true);
      var t := DayNumber(Date(2096, 3, 1)) * 1440 * MINUTE;
      && WellFormed(s) && NextFiring(s, t).None?
      && Match(s, DayNumber(Date(2104, 2, 29)) * 1440 * MINUTE)
  {
    hide CivilOf, NextFiring;
    var s := Clock({0}, {0}, {29}, {2}, {0, 1, 2, 3, 4, 5, 6}, false, true);
    var d := DayNumber(Date(2096, 3, 1));
    MonthTable(2096);
    MonthTable(2104);
    assert d * 1440 * MINUTE / MINUTE == d * 1440;
    assert FirstDay(d * 1440 * MINUTE, 0, 0) == d + 1;
    assert CenturyGap(d + 1) by {
      assert 2100 % 100 == 0 && 2100 % 400 != 0 && LeapDay(2096) < d + 1 && d + 1 + WINDOW_DAYS <= LeapDay(2104);
    }
    WindowComplete(s, d * 1440 * MINUTE);
    MatchAtMidnight(s, Date(2104, 2, 29));
  }

  lemma MatchAtMidnight(s: Spec, date: Date)
    requires s.Clock? && 0 in s.hours && 0 in s.minutes
    requires ValidDate(date) && date.month in s.months && date.day in s.days && s.weekFree && !s.daysFree
    ensures Match(s, DayNumber(date) * 1440 * MINUTE)
  {
    hide DayNumber, CivilOf;
    CivilOfDayNumber(date);
    var n := DayNumber(date) * 1440;
    assert n * MINUTE / MINUTE == n;
    MinuteOfDay(DayNumber(date), 0, 0);
  }

  /** Dates that exist in no year are reported from everywhere as having no firing. */
  lemma ImpossibleDatesNeverFire(s: Spec, t: int)
    requires s.Clock? && WellFormed(s) && OnlyRareDates(s) && !AllowsLeapDay(s)
    ensures NextFiring(s, t).None? && forall u :: !Match(s, u)
  {
    WindowComplete(s, t);
    forall u
      ensures !Match(s, u)
    {
      if Match(s, u) {
        RareMatchIsLeapDay(s, u / MINUTE / 1440);
      }
    }
  }

  lemma NextFiringIsLater(s: Spec, t: int)
    requires s.Interval? ==> s.every > 0
    ensures NextFiring(s, t).Some? ==> NextFiring(s, t).value > t && Match(s, NextFiring(s, t).value)
  {
    if s.Clock? {
      NextFiringIsLeast(s, t);
    }
  }

  /** Only a clock specification can lack a firing. */
  lemma NextFiringCases(s: Spec, t: int)
    ensures NextFiring(s, t).None? ==> s.Clock?
  {
    hide Scan;
  }
}
