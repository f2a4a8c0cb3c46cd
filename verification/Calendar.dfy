/** Civil dates as proleptic Gregorian day numbers (day 0 is 0000-01-01), with the
    weekday numbering of Go's time package and the ISO week date of section 4.1.4 of
    ISO 8601:2004. Every division below has a positive divisor, so it floors. */
module Calendar {

  /** Sunday is 0 and Saturday is 6, as in time.Weekday. */
  type Weekday = w: int | 0 <= w < 7

  const MONDAY: Weekday := 1

  // ---- years -------------------------------------------------------------

  predicate IsLeap(y: int) {
    y % 4 == 0 && (y % 100 != 0 || y % 400 == 0)
  }

  function YearLength(y: int): int {
    if IsLeap(y) then 366 else 365
  }

  /** The day number of January 1 of year y. */
  function YearStart(y: int): int {
    365 * y + (y + 3) / 4 - (y + 99) / 100 + (y + 399) / 400
  }

  /** Quotient and remainder are the only numbers of their kind. */
  lemma Quotient(n: int, d: int, q: int, r: int)
    requires d > 0 && n == q * d + r && 0 <= r < d
    ensures n / d == q && n % d == r
  {
    var gap := n / d - q;
    assert gap * d == r - n % d;
    if gap > 0 {
      Grows(gap, d);
    } else if gap < 0 {
      Grows(-gap, d);
    }
  }

  lemma Grows(k: int, d: int)
    requires k >= 1 && d > 0
    ensures k * d >= d
  {
  }

  lemma MultiplesStepFour(y: int)
    ensures (y + 4) / 4 == (y + 3) / 4 + if y % 4 == 0 then 1 else 0
  {
    Quotient(y + 4, 4, y / 4 + 1, y % 4);
    if y % 4 == 0 {
      Quotient(y + 3, 4, y / 4, 3);
    } else {
      Quotient(y + 3, 4, y / 4 + 1, y % 4 - 1);
    }
  }

  lemma MultiplesStepHundred(y: int)
    ensures (y + 100) / 100 == (y + 99) / 100 + if y % 100 == 0 then 1 else 0
    ensures y % 100 == 0 ==> y % 4 == 0
  {
    Quotient(y + 100, 100, y / 100 + 1, y % 100);
    if y % 100 == 0 {
      Quotient(y + 99, 100, y / 100, 99);
      Quotient(y, 4, 25 * (y / 100), 0);
    } else {
      Quotient(y + 99, 100, y / 100 + 1, y % 100 - 1);
    }
  }

  lemma MultiplesStepFourHundred(y: int)
    ensures (y + 400) / 400 == (y + 399) / 400 + if y % 400 == 0 then 1 else 0
    ensures y % 400 == 0 ==> y % 100 == 0
  {
    Quotient(y + 400, 400, y / 400 + 1, y % 400);
    if y % 400 == 0 {
      Quotient(y + 399, 400, y / 400, 399);
      Quotient(y, 100, 4 * (y / 400), 0);
    } else {
      Quotient(y + 399, 400, y / 400 + 1, y % 400 - 1);
    }
  }

  lemma NextYear(y: int)
    ensures YearStart(y + 1) == YearStart(y) + YearLength(y)
  {
    MultiplesStepFour(y);
    MultiplesStepHundred(y);
    MultiplesStepFourHundred(y);
  }

  lemma {:induction false} YearStartMonotone(a: int, b: int)
    requires a <= b
    ensures YearStart(a) + 365 * (b - a) <= YearStart(b)
    decreases b - a
  {
    hide YearStart;
    if a < b {
      YearStartMonotone(a, b - 1);
      NextYear(b - 1);
    }
  }

  function YearFrom(n: int, y: int): (r: int)
    requires YearStart(y) <= n
    ensures YearStart(r) <= n < YearStart(r + 1)
    decreases n - YearStart(y)
  {
    NextYear(y);
    if n < YearStart(y + 1) then y else YearFrom(n, y + 1)
  }

  /** The civil year of day n. */
  function YearOf(n: int): (y: int)
    ensures YearStart(y) <= n < YearStart(y + 1)
  {
    var guess := if n >= 0 then n / 366 else n / 365 - 1;
    YearFrom(n, guess)
  }

  lemma YearOfUnique(n: int, y: int)
    requires YearStart(y) <= n < YearStart(y + 1)
    ensures YearOf(n) == y
  {
    hide YearStart, YearFrom;
    var r := YearOf(n);
    if r < y {
      YearStartMonotone(r + 1, y);
    } else if y < r {
      YearStartMonotone(y + 1, r);
    }
  }

  lemma YearOfMonotone(a: int, b: int)
    requires a <= b
    ensures YearOf(a) <= YearOf(b)
  {
    if YearOf(b) < YearOf(a) {
      YearStartMonotone(YearOf(b) + 1, YearOf(a));
    }
  }

  // ---- months ------------------------------------------------------------

  /** Days of year y that precede month m; m == 13 stands for the whole year. */
  function DaysBeforeMonth(y: int, m: int): int
    requires 1 <= m <= 13
  {
    if m <= 2 then 31 * (m - 1)
    else (153 * m - 457) / 5 + 59 + if IsLeap(y) then 1 else 0
  }

  /** Months counted from January of year 0, so that adding a month adds one. */
  function MonthStart(month: int): int {
    YearStart(month / 12) + DaysBeforeMonth(month / 12, month % 12 + 1)
  }

  lemma MonthParts(y: int, m: int)
    requires 0 <= m < 12
    ensures (12 * y + m) / 12 == y && (12 * y + m) % 12 == m
  {
  }

  lemma January(y: int)
    ensures MonthStart(12 * y) == YearStart(y)
  {
    MonthParts(y, 0);
  }

  lemma NextMonth(month: int)
    ensures MonthStart(month) + 28 <= MonthStart(month + 1) <= MonthStart(month) + 31
  {
    var y, m := month / 12, month % 12;
    if m == 11 {
      assert (month + 1) / 12 == y + 1 && (month + 1) % 12 == 0;
      NextYear(y);
    } else {
      assert (month + 1) / 12 == y && (month + 1) % 12 == m + 1;
    }
  }

  /** Every month has its length: thirty days in April, June, September and November,
      twenty-eight in February or twenty-nine in a leap year, and thirty-one otherwise. */
  lemma MonthLength(month: int)
    ensures var y, m := month / 12, month % 12 + 1;
            MonthStart(month + 1) == MonthStart(month) +
              if m == 4 || m == 6 || m == 9 || m == 11 then 30
              else if m != 2 then 31
              else if y % 4 == 0 && (y % 100 != 0 || y % 400 == 0) then 29
              else 28
  {
    hide YearStart;
    var y, m := month / 12, month % 12;
    if m == 11 {
      MonthParts(y + 1, 0);
      NextYear(y);
    } else {
      MonthParts(y, m + 1);
    }
    assert month + 1 == if m == 11 then 12 * (y + 1) + 0 else 12 * y + (m + 1);
  }

  lemma {:induction false} MonthStartMonotone(a: int, b: int)
    requires a <= b
    ensures MonthStart(a) + 28 * (b - a) <= MonthStart(b)
    decreases b - a
  {
    hide MonthStart;
    if a < b {
      MonthStartMonotone(a, b - 1);
      NextMonth(b - 1);
    }
  }

  function MonthFrom(n: int, month: int): (r: int)
    requires MonthStart(month) <= n
    ensures MonthStart(r) <= n < MonthStart(r + 1)
    decreases n - MonthStart(month)
  {
    hide MonthStart;
    NextMonth(month);
    if n < MonthStart(month + 1) then month else MonthFrom(n, month + 1)
  }

  lemma MonthsApart(n: int, a: int, b: int)
    requires MonthStart(a) <= n < MonthStart(a + 1) && MonthStart(b) <= n < MonthStart(b + 1)
    ensures a >= b
  {
    hide MonthStart;
    if a < b {
      MonthStartMonotone(a + 1, b);
    }
  }

  /** The civil month of day n, counted like MonthStart. */
  function MonthOf(n: int): (month: int)
    ensures MonthStart(month) <= n < MonthStart(month + 1)
  {
    hide YearOf, MonthStart, YearStart;
    January(YearOf(n));
    MonthFrom(n, 12 * YearOf(n))
  }

  lemma MonthOfUnique(n: int, month: int)
    requires MonthStart(month) <= n < MonthStart(month + 1)
    ensures MonthOf(n) == month
  {
    hide *;
    MonthsApart(n, MonthOf(n), month);
    MonthsApart(n, month, MonthOf(n));
  }

  lemma MonthOfMonotone(a: int, b: int)
    requires a <= b
    ensures MonthOf(a) <= MonthOf(b)
  {
    hide MonthStart, MonthOf;
    if MonthOf(b) < MonthOf(a) {
      MonthStartMonotone(MonthOf(b) + 1, MonthOf(a));
    }
  }

  lemma MonthOfYear(n: int)
    ensures MonthOf(n) / 12 == YearOf(n)
  {
    hide MonthStart, YearStart, MonthOf, YearOf, MonthFrom, YearFrom;
    var month := MonthOf(n);
    var y := month / 12;
    January(y);
    January(y + 1);
    MonthStartMonotone(12 * y, month);
    MonthStartMonotone(month + 1, 12 * (y + 1));
    YearOfUnique(n, y);
  }

  /** Day of the month, from 1 to 31. */
  function DayOfMonth(n: int): (d: int)
    ensures 1 <= d <= 31
  {
    NextMonth(MonthOf(n));
    n - MonthStart(MonthOf(n)) + 1
  }

  // ---- weeks -------------------------------------------------------------

  function WeekdayOf(n: int): Weekday {
    (n + 6) % 7
  }

  /** The most recent day on or before n that falls on weekday ws. */
  function Snap(n: int, ws: Weekday): (s: int)
    ensures n - 6 <= s <= n && WeekdayOf(s) == ws
  {
    n - (WeekdayOf(n) - ws + 7) % 7
  }

  lemma SnapUnique(n: int, ws: Weekday, s: int)
    requires n - 6 <= s <= n && WeekdayOf(s) == ws
    ensures Snap(n, ws) == s
  {
    hide Snap, WeekdayOf;
    WeeksApart(s, Snap(n, ws));
  }

  lemma SnapMonotone(a: int, b: int, ws: Weekday)
    requires a <= b
    ensures Snap(a, ws) <= Snap(b, ws)
    ensures Snap(a, ws) < Snap(b, ws) ==> Snap(a, ws) + 7 <= Snap(b, ws)
  {
    hide Snap, WeekdayOf;
    WeeksApart(Snap(a, ws), Snap(b, ws));
  }

  /** Two days of one weekday are the same day or at least a week apart. */
  lemma WeeksApart(s: int, t: int)
    requires WeekdayOf(s) == WeekdayOf(t)
    ensures s == t || s + 7 <= t || t + 7 <= s
  {
    var k := (t + 6) / 7 - (s + 6) / 7;
    assert t - s == 7 * k;
  }

  /** The ISO week date as Go computes it: the year and the seventh of that year
      in which the Thursday of the Monday-based week falls. */
  function ThursdayOf(n: int): int {
    Snap(n, MONDAY) + 3
  }

  function IsoYear(n: int): int {
    YearOf(ThursdayOf(n))
  }

  function IsoWeek(n: int): (w: int)
    ensures 1 <= w <= 53
  {
    var y := YearOf(ThursdayOf(n));
    NextYear(y);
    (ThursdayOf(n) - YearStart(y)) / 7 + 1
  }

  /** The Monday of week 1 by the other ISO definition: the week with January 4. */
  function Week1Monday(y: int): int {
    Snap(YearStart(y) + 3, MONDAY)
  }

  lemma WeeksFromThursday(monday: int, start: int)
    requires WeekdayOf(monday) == MONDAY && start <= monday + 3
    ensures monday == Snap(start + 3, MONDAY) + 7 * ((monday + 3 - start) / 7)
  {
    var w := (monday + 3 - start) / 7;
    assert WeekdayOf(monday - 7 * w) == MONDAY;
    SnapUnique(start + 3, MONDAY, monday - 7 * w);
  }

  /** The two definitions of the ISO week agree. */
  lemma IsoWeekCounts(n: int)
    ensures Snap(n, MONDAY) == Week1Monday(IsoYear(n)) + 7 * (IsoWeek(n) - 1)
  {
    hide YearOf, YearStart;
    WeeksFromThursday(Snap(n, MONDAY), YearStart(IsoYear(n)));
  }

  /** Two days share an ISO year and week exactly when they share their Monday. */
  lemma IsoWeekInjective(a: int, b: int)
    ensures IsoYear(a) == IsoYear(b) && IsoWeek(a) == IsoWeek(b) <==> Snap(a, MONDAY) == Snap(b, MONDAY)
  {
    hide YearOf, YearStart;
    IsoWeekCounts(a);
    IsoWeekCounts(b);
  }

  /** ISO year and week never go back in time. */
  lemma IsoWeekMonotone(a: int, b: int)
    requires a <= b
    ensures IsoYear(a) < IsoYear(b) || (IsoYear(a) == IsoYear(b) && IsoWeek(a) <= IsoWeek(b))
  {
    SnapMonotone(a, b, MONDAY);
    YearOfMonotone(ThursdayOf(a), ThursdayOf(b));
  }

  lemma IsoOf(n: int, monday: int, y: int)
    requires n - 6 <= monday <= n && WeekdayOf(monday) == MONDAY
    requires YearStart(y) <= monday + 3 < YearStart(y + 1)
    ensures IsoYear(n) == y && IsoWeek(n) == (monday + 3 - YearStart(y)) / 7 + 1
  {
    hide YearOf, YearStart;
    SnapUnique(n, MONDAY, monday);
    YearOfUnique(monday + 3, y);
  }

  /** The epoch of Go's and Unix's clocks, 1970-01-01, was a Thursday. */
  lemma UnixEpoch()
    ensures MonthStart(12 * 1970) == 719528 && WeekdayOf(719528) == 4
  {
    hide MonthStart;
    January(1970);
    assert YearStart(1970) == 719528;
  }
}
