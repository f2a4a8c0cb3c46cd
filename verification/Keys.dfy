/** Bucket keys: the strings under which counters and usage rows are filed, and the
    way back from a key to the days it stands for. */
module Keys {
  import opened Calendar
  import opened Wrappers

  // ---- decimal formatting and scanning -------------------------------------

  predicate IsDigit(c: char) {
    '0' <= c <= '9'
  }

  function DigitChar(d: int): (c: char)
    requires 0 <= d < 10
    ensures IsDigit(c) && c as int - '0' as int == d
  {
    ('0' as int + d) as char
  }

  /** Decimal digits of n, zero-padded on the left to at least width characters. */
  function Pad(n: nat, width: nat): (s: string)
    ensures s != [] && forall i | 0 <= i < |s| :: IsDigit(s[i])
    decreases n, width
  {
    var last := [DigitChar(n % 10)];
    if n < 10 && width <= 1 then last
    else Pad(n / 10, if width == 0 then 0 else width - 1) + last
  }

  /** Printf's zero-padded "%0<width>d": a minus sign takes one place of the width. */
  function PadInt(n: int, width: nat): string
    requires width >= 1
  {
    if n >= 0 then Pad(n, width) else "-" + Pad(-n, width - 1)
  }

  /** The longest run of leading digits as a number, and what follows it. */
  function ScanDigits(s: string, acc: nat): (nat, string) {
    if s != [] && IsDigit(s[0]) then
      ScanDigits(s[1..], 10 * acc + (s[0] as int - '0' as int))
    else (acc, s)
  }

  /** Sscanf's "%d" on input without leading blanks. */
  function ScanInt(s: string): Result<(int, string)> {
    var negative := s != [] && s[0] == '-';
    var digits := if s != [] && (s[0] == '-' || s[0] == '+') then s[1..] else s;
    if digits == [] || !IsDigit(digits[0]) then Err
    else
      var (n, rest) := ScanDigits(digits, 0);
      var value := if negative then 0 - n else n;
      Ok((value, rest))
  }

  ghost predicate NoDigitFirst(s: string) {
    s == [] || !IsDigit(s[0])
  }

  lemma {:induction false} ScanSplits(a: string, b: string, acc: nat)
    requires forall i | 0 <= i < |a| :: IsDigit(a[i])
    ensures ScanDigits(a + b, acc) == ScanDigits(b, ScanDigits(a, acc).0)
    ensures ScanDigits(a, acc).1 == []
  {
    if a == [] {
      assert a + b == b;
    } else {
      assert (a + b)[1..] == a[1..] + b;
      ScanSplits(a[1..], b, 10 * acc + (a[0] as int - '0' as int));
    }
  }

  /** Scanning undoes padding, whatever the width. */
  lemma {:induction false} ScanPad(n: nat, width: nat, rest: string)
    requires NoDigitFirst(rest)
    ensures ScanDigits(Pad(n, width) + rest, 0) == (n, rest)
    decreases n, width
  {
    var last := [DigitChar(n % 10)];
    if n < 10 && width <= 1 {
      assert (last + rest)[1..] == rest;
    } else {
      var w := if width == 0 then 0 else width - 1;
      var front := Pad(n / 10, w);
      ScanPad(n / 10, w, []);
      assert front + [] == front;
      ScanSplits(front, last + rest, 0);
      assert front + last + rest == front + (last + rest);
      assert (last + rest)[1..] == rest;
      assert ScanDigits(last + rest, n / 10) == ScanDigits(rest, n);
    }
  }

  lemma ScanPadInt(n: int, width: nat, rest: string)
    requires width >= 1 && NoDigitFirst(rest)
    ensures ScanInt(PadInt(n, width) + rest) == Ok((n, rest))
  {
    hide Pad, ScanDigits, ScanInt;
    if n >= 0 {
      ScanPad(n, width, rest);
      ScanUnsigned(Pad(n, width) + rest, n, rest);
    } else {
      ScanPad(-n, width - 1, rest);
      assert PadInt(n, width) + rest == "-" + (Pad(-n, width - 1) + rest);
      ScanNegative(Pad(-n, width - 1) + rest, -n, rest);
    }
  }

  lemma ScanUnsigned(s: string, n: nat, rest: string)
    requires s != [] && IsDigit(s[0]) && ScanDigits(s, 0) == (n, rest)
    ensures ScanInt(s) == Ok((n, rest))
  {
  }

  lemma ScanNegative(s: string, n: nat, rest: string)
    requires s != [] && IsDigit(s[0]) && ScanDigits(s, 0) == (n, rest)
    ensures ScanInt("-" + s) == Ok((0 - n, rest))
  {
    assert ("-" + s)[1..] == s;
  }

  // ---- the keys ------------------------------------------------------------

  function WeekLabel(year: int, week: nat): string {
    PadInt(year, 4) + "-W" + Pad(week, 2)
  }

  /** The week bucket of a local day: the ISO label of the day the week started on. */
  function WeekKey(day: int, weekStartsOn: Weekday): string {
    var weekStart := Snap(day, weekStartsOn);
    WeekLabel(IsoYear(weekStart), IsoWeek(weekStart))
  }

  /** The four-digit year of Go's date layouts: the sign is outside the width. */
  function YearLabel(year: int): string {
    if year >= 0 then Pad(year, 4) else "-" + Pad(-year, 4)
  }

  /** "YYYY-MM" of a month counted from January of year 0. */
  function MonthKey(month: int): string {
    YearLabel(month / 12) + "-" + Pad(month % 12 + 1, 2)
  }

  /** "YYYY-MM-DD" of a local day. */
  function DateKey(day: int): string {
    MonthKey(MonthOf(day)) + "-" + Pad(DayOfMonth(day), 2)
  }

  // ---- keys identify their buckets -----------------------------------------

  /** The year and week number that "%d-W%d" reads back. */
  function ScanWeekLabel(key: string): Result<(int, int)> {
    match ScanInt(key)
    case Err => Err
    case Ok((year, rest)) =>
      if |rest| < 2 || rest[..2] != "-W" then Err
      else match ScanInt(rest[2..])
        case Err => Err
        case Ok((week, _)) => Ok((year, week))
  }

  lemma ScanWeekLabelOf(year: int, week: nat)
    ensures ScanWeekLabel(WeekLabel(year, week)) == Ok((year, week))
  {
    var tail := "-W" + Pad(week, 2);
    assert WeekLabel(year, week) == PadInt(year, 4) + tail;
    ScanPadInt(year, 4, tail);
    assert tail[..2] == "-W" && tail[2..] == Pad(week, 2);
    ScanPadInt(week, 2, []);
    assert Pad(week, 2) + [] == Pad(week, 2);
  }

  /** For every week start, two days share a week key exactly when they share the
      day their week started on. */
  lemma WeekKeyInjective(a: int, b: int, ws: Weekday)
    ensures WeekKey(a, ws) == WeekKey(b, ws) <==> Snap(a, ws) == Snap(b, ws)
  {
    hide IsoYear, IsoWeek, WeekLabel;
    var sa, sb := Snap(a, ws), Snap(b, ws);
    if WeekKey(a, ws) == WeekKey(b, ws) {
      ScanWeekLabelOf(IsoYear(sa), IsoWeek(sa));
      ScanWeekLabelOf(IsoYear(sb), IsoWeek(sb));
      IsoWeekInjective(sa, sb);
      SameWeekdaySameWeek(sa, sb);
    }
  }

  lemma SameWeekdaySameWeek(a: int, b: int)
    requires WeekdayOf(a) == WeekdayOf(b) && Snap(a, MONDAY) == Snap(b, MONDAY)
    ensures a == b
  {
  }

  lemma YearLabelInjective(a: int, b: int, x: string, y: string)
    requires NoDigitFirst(x) && NoDigitFirst(y)
    requires YearLabel(a) + x == YearLabel(b) + y
    ensures a == b && x == y
  {
    YearLabelScan(a, x);
    YearLabelScan(b, y);
  }

  lemma YearLabelScan(year: int, rest: string)
    requires NoDigitFirst(rest)
    ensures ScanInt(YearLabel(year) + rest) == Ok((year, rest))
  {
    hide Pad, ScanDigits, ScanInt;
    if year >= 0 {
      ScanPad(year, 4, rest);
      ScanUnsigned(Pad(year, 4) + rest, year, rest);
    } else {
      ScanPad(-year, 4, rest);
      assert YearLabel(year) + rest == "-" + (Pad(-year, 4) + rest);
      ScanNegative(Pad(-year, 4) + rest, -year, rest);
    }
  }

  lemma PadInjective(a: nat, b: nat, width: nat, x: string, y: string)
    requires NoDigitFirst(x) && NoDigitFirst(y)
    requires Pad(a, width) + x == Pad(b, width) + y
    ensures a == b && x == y
  {
    ScanPad(a, width, x);
    ScanPad(b, width, y);
  }

  lemma MonthKeyInjective(a: int, b: int, x: string, y: string)
    requires NoDigitFirst(x) && NoDigitFirst(y)
    requires MonthKey(a) + x == MonthKey(b) + y
    ensures a == b && x == y
  {
    hide YearLabel, Pad;
    MonthLabelInjective(a / 12, a % 12 + 1, b / 12, b % 12 + 1, x, y);
  }

  lemma MonthLabelInjective(y1: int, m1: nat, y2: int, m2: nat, x: string, y: string)
    requires NoDigitFirst(x) && NoDigitFirst(y)
    requires YearLabel(y1) + "-" + Pad(m1, 2) + x == YearLabel(y2) + "-" + Pad(m2, 2) + y
    ensures y1 == y2 && m1 == m2 && x == y
  {
    hide YearLabel, Pad;
    var tailA, tailB := "-" + Pad(m1, 2) + x, "-" + Pad(m2, 2) + y;
    assert YearLabel(y1) + "-" + Pad(m1, 2) + x == YearLabel(y1) + tailA;
    assert YearLabel(y2) + "-" + Pad(m2, 2) + y == YearLabel(y2) + tailB;
    YearLabelInjective(y1, y2, tailA, tailB);
    assert tailA[1..] == Pad(m1, 2) + x && tailB[1..] == Pad(m2, 2) + y;
    PadInjective(m1, m2, 2, x, y);
  }

  /** Two days share a date key exactly when they are the same day. */
  lemma DateKeyInjective(a: int, b: int)
    ensures DateKey(a) == DateKey(b) <==> a == b
  {
    hide MonthKey, MonthOf, MonthStart;
    if DateKey(a) == DateKey(b) {
      var tailA, tailB := "-" + Pad(DayOfMonth(a), 2), "-" + Pad(DayOfMonth(b), 2);
      assert DateKey(a) == MonthKey(MonthOf(a)) + tailA && DateKey(b) == MonthKey(MonthOf(b)) + tailB;
      MonthKeyInjective(MonthOf(a), MonthOf(b), tailA, tailB);
      assert tailA[1..] + [] == Pad(DayOfMonth(a), 2) + [] && tailB[1..] + [] == Pad(DayOfMonth(b), 2) + [];
      PadInjective(DayOfMonth(a), DayOfMonth(b), 2, [], []);
    }
  }

  // ---- keys sort like the buckets ------------------------------------------

  /** Byte-wise string order, as Go and MySQL's binary comparison of ASCII have it. */
  predicate StringLess(a: string, b: string) {
    b != [] && (a == [] || a[0] < b[0] || (a[0] == b[0] && StringLess(a[1..], b[1..])))
  }

  lemma {:induction false} LessByPrefix(a: string, b: string, x: string, y: string)
    requires |a| == |b|
    ensures StringLess(a + x, b + y) <==> StringLess(a, b) || (a == b && StringLess(x, y))
  {
    if a == [] {
      assert a + x == x && b + y == y;
    } else {
      assert (a + x)[1..] == a[1..] + x && (b + y)[1..] == b[1..] + y;
      LessByPrefix(a[1..], b[1..], x, y);
      assert a == b <==> a[0] == b[0] && a[1..] == b[1..];
    }
  }

  function Pow10(width: nat): nat {
    if width == 0 then 1 else 10 * Pow10(width - 1)
  }

  lemma {:induction false} PadWidth(n: nat, width: nat)
    requires width >= 1 && n < Pow10(width)
    ensures |Pad(n, width)| == width
    decreases width
  {
    if width > 1 {
      PadWidth(n / 10, width - 1);
    }
  }

  lemma {:induction false} PadOrder(a: nat, b: nat, width: nat)
    requires width >= 1 && a < Pow10(width) && b < Pow10(width)
    ensures StringLess(Pad(a, width), Pad(b, width)) <==> a < b
    decreases width
  {
    hide Pad, StringLess, DigitChar;
    PadStep(a, width);
    PadStep(b, width);
    DigitOrder(a % 10, b % 10);
    if width > 1 {
      PadOrder(a / 10, b / 10, width - 1);
      PadWidth(a / 10, width - 1);
      PadWidth(b / 10, width - 1);
      SamePad(a / 10, b / 10, width - 1);
      LessByPrefix(Pad(a / 10, width - 1), Pad(b / 10, width - 1), [DigitChar(a % 10)], [DigitChar(b % 10)]);
      TensFirst(a, b);
    }
  }

  lemma PadStep(n: nat, width: nat)
    requires width >= 1 && n < Pow10(width)
    ensures Pad(n, width) == (if width == 1 then [] else Pad(n / 10, width - 1)) + [DigitChar(n % 10)]
    ensures width > 1 ==> n / 10 < Pow10(width - 1)
    ensures width == 1 ==> n == n % 10 && Pad(n, width) == [DigitChar(n % 10)]
  {
    assert Pow10(0) == 1;
  }

  lemma SamePad(a: nat, b: nat, width: nat)
    ensures Pad(a, width) == Pad(b, width) <==> a == b
  {
    if Pad(a, width) == Pad(b, width) {
      PadInjective(a, b, width, [], []);
    }
  }

  lemma DigitOrder(x: int, y: int)
    requires 0 <= x < 10 && 0 <= y < 10
    ensures StringLess([DigitChar(x)], [DigitChar(y)]) <==> x < y
  {
    assert [DigitChar(x)][1..] == [] && [DigitChar(y)][1..] == [];
  }

  lemma TensFirst(a: nat, b: nat)
    ensures a < b <==> a / 10 < b / 10 || (a / 10 == b / 10 && a % 10 < b % 10)
  {
    assert a == 10 * (a / 10) + a % 10 && b == 10 * (b / 10) + b % 10;
  }

  lemma Pow10Facts()
    ensures Pow10(2) == 100 && Pow10(4) == 10000
  {
    assert Pow10(1) == 10 && Pow10(3) == 10 * Pow10(2);
  }

  lemma WeekLabelOrder(y1: int, w1: nat, y2: int, w2: nat)
    requires 0 <= y1 < 10000 && 0 <= y2 < 10000 && w1 < 100 && w2 < 100
    ensures StringLess(WeekLabel(y1, w1), WeekLabel(y2, w2)) <==> y1 < y2 || (y1 == y2 && w1 < w2)
  {
    Pow10Facts();
    PadWidth(y1, 4);
    PadWidth(y2, 4);
    PadOrder(y1, y2, 4);
    PadOrder(w1, w2, 2);
    if Pad(y1, 4) == Pad(y2, 4) {
      PadInjective(y1, y2, 4, [], []);
    }
    var a, b := Pad(y1, 4), Pad(y2, 4);
    LessByPrefix(a + "-W", b + "-W", Pad(w1, 2), Pad(w2, 2));
    LessByPrefix(a, b, "-W", "-W");
    assert !StringLess("-W", "-W") by { assert "-W"[1..] == "W" && "W"[1..] == ""; }
    assert a + "-W" == b + "-W" ==> a == (a + "-W")[..4] == (b + "-W")[..4] == b;
  }

  /** Over years 0 to 9999 week keys sort strictly by the day the week started on.
      The last days of year -1 can start the first week; its key begins with '-',
      which sorts before every digit. */
  lemma WeekKeyOrder(a: int, b: int, ws: Weekday)
    requires 0 <= YearOf(a) && a <= b && YearOf(b) < 10000
    ensures StringLess(WeekKey(a, ws), WeekKey(b, ws)) <==> Snap(a, ws) < Snap(b, ws)
    ensures Snap(a, ws) == Snap(b, ws) ==> WeekKey(a, ws) == WeekKey(b, ws)
  {
    hide YearOf, IsoWeek, IsoYear, WeekLabel;
    var sa, sb := Snap(a, ws), Snap(b, ws);
    SnapMonotone(a, b, ws);
    IsoWeekMonotone(sa, sb);
    IsoWeekInjective(sa, sb);
    if sa < sb {
      if IsoYear(sa) == IsoYear(sb) && IsoWeek(sa) == IsoWeek(sb) {
        SameWeekdaySameWeek(sa, sb);
      }
      IsoYearRange(sa, a);
      IsoYearRange(sb, b);
      if IsoYear(sa) >= 0 {
        WeekLabelOrder(IsoYear(sa), IsoWeek(sa), IsoYear(sb), IsoWeek(sb));
      } else {
        NegativeYearFirst(sa, sb);
      }
    } else {
      assert sa == sb;
      NotLessThanItself(WeekKey(a, ws));
    }
  }

  lemma {:induction false} NotLessThanItself(s: string)
    ensures !StringLess(s, s)
  {
    if s != [] {
      NotLessThanItself(s[1..]);
    }
  }

  lemma IsoYearRange(start: int, day: int)
    requires day - 6 <= start <= day && 0 <= YearOf(day) < 10000
    ensures -1 <= IsoYear(start) < 10000
  {
    hide YearOf;
    YearEdges();
    YearOfMonotone(-365, ThursdayOf(start)) by { YearStartMonotone(0, YearOf(day)); }
    YearOfUnique(-365, -1);
    YearStartMonotone(YearOf(day) + 1, 10000);
    LatestIsoYear(start, day);
  }

  lemma YearEdges()
    ensures YearStart(-1) == -365 && YearStart(0) == 0 && YearStart(1) == 366
    ensures YearStart(10000) == 3652425 && WeekdayOf(3652425) == 6
  {
  }

  lemma LatestIsoYear(start: int, day: int)
    requires start <= day < YearStart(10000)
    ensures IsoYear(start) < 10000
  {
    hide YearOf, YearStart;
    YearEdges();
    if IsoYear(start) >= 10000 {
      YearStartMonotone(10000, IsoYear(start));
    }
  }

  lemma NegativeYearFirst(sa: int, sb: int)
    requires IsoYear(sa) == -1 <= IsoYear(sb)
    requires IsoYear(sb) == -1 ==> IsoWeek(sa) < IsoWeek(sb)
    ensures StringLess(WeekLabel(IsoYear(sa), IsoWeek(sa)), WeekLabel(IsoYear(sb), IsoWeek(sb)))
  {
    hide YearOf, IsoWeek, IsoYear;
    var wa, wb := IsoWeek(sa), IsoWeek(sb);
    if IsoYear(sb) == -1 {
      Pow10Facts();
      PadOrder(wa, wb, 2);
      var prefix := PadInt(-1, 4) + "-W";
      LessByPrefix(prefix, prefix, Pad(wa, 2), Pad(wb, 2));
    } else {
      assert WeekLabel(-1, wa)[0] == '-';
      assert IsDigit(WeekLabel(IsoYear(sb), wb)[0]);
    }
  }

  // ---- from keys back to days ----------------------------------------------

  /** Go's remainder takes the sign of the dividend. */
  function TruncatedRem(a: int, b: int): int
    requires b > 0
  {
    if a >= 0 then a % b else -((-a) % b)
  }

  /** The half-open range of days a week key stands for, anchored on Monday. */
  function WeekKeyToRange(key: string): Result<(int, int)> {
    match ScanWeekLabel(key)
    case Err => Err
    case Ok((year, week)) =>
      var jan4 := YearStart(year) + 3;
      var jan4Week := IsoWeek(jan4);
      var jan4Mon := jan4 + TruncatedRem(-(WeekdayOf(jan4) - MONDAY + 7), 7);
      var weekStart := jan4Mon + (week - jan4Week) * 7;
      Ok((weekStart, weekStart + 7))
  }

  lemma Jan4(y: int)
    ensures IsoWeek(YearStart(y) + 3) == 1
    ensures YearStart(y) + 3 + TruncatedRem(-(WeekdayOf(YearStart(y) + 3) - MONDAY + 7), 7) == Week1Monday(y)
  {
    hide YearOf, YearStart;
    NextYear(y);
    IsoOf(YearStart(y) + 3, Week1Monday(y), y);
  }

  /** Round trip: the range of a key is the ISO week of the day the week started on. */
  lemma WeekKeyRoundTrip(day: int, ws: Weekday)
    ensures var monday := Snap(Snap(day, ws), MONDAY);
            WeekKeyToRange(WeekKey(day, ws)) == Ok((monday, monday + 7))
  {
    hide IsoYear, IsoWeek, WeekLabel, ScanWeekLabel, YearStart, YearOf, Week1Monday, Snap, WeekdayOf, TruncatedRem;
    var start := Snap(day, ws);
    ScanWeekLabelOf(IsoYear(start), IsoWeek(start));
    Jan4(IsoYear(start));
    IsoWeekCounts(start);
  }

  /** The range holds the day itself exactly when the day is not past the Sunday
      that closes the ISO week its own week started in; with Monday weeks, always. */
  lemma WeekRangeHoldsDay(day: int, ws: Weekday)
    ensures var r := WeekKeyToRange(WeekKey(day, ws));
            r.Ok? && (r.value.0 <= day < r.value.1 <==> Snap(day, MONDAY) <= Snap(day, ws))
    ensures ws == MONDAY ==> WeekKeyToRange(WeekKey(day, ws)) == Ok((Snap(day, MONDAY), Snap(day, MONDAY) + 7))
  {
    hide WeekKeyToRange, WeekKey, Snap, WeekdayOf;
    WeekKeyRoundTrip(day, ws);
    var start, monday := Snap(day, ws), Snap(day, MONDAY);
    if monday <= start {
      SnapUnique(start, MONDAY, monday);
    } else {
      WeeksApart(Snap(start, MONDAY), monday);
    }
  }

  /** "2006-01-02" parsed in UTC: ten characters, a real month and a day in it. */
  function DayKeyToRange(key: string): Result<(int, int)> {
    if |key| != 10 || key[4] != '-' || key[7] != '-' then Err
    else if exists i | 0 <= i < 10 :: i != 4 && i != 7 && !IsDigit(key[i]) then Err
    else
      var year, m, d := ScanDigits(key[..4], 0).0, ScanDigits(key[5..7], 0).0, ScanDigits(key[8..], 0).0;
      if m < 1 || m > 12 then Err
      else
        var first, next := MonthStart(12 * year + m - 1), MonthStart(12 * year + m);
        if d < 1 || first + d > next then Err
        else Ok((first + d - 1, first + d))
  }

  lemma DateKeyShape(day: int)
    requires 0 <= YearOf(day) < 10000
    ensures MonthOf(day) / 12 == YearOf(day)
    ensures DateKey(day) == Pad(YearOf(day), 4) + "-" + Pad(MonthOf(day) % 12 + 1, 2) + "-" + Pad(DayOfMonth(day), 2)
    ensures |Pad(YearOf(day), 4)| == 4 && |Pad(MonthOf(day) % 12 + 1, 2)| == 2 && |Pad(DayOfMonth(day), 2)| == 2
  {
    hide MonthOf, YearOf, DayOfMonth, Pad, YearStart, MonthStart;
    MonthOfYear(day);
    Pow10Facts();
    PadWidth(YearOf(day), 4);
    PadWidth(MonthOf(day) % 12 + 1, 2);
    PadWidth(DayOfMonth(day), 2);
  }

  /** Round trip: a day key of years 0 to 9999 stands for exactly its day. */
  lemma DayKeyRoundTrip(day: int)
    requires 0 <= YearOf(day) < 10000
    ensures DayKeyToRange(DateKey(day)) == Ok((day, day + 1))
  {
    hide MonthOf, YearOf, MonthStart, DateKey, Pad, ScanDigits;
    MonthOfYear(day);
    DateKeyShape(day);
    var month := MonthOf(day);
    var y, m, d := Pad(month / 12, 4), Pad(month % 12 + 1, 2), Pad(DayOfMonth(day), 2);
    var key := DateKey(day);
    assert key[..4] == y && key[5..7] == m && key[8..] == d;
    ScanPad(month / 12, 4, []);
    ScanPad(month % 12 + 1, 2, []);
    ScanPad(DayOfMonth(day), 2, []);
    assert y + [] == y && m + [] == m && d + [] == d;
    forall i | 0 <= i < 10 && i != 4 && i != 7
      ensures IsDigit(key[i])
    {
      assert key[i] == if i < 4 then y[i] else if i < 7 then m[i - 5] else d[i - 8];
    }
    assert 12 * (month / 12) + month % 12 + 1 - 1 == month;
  }

  // ---- an example -------------------------------------------------------------

  lemma July2026()
    ensures MonthStart(12 * 2026 + 6) == 740163
    ensures MonthOf(740163) == 12 * 2026 + 6 && IsoYear(740163) == 2026 && IsoWeek(740163) == 27
  {
    hide MonthOf, IsoYear, IsoWeek;
    MonthParts(2026, 6);
    assert YearStart(2026) == 739982 && YearStart(2027) == 740347;
    MonthLength(12 * 2026 + 6);
    MonthOfUnique(740163, 12 * 2026 + 6);
    IsoOf(740163, 740161, 2026);
  }

  /** The keys of Wednesday, 1 July 2026, and of the Sunday before, which opened the
      Sunday-based week and closed the ISO week. */
  lemma KeyExamples()
    ensures MonthStart(12 * 2026 + 6) == 740163 && WeekdayOf(740163) == 3
    ensures DateKey(740163) == "2026-07-01" && MonthKey(MonthOf(740163)) == "2026-07"
    ensures WeekKey(740163, MONDAY) == "2026-W27" && WeekKey(740163, 0) == "2026-W26"
  {
    hide MonthOf, MonthStart, IsoYear, IsoWeek, YearOf, YearStart, Snap;
    July2026();
    Digits();
    YearOf2026();
    MonthParts(2026, 6);
    SnapUnique(740163, MONDAY, 740161);
    SnapUnique(740163, 0, 740160);
    assert IsoYear(740161) == 2026 && IsoWeek(740161) == 27 by { IsoOf(740161, 740161, 2026); }
    assert IsoYear(740160) == 2026 && IsoWeek(740160) == 26 by { IsoOf(740160, 740154, 2026); }
  }

  lemma YearOf2026()
    ensures YearStart(2026) == 739982 && YearStart(2027) == 740347
  {
  }

  lemma Digits()
    ensures Pad(2026, 4) == "2026" && Pad(7, 2) == "07" && Pad(1, 2) == "01" && Pad(27, 2) == "27" && Pad(26, 2) == "26"
  {
    assert Pad(2, 1) == "2" && Pad(0, 1) == "0";
    assert Pad(20, 2) == Pad(2, 1) + "0" && Pad(202, 3) == Pad(20, 2) + "2" && Pad(2026, 4) == Pad(202, 3) + "6";
    assert Pad(7, 2) == Pad(0, 1) + "7" && Pad(1, 2) == Pad(0, 1) + "1";
    assert Pad(27, 2) == Pad(2, 1) + "7" && Pad(26, 2) == Pad(2, 1) + "6";
  }
}
