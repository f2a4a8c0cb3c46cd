/** Usage by day, week or month: the grouped sums of db/query/usage.sql, and the gap
    filling and totals of internal/usecase/usage_usecase.go. Days are UTC days, and a
    range runs from one midnight to another. */
module UsageBuckets {
  import opened Calendar
  import opened Keys
  import opened Tallies

  datatype Status = Done | Failed | Cancelled | Unfinished

  /** A task row; day is the UTC day of its finish, or of its creation if it has none. */
  datatype Task = Task(day: int, status: Status, cost: real, input: int, output: int, cacheRead: int, cacheCreation: int)

  datatype BucketKind = Day | Week | Month | OtherKind

  datatype BucketRow = BucketRow(bucket: string, sums: Tally)

  // ---- the grouped sums -------------------------------------------------------------

  /** What a row adds to each SUM. */
  function Counted(t: Task): Tally {
    match t.status
    case Done => Tally(1, t.cost, t.input, t.output, t.cacheRead, t.cacheCreation, 0.0)
    case Failed => ZERO.(failedCost := t.cost)
    case Cancelled => ZERO.(failedCost := t.cost)
    case Unfinished => ZERO
  }

  /** DATE_FORMAT of a day: '%Y-%m-%d', '%x-W%v' or '%Y-%m'. */
  function SqlKey(kind: BucketKind, day: int): string {
    match kind
    case Day => DateKey(day)
    case Week => WeekKey(day, MONDAY)
    case Month => MonthKey(MonthOf(day))
    case OtherKind => ""
  }

  function Got(groups: map<string, Tally>, key: string): Tally {
    if key in groups then groups[key] else ZERO
  }

  /** GROUP BY bucket over the rows with from <= day < end. */
  function Groups(tasks: seq<Task>, from: int, end: int, kind: BucketKind): map<string, Tally> {
    if tasks == [] then map[]
    else
      var t := tasks[|tasks| - 1];
      var groups := Groups(tasks[..|tasks| - 1], from, end, kind);
      if from <= t.day < end then
        var key := SqlKey(kind, t.day);
        groups[key := Add(Got(groups, key), Counted(t))]
      else groups
  }

  /** Everything in the range, grouped by nothing. */
  function Everything(tasks: seq<Task>, from: int, end: int): Tally {
    if tasks == [] then ZERO
    else
      var t := tasks[|tasks| - 1];
      var sum := Everything(tasks[..|tasks| - 1], from, end);
      if from <= t.day < end then Add(sum, Counted(t)) else sum
  }

  /** Grouping loses nothing and counts nothing twice, whatever the key. */
  lemma {:induction false} GroupsConserve(tasks: seq<Task>, from: int, end: int, kind: BucketKind)
    ensures var groups := Groups(tasks, from, end, kind);
            SumOver(groups, groups.Keys) == Everything(tasks, from, end)
  {
    hide Add, SqlKey;
    if tasks != [] {
      var t := tasks[|tasks| - 1];
      GroupsConserve(tasks[..|tasks| - 1], from, end, kind);
      SumOverGrows(Groups(tasks[..|tasks| - 1], from, end, kind), SqlKey(kind, t.day), Counted(t));
    }
  }

  lemma {:induction false} GroupKeys(tasks: seq<Task>, from: int, end: int, kind: BucketKind)
    ensures forall key | key in Groups(tasks, from, end, kind) :: exists d :: from <= d < end && key == SqlKey(kind, d)
  {
    hide Add, SqlKey;
    if tasks != [] {
      GroupKeys(tasks[..|tasks| - 1], from, end, kind);
    }
  }

  // ---- the same, field by field over the tasks' own fields ------------------------------

  function One(t: Task): real { 1.0 }
  function CostOf(t: Task): real { t.cost }
  function InputOf(t: Task): real { t.input as real }
  function OutputOf(t: Task): real { t.output as real }
  function CacheReadOf(t: Task): real { t.cacheRead as real }
  function CacheCreationOf(t: Task): real { t.cacheCreation as real }

  /** A field summed over the tasks of some statuses in a range, or in one group of it. */
  function RangeSum(tasks: seq<Task>, from: int, end: int, statuses: set<Status>, f: Task -> real): real {
    if tasks == [] then 0.0
    else
      var t := tasks[|tasks| - 1];
      RangeSum(tasks[..|tasks| - 1], from, end, statuses, f)
      + if from <= t.day < end && t.status in statuses then f(t) else 0.0
  }

  function GroupSum(tasks: seq<Task>, from: int, end: int, kind: BucketKind, key: string, statuses: set<Status>, f: Task -> real): real {
    if tasks == [] then 0.0
    else
      var t := tasks[|tasks| - 1];
      GroupSum(tasks[..|tasks| - 1], from, end, kind, key, statuses, f)
      + if from <= t.day < end && SqlKey(kind, t.day) == key && t.status in statuses then f(t) else 0.0
  }

  /** g of what a task counts for is f of the task if its status is one of these. */
  ghost predicate Reads(statuses: set<Status>, f: Task -> real, g: Tally -> real) {
    && (forall t: Task :: g(Counted(t)) == if t.status in statuses then f(t) else 0.0) && g(ZERO) == 0.0
    && (forall a, b :: g(Add(a, b)) == g(a) + g(b))
  }

  lemma {:induction false} SumsRead(tasks: seq<Task>, from: int, end: int, kind: BucketKind, key: string,
                                    statuses: set<Status>, f: Task -> real, g: Tally -> real)
    requires Reads(statuses, f, g)
    ensures g(Got(Groups(tasks, from, end, kind), key)) == GroupSum(tasks, from, end, kind, key, statuses, f)
    ensures g(Everything(tasks, from, end)) == RangeSum(tasks, from, end, statuses, f)
  {
    hide Add, Counted, SqlKey;
    if tasks != [] {
      SumsRead(tasks[..|tasks| - 1], from, end, kind, key, statuses, f, g);
    }
  }

  /** Counts, tokens and cost are those of finished tasks, and the failed cost is the cost
      of failed and cancelled ones; so for each group, and so for all of a range. */
  lemma FieldsAddUp(tasks: seq<Task>, from: int, end: int, kind: BucketKind, key: string)
    ensures var group := Got(Groups(tasks, from, end, kind), key);
            && group.tasks as real == GroupSum(tasks, from, end, kind, key, {Done}, One)
            && group.cost == GroupSum(tasks, from, end, kind, key, {Done}, CostOf)
            && group.input as real == GroupSum(tasks, from, end, kind, key, {Done}, InputOf)
            && group.output as real == GroupSum(tasks, from, end, kind, key, {Done}, OutputOf)
            && group.cacheRead as real == GroupSum(tasks, from, end, kind, key, {Done}, CacheReadOf)
            && group.cacheCreation as real == GroupSum(tasks, from, end, kind, key, {Done}, CacheCreationOf)
            && group.failedCost == GroupSum(tasks, from, end, kind, key, {Failed, Cancelled}, CostOf)
    ensures var all := Everything(tasks, from, end);
            && all.tasks as real == RangeSum(tasks, from, end, {Done}, One)
            && all.cost == RangeSum(tasks, from, end, {Done}, CostOf)
            && all.input as real == RangeSum(tasks, from, end, {Done}, InputOf)
            && all.output as real == RangeSum(tasks, from, end, {Done}, OutputOf)
            && all.cacheRead as real == RangeSum(tasks, from, end, {Done}, CacheReadOf)
            && all.cacheCreation as real == RangeSum(tasks, from, end, {Done}, CacheCreationOf)
            && all.failedCost == RangeSum(tasks, from, end, {Failed, Cancelled}, CostOf)
  {
    hide Groups, Everything, GroupSum, RangeSum, Got;
    SumsRead(tasks, from, end, kind, key, {Done}, One, (t: Tally) => t.tasks as real);
    SumsRead(tasks, from, end, kind, key, {Done}, CostOf, (t: Tally) => t.cost);
    SumsRead(tasks, from, end, kind, key, {Done}, InputOf, (t: Tally) => t.input as real);
    SumsRead(tasks, from, end, kind, key, {Done}, OutputOf, (t: Tally) => t.output as real);
    SumsRead(tasks, from, end, kind, key, {Done}, CacheReadOf, (t: Tally) => t.cacheRead as real);
    SumsRead(tasks, from, end, kind, key, {Done}, CacheCreationOf, (t: Tally) => t.cacheCreation as real);
    SumsRead(tasks, from, end, kind, key, {Failed, Cancelled}, CostOf, (t: Tally) => t.failedCost);
  }

  // ---- the buckets of a range ----------------------------------------------------------

  /** Where weeks start, and by how many days midnight UTC falls before midnight in the
      configured zone's day: 0 for UTC and zones east of it, -1 for zones west of it. */
  datatype WeekRule = WeekRule(weekStartsOn: Weekday, shift: int)

  predicate Sensible(rule: WeekRule) {
    rule.shift == 0 || rule.shift == -1
  }

  /** The key under which gap filling looks a day up. */
  function GapKey(kind: BucketKind, day: int, rule: WeekRule): string {
    if kind == Week then WeekKey(day + rule.shift, rule.weekStartsOn) else SqlKey(kind, day)
  }

  /** A number for the bucket of a day that grows with time. */
  function BucketId(kind: BucketKind, day: int, rule: WeekRule): int {
    match kind
    case Day => day
    case Week => Snap(day + rule.shift, rule.weekStartsOn)
    case Month => MonthOf(day)
    case OtherKind => 0
  }

  lemma KeyIff(kind: BucketKind, d: int, e: int, rule: WeekRule)
    ensures GapKey(kind, d, rule) == GapKey(kind, e, rule) <==> BucketId(kind, d, rule) == BucketId(kind, e, rule)
  {
    hide DateKey, WeekKey, MonthKey, MonthOf, Snap;
    match kind
    case Day => DateKeyInjective(d, e);
    case Week => WeekKeyInjective(d + rule.shift, e + rule.shift, rule.weekStartsOn);
    case Month =>
      if MonthKey(MonthOf(d)) == MonthKey(MonthOf(e)) {
        MonthKeyInjective(MonthOf(d), MonthOf(e), "", "");
      }
    case OtherKind =>
  }

  lemma IdMonotone(kind: BucketKind, d: int, e: int, rule: WeekRule)
    requires d <= e
    ensures BucketId(kind, d, rule) <= BucketId(kind, e, rule)
  {
    hide MonthOf, Snap;
    match kind
    case Week => SnapMonotone(d + rule.shift, e + rule.shift, rule.weekStartsOn);
    case Month => MonthOfMonotone(d, e);
    case _ =>
  }

  /** The buckets of a range: each once, in the order of time, and no others. */
  ghost predicate BucketsOf(keys: seq<string>, kind: BucketKind, from: int, to: int, rule: WeekRule) {
    && (forall d | from <= d <= to :: GapKey(kind, d, rule) in keys)
    && (forall k | k in keys :: exists d :: from <= d <= to && k == GapKey(kind, d, rule))
    && (forall i, j, d, e | 0 <= i < j < |keys| && from <= d <= to && from <= e <= to
                            && keys[i] == GapKey(kind, d, rule) && keys[j] == GapKey(kind, e, rule) :: d < e)
  }

  function KeysOf(rows: seq<BucketRow>): seq<string> {
    seq(|rows|, i requires 0 <= i < |rows| => rows[i].bucket)
  }

  function SumRows(rows: seq<BucketRow>): Tally {
    if rows == [] then ZERO else Add(SumRows(rows[..|rows| - 1]), rows[|rows| - 1].sums)
  }

  /** The groups that have a bucket of their own in the list. */
  ghost function Listed(groups: map<string, Tally>, keys: seq<string>): set<string> {
    set k | k in groups && k in keys
  }

  // ---- which groups the week buckets cover ----------------------------------------------

  /** Days since Monday. */
  function Index(day: int): int {
    day - Snap(day, MONDAY)
  }

  function StartIndex(ws: Weekday): int {
    (ws + 6) % 7
  }

  lemma WeekKeyAcross(a: int, ws: Weekday, b: int, vs: Weekday)
    ensures WeekKey(a, ws) == WeekKey(b, vs) <==> Snap(Snap(a, ws), MONDAY) == Snap(Snap(b, vs), MONDAY)
  {
    hide IsoYear, IsoWeek, WeekLabel;
    var sa, sb := Snap(a, ws), Snap(b, vs);
    IsoWeekInjective(sa, sb);
    if WeekKey(a, ws) == WeekKey(b, vs) {
      ScanWeekLabelOf(IsoYear(sa), IsoWeek(sa));
      ScanWeekLabelOf(IsoYear(sb), IsoWeek(sb));
    }
  }

  lemma StartOfWeek(monday: int, ws: Weekday)
    requires WeekdayOf(monday) == MONDAY
    ensures WeekdayOf(monday + StartIndex(ws)) == ws && Snap(monday + StartIndex(ws), ws) == monday + StartIndex(ws)
    ensures Snap(monday + StartIndex(ws), MONDAY) == monday
  {
    SnapUnique(monday + StartIndex(ws), ws, monday + StartIndex(ws));
    SnapUnique(monday + StartIndex(ws), MONDAY, monday);
  }

  /** The week in which the gap filling files a day is the day's own ISO week or an
      earlier one; it is its own exactly from the configured week start onwards. */
  lemma FiledWeek(day: int, rule: WeekRule)
    requires Sensible(rule)
    ensures Snap(Snap(day + rule.shift, rule.weekStartsOn), MONDAY) <= Snap(day, MONDAY)
    ensures Snap(Snap(day + rule.shift, rule.weekStartsOn), MONDAY) == Snap(day, MONDAY)
       <==> Index(day) + rule.shift >= StartIndex(rule.weekStartsOn)
  {
    var monday := Snap(day, MONDAY);
    var start := monday + StartIndex(rule.weekStartsOn);
    var snapped := Snap(day + rule.shift, rule.weekStartsOn);
    StartOfWeek(monday, rule.weekStartsOn);
    SnapMonotone(snapped, day, MONDAY);
    if day + rule.shift >= start {
      SnapMonotone(start, day + rule.shift, rule.weekStartsOn);
      SnapMonotone(start, snapped, MONDAY);
    } else {
      SnapMonotone(day + rule.shift, start, rule.weekStartsOn);
    }
  }

  /** The buckets one by one: every day, every month, or every week from the one the first
      day is filed under to the one of the last. */
  ghost predicate OneByOne(rows: seq<BucketRow>, kind: BucketKind, from: int, to: int, rule: WeekRule) {
    match kind
    case Day => |rows| == to - from + 1 && forall i | 0 <= i < |rows| :: rows[i].bucket == DateKey(from + i)
    case Month =>
      |rows| == MonthOf(to) - MonthOf(from) + 1 && forall i | 0 <= i < |rows| :: rows[i].bucket == MonthKey(MonthOf(from) + i)
    case Week =>
      var first, last := Snap(from + rule.shift, rule.weekStartsOn), Snap(to + rule.shift, rule.weekStartsOn);
      7 * (|rows| - 1) == last - first && forall i | 0 <= i < |rows| :: rows[i].bucket == WeekKey(first + 7 * i, rule.weekStartsOn)
    case OtherKind => true
  }

  // ---- gap filling -------------------------------------------------------------------------

  function Lookup(byKey: map<string, BucketRow>, key: string): BucketRow {
    if key in byKey then byKey[key] else BucketRow(key, ZERO)
  }

  /** The rows that have been filled in for the days before upto; each row's bucket is
      that of the day in firsts beside it. */
  ghost predicate Filled(rows: seq<BucketRow>, firsts: seq<int>, kind: BucketKind, from: int, upto: int, rule: WeekRule) {
    && |rows| == |firsts|
    && (forall i | 0 <= i < |rows| :: from <= firsts[i] < upto && rows[i].bucket == GapKey(kind, firsts[i], rule))
    && (forall i, j | 0 <= i < j < |rows| :: BucketId(kind, firsts[i], rule) < BucketId(kind, firsts[j], rule))
    && (forall d | from <= d < upto :: Covered(firsts, kind, d, rule))
  }

  ghost predicate Covered(firsts: seq<int>, kind: BucketKind, d: int, rule: WeekRule) {
    exists i | 0 <= i < |firsts| :: BucketId(kind, d, rule) == BucketId(kind, firsts[i], rule)
  }

  /** Later days of the last bucket are filled in already. */
  lemma FilledFurther(rows: seq<BucketRow>, firsts: seq<int>, kind: BucketKind, from: int, upto: int, rule: WeekRule, later: int)
    requires Filled(rows, firsts, kind, from, upto, rule) && upto <= later
    requires rows != [] && forall d | upto <= d < later :: BucketId(kind, d, rule) == BucketId(kind, firsts[|rows| - 1], rule)
    ensures Filled(rows, firsts, kind, from, later, rule)
  {
    hide BucketId, GapKey;
    forall d | from <= d < later
      ensures Covered(firsts, kind, d, rule)
    {
      if d < upto {
        assert Covered(firsts, kind, d, rule);
      } else {
        assert BucketId(kind, d, rule) == BucketId(kind, firsts[|rows| - 1], rule);
      }
    }
  }

  /** A day of a bucket later than all so far gets a row of its own. */
  lemma FilledNew(rows: seq<BucketRow>, firsts: seq<int>, kind: BucketKind, from: int, upto: int, rule: WeekRule, row: BucketRow)
    requires Filled(rows, firsts, kind, from, upto, rule) && from <= upto && row.bucket == GapKey(kind, upto, rule)
    requires rows != [] ==> BucketId(kind, firsts[|rows| - 1], rule) < BucketId(kind, upto, rule)
    ensures Filled(rows + [row], firsts + [upto], kind, from, upto + 1, rule)
    ensures forall r | r in rows :: r.bucket != row.bucket
  {
    hide BucketId, GapKey;
    forall i | 0 <= i < |rows|
      ensures BucketId(kind, firsts[i], rule) < BucketId(kind, upto, rule) && rows[i].bucket != row.bucket
    {
      KeyIff(kind, firsts[i], upto, rule);
    }
    var more := firsts + [upto];
    forall d | from <= d < upto + 1
      ensures Covered(more, kind, d, rule)
    {
      if d == upto {
        assert more[|firsts|] == d;
      } else {
        assert Covered(firsts, kind, d, rule);
        var i :| 0 <= i < |rows| && BucketId(kind, d, rule) == BucketId(kind, firsts[i], rule);
        assert more[i] == firsts[i];
      }
    }
  }

  lemma FilledLists(rows: seq<BucketRow>, firsts: seq<int>, kind: BucketKind, from: int, to: int, rule: WeekRule)
    requires Filled(rows, firsts, kind, from, to + 1, rule)
    ensures BucketsOf(KeysOf(rows), kind, from, to, rule)
  {
    hide BucketId, GapKey;
    var keys := KeysOf(rows);
    forall d | from <= d <= to
      ensures GapKey(kind, d, rule) in keys
    {
      assert Covered(firsts, kind, d, rule);
      var i :| 0 <= i < |rows| && BucketId(kind, d, rule) == BucketId(kind, firsts[i], rule);
      KeyIff(kind, d, firsts[i], rule);
      assert keys[i] == GapKey(kind, d, rule);
    }
    forall i, j, d, e | 0 <= i < j < |keys| && from <= d <= to && from <= e <= to
      && keys[i] == GapKey(kind, d, rule) && keys[j] == GapKey(kind, e, rule)
      ensures d < e
    {
      KeyIff(kind, d, firsts[i], rule);
      KeyIff(kind, e, firsts[j], rule);
      if e <= d {
        IdMonotone(kind, e, d, rule);
      }
    }
  }

  /** The rows are looked up in the groups, and sum to what the groups they list hold. */
  ghost predicate LookedUp(rows: seq<BucketRow>, groups: map<string, Tally>) {
    && (forall r | r in rows :: r.sums == Got(groups, r.bucket))
    && SumRows(rows) == SumOver(groups, Listed(groups, KeysOf(rows)))
  }

  lemma LookedUpNew(rows: seq<BucketRow>, groups: map<string, Tally>, row: BucketRow)
    requires LookedUp(rows, groups) && row.sums == Got(groups, row.bucket)
    requires forall r | r in rows :: r.bucket != row.bucket
    ensures LookedUp(rows + [row], groups)
  {
    hide Add;
    var longer := rows + [row];
    assert longer[..|rows|] == rows;
    KeysGrow(rows, row);
    var listed, more := Listed(groups, KeysOf(rows)), Listed(groups, KeysOf(longer));
    if row.bucket in groups {
      assert more == listed + {row.bucket};
      SumOverTake(groups, more, row.bucket);
      assert more - {row.bucket} == listed;
      AddLaws(SumOver(groups, listed), row.sums, ZERO);
    } else {
      assert more == listed;
      AddLaws(SumOver(groups, listed), ZERO, ZERO);
    }
  }

  lemma KeysGrow(rows: seq<BucketRow>, row: BucketRow)
    ensures KeysOf(rows + [row]) == KeysOf(rows) + [row.bucket]
    ensures (forall r | r in rows :: r.bucket != row.bucket) <==> row.bucket !in KeysOf(rows)
  {
    if row.bucket in KeysOf(rows) {
      var i :| 0 <= i < |rows| && KeysOf(rows)[i] == row.bucket;
      assert rows[i] in rows && rows[i].bucket == row.bucket;
    }
    if exists r | r in rows :: r.bucket == row.bucket {
      var i :| 0 <= i < |rows| && rows[i].bucket == row.bucket;
      assert KeysOf(rows)[i] == row.bucket;
    }
  }

  ghost predicate Indexes(byKey: map<string, BucketRow>, groups: map<string, Tally>) {
    byKey.Keys == groups.Keys && forall k | k in byKey :: byKey[k] == BucketRow(k, groups[k])
  }

  lemma LookupGot(byKey: map<string, BucketRow>, groups: map<string, Tally>, key: string)
    requires Indexes(byKey, groups)
    ensures Lookup(byKey, key) == BucketRow(key, Got(groups, key))
  {
  }

  method FillDays(from: int, to: int, byKey: map<string, BucketRow>, rule: WeekRule, ghost groups: map<string, Tally>)
      returns (result: seq<BucketRow>)
    requires from <= to && Indexes(byKey, groups)
    ensures BucketsOf(KeysOf(result), Day, from, to, rule) && LookedUp(result, groups) && OneByOne(result, Day, from, to, rule)
  {
    hide Filled, LookedUp, BucketsOf, DateKey;
    result := [];
    ghost var firsts: seq<int> := [];
    NothingFilled(Day, from, rule, groups);
    for cur := from to to + 1
      invariant Filled(result, firsts, Day, from, cur, rule) && LookedUp(result, groups)
      invariant |firsts| == |result| && (result != [] ==> firsts[|firsts| - 1] < cur)
      invariant |result| == cur - from && forall i | 0 <= i < |result| :: result[i].bucket == DateKey(from + i)
    {
      var row := Lookup(byKey, DateKey(cur));
      LookupGot(byKey, groups, DateKey(cur));
      FilledNew(result, firsts, Day, from, cur, rule, row);
      LookedUpNew(result, groups, row);
      result, firsts := result + [row], firsts + [cur];
    }
    FilledLists(result, firsts, Day, from, to, rule);
  }

  lemma NothingFilled(kind: BucketKind, from: int, rule: WeekRule, groups: map<string, Tally>)
    ensures Filled([], [], kind, from, from, rule) && LookedUp([], groups)
  {
    assert Listed(groups, KeysOf([])) == {};
  }

  method FillWeeks(from: int, to: int, byKey: map<string, BucketRow>, rule: WeekRule, ghost groups: map<string, Tally>)
      returns (result: seq<BucketRow>)
    requires from <= to && Indexes(byKey, groups)
    ensures BucketsOf(KeysOf(result), Week, from, to, rule) && LookedUp(result, groups) && OneByOne(result, Week, from, to, rule)
  {
    hide Filled, LookedUp, BucketsOf, WeekKey, Snap, KeysOf;
    result := [];
    ghost var firsts: seq<int> := [];
    NothingFilled(Week, from, rule, groups);
    var seen: set<string> := {};
    ghost var first := Snap(from + rule.shift, rule.weekStartsOn);
    NoKeys(result);
    var cur := from;
    while cur <= to
      invariant from <= cur <= to + 1
      invariant Filled(result, firsts, Week, from, cur, rule) && LookedUp(result, groups)
      invariant |firsts| == |result| && SeenAll(seen, result)
      invariant cur == from ==> result == []
      invariant cur > from ==> 7 * (|result| - 1) == Snap(cur - 1 + rule.shift, rule.weekStartsOn) - first
      invariant cur > from ==> firsts[|result| - 1] < cur && Snap(firsts[|result| - 1] + rule.shift, rule.weekStartsOn) == Snap(cur - 1 + rule.shift, rule.weekStartsOn)
      invariant forall i | 0 <= i < |result| :: result[i].bucket == WeekKey(first + 7 * i, rule.weekStartsOn)
    {
      var key := WeekKey(cur + rule.shift, rule.weekStartsOn);
      SeenIsLast(result, firsts, Week, from, cur, rule);
      NextDay(from, cur, rule);
      if key !in seen {
        seen := seen + {key};
        var row := Lookup(byKey, key);
        LookupGot(byKey, groups, key);
        FilledNew(result, firsts, Week, from, cur, rule, row);
        LookedUpNew(result, groups, row);
        KeysGrow(result, row);
        result, firsts := result + [row], firsts + [cur];
      } else {
        FilledFurther(result, firsts, Week, from, cur, rule, cur + 1);
      }
      cur := cur + 1;
    }
    FilledLists(result, firsts, Week, from, to, rule);
  }

  /** From one day to the next, a week stays or the following one begins; a week key is
      the key of the day the week starts on. */
  lemma NextDay(from: int, cur: int, rule: WeekRule)
    ensures var s, before := Snap(cur + rule.shift, rule.weekStartsOn), Snap(cur - 1 + rule.shift, rule.weekStartsOn);
            && (s == before || s == before + 7)
            && WeekKey(s, rule.weekStartsOn) == WeekKey(cur + rule.shift, rule.weekStartsOn)
  {
    hide WeekKey;
    SnapMonotone(cur - 1 + rule.shift, cur + rule.shift, rule.weekStartsOn);
    var s := Snap(cur + rule.shift, rule.weekStartsOn);
    SnapUnique(s, rule.weekStartsOn, s);
    WeekKeyInjective(s, cur + rule.shift, rule.weekStartsOn);
  }

  lemma NoKeys(rows: seq<BucketRow>)
    requires rows == []
    ensures SeenAll({}, rows)
  {
  }

  ghost predicate SeenAll(seen: set<string>, rows: seq<BucketRow>) {
    forall k :: (k in seen <==> k in KeysOf(rows))
  }

  /** A key that was seen is the key of the last bucket; any other is of a later one. */
  lemma SeenIsLast(rows: seq<BucketRow>, firsts: seq<int>, kind: BucketKind, from: int, cur: int, rule: WeekRule)
    requires Filled(rows, firsts, kind, from, cur, rule) && |firsts| == |rows|
    ensures var id := BucketId(kind, cur, rule);
            if GapKey(kind, cur, rule) in KeysOf(rows) then rows != [] && id == BucketId(kind, firsts[|rows| - 1], rule)
            else rows != [] ==> BucketId(kind, firsts[|rows| - 1], rule) < id
  {
    hide BucketId, GapKey;
    var key := GapKey(kind, cur, rule);
    if rows != [] {
      var last := |rows| - 1;
      KeyIff(kind, firsts[last], cur, rule);
      IdMonotone(kind, firsts[last], cur, rule);
      assert KeysOf(rows)[last] == GapKey(kind, firsts[last], rule);
    }
    if key in KeysOf(rows) {
      var i :| 0 <= i < |rows| && KeysOf(rows)[i] == key;
      KeyIff(kind, firsts[i], cur, rule);
    }
  }

  method FillMonths(from: int, to: int, byKey: map<string, BucketRow>, rule: WeekRule, ghost groups: map<string, Tally>)
      returns (result: seq<BucketRow>)
    requires from <= to && Indexes(byKey, groups)
    ensures BucketsOf(KeysOf(result), Month, from, to, rule) && LookedUp(result, groups) && OneByOne(result, Month, from, to, rule)
  {
    hide Filled, LookedUp, BucketsOf, MonthKey, MonthOf, MonthStart, KeysOf;
    result := [];
    ghost var firsts: seq<int> := [];
    NothingFilled(Month, from, rule, groups);
    MonthOfMonotone(from, to);
    var cur, end := MonthOf(from), MonthOf(to);
    ghost var upto := from;
    while cur <= end
      invariant MonthOf(from) <= cur <= end + 1
      invariant Filled(result, firsts, Month, from, upto, rule) && LookedUp(result, groups)
      invariant |firsts| == |result| && (result != [] ==> MonthOf(firsts[|result| - 1]) < cur)
      invariant |result| == cur - MonthOf(from) && forall i | 0 <= i < |result| :: result[i].bucket == MonthKey(MonthOf(from) + i)
      invariant from <= upto <= to + 1 && (if cur <= end then upto <= to && MonthOf(upto) == cur else upto == to + 1)
      decreases end - cur
    {
      var key := MonthKey(cur);
      var row := Lookup(byKey, key);
      LookupGot(byKey, groups, key);
      FilledNew(result, firsts, Month, from, upto, rule, row);
      LookedUpNew(result, groups, row);
      result, firsts := result + [row], firsts + [upto];
      MonthEnds(upto, to, cur);
      ghost var later := if MonthStart(cur + 1) <= to then MonthStart(cur + 1) else to + 1;
      FilledFurther(result, firsts, Month, from, upto + 1, rule, later);
      upto := later;
      cur := cur + 1;
    }
    FilledLists(result, firsts, Month, from, to, rule);
  }

  /** The rest of a month, and where the next one starts. */
  lemma MonthEnds(day: int, to: int, month: int)
    requires MonthOf(day) == month && day <= to
    ensures day < MonthStart(month + 1) && MonthOf(MonthStart(month + 1)) == month + 1
    ensures forall d | day <= d < MonthStart(month + 1) :: MonthOf(d) == month
    ensures MonthStart(month + 1) <= to <==> month < MonthOf(to)
  {
    hide MonthStart, MonthOf;
    NextMonth(month + 1);
    MonthOfUnique(MonthStart(month + 1), month + 1);
    forall d | day <= d < MonthStart(month + 1)
      ensures MonthOf(d) == month
    {
      MonthOfUnique(d, month);
    }
    if MonthStart(month + 1) <= to {
      MonthOfMonotone(MonthStart(month + 1), to);
    }
  }

  // ---- the use case --------------------------------------------------------------------------

  datatype Rejection = InvalidRange | RangeTooLarge | InvalidBucket | RepositoryFailed
  datatype Aggregated = Rejected(reason: Rejection) | Buckets(rows: seq<BucketRow>, totals: Tally)

  const MAX_RANGE_DAYS := 365

  /** The repository's answer: one row per group, in some order. */
  method SumByBucket(tasks: seq<Task>, from: int, end: int, kind: BucketKind) returns (rows: seq<BucketRow>)
    ensures ListsGroups(rows, Groups(tasks, from, end, kind))
  {
    hide Groups;
    var groups := Groups(tasks, from, end, kind);
    rows := [];
    var pending := groups.Keys;
    while pending != {}
      invariant pending <= groups.Keys
      invariant forall i | 0 <= i < |rows| ::
                  rows[i].bucket in groups && rows[i].bucket !in pending && rows[i].sums == groups[rows[i].bucket]
      invariant forall i, j | 0 <= i < j < |rows| :: rows[i].bucket != rows[j].bucket
      invariant forall k | k in groups && k !in pending :: BucketRow(k, groups[k]) in rows
      decreases pending
    {
      var k :| k in pending;
      rows := rows + [BucketRow(k, groups[k])];
      pending := pending - {k};
    }
  }

  ghost predicate ListsGroups(rows: seq<BucketRow>, groups: map<string, Tally>) {
    && (forall i | 0 <= i < |rows| :: rows[i].bucket in groups && rows[i].sums == groups[rows[i].bucket])
    && (forall i, j | 0 <= i < j < |rows| :: rows[i].bucket != rows[j].bucket)
    && (forall k | k in groups :: BucketRow(k, groups[k]) in rows)
  }

  method GapFill(from: int, to: int, kind: BucketKind, rows: seq<BucketRow>, rule: WeekRule, ghost groups: map<string, Tally>)
      returns (result: seq<BucketRow>)
    requires from <= to && kind != OtherKind && ListsGroups(rows, groups)
    ensures BucketsOf(KeysOf(result), kind, from, to, rule) && LookedUp(result, groups) && OneByOne(result, kind, from, to, rule)
  {
    hide BucketsOf, OneByOne, LookedUp, KeysOf;
    var byKey: map<string, BucketRow> := map[];
    for i := 0 to |rows|
      invariant forall k :: k in byKey <==> exists j | 0 <= j < i :: rows[j].bucket == k
      invariant forall j | 0 <= j < i :: byKey[rows[j].bucket] == rows[j]
    {
      byKey := byKey[rows[i].bucket := rows[i]];
    }
    assert Indexes(byKey, groups) by { IndexesAll(rows, groups, byKey); }
    match kind
    case Day => result := FillDays(from, to, byKey, rule, groups);
    case Week => result := FillWeeks(from, to, byKey, rule, groups);
    case Month => result := FillMonths(from, to, byKey, rule, groups);
  }

  lemma IndexesAll(rows: seq<BucketRow>, groups: map<string, Tally>, byKey: map<string, BucketRow>)
    requires ListsGroups(rows, groups)
    requires forall k :: k in byKey <==> exists j | 0 <= j < |rows| :: rows[j].bucket == k
    requires forall j | 0 <= j < |rows| :: byKey[rows[j].bucket] == rows[j]
    ensures Indexes(byKey, groups)
  {
    forall k | k in groups
      ensures k in byKey
    {
      assert BucketRow(k, groups[k]) in rows;
      var j :| 0 <= j < |rows| && rows[j] == BucketRow(k, groups[k]);
      assert rows[j].bucket == k;
    }
  }

  method ComputeTotals(rows: seq<BucketRow>) returns (t: Tally)
    ensures t == SumRows(rows)
  {
    hide Add;
    t := ZERO;
    for i := 0 to |rows|
      invariant t == SumRows(rows[..i])
    {
      assert rows[..i + 1][..i] == rows[..i];
      t := Add(t, rows[i].sums);
    }
    assert rows[..|rows|] == rows;
  }

  /** Whether the buckets of a range have room for every group in it. */
  ghost predicate Complete(kind: BucketKind, to: int, rule: WeekRule) {
    kind == Week ==> Index(to) + rule.shift >= StartIndex(rule.weekStartsOn)
  }

  method Aggregate(tasks: seq<Task>, from: int, to: int, kind: BucketKind, rule: WeekRule, fails: bool) returns (r: Aggregated)
    requires Sensible(rule)
    ensures r == Rejected(InvalidRange) <==> from > to
    ensures r == Rejected(RangeTooLarge) <==> from <= to && to - from > 365
    ensures r == Rejected(InvalidBucket) <==> from <= to && to - from <= 365 && kind == OtherKind
    ensures r == Rejected(RepositoryFailed) <==> from <= to && to - from <= 365 && kind != OtherKind && fails
    ensures r.Buckets? ==> BucketsOf(KeysOf(r.rows), kind, from, to, rule) && OneByOne(r.rows, kind, from, to, rule)
    ensures r.Buckets? ==> forall row | row in r.rows :: row.sums == Got(Groups(tasks, from, to + 1, kind), row.bucket)
    ensures r.Buckets? ==> r.totals == SumRows(r.rows)
    ensures r.Buckets? && Complete(kind, to, rule) ==> r.totals == Everything(tasks, from, to + 1)
  {
    hide BucketsOf, OneByOne, KeysOf, SumRows, Complete, Got, SumOver, Everything, Add;
    if from > to {
      return Rejected(InvalidRange);
    }
    if to - from > MAX_RANGE_DAYS {
      return Rejected(RangeTooLarge);
    }
    if kind == OtherKind {
      return Rejected(InvalidBucket);
    }
    if fails {
      return Rejected(RepositoryFailed);
    }
    var rows := SumByBucket(tasks, from, to + 1, kind);
    var filled := GapFill(from, to, kind, rows, rule, Groups(tasks, from, to + 1, kind));
    var totals := ComputeTotals(filled);
    if Complete(kind, to, rule) {
      TotalsComplete(tasks, from, to, kind, rule, filled);
    }
    r := Buckets(filled, totals);
  }

  // ---- totals do not depend on the granularity ----------------------------------------------

  /** Every group of the range has a bucket, so the totals are everything in the range. */
  lemma TotalsComplete(tasks: seq<Task>, from: int, to: int, kind: BucketKind, rule: WeekRule, rows: seq<BucketRow>)
    requires Sensible(rule) && from <= to && kind != OtherKind && Complete(kind, to, rule)
    requires BucketsOf(KeysOf(rows), kind, from, to, rule) && LookedUp(rows, Groups(tasks, from, to + 1, kind))
    ensures SumRows(rows) == Everything(tasks, from, to + 1)
  {
    hide KeysOf, SumRows, Everything, Groups, SqlKey, GapKey, SumOver, BucketsOf, LookedUp, Complete;
    var groups := Groups(tasks, from, to + 1, kind);
    SumsListed(rows, groups);
    GroupsConserve(tasks, from, to + 1, kind);
    GroupKeys(tasks, from, to + 1, kind);
    forall key | key in groups
      ensures key in KeysOf(rows)
    {
      var d :| from <= d < to + 1 && key == SqlKey(kind, d);
      var e := SomeBucket(kind, from, d, to, rule);
      DayIsListed(KeysOf(rows), kind, from, to, rule, e);
    }
    assert Listed(groups, KeysOf(rows)) == groups.Keys;
  }

  /** With Monday weeks and midnights in UTC, days, weeks and months of one range have the
      same totals. */
  lemma GranularityIndependent(tasks: seq<Task>, from: int, to: int, kind: BucketKind, other: BucketKind,
                               rows: seq<BucketRow>, others: seq<BucketRow>)
    requires from <= to && kind != OtherKind && other != OtherKind
    requires BucketsOf(KeysOf(rows), kind, from, to, WeekRule(MONDAY, 0)) && LookedUp(rows, Groups(tasks, from, to + 1, kind))
    requires BucketsOf(KeysOf(others), other, from, to, WeekRule(MONDAY, 0)) && LookedUp(others, Groups(tasks, from, to + 1, other))
    ensures SumRows(rows) == SumRows(others) == Everything(tasks, from, to + 1)
  {
    hide BucketsOf, LookedUp, KeysOf, SumRows, Everything, Groups;
    TotalsComplete(tasks, from, to, kind, WeekRule(MONDAY, 0), rows);
    TotalsComplete(tasks, from, to, other, WeekRule(MONDAY, 0), others);
  }

  /** A day of the range under whose bucket a given day of the range is filed. */
  lemma SomeBucket(kind: BucketKind, from: int, day: int, to: int, rule: WeekRule) returns (e: int)
    requires Sensible(rule) && from <= day <= to && Complete(kind, to, rule)
    ensures from <= e <= to && GapKey(kind, e, rule) == SqlKey(kind, day)
  {
    hide WeekKey, DateKey, MonthKey, MonthOf, Snap, Sensible;
    e := day;
    if kind == Week {
      e := SomeWeekDay(from, day, to, rule);
      WeekKeyAcross(e + rule.shift, rule.weekStartsOn, day, MONDAY);
    }
  }

  /** A day of the range that is filed under the ISO week of a given one. */
  lemma SomeWeekDay(from: int, day: int, to: int, rule: WeekRule) returns (e: int)
    requires Sensible(rule) && from <= day <= to && Index(to) + rule.shift >= StartIndex(rule.weekStartsOn)
    ensures from <= e <= to
    ensures Snap(Snap(e + rule.shift, rule.weekStartsOn), MONDAY) == Snap(Snap(day, MONDAY), MONDAY)
  {
    hide Snap, WeekdayOf;
    var monday, ws := Snap(day, MONDAY), rule.weekStartsOn;
    SnapUnique(monday, MONDAY, monday);
    FiledWeek(day, rule);
    e := day;
    if Index(day) + rule.shift < StartIndex(ws) {
      e := monday + StartIndex(ws) - rule.shift;
      StartOfWeek(monday, ws);
      if to < e {
        SnapUnique(to, MONDAY, monday);
      }
    }
  }

  /** Day and month buckets always add up to everything in the range; week buckets add up
      to it for every set of tasks exactly when the last day of the range is not before
      the configured start of its ISO week. */
  lemma WeekTotalsIff(from: int, to: int, rule: WeekRule, rows: seq<Task> -> seq<BucketRow>)
    requires Sensible(rule) && from <= to
    requires forall tasks: seq<Task> ::
               BucketsOf(KeysOf(rows(tasks)), Week, from, to, rule) && LookedUp(rows(tasks), Groups(tasks, from, to + 1, Week))
    ensures (forall tasks: seq<Task> :: SumRows(rows(tasks)) == Everything(tasks, from, to + 1)) <==> Complete(Week, to, rule)
  {
    hide KeysOf, SumRows, Everything, Add, SumOver, BucketsOf, LookedUp, Complete;
    if Complete(Week, to, rule) {
      forall tasks: seq<Task>
        ensures SumRows(rows(tasks)) == Everything(tasks, from, to + 1)
      {
        TotalsComplete(tasks, from, to, Week, rule, rows(tasks));
      }
    } else {
      var t := Task(to, Done, 0.0, 0, 0, 0, 0);
      LastDayDropped(from, to, rule, t, rows([t]));
    }
  }

  /** The other way round: a task finished on such a last day is in no bucket's sums. */
  lemma LastDayDropped(from: int, to: int, rule: WeekRule, t: Task, rows: seq<BucketRow>)
    requires Sensible(rule) && from <= to == t.day && t.status == Done && !Complete(Week, to, rule)
    requires BucketsOf(KeysOf(rows), Week, from, to, rule) && LookedUp(rows, Groups([t], from, to + 1, Week))
    ensures SumRows(rows) == ZERO && Everything([t], from, to + 1) == Counted(t) != ZERO
  {
    hide KeysOf, SumRows, WeekKey, SumOver, GapKey, BucketsOf, LookedUp, Add, Counted;
    OneGroup(t, from, to + 1);
    var groups := Groups([t], from, to + 1, Week);
    forall k | k in KeysOf(rows)
      ensures k !in groups
    {
      FiledUnder(rows, Week, from, to, rule, k);
      var d :| from <= d <= to && k == GapKey(Week, d, rule);
      NotFiled(d, to, rule);
    }
    assert Listed(groups, KeysOf(rows)) == {};
    SumsListed(rows, groups);
    assert SumOver(groups, {}) == ZERO by { NoSum(groups); }
  }

  lemma DayIsListed(keys: seq<string>, kind: BucketKind, from: int, to: int, rule: WeekRule, day: int)
    requires BucketsOf(keys, kind, from, to, rule) && from <= day <= to
    ensures GapKey(kind, day, rule) in keys
  {
    hide GapKey;
  }

  lemma FiledUnder(rows: seq<BucketRow>, kind: BucketKind, from: int, to: int, rule: WeekRule, k: string)
    requires BucketsOf(KeysOf(rows), kind, from, to, rule) && k in KeysOf(rows)
    ensures exists d :: from <= d <= to && k == GapKey(kind, d, rule)
  {
    hide KeysOf, GapKey;
  }

  lemma SumsListed(rows: seq<BucketRow>, groups: map<string, Tally>)
    requires LookedUp(rows, groups)
    ensures SumRows(rows) == SumOver(groups, Listed(groups, KeysOf(rows)))
  {
    hide SumRows, SumOver, KeysOf;
  }

  lemma NoSum(groups: map<string, Tally>)
    ensures SumOver(groups, {}) == ZERO
  {
  }

  lemma OneGroup(t: Task, from: int, end: int)
    requires from <= t.day < end && t.status == Done
    ensures Groups([t], from, end, Week).Keys == {SqlKey(Week, t.day)}
    ensures Everything([t], from, end) == Counted(t) != ZERO
  {
    hide SqlKey, Add, Counted;
    var tasks := [t];
    assert tasks[..0] == [] && tasks[0] == t;
    assert Groups(tasks[..0], from, end, Week) == map[] && Everything(tasks[..0], from, end) == ZERO;
    AddLaws(Counted(t), ZERO, ZERO);
    assert Counted(t).tasks == 1 by { DoneCounts(t); }
  }

  lemma DoneCounts(t: Task)
    requires t.status == Done
    ensures Counted(t).tasks == 1
  {
  }

  lemma NotFiled(d: int, to: int, rule: WeekRule)
    requires Sensible(rule) && d <= to && !Complete(Week, to, rule)
    ensures GapKey(Week, d, rule) != SqlKey(Week, to)
  {
    hide WeekKey;
    FiledWeek(to, rule);
    SnapMonotone(d + rule.shift, to + rule.shift, rule.weekStartsOn);
    SnapMonotone(Snap(d + rule.shift, rule.weekStartsOn), Snap(to + rule.shift, rule.weekStartsOn), MONDAY);
    WeekKeyAcross(d + rule.shift, rule.weekStartsOn, to, MONDAY);
    SnapUnique(Snap(to, MONDAY), MONDAY, Snap(to, MONDAY));
  }
}
