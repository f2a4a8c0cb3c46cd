/** Cost-threshold warnings: what an evaluation writes and sends, and why no flag is
    ever announced twice in one bucket. */
module CostWarn {
  import opened Wrappers
  import opened Calendar
  import opened Keys
  import opened BudgetLog

  /** The persisted flags of one scope, and of both. */
  datatype WarnFlags = WarnFlags(key: string, warned80: bool, warned100: bool)
  datatype WarnState = WarnState(daily: WarnFlags, weekly: WarnFlags)

  const NO_WARNINGS := WarnState(WarnFlags("", false, false), WarnFlags("", false, false))

  datatype Level = Eighty | Hundred

  /** Everything a cost evaluation does to the outside, in order. */
  datatype WarnEvent =
    | Persist(state: WarnState)
    | Send(scope: Scope, level: Level, bucket: int)

  function FlagsOf(state: WarnState, scope: Scope): WarnFlags {
    match scope
    case Daily => state.daily
    case Weekly => state.weekly
  }

  function WithFlags(state: WarnState, scope: Scope, flags: WarnFlags): WarnState {
    match scope
    case Daily => state.(daily := flags)
    case Weekly => state.(weekly := flags)
  }

  predicate Warned(flags: WarnFlags, level: Level) {
    match level
    case Eighty => flags.warned80
    case Hundred => flags.warned100
  }

  function Raise(flags: WarnFlags, level: Level): WarnFlags {
    match level
    case Eighty => flags.(warned80 := true)
    case Hundred => flags.(warned100 := true)
  }

  function RollFlags(flags: WarnFlags, key: string): WarnFlags {
    if flags.key != key then WarnFlags(key, false, false) else flags
  }

  /** math.Round: to the nearest integer, halves away from zero. */
  function Round(x: real): int {
    if x >= 0.0 then (x + 0.5).Floor else -((-x + 0.5).Floor)
  }

  /** Share of the limit in percent, rounded to one decimal. */
  function Percent(cost: real, max: real): real
    requires max > 0.0
  {
    Round(cost / max * 100.0 * 10.0) as real / 10.0
  }

  /** The warning a scope's cost asks for, if any flag is still down. */
  function Crossing(flags: WarnFlags, percent: real): Option<Level> {
    if percent >= 100.0 && !flags.warned100 then Some(Hundred)
    else if percent >= 80.0 && !flags.warned80 then Some(Eighty)
    else None
  }

  /** Rounding makes the thresholds a little earlier than the limits: 79.95% of the
      limit raises the first flag and 99.95% the second. */
  lemma WarningThresholds(cost: real, max: real)
    requires max > 0.0
    ensures Percent(cost, max) >= 100.0 <==> cost * 2000.0 >= max * 1999.0
    ensures Percent(cost, max) >= 80.0 <==> cost * 2000.0 >= max * 1599.0
  {
    hide Round;
    var ratio := cost / max;
    RatioOrder(cost, max, 1999.0);
    RatioOrder(cost, max, 1599.0);
    AtLeast(ratio, 1000, 1999.0);
    AtLeast(ratio, 800, 1599.0);
    Tenths(Round(ratio * 100.0 * 10.0));
  }

  /** Rounding ratio * 1000 reaches n half a unit before the ratio does. */
  lemma AtLeast(ratio: real, n: int, bound: real)
    requires n >= 1 && bound == 2.0 * n as real - 1.0
    ensures Round(ratio * 100.0 * 10.0) >= n <==> ratio * 2000.0 >= bound
  {
    var x := ratio * 100.0 * 10.0;
    if x >= 0.0 {
      FloorAtLeast(x + 0.5, n);
    } else {
      FloorAtLeast(-x + 0.5, 0);
    }
  }

  lemma FloorAtLeast(y: real, n: int)
    ensures y.Floor >= n <==> y >= n as real
  {
  }

  lemma Tenths(n: int)
    ensures n as real / 10.0 >= 100.0 <==> n >= 1000
    ensures n as real / 10.0 >= 80.0 <==> n >= 800
  {
  }

  lemma RatioOrder(cost: real, max: real, bound: real)
    requires max > 0.0
    ensures cost * 2000.0 >= max * bound <==> cost / max * 2000.0 >= bound
  {
    var ratio := cost / max;
    var gap := ratio * 2000.0 - bound;
    assert max * ratio == cost;
    assert max * gap == max * ratio * 2000.0 - max * bound;
    ProductSign(max, gap);
  }

  lemma ProductSign(a: real, b: real)
    requires a > 0.0
    ensures a * b >= 0.0 <==> b >= 0.0
  {
  }

  /** A notification is directly preceded by the write of the flag it goes with. */
  ghost predicate FlagFirst(trace: seq<WarnEvent>, ws: Weekday) {
    forall i | 0 <= i < |trace| && trace[i].Send? ::
      i > 0 && trace[i - 1].Persist?
      && FlagIsSet(FlagsOf(trace[i - 1].state, trace[i].scope), trace[i], ws)
  }

  ghost predicate FlagIsSet(flags: WarnFlags, send: WarnEvent, ws: Weekday)
    requires send.Send?
  {
    Warned(flags, send.level) && KeyOf(flags.key, send.scope, ws, send.bucket)
  }

  ghost predicate KeyOf(key: string, scope: Scope, ws: Weekday, bucket: int) {
    exists day :: Bucket(scope, ws, day) == bucket && BucketKey(scope, ws, day) == key
  }

  ghost predicate NoRepeat(trace: seq<WarnEvent>) {
    forall i, j | 0 <= i < j < |trace| && trace[i].Send? :: trace[i] != trace[j]
  }

  function Sends(trace: seq<WarnEvent>, scope: Scope, bucket: int, level: Level): nat {
    if trace == [] then 0
    else Sends(trace[..|trace| - 1], scope, bucket, level)
         + if trace[|trace| - 1] == Send(scope, level, bucket) then 1 else 0
  }

  lemma {:induction false} SentAtMostOnce(trace: seq<WarnEvent>, scope: Scope, bucket: int, level: Level)
    requires NoRepeat(trace)
    ensures Sends(trace, scope, bucket, level) <= 1
    ensures Send(scope, level, bucket) !in trace ==> Sends(trace, scope, bucket, level) == 0
  {
    if trace != [] {
      var init := trace[..|trace| - 1];
      assert forall i | 0 <= i < |init| :: init[i] == trace[i];
      SentAtMostOnce(init, scope, bucket, level);
    }
  }

  /** At most two notifications per scope and bucket, one for each flag. */
  lemma TwoWarningsPerBucket(trace: seq<WarnEvent>, scope: Scope, bucket: int)
    requires NoRepeat(trace)
    ensures Sends(trace, scope, bucket, Eighty) + Sends(trace, scope, bucket, Hundred) <= 2
    ensures Sends(trace, scope, bucket, Eighty) <= 1 && Sends(trace, scope, bucket, Hundred) <= 1
  {
    SentAtMostOnce(trace, scope, bucket, Eighty);
    SentAtMostOnce(trace, scope, bucket, Hundred);
  }

  /** What the stored flags say about the notifications sent so far: all are of
      earlier buckets, or of the current bucket with their flag still up. */
  ghost predicate Remembered(trace: seq<WarnEvent>, state: WarnState, lastDay: Option<int>, ws: Weekday) {
    match lastDay
    case None => state == NO_WARNINGS && forall i | 0 <= i < |trace| :: !trace[i].Send?
    case Some(day) =>
      && state.daily.key == DateKey(day) && state.weekly.key == WeekKey(day, ws)
      && forall i | 0 <= i < |trace| && trace[i].Send? ::
           || trace[i].bucket < Bucket(trace[i].scope, ws, day)
           || (trace[i].bucket == Bucket(trace[i].scope, ws, day)
               && Warned(FlagsOf(state, trace[i].scope), trace[i].level))
  }

  function RollWarnings(state: WarnState, ws: Weekday, day: int): WarnState {
    WarnState(RollFlags(state.daily, DateKey(day)), RollFlags(state.weekly, WeekKey(day, ws)))
  }

  lemma RememberedRolls(trace: seq<WarnEvent>, state: WarnState, lastDay: Option<int>, ws: Weekday, day: int)
    requires Remembered(trace, state, lastDay, ws) && (lastDay.Some? ==> lastDay.value <= day)
    ensures Remembered(trace, RollWarnings(state, ws, day), Some(day), ws)
  {
    hide DateKey, WeekKey, Snap;
    if lastDay.Some? {
      forall i | 0 <= i < |trace| && trace[i].Send?
        ensures || trace[i].bucket < Bucket(trace[i].scope, ws, day)
                || (trace[i].bucket == Bucket(trace[i].scope, ws, day)
                    && Warned(FlagsOf(RollWarnings(state, ws, day), trace[i].scope), trace[i].level))
      {
        BucketMonotone(trace[i].scope, ws, lastDay.value, day);
        KeyIdentifiesBucket(trace[i].scope, ws, lastDay.value, day);
      }
    }
  }

  /** One scope of an evaluation: the flags afterwards, and what was written and sent.
      None stands for a cost query that failed; a limit of zero or less switches the
      scope off. */
  function WarnStep(scope: Scope, ws: Weekday, day: int, state: WarnState, max: real, cost: Option<real>): (WarnState, seq<WarnEvent>) {
    var level := if max > 0.0 && cost.Some? then Crossing(FlagsOf(state, scope), Percent(cost.value, max)) else None;
    if level.None? then (state, [])
    else
      var raised := WithFlags(state, scope, Raise(FlagsOf(state, scope), level.value));
      (raised, [Persist(raised), Send(scope, level.value, Bucket(scope, ws, day))])
  }

  /** The design reserves the first warning for costs from 80 up to 100 percent. The code
      also sends it beyond, exactly when the second warning went out first: the next
      evaluation at the same cost then raises the flag that was left down. */
  lemma EightyPastTheLimitIff(scope: Scope, ws: Weekday, day: int, state: WarnState, max: real, cost: real)
    requires max > 0.0 && Percent(cost, max) >= 100.0
    ensures var flags := FlagsOf(state, scope);
            Send(scope, Eighty, Bucket(scope, ws, day)) in WarnStep(scope, ws, day, state, max, Some(cost)).1
            <==> flags.warned100 && !flags.warned80
    ensures !FlagsOf(state, scope).warned80 && !FlagsOf(state, scope).warned100 ==>
              var (first, sent) := WarnStep(scope, ws, day, state, max, Some(cost));
              && sent == [Persist(first), Send(scope, Hundred, Bucket(scope, ws, day))]
              && Send(scope, Eighty, Bucket(scope, ws, day)) in WarnStep(scope, ws, day, first, max, Some(cost)).1
  {
    hide Percent, Bucket;
  }

  /** One scope keeps the record straight. */
  lemma WarnStepKeeps(scope: Scope, ws: Weekday, day: int, state: WarnState, max: real, cost: Option<real>, trace: seq<WarnEvent>)
    requires state.daily.key == DateKey(day) && state.weekly.key == WeekKey(day, ws)
    requires FlagFirst(trace, ws)
    ensures var (s, events) := WarnStep(scope, ws, day, state, max, cost);
            && s.daily.key == state.daily.key && s.weekly.key == state.weekly.key
            && FlagFirst(trace + events, ws)
            && (NoRepeat(trace) && Remembered(trace, state, Some(day), ws) ==>
                  NoRepeat(trace + events) && Remembered(trace + events, s, Some(day), ws))
  {
    hide DateKey, WeekKey, Snap, Percent;
    var (s, events) := WarnStep(scope, ws, day, state, max, cost);
    if events != [] {
      var send := events[1];
      assert KeyOf(FlagsOf(s, scope).key, scope, ws, send.bucket) by {
        assert BucketKey(scope, ws, day) == FlagsOf(s, scope).key;
      }
      forall i | 0 <= i < |trace + events| && (trace + events)[i].Send?
        ensures i > 0 && (trace + events)[i - 1].Persist?
        ensures FlagIsSet(FlagsOf((trace + events)[i - 1].state, (trace + events)[i].scope), (trace + events)[i], ws)
      {
        if i < |trace| {
          assert trace[i].Send? && trace[i - 1] == (trace + events)[i - 1];
        }
      }
    } else {
      assert trace + events == trace;
    }
  }

  lemma PersistKeeps(trace: seq<WarnEvent>, state: WarnState, ws: Weekday, lastDay: Option<int>)
    requires FlagFirst(trace, ws)
    ensures FlagFirst(trace + [Persist(state)], ws)
    ensures NoRepeat(trace) ==> NoRepeat(trace + [Persist(state)])
    ensures Remembered(trace, state, lastDay, ws) ==> Remembered(trace + [Persist(state)], state, lastDay, ws)
  {
    hide DateKey, WeekKey, Snap;
    var t := trace + [Persist(state)];
    forall i | 0 <= i < |t| && t[i].Send?
      ensures i > 0 && t[i - 1].Persist? && FlagIsSet(FlagsOf(t[i - 1].state, t[i].scope), t[i], ws)
    {
      assert trace[i].Send? && trace[i - 1] == t[i - 1];
    }
  }

  /** A whole evaluation: roll the flags over, then the daily and the weekly scope,
      then one closing write. */
  function Evaluation(ws: Weekday, day: int, stored: WarnState, dailyMax: real, dailyCost: Option<real>,
                      weeklyMax: real, weeklyCost: Option<real>): (WarnState, seq<WarnEvent>) {
    var (s1, e1) := WarnStep(Daily, ws, day, RollWarnings(stored, ws, day), dailyMax, dailyCost);
    var (s2, e2) := WarnStep(Weekly, ws, day, s1, weeklyMax, weeklyCost);
    (s2, e1 + e2 + [Persist(s2)])
  }

  lemma EvaluationKeeps(ws: Weekday, day: int, stored: WarnState, dailyMax: real, dailyCost: Option<real>,
                        weeklyMax: real, weeklyCost: Option<real>, trace: seq<WarnEvent>, lastDay: Option<int>)
    requires FlagFirst(trace, ws)
    ensures var (s, events) := Evaluation(ws, day, stored, dailyMax, dailyCost, weeklyMax, weeklyCost);
            && FlagFirst(trace + events, ws)
            && (NoRepeat(trace) && Remembered(trace, stored, lastDay, ws) && (lastDay.Some? ==> lastDay.value <= day) ==>
                  NoRepeat(trace + events) && Remembered(trace + events, s, Some(day), ws))
  {
    hide DateKey, WeekKey, Snap, WarnStep, NoRepeat, FlagFirst, Remembered;
    if Remembered(trace, stored, lastDay, ws) && (lastDay.Some? ==> lastDay.value <= day) {
      RememberedRolls(trace, stored, lastDay, ws, day);
    }
    var rolled := RollWarnings(stored, ws, day);
    var (s1, e1) := WarnStep(Daily, ws, day, rolled, dailyMax, dailyCost);
    WarnStepKeeps(Daily, ws, day, rolled, dailyMax, dailyCost, trace);
    var (s2, e2) := WarnStep(Weekly, ws, day, s1, weeklyMax, weeklyCost);
    WarnStepKeeps(Weekly, ws, day, s1, weeklyMax, weeklyCost, trace + e1);
    PersistKeeps(trace + e1 + e2, s2, ws, Some(day));
    assert trace + e1 + e2 + [Persist(s2)] == trace + (e1 + e2 + [Persist(s2)]);
  }

  // ---- what is sent, told by cost, limit and stored flags ------------------------------

  /** One scope of an evaluation: the 100% warning is due when the limit is reached and its
      flag is not up in this bucket; otherwise the 80% warning when that is reached and its
      flag is not up. A flag goes up with its warning, and flags of earlier buckets count
      as down. */
  ghost predicate SentAsDue(scope: Scope, bucket: int, key: string, stored: WarnFlags, max: real, cost: Option<real>,
                            after: WarnFlags, events: seq<WarnEvent>) {
    var up80, up100 := stored.key == key && stored.warned80, stored.key == key && stored.warned100;
    var sends80, sends100 := Send(scope, Eighty, bucket) in events, Send(scope, Hundred, bucket) in events;
    && (sends100 <==> max > 0.0 && cost.Some? && cost.value * 2000.0 >= max * 1999.0 && !up100)
    && (sends80 <==> !sends100 && max > 0.0 && cost.Some? && cost.value * 2000.0 >= max * 1599.0 && !up80)
    && after == WarnFlags(key, up80 || sends80, up100 || sends100)
    && (forall i | 0 <= i < |events| && events[i].Send? && events[i].scope == scope :: events[i].bucket == bucket)
    && (forall i, j | 0 <= i < j < |events| && events[i].Send? && events[j].Send? :: events[i].scope != scope || events[j].scope != scope)
  }

  lemma StepSends(scope: Scope, ws: Weekday, day: int, state: WarnState, stored: WarnFlags, max: real, cost: Option<real>)
    requires FlagsOf(state, scope) == RollFlags(stored, BucketKey(scope, ws, day))
    ensures var (s, events) := WarnStep(scope, ws, day, state, max, cost);
            && SentAsDue(scope, Bucket(scope, ws, day), BucketKey(scope, ws, day), stored, max, cost, FlagsOf(s, scope), events)
            && (forall e | e in events :: e.Persist? || e.scope == scope)
            && (forall other | other != scope :: FlagsOf(s, other) == FlagsOf(state, other))
  {
    hide Percent, Bucket, BucketKey;
    if max > 0.0 && cost.Some? {
      WarningThresholds(cost.value, max);
    }
  }

  /** Events of the other scope and writes change nothing about what a scope sent. */
  lemma SentAmong(scope: Scope, bucket: int, key: string, stored: WarnFlags, max: real, cost: Option<real>, after: WarnFlags,
                  before: seq<WarnEvent>, events: seq<WarnEvent>, behind: seq<WarnEvent>)
    requires SentAsDue(scope, bucket, key, stored, max, cost, after, events)
    requires forall e | e in before || e in behind :: e.Persist? || e.scope != scope
    ensures SentAsDue(scope, bucket, key, stored, max, cost, after, before + events + behind)
  {
    var all := before + events + behind;
    assert forall level :: Send(scope, level, bucket) in all <==> Send(scope, level, bucket) in events;
    forall i | 0 <= i < |all| && !(|before| <= i < |before| + |events|)
      ensures !all[i].Send? || all[i].scope != scope
    {
      assert all[i] == if i < |before| then before[i] else behind[i - |before| - |events|];
      assert all[i] in before || all[i] in behind;
    }
    assert forall i | |before| <= i < |before| + |events| :: all[i] == events[i - |before|];
  }

  lemma EvaluationSends(ws: Weekday, day: int, stored: WarnState, dailyMax: real, dailyCost: Option<real>,
                        weeklyMax: real, weeklyCost: Option<real>)
    ensures var (s, events) := Evaluation(ws, day, stored, dailyMax, dailyCost, weeklyMax, weeklyCost);
            && SentAsDue(Daily, day, DateKey(day), stored.daily, dailyMax, dailyCost, s.daily, events)
            && SentAsDue(Weekly, Snap(day, ws), WeekKey(day, ws), stored.weekly, weeklyMax, weeklyCost, s.weekly, events)
  {
    hide SentAsDue, WarnStep, DateKey, WeekKey, Snap;
    var rolled := RollWarnings(stored, ws, day);
    var (s1, e1) := WarnStep(Daily, ws, day, rolled, dailyMax, dailyCost);
    StepSends(Daily, ws, day, rolled, stored.daily, dailyMax, dailyCost);
    var (s2, e2) := WarnStep(Weekly, ws, day, s1, weeklyMax, weeklyCost);
    assert FlagsOf(s1, Weekly) == FlagsOf(rolled, Weekly);
    StepSends(Weekly, ws, day, s1, stored.weekly, weeklyMax, weeklyCost);
    assert FlagsOf(s2, Daily) == FlagsOf(s1, Daily);
    var last := [Persist(s2)];
    SentAmong(Daily, day, DateKey(day), stored.daily, dailyMax, dailyCost, s2.daily, [], e1, e2 + last);
    SentAmong(Weekly, Snap(day, ws), WeekKey(day, ws), stored.weekly, weeklyMax, weeklyCost, s2.weekly, e1, e2, last);
    assert [] + e1 + (e2 + last) == e1 + e2 + last;
  }
}
