/** The budget use case of internal/usecase/budget_usecase.go over the app_states
    table. Every method runs under one mutex, so each is one atomic step. */
module BudgetUseCases {
  import opened Wrappers
  import opened Calendar
  import opened Keys
  import opened BudgetGate
  import opened BudgetLog
  import opened CostWarn

  /** One row of app_states: missing, not decodable, or holding a decoded value. */
  datatype Stored<+T> = Absent | Corrupt | Present(value: T)

  datatype StoredBlock = StoredBlock(blockedUntilUnix: int, rateLimitType: string, observedAt: int)
  datatype LimitsOverride = LimitsOverride(dailyMax: int, weeklyMax: int)

  const NANOSECONDS := 1_000_000_000

  class AppStates {
    var taskCounters: Stored<BudgetCounters>
    var rateLimitBlock: Stored<StoredBlock>
    var limitsOverride: Stored<LimitsOverride>
    var costWarn: Stored<WarnState>
    var subCaps: map<string, Stored<BudgetCounters>>

    constructor ()
      ensures taskCounters == Absent && rateLimitBlock == Absent && limitsOverride == Absent && costWarn == Absent
      ensures subCaps == map[]
    {
      taskCounters, rateLimitBlock, limitsOverride, costWarn := Absent, Absent, Absent, Absent;
      subCaps := map[];
    }
  }

  function LoadCounters(stored: Stored<BudgetCounters>): BudgetCounters {
    if stored.Present? then stored.value else NO_COUNTERS
  }

  function LoadBlock(stored: Stored<StoredBlock>): RateLimitBlock {
    if stored.Present? && stored.value.blockedUntilUnix != 0 then
      RateLimitBlock(Some(stored.value.blockedUntilUnix * NANOSECONDS), stored.value.rateLimitType)
    else NO_BLOCK
  }

  function EffectiveLimits(config: BudgetLimits, stored: Stored<LimitsOverride>): BudgetLimits {
    if !stored.Present? then config
    else
      var ov := stored.value;
      config.(dailyMax := if ov.dailyMax > 0 then ov.dailyMax else config.dailyMax,
              weeklyMax := if ov.weeklyMax > 0 then ov.weeklyMax else config.weeklyMax)
  }

  function LoadWarnings(stored: Stored<WarnState>): WarnState {
    if stored.Present? then stored.value else NO_WARNINGS
  }

  datatype BudgetSnapshot = BudgetSnapshot(
    counters: BudgetCounters, limits: BudgetLimits, block: RateLimitBlock, reason: BudgetReason)

  /** Which storage calls of a budget operation fail. */
  datatype Faults = Faults(load: bool, setRolled: bool, setIncremented: bool)

  // ---- the log behind the stored counters -------------------------------------------

  /** The stored counters are what the log of all calls replays to, and every
      reservation in the log passed the gate. */
  ghost predicate Consistent(log: seq<Entry>, ws: Weekday, stored: Stored<BudgetCounters>) {
    Uniform(log, ws) && Gated(log) && LoadCounters(stored) == Replay(log)
  }

  lemma ConsistentGrows(log: seq<Entry>, ws: Weekday, stored: Stored<BudgetCounters>, e: Entry, now: Stored<BudgetCounters>)
    requires Consistent(log, ws, stored) && e.limits.weekStartsOn == ws
    requires e.granted ==> AllowedNext(log, e)
    requires LoadCounters(now) == Record(LoadCounters(stored), e)
    ensures Consistent(log + [e], ws, now)
  {
    hide RolloverCounters;
    GatedGrows(log, e);
    assert (log + [e])[..|log + [e]| - 1] == log;
  }

  /** What the gate's answer means in terms of the log, once the clock is monotone. */
  lemma DecisionOnLog(log: seq<Entry>, e: Entry, ws: Weekday)
    requires Uniform(log, ws) && e.limits.weekStartsOn == ws && Ordered(log + [e])
    ensures EvaluateBudget(e.now, RolloverCounters(e.now, Replay(log), e.limits), e.limits, e.block) == Allowed
       <==> && !e.block.Active(e.now)
            && (e.limits.dailyMax > 0 ==> Grants(log, Daily, ws, e.now.day) < e.limits.dailyMax)
            && (e.limits.weeklyMax > 0 ==> Grants(log, Weekly, ws, Snap(e.now.day, ws)) < e.limits.weeklyMax)
    ensures var reason := EvaluateBudget(e.now, RolloverCounters(e.now, Replay(log), e.limits), e.limits, e.block);
            var today := e.limits.dailyMax > 0 && Grants(log, Daily, ws, e.now.day) >= e.limits.dailyMax;
            var week := e.limits.weeklyMax > 0 && Grants(log, Weekly, ws, Snap(e.now.day, ws)) >= e.limits.weeklyMax;
            && (reason == RateLimited <==> e.block.Active(e.now))
            && (reason == DailyCap <==> !e.block.Active(e.now) && today)
            && (reason == WeeklyCap <==> !e.block.Active(e.now) && !today && week)
  {
    hide Replay, RolloverCounters, Grants, Snap;
    RolledIsLog(log, e, Daily, ws);
    RolledIsLog(log, e, Weekly, ws);
  }

  lemma OrderedSame(log: seq<Entry>, e: Entry)
    ensures Ordered(log + [e]) <==> Ordered(log + [e.(granted := !e.granted)])
  {
    var a, b := log + [e], log + [e.(granted := !e.granted)];
    assert forall i | 0 <= i < |a| :: a[i].now == b[i].now;
  }

  // ---- the use case --------------------------------------------------------------

  class BudgetUseCase {
    const app: AppStates
    const configLimits: BudgetLimits
    const dailyMaxCost: real
    const weeklyMaxCost: real

    /** Every call that reached the gate since the counters were first stored. */
    ghost var log: seq<Entry>

    /** Every flag write and notification of the cost warnings. */
    ghost var trace: seq<WarnEvent>
    ghost var lastDay: Option<int>
    /** No cost evaluation lost a write or saw the clock go back a day. */
    ghost var clean: bool

    ghost predicate Valid()
      reads this, app
    {
      && Consistent(log, configLimits.weekStartsOn, app.taskCounters)
      && FlagFirst(trace, configLimits.weekStartsOn)
      && (clean ==> NoRepeat(trace) && Remembered(trace, LoadWarnings(app.costWarn), lastDay, configLimits.weekStartsOn))
    }

    /** A process that starts on a table some earlier process left behind. */
    constructor (app: AppStates, configLimits: BudgetLimits, dailyMaxCost: real, weeklyMaxCost: real, ghost history: BudgetUseCase?)
      requires history == null ==>
                 LoadCounters(app.taskCounters) == NO_COUNTERS && LoadWarnings(app.costWarn) == NO_WARNINGS
      requires history != null ==>
                 history.Valid() && history.app == app && history.configLimits.weekStartsOn == configLimits.weekStartsOn
      ensures Valid()
      ensures this.app == app && this.configLimits == configLimits
      ensures this.dailyMaxCost == dailyMaxCost && this.weeklyMaxCost == weeklyMaxCost
      ensures history == null ==> log == [] && trace == [] && clean
      ensures history != null ==> log == history.log && trace == history.trace && clean == history.clean
    {
      this.app, this.configLimits := app, configLimits;
      this.dailyMaxCost, this.weeklyMaxCost := dailyMaxCost, weeklyMaxCost;
      log := if history == null then [] else history.log;
      trace := if history == null then [] else history.trace;
      lastDay := if history == null then None else history.lastDay;
      clean := if history == null then true else history.clean;
    }

    /** The log entry of a call at now under the stored limits and block. */
    ghost function Call(now: Moment, granted: bool): Entry
      reads this, app
    {
      Entry(now, granted, EffectiveLimits(configLimits, app.limitsOverride), LoadBlock(app.rateLimitBlock))
    }

    ghost function Decision(now: Moment): BudgetReason
      reads this, app
    {
      var e := Call(now, false);
      EvaluateBudget(now, RolloverCounters(now, Replay(log), e.limits), e.limits, e.block)
    }

    ghost predicate RollFails(now: Moment, io: Faults)
      reads this, app
    {
      var stored := LoadCounters(app.taskCounters);
      io.setRolled && RolloverCounters(now, stored, EffectiveLimits(configLimits, app.limitsOverride)) != stored
    }

    method SnapshotLocked(now: Moment, io: Faults) returns (r: Result<BudgetSnapshot>)
      requires Valid()
      modifies app`taskCounters, this`log
      ensures Valid()
      ensures r.Err? <==> io.load || old(RollFails(now, io))
      ensures log == if r.Ok? then old(log) + [Call(now, false)] else old(log)
      ensures r.Err? ==> app.taskCounters == old(app.taskCounters)
      ensures r.Ok? ==> r.value.reason == old(Decision(now)) && r.value.limits == Call(now, false).limits
                        && r.value.block == Call(now, false).block
                        && r.value.counters == RolloverCounters(now, old(LoadCounters(app.taskCounters)), r.value.limits)
                        && LoadCounters(app.taskCounters) == r.value.counters
    {
      hide RolloverCounters, Gated, Replay, NoRepeat, Remembered, FlagFirst, EvaluateBudget;
      if io.load {
        return Err;
      }
      var limits := EffectiveLimits(configLimits, app.limitsOverride);
      var counters := LoadCounters(app.taskCounters);
      var block := LoadBlock(app.rateLimitBlock);
      var rolled := RolloverCounters(now, counters, limits);
      ghost var stored := app.taskCounters;
      if rolled != counters {
        if io.setRolled {
          return Err;
        }
        app.taskCounters := Present(rolled);
        counters := rolled;
      }
      var reason := EvaluateBudget(now, counters, limits, block);
      r := Ok(BudgetSnapshot(counters, limits, block, reason));
      ConsistentGrows(log, configLimits.weekStartsOn, stored, Call(now, false), app.taskCounters);
      log := log + [Call(now, false)];
    }

    method Snapshot(now: Moment, io: Faults) returns (r: Result<BudgetSnapshot>)
      requires Valid()
      modifies app`taskCounters, this`log
      ensures Valid()
      ensures r.Err? <==> io.load || old(RollFails(now, io))
      ensures log == if r.Ok? then old(log) + [Call(now, false)] else old(log)
      ensures r.Ok? ==> r.value.reason == old(Decision(now))
      ensures r.Ok? && Ordered(log) ==>
                r.value.counters.dailyCount == Grants(log, Daily, configLimits.weekStartsOn, now.day)
                && r.value.counters.weeklyCount == Grants(log, Weekly, configLimits.weekStartsOn, Snap(now.day, configLimits.weekStartsOn))
    {
      hide RolloverCounters, Gated, NoRepeat, Remembered, FlagFirst, EvaluateBudget, Snap, DateKey, WeekKey, Grants;
      ghost var before := log;
      r := SnapshotLocked(now, io);
      if r.Ok? && Ordered(log) {
        assert log[..|log| - 1] == before;
        CounterIsLog(log, Daily, configLimits.weekStartsOn);
        CounterIsLog(log, Weekly, configLimits.weekStartsOn);
      }
    }

    /** Reserve one task, or say why not. */
    method CheckAndIncrement(now: Moment, io: Faults) returns (r: Result<BudgetReason>)
      requires Valid()
      modifies app`taskCounters, this`log
      ensures Valid()
      ensures r.Err? <==> io.load || old(RollFails(now, io)) || (old(Decision(now)) == Allowed && io.setIncremented)
      ensures log == if io.load || old(RollFails(now, io)) then old(log)
                     else old(log) + [Call(now, r.Ok? && r.value == Allowed)]
      ensures r.Ok? ==> r.value == old(Decision(now))
      ensures var ws := configLimits.weekStartsOn;
              var limits := Call(now, false).limits;
              r.Ok? && Ordered(log) ==>
                (r.value == Allowed <==>
                   && !Call(now, false).block.Active(now)
                   && (limits.dailyMax > 0 ==> Grants(old(log), Daily, ws, now.day) < limits.dailyMax)
                   && (limits.weeklyMax > 0 ==> Grants(old(log), Weekly, ws, Snap(now.day, ws)) < limits.weeklyMax))
    {
      hide RolloverCounters, Gated, Replay, NoRepeat, Remembered, FlagFirst, EvaluateBudget, Snap, Grants, Ordered;
      ghost var before := log;
      ghost var stored := app.taskCounters;
      ghost var e := Call(now, true);
      if Ordered(before + [e]) {
        DecisionOnLog(before, e, configLimits.weekStartsOn);
      }
      OrderedSame(before, e);
      var snap := SnapshotLocked(now, io);
      if snap.Err? {
        return Err;
      }
      if snap.value.reason != Allowed {
        return Ok(snap.value.reason);
      }
      var counters := snap.value.counters;
      counters := counters.(dailyCount := counters.dailyCount + 1, weeklyCount := counters.weeklyCount + 1);
      if io.setIncremented {
        return Err;
      }
      app.taskCounters := Present(counters);
      ConsistentGrows(before, configLimits.weekStartsOn, stored, e, app.taskCounters);
      log := before + [e];
      r := Ok(Allowed);
    }

    method RecordRateLimitBlock(resetsAtUnix: int, rateLimitType: string, observedAt: int, setFails: bool) returns (ok: bool)
      requires Valid()
      modifies app`rateLimitBlock
      ensures Valid()
      ensures ok == !setFails
      ensures ok ==> forall now: Moment :: LoadBlock(app.rateLimitBlock).Active(now)
                       <==> resetsAtUnix != 0 && now.at < resetsAtUnix * 1_000_000_000
      ensures !ok ==> app.rateLimitBlock == old(app.rateLimitBlock)
    {
      if setFails {
        return false;
      }
      app.rateLimitBlock := Present(StoredBlock(resetsAtUnix, rateLimitType, observedAt));
      ok := true;
    }

    /** Persist an override of the caps; a zero falls back to the configured cap. */
    method SetLimits(dailyMax: int, weeklyMax: int, setFails: bool, loadFails: bool) returns (r: Result<BudgetLimits>)
      requires Valid()
      modifies app`limitsOverride
      ensures Valid()
      ensures var rejected := dailyMax < 0 || weeklyMax < 0 || (0 < weeklyMax < dailyMax) || setFails;
              && (r.Err? <==> rejected || loadFails)
              && (rejected ==> app.limitsOverride == old(app.limitsOverride))
              && (!rejected ==>
                    var daily := if dailyMax > 0 then dailyMax else configLimits.dailyMax;
                    var weekly := if weeklyMax > 0 then weeklyMax else configLimits.weeklyMax;
                    EffectiveLimits(configLimits, app.limitsOverride)
                      == BudgetLimits(daily, weekly, configLimits.weekStartsOn))
      ensures r.Ok? ==> r.value == EffectiveLimits(configLimits, app.limitsOverride)
    {
      if dailyMax < 0 || weeklyMax < 0 {
        return Err;
      }
      if dailyMax > 0 && weeklyMax > 0 && dailyMax > weeklyMax {
        return Err;
      }
      if setFails {
        return Err;
      }
      app.limitsOverride := Present(LimitsOverride(dailyMax, weeklyMax));
      if loadFails {
        return Err;
      }
      r := Ok(EffectiveLimits(configLimits, app.limitsOverride));
    }

    /** Warn about the accumulated cost of the current day and week. None stands for
        a cost query that failed. */
    method EvaluateCostWarn(now: Moment, loadFails: bool, dailyCost: Option<real>, weeklyCost: Option<real>,
                            dailySetFails: bool, weeklySetFails: bool, finalSetFails: bool) returns (ok: bool)
      requires Valid()
      modifies app`costWarn, this`trace, this`clean, this`lastDay
      ensures Valid()
      ensures ok <==> !loadFails && !finalSetFails
      ensures loadFails ==> trace == old(trace) && clean == old(clean)
      ensures !loadFails ==>
                trace == old(trace) + Evaluation(configLimits.weekStartsOn, now.day, old(LoadWarnings(app.costWarn)),
                                                 dailyMaxCost, dailyCost, weeklyMaxCost, weeklyCost).1
      ensures !loadFails ==>
                exists after: WarnState ::
                  && SentAsDue(Daily, now.day, DateKey(now.day), old(LoadWarnings(app.costWarn)).daily, dailyMaxCost, dailyCost,
                               after.daily, trace[|old(trace)|..])
                  && SentAsDue(Weekly, Snap(now.day, configLimits.weekStartsOn), WeekKey(now.day, configLimits.weekStartsOn),
                               old(LoadWarnings(app.costWarn)).weekly, weeklyMaxCost, weeklyCost, after.weekly, trace[|old(trace)|..])
                  && (!finalSetFails ==> app.costWarn == Present(after))
      ensures !loadFails ==>
                (clean <==> old(clean) && (old(lastDay).Some? ==> old(lastDay).value <= now.day)
                            && !dailySetFails && !weeklySetFails && !finalSetFails)
    {
      hide Consistent, FlagFirst, NoRepeat, Remembered, WarnStep, DateKey, WeekKey, SentAsDue, Snap;
      if loadFails {
        return false;
      }
      var ws := configLimits.weekStartsOn;
      var stored := LoadWarnings(app.costWarn);
      EvaluationSends(ws, now.day, stored, dailyMaxCost, dailyCost, weeklyMaxCost, weeklyCost);
      EvaluationKeeps(ws, now.day, stored, dailyMaxCost, dailyCost, weeklyMaxCost, weeklyCost, trace, lastDay);
      ghost var before := trace;
      clean := clean && (lastDay.Some? ==> lastDay.value <= now.day) && !dailySetFails && !weeklySetFails && !finalSetFails;
      lastDay := Some(now.day);

      var state := RollWarnings(stored, ws, now.day);
      state := WarnScope(Daily, state, now.day, dailyCost, dailySetFails);
      state := WarnScope(Weekly, state, now.day, weeklyCost, weeklySetFails);
      trace := trace + [Persist(state)];
      assert trace == before + Evaluation(ws, now.day, stored, dailyMaxCost, dailyCost, weeklyMaxCost, weeklyCost).1;
      assert trace[|before|..] == Evaluation(ws, now.day, stored, dailyMaxCost, dailyCost, weeklyMaxCost, weeklyCost).1;
      if !finalSetFails {
        app.costWarn := Present(state);
      }
      ok := !finalSetFails;
    }

    /** While no write was lost and no evaluation saw the clock go back a day, each scope
        has sent at most one notification per flag in any bucket, over all processes, and
        each right after the write of its flag. */
    lemma WarningsPerBucket(scope: Scope, bucket: int)
      requires Valid() && clean
      ensures Sends(trace, scope, bucket, Eighty) <= 1 && Sends(trace, scope, bucket, Hundred) <= 1
      ensures forall i | 0 <= i < |trace| && trace[i].Send? ::
                i > 0 && trace[i - 1].Persist? && Warned(FlagsOf(trace[i - 1].state, trace[i].scope), trace[i].level)
    {
      hide Consistent, Remembered;
      TwoWarningsPerBucket(trace, scope, bucket);
    }

    /** The daily or the weekly half: at most one flag is raised, written and sent. */
    method WarnScope(scope: Scope, state: WarnState, day: int, cost: Option<real>, setFails: bool) returns (s: WarnState)
      modifies app`costWarn, this`trace
      ensures var (raised, events) := WarnStep(scope, configLimits.weekStartsOn, day, state, MaxCost(scope), cost);
              s == raised && trace == old(trace) + events
    {
      s := state;
      if MaxCost(scope) > 0.0 && cost.Some? {
        var percent := Percent(cost.value, MaxCost(scope));
        if percent >= 100.0 && !FlagsOf(s, scope).warned100 {
          s := WithFlags(s, scope, FlagsOf(s, scope).(warned100 := true));
          if !setFails {
            app.costWarn := Present(s);
          }
          trace := trace + [Persist(s), Send(scope, Hundred, Bucket(scope, configLimits.weekStartsOn, day))];
        } else if percent >= 80.0 && !FlagsOf(s, scope).warned80 {
          s := WithFlags(s, scope, FlagsOf(s, scope).(warned80 := true));
          if !setFails {
            app.costWarn := Present(s);
          }
          trace := trace + [Persist(s), Send(scope, Eighty, Bucket(scope, configLimits.weekStartsOn, day))];
        }
      }
    }

    function MaxCost(scope: Scope): real {
      match scope
      case Daily => dailyMaxCost
      case Weekly => weeklyMaxCost
    }
  }
}
