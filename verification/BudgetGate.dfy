/** The pure budget decisions of internal/scheduler/budget_gate.go. */
module BudgetGate {
  import opened Wrappers
  import opened Calendar
  import opened Keys

  /** An instant, and the civil day it falls on in the limits' reset time zone. */
  datatype Moment = Moment(at: int, day: int)

  datatype BudgetLimits = BudgetLimits(dailyMax: int, weeklyMax: int, weekStartsOn: Weekday)

  datatype BudgetCounters = BudgetCounters(dailyCount: int, dailyKey: string, weeklyCount: int, weeklyKey: string)

  const NO_COUNTERS := BudgetCounters(0, "", 0, "")

  /** An observed rate-limit signal; None stands for Go's zero time. */
  datatype RateLimitBlock = RateLimitBlock(blockedUntil: Option<int>, rateLimitType: string) {
    predicate Active(now: Moment) {
      blockedUntil.Some? && now.at < blockedUntil.value
    }
  }

  const NO_BLOCK := RateLimitBlock(None, "")

  datatype BudgetReason = Allowed | DailyCap | WeeklyCap | RateLimited

  function EvaluateBudget(now: Moment, counters: BudgetCounters, limits: BudgetLimits, block: RateLimitBlock): BudgetReason {
    if block.Active(now) then RateLimited
    else if limits.dailyMax > 0 && counters.dailyCount >= limits.dailyMax then DailyCap
    else if limits.weeklyMax > 0 && counters.weeklyCount >= limits.weeklyMax then WeeklyCap
    else Allowed
  }

  function RolloverCounters(now: Moment, counters: BudgetCounters, limits: BudgetLimits): BudgetCounters {
    var dailyKey, weeklyKey := DateKey(now.day), WeekKey(now.day, limits.weekStartsOn);
    var daily := if counters.dailyKey != dailyKey then counters.(dailyKey := dailyKey, dailyCount := 0) else counters;
    if daily.weeklyKey != weeklyKey then daily.(weeklyKey := weeklyKey, weeklyCount := 0) else daily
  }

  /** The caps of internal/config/validate.go: a missing cap is derived from the other. */
  function ResolvedLimits(dailyMaxTasks: int, weeklyMaxTasks: int, weekStart: Weekday): BudgetLimits {
    if dailyMaxTasks == 0 && weeklyMaxTasks > 0 then
      BudgetLimits((weeklyMaxTasks + 6) / 7, weeklyMaxTasks, weekStart)
    else if weeklyMaxTasks == 0 && dailyMaxTasks > 0 then
      BudgetLimits(dailyMaxTasks, dailyMaxTasks * 7, weekStart)
    else BudgetLimits(dailyMaxTasks, weeklyMaxTasks, weekStart)
  }

  /** What is configured stays; a missing weekly cap is seven days of the daily one, a
      missing daily cap the least that can use up the week, and none at all stays none. */
  lemma DerivedCaps(daily: int, weekly: int, weekStart: Weekday)
    requires daily >= 0 && weekly >= 0
    ensures var limits := ResolvedLimits(daily, weekly, weekStart);
            && limits.weekStartsOn == weekStart
            && (daily > 0 ==> limits.dailyMax == daily)
            && (weekly > 0 ==> limits.weeklyMax == weekly)
            && (daily == 0 && weekly == 0 ==> limits.dailyMax == 0 && limits.weeklyMax == 0)
            && (daily > 0 && weekly == 0 ==> limits.weeklyMax == 7 * daily)
            && (daily == 0 && weekly > 0 ==> 7 * limits.dailyMax >= weekly && 7 * (limits.dailyMax - 1) < weekly)
  {
  }
}
