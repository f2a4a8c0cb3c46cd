/** What the persisted counters mean: a log of every budget call, the counters it
    replays to, and what the caps guarantee about the log. */
module BudgetLog {
  import opened Wrappers
  import opened Calendar
  import opened Keys
  import opened BudgetGate

  /** The two bucket sizes. Daily and weekly counters obey the same laws. */
  datatype Scope = Daily | Weekly

  /** The bucket of a day: the day itself, or the day its week started on. */
  function Bucket(scope: Scope, ws: Weekday, day: int): int {
    match scope
    case Daily => day
    case Weekly => Snap(day, ws)
  }

  function BucketKey(scope: Scope, ws: Weekday, day: int): string {
    match scope
    case Daily => DateKey(day)
    case Weekly => WeekKey(day, ws)
  }

  function Cap(scope: Scope, limits: BudgetLimits): int {
    match scope
    case Daily => limits.dailyMax
    case Weekly => limits.weeklyMax
  }

  function CountIn(scope: Scope, counters: BudgetCounters): int {
    match scope
    case Daily => counters.dailyCount
    case Weekly => counters.weeklyCount
  }

  function KeyIn(scope: Scope, counters: BudgetCounters): string {
    match scope
    case Daily => counters.dailyKey
    case Weekly => counters.weeklyKey
  }

  lemma KeyIdentifiesBucket(scope: Scope, ws: Weekday, a: int, b: int)
    ensures BucketKey(scope, ws, a) == BucketKey(scope, ws, b) <==> Bucket(scope, ws, a) == Bucket(scope, ws, b)
  {
    hide DateKey, WeekKey;
    DateKeyInjective(a, b);
    WeekKeyInjective(a, b, ws);
  }

  lemma BucketMonotone(scope: Scope, ws: Weekday, a: int, b: int)
    requires a <= b
    ensures Bucket(scope, ws, a) <= Bucket(scope, ws, b)
  {
    SnapMonotone(a, b, ws);
  }

  /** One call that reached the gate: when, under which limits and block, and
      whether it took a reservation. */
  datatype Entry = Entry(now: Moment, granted: bool, limits: BudgetLimits, block: RateLimitBlock)

  function Record(counters: BudgetCounters, e: Entry): BudgetCounters {
    var rolled := RolloverCounters(e.now, counters, e.limits);
    if e.granted then
      rolled.(dailyCount := rolled.dailyCount + 1, weeklyCount := rolled.weeklyCount + 1)
    else rolled
  }

  /** The counters a log leaves behind. */
  function Replay(log: seq<Entry>): BudgetCounters {
    if log == [] then NO_COUNTERS
    else Record(Replay(log[..|log| - 1]), log[|log| - 1])
  }

  /** Reservations taken in one bucket over a whole log. */
  function Grants(log: seq<Entry>, scope: Scope, ws: Weekday, bucket: int): nat {
    if log == [] then 0
    else
      var e := log[|log| - 1];
      Grants(log[..|log| - 1], scope, ws, bucket)
      + if e.granted && Bucket(scope, ws, e.now.day) == bucket then 1 else 0
  }

  ghost predicate Uniform(log: seq<Entry>, ws: Weekday) {
    forall i | 0 <= i < |log| :: log[i].limits.weekStartsOn == ws
  }

  /** Time never goes back to an earlier civil day. */
  ghost predicate Ordered(log: seq<Entry>) {
    forall i, j | 0 <= i < j < |log| :: log[i].now.day <= log[j].now.day
  }

  /** Every reservation was allowed by the gate on the counters of its moment. */
  ghost predicate Gated(log: seq<Entry>) {
    forall i | 0 <= i < |log| && log[i].granted :: AllowedNext(log[..i], log[i])
  }

  ghost predicate AllowedNext(log: seq<Entry>, e: Entry) {
    EvaluateBudget(e.now, RolloverCounters(e.now, Replay(log), e.limits), e.limits, e.block) == Allowed
  }

  lemma GatedGrows(log: seq<Entry>, e: Entry)
    requires Gated(log) && (e.granted ==> AllowedNext(log, e))
    ensures Gated(log + [e])
  {
    forall i | 0 <= i < |log + [e]| && (log + [e])[i].granted
      ensures AllowedNext((log + [e])[..i], (log + [e])[i])
    {
      if i < |log| {
        assert (log + [e])[..i] == log[..i];
      } else {
        assert (log + [e])[..i] == log;
      }
    }
  }

  // ---- the counter is the length of the log's current stretch ----------------

  /** Where the last stretch of calls in one and the same bucket begins. */
  function StretchStart(log: seq<Entry>, scope: Scope, ws: Weekday): (s: nat)
    requires log != []
    ensures s < |log|
  {
    var n := |log| - 1;
    if n > 0 && Bucket(scope, ws, log[n - 1].now.day) == Bucket(scope, ws, log[n].now.day) then
      StretchStart(log[..n], scope, ws)
    else n
  }

  /** Whatever the clock does, the counter is the number of reservations in the
      current stretch, filed under the key of the last call. */
  lemma {:induction false} CounterIsStretch(log: seq<Entry>, scope: Scope, ws: Weekday)
    requires log != [] && Uniform(log, ws)
    ensures var last := log[|log| - 1].now.day;
            KeyIn(scope, Replay(log)) == BucketKey(scope, ws, last)
            && CountIn(scope, Replay(log)) == Grants(log[StretchStart(log, scope, ws)..], scope, ws, Bucket(scope, ws, last))
  {
    hide DateKey, WeekKey, Bucket, BucketKey, Record, Grants, KeyIn, CountIn;
    var n := |log| - 1;
    var init, e := log[..n], log[n];
    var b := Bucket(scope, ws, e.now.day);
    var s := StretchStart(log, scope, ws);
    RecordIn(Replay(init), e, scope, ws);
    GrantsLast(log[s..], scope, ws, b);
    assert log[s..][..|log[s..]| - 1] == log[s..n];
    if init == [] {
      NoCalls(scope, ws, e.now.day, b);
    } else {
      CounterIsStretch(init, scope, ws);
      KeyIdentifiesBucket(scope, ws, init[n - 1].now.day, e.now.day);
      if Bucket(scope, ws, init[n - 1].now.day) == b {
        assert init[s..] == log[s..n];
      } else {
        NoCalls(scope, ws, e.now.day, b);
        assert log[s..n] == [];
      }
    }
  }

  /** One call counts on while the key stays the same, and starts anew under another. */
  lemma RecordIn(counters: BudgetCounters, e: Entry, scope: Scope, ws: Weekday)
    requires e.limits.weekStartsOn == ws
    ensures var key := BucketKey(scope, ws, e.now.day);
            && KeyIn(scope, Record(counters, e)) == key
            && CountIn(scope, Record(counters, e)) ==
                 (if KeyIn(scope, counters) == key then CountIn(scope, counters) else 0) + if e.granted then 1 else 0
  {
    hide DateKey, WeekKey, Snap;
  }

  lemma GrantsLast(log: seq<Entry>, scope: Scope, ws: Weekday, bucket: int)
    requires log != []
    ensures var e := log[|log| - 1];
            Grants(log, scope, ws, bucket) ==
            Grants(log[..|log| - 1], scope, ws, bucket) + if e.granted && Bucket(scope, ws, e.now.day) == bucket then 1 else 0
  {
    hide Bucket;
  }

  lemma NoCalls(scope: Scope, ws: Weekday, day: int, bucket: int)
    ensures KeyIn(scope, Replay([])) != BucketKey(scope, ws, day) && CountIn(scope, Replay([])) == 0
    ensures Grants([], scope, ws, bucket) == 0
  {
    hide DateKey, WeekKey, Snap;
    KeysNotEmpty(day, ws);
  }

  lemma KeysNotEmpty(day: int, ws: Weekday)
    ensures DateKey(day) != "" && WeekKey(day, ws) != ""
  {
  }

  lemma {:induction false} GrantsSplit(a: seq<Entry>, b: seq<Entry>, scope: Scope, ws: Weekday, bucket: int)
    ensures Grants(a + b, scope, ws, bucket) == Grants(a, scope, ws, bucket) + Grants(b, scope, ws, bucket)
  {
    if b == [] {
      assert a + b == a;
    } else {
      assert (a + b)[..|a + b| - 1] == a + b[..|b| - 1];
      GrantsSplit(a, b[..|b| - 1], scope, ws, bucket);
    }
  }

  lemma {:induction false} NoGrantsElsewhere(log: seq<Entry>, scope: Scope, ws: Weekday, bucket: int)
    requires forall i | 0 <= i < |log| :: Bucket(scope, ws, log[i].now.day) != bucket
    ensures Grants(log, scope, ws, bucket) == 0
  {
    if log != [] {
      assert forall i | 0 <= i < |log| - 1 :: log[..|log| - 1][i] == log[i];
      NoGrantsElsewhere(log[..|log| - 1], scope, ws, bucket);
    }
  }

  /** The counter stands for the whole log exactly when no reservation of the
      current bucket was taken before the current stretch began. */
  lemma CounterIsLogIff(log: seq<Entry>, scope: Scope, ws: Weekday)
    requires log != [] && Uniform(log, ws)
    ensures var b := Bucket(scope, ws, log[|log| - 1].now.day);
            CountIn(scope, Replay(log)) == Grants(log, scope, ws, b)
            <==> Grants(log[..StretchStart(log, scope, ws)], scope, ws, b) == 0
  {
    hide Replay, Grants, StretchStart, Bucket, BucketKey, KeyIn, CountIn, Uniform;
    var s := StretchStart(log, scope, ws);
    CounterIsStretch(log, scope, ws);
    GrantsSplit(log[..s], log[s..], scope, ws, Bucket(scope, ws, log[|log| - 1].now.day));
    assert log[..s] + log[s..] == log;
  }

  lemma {:induction false} BeforeStretch(log: seq<Entry>, scope: Scope, ws: Weekday)
    requires log != [] && Ordered(log)
    ensures var s := StretchStart(log, scope, ws);
            forall i | 0 <= i < s :: Bucket(scope, ws, log[i].now.day) != Bucket(scope, ws, log[|log| - 1].now.day)
  {
    hide Snap;
    var n := |log| - 1;
    var b := Bucket(scope, ws, log[n].now.day);
    if n > 0 {
      if Bucket(scope, ws, log[n - 1].now.day) == b {
        BeforeStretch(log[..n], scope, ws);
        assert forall i | 0 <= i < n :: log[..n][i] == log[i];
      } else {
        forall i | 0 <= i < n
          ensures Bucket(scope, ws, log[i].now.day) != b
        {
          BucketMonotone(scope, ws, log[i].now.day, log[n - 1].now.day);
          BucketMonotone(scope, ws, log[n - 1].now.day, log[n].now.day);
        }
      }
    }
  }

  /** With a clock that never goes back a day, the counter is the number of
      reservations of the current bucket in the whole log. */
  lemma CounterIsLog(log: seq<Entry>, scope: Scope, ws: Weekday)
    requires log != [] && Uniform(log, ws) && Ordered(log)
    ensures CountIn(scope, Replay(log)) == Grants(log, scope, ws, Bucket(scope, ws, log[|log| - 1].now.day))
  {
    hide Replay, Grants, StretchStart, Bucket, CountIn, Uniform, Ordered;
    var s := StretchStart(log, scope, ws);
    CounterIsLogIff(log, scope, ws);
    BeforeStretch(log, scope, ws);
    NoGrantsElsewhere(log[..s], scope, ws, Bucket(scope, ws, log[|log| - 1].now.day));
  }

  /** What the gate sees at a call: the reservations so far in the call's buckets. */
  lemma RolledIsLog(log: seq<Entry>, e: Entry, scope: Scope, ws: Weekday)
    requires Uniform(log + [e], ws) && Ordered(log + [e])
    ensures CountIn(scope, RolloverCounters(e.now, Replay(log), e.limits))
         == Grants(log, scope, ws, Bucket(scope, ws, e.now.day))
  {
    hide DateKey, WeekKey, Snap;
    var probe := log + [e.(granted := false)];
    assert probe[..|probe| - 1] == log;
    forall i | 0 <= i < |probe|
      ensures probe[i].now == (log + [e])[i].now && probe[i].limits == (log + [e])[i].limits
    {
    }
    CounterIsLog(probe, scope, ws);
  }

  /** Daily counts never exceed weekly counts, whatever the clock does. */
  lemma {:induction false} DailyWithinWeekly(log: seq<Entry>, ws: Weekday)
    requires Uniform(log, ws)
    ensures 0 <= Replay(log).dailyCount <= Replay(log).weeklyCount
  {
    hide DateKey, WeekKey, Snap;
    var n := |log| - 1;
    if log != [] {
      var init := log[..n];
      DailyWithinWeekly(init, ws);
      if init != [] {
        CounterIsStretch(init, Daily, ws);
        CounterIsStretch(init, Weekly, ws);
        KeyIdentifiesBucket(Daily, ws, init[n - 1].now.day, log[n].now.day);
        KeyIdentifiesBucket(Weekly, ws, init[n - 1].now.day, log[n].now.day);
      }
    }
  }

  // ---- caps ------------------------------------------------------------------

  /** No bucket exceeds the largest cap in force at one of its reservations; with
      fixed limits, no bucket exceeds its cap. */
  lemma {:induction false} BucketWithinCap(log: seq<Entry>, scope: Scope, ws: Weekday, bucket: int, cap: nat)
    requires Uniform(log, ws) && Ordered(log) && Gated(log)
    requires forall i | 0 <= i < |log| && log[i].granted && Bucket(scope, ws, log[i].now.day) == bucket
               :: 0 < Cap(scope, log[i].limits) <= cap
    ensures Grants(log, scope, ws, bucket) <= cap
  {
    hide Replay, RolloverCounters, Snap;
    if log != [] {
      var n := |log| - 1;
      var init, e := log[..n], log[n];
      GatedShrinks(log, n);
      assert forall i | 0 <= i < n :: init[i] == log[i];
      BucketWithinCap(init, scope, ws, bucket, cap);
      if e.granted && Bucket(scope, ws, e.now.day) == bucket {
        assert init + [e] == log;
        RolledIsLog(init, e, scope, ws);
        assert AllowedNext(init, e);
      }
    }
  }

  lemma GatedShrinks(log: seq<Entry>, n: nat)
    requires n <= |log| && Gated(log)
    ensures Gated(log[..n])
  {
    forall i | 0 <= i < n && log[..n][i].granted
      ensures AllowedNext(log[..n][..i], log[..n][i])
    {
      assert log[..n][..i] == log[..i];
    }
  }

  function DaysGrants(log: seq<Entry>, ws: Weekday, start: int, days: nat): nat {
    if days == 0 then 0
    else DaysGrants(log, ws, start, days - 1) + Grants(log, Daily, ws, start + days - 1)
  }

  lemma {:induction false} DaysGrantsStep(log: seq<Entry>, ws: Weekday, start: int, days: nat)
    requires log != []
    ensures var e := log[|log| - 1];
            DaysGrants(log, ws, start, days) == DaysGrants(log[..|log| - 1], ws, start, days)
              + if e.granted && start <= e.now.day < start + days then 1 else 0
  {
    if days > 0 {
      DaysGrantsStep(log, ws, start, days - 1);
    }
  }

  /** A week's reservations are the reservations of its seven days. */
  lemma {:induction false} WeekIsSevenDays(log: seq<Entry>, ws: Weekday, start: int)
    requires WeekdayOf(start) == ws
    ensures Grants(log, Weekly, ws, start) == DaysGrants(log, ws, start, 7)
  {
    if log == [] {
      NoDaysGrants(ws, start, 7);
    } else {
      hide DaysGrants;
      WeekIsSevenDays(log[..|log| - 1], ws, start);
      DaysGrantsStep(log, ws, start, 7);
      var day := log[|log| - 1].now.day;
      if start <= day < start + 7 {
        SnapUnique(day, ws, start);
      }
    }
  }

  lemma {:induction false} NoDaysGrants(ws: Weekday, start: int, days: nat)
    ensures DaysGrants([], ws, start, days) == 0
  {
    if days > 0 {
      NoDaysGrants(ws, start, days - 1);
    }
  }

  lemma {:induction false} DaysWithinCap(log: seq<Entry>, ws: Weekday, start: int, days: nat, d: nat, day: int)
    requires forall b :: Grants(log, Daily, ws, b) <= d
    ensures DaysGrants(log, ws, start, days) <= days * d
    ensures start <= day < start + days ==>
              DaysGrants(log, ws, start, days) <= (days - 1) * d + Grants(log, Daily, ws, day)
  {
    if days > 0 {
      DaysWithinCap(log, ws, start, days - 1, d, day);
      assert Grants(log, Daily, ws, start + days - 1) <= d;
      assert days * d == (days - 1) * d + d;
      if start <= day < start + days - 1 {
        assert (days - 1) * d == (days - 2) * d + d;
      }
    }
  }

  /** When the weekly cap was derived from the daily one and never overridden, the
      weekly cap never refuses a call: some daily cap binds first. */
  lemma WeeklyNeverBinds(log: seq<Entry>, e: Entry, dailyMaxTasks: int, ws: Weekday)
    requires dailyMaxTasks > 0 && Gated(log) && Ordered(log + [e])
    requires forall i | 0 <= i < |log + [e]| :: (log + [e])[i].limits == ResolvedLimits(dailyMaxTasks, 0, ws)
    ensures EvaluateBudget(e.now, RolloverCounters(e.now, Replay(log), e.limits), e.limits, e.block) != WeeklyCap
  {
    hide Replay, RolloverCounters, Snap, DaysGrants, Grants, Gated, EvaluateBudget, CountIn;
    var start := Snap(e.now.day, ws);
    SameLimits(log, e, dailyMaxTasks, ws);
    forall b
      ensures Grants(log, Daily, ws, b) <= dailyMaxTasks
    {
      BucketWithinCap(log, Daily, ws, b, dailyMaxTasks);
    }
    RolledIsLog(log, e, Daily, ws);
    RolledIsLog(log, e, Weekly, ws);
    WeekIsSevenDays(log, ws, start);
    DaysWithinCap(log, ws, start, 7, dailyMaxTasks, e.now.day);
    DailyBindsFirst(e, RolloverCounters(e.now, Replay(log), e.limits), dailyMaxTasks, ws, start);
  }

  lemma SameLimits(log: seq<Entry>, e: Entry, dailyMaxTasks: int, ws: Weekday)
    requires dailyMaxTasks > 0 && Ordered(log + [e])
    requires forall i | 0 <= i < |log + [e]| :: (log + [e])[i].limits == ResolvedLimits(dailyMaxTasks, 0, ws)
    ensures Uniform(log, ws) && Uniform(log + [e], ws) && Ordered(log)
    ensures e.limits == BudgetLimits(dailyMaxTasks, 7 * dailyMaxTasks, ws)
    ensures forall i | 0 <= i < |log| :: Cap(Daily, log[i].limits) == dailyMaxTasks
  {
    assert (log + [e])[|log|] == e;
    forall i | 0 <= i < |log|
      ensures log[i] == (log + [e])[i]
    {
    }
  }

  /** While the week has at most six full days besides today, today's cap binds first. */
  lemma DailyBindsFirst(e: Entry, counters: BudgetCounters, d: int, ws: Weekday, start: int)
    requires d > 0 && e.limits == BudgetLimits(d, 7 * d, ws)
    requires CountIn(Weekly, counters) <= 6 * d + CountIn(Daily, counters)
    ensures EvaluateBudget(e.now, counters, e.limits, e.block) != WeeklyCap
  {
  }

  // ---- reservations as tickets -----------------------------------------------

  /** Distinct reservations of the log, in whatever order they were used. */
  ghost predicate Tickets(log: seq<Entry>, tickets: seq<nat>) {
    && (forall k | 0 <= k < |tickets| :: Reservation(log, tickets[k]))
    && (forall j, k | 0 <= j < k < |tickets| :: tickets[j] != tickets[k])
  }

  predicate Reservation(log: seq<Entry>, n: nat) {
    n < |log| && log[n].granted
  }

  lemma TicketsKeep(log: seq<Entry>, later: seq<Entry>, tickets: seq<nat>)
    requires Tickets(log, tickets) && log <= later
    ensures Tickets(later, tickets)
  {
  }

  /** A reservation that was not used is one more ticket. */
  lemma TicketsTake(log: seq<Entry>, later: seq<Entry>, tickets: seq<nat>, n: nat)
    requires Tickets(log, tickets) && log <= later && Reservation(later, n) && n !in tickets
    ensures Tickets(later, tickets + [n])
  {
    TicketsKeep(log, later, tickets);
  }

  /** The next reservation was not used before. */
  lemma NewTicket(log: seq<Entry>, later: seq<Entry>, tickets: seq<nat>)
    requires Tickets(log, tickets) && log <= later && Reservation(later, |log|)
    ensures |log| !in tickets && Tickets(later, tickets + [|log|])
  {
    TicketsBelow(log, tickets);
    TicketsTake(log, later, tickets, |log|);
  }

  lemma TicketsBelow(log: seq<Entry>, tickets: seq<nat>)
    requires Tickets(log, tickets)
    ensures forall t | t in tickets :: t < |log|
    ensures forall k | 0 <= k < |tickets| :: tickets[k] < |log|
  {
    forall k | 0 <= k < |tickets|
      ensures tickets[k] < |log|
    {
      assert Reservation(log, tickets[k]);
    }
  }

  function TicketsIn(log: seq<Entry>, tickets: seq<nat>, scope: Scope, ws: Weekday, bucket: int): nat
    requires forall k | 0 <= k < |tickets| :: tickets[k] < |log|
  {
    if tickets == [] then 0
    else
      var last := tickets[|tickets| - 1];
      TicketsIn(log, tickets[..|tickets| - 1], scope, ws, bucket)
      + if Bucket(scope, ws, log[last].now.day) == bucket then 1 else 0
  }

  /** Whatever is done once per ticket happens in no bucket more often than the
      bucket has reservations. */
  lemma {:induction false} TicketsWithinGrants(log: seq<Entry>, tickets: seq<nat>, scope: Scope, ws: Weekday, bucket: int)
    requires Tickets(log, tickets)
    ensures TicketsIn(log, tickets, scope, ws, bucket) <= Grants(log, scope, ws, bucket)
    decreases |log|
  {
    hide Bucket, Grants, TicketsIn;
    if log == [] {
      NoTickets(log, tickets, scope, ws, bucket);
    } else {
      var n := |log| - 1;
      var rest := tickets;
      GrantsLast(log, scope, ws, bucket);
      if n in tickets {
        var k :| 0 <= k < |tickets| && tickets[k] == n;
        rest := tickets[..k] + tickets[k + 1..];
        TicketAside(log, tickets, k, scope, ws, bucket);
      }
      WithoutLast(log, rest);
      TicketsWithinGrants(log[..n], rest, scope, ws, bucket);
      SameTickets(log[..n], log, rest, scope, ws, bucket);
    }
  }

  lemma WithoutLast(log: seq<Entry>, tickets: seq<nat>)
    requires log != [] && Tickets(log, tickets) && |log| - 1 !in tickets
    ensures Tickets(log[..|log| - 1], tickets)
  {
    forall k | 0 <= k < |tickets|
      ensures Reservation(log[..|log| - 1], tickets[k])
    {
      assert Reservation(log, tickets[k]) && tickets[k] in tickets;
    }
  }

  lemma NoTickets(log: seq<Entry>, tickets: seq<nat>, scope: Scope, ws: Weekday, bucket: int)
    requires Tickets(log, tickets) && log == []
    ensures TicketsIn(log, tickets, scope, ws, bucket) == 0
  {
    assert |tickets| > 0 ==> Reservation(log, tickets[0]);
  }

  /** Any ticket may be counted last. */
  lemma TicketAside(log: seq<Entry>, tickets: seq<nat>, k: nat, scope: Scope, ws: Weekday, bucket: int)
    requires k < |tickets| && forall j | 0 <= j < |tickets| :: tickets[j] < |log|
    ensures var rest := tickets[..k] + tickets[k + 1..];
            TicketsIn(log, tickets, scope, ws, bucket) ==
            TicketsIn(log, rest, scope, ws, bucket) + if Bucket(scope, ws, log[tickets[k]].now.day) == bucket then 1 else 0
  {
    hide Bucket;
    var front, back := tickets[..k + 1], tickets[k + 1..];
    assert tickets == front + back && front[..k] == tickets[..k];
    TicketsSplit(log, front, back, scope, ws, bucket);
    TicketsSplit(log, tickets[..k], back, scope, ws, bucket);
  }

  lemma {:induction false} TicketsSplit(log: seq<Entry>, a: seq<nat>, b: seq<nat>, scope: Scope, ws: Weekday, bucket: int)
    requires (forall j | 0 <= j < |a| :: a[j] < |log|) && (forall j | 0 <= j < |b| :: b[j] < |log|)
    ensures TicketsIn(log, a + b, scope, ws, bucket) == TicketsIn(log, a, scope, ws, bucket) + TicketsIn(log, b, scope, ws, bucket)
    decreases |b|
  {
    hide Bucket;
    if b == [] {
      assert a + b == a;
    } else {
      var n := |b| - 1;
      assert (a + b)[..|a + b| - 1] == a + b[..n];
      TicketsSplit(log, a, b[..n], scope, ws, bucket);
    }
  }

  lemma {:induction false} SameTickets(log: seq<Entry>, later: seq<Entry>, tickets: seq<nat>, scope: Scope, ws: Weekday, bucket: int)
    requires log <= later && forall k | 0 <= k < |tickets| :: tickets[k] < |log|
    ensures TicketsIn(log, tickets, scope, ws, bucket) == TicketsIn(later, tickets, scope, ws, bucket)
  {
    hide Bucket;
    if tickets != [] {
      SameTickets(log, later, tickets[..|tickets| - 1], scope, ws, bucket);
    }
  }
}
