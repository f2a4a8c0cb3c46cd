/** Cron-triggered maintenance tasks (internal/usecase/maintenance_usecase.go): the
    global budget first, then a sub-cap per task name, then the row. */
module Maintenance {
  import opened Wrappers
  import opened Calendar
  import opened Keys
  import opened BudgetGate
  import opened BudgetLog
  import opened CostWarn
  import opened BudgetUseCases

  /** The configuration of one maintenance task that matters here. */
  datatype MaintenanceTask = MaintenanceTask(name: string, repo: string, subCapDaily: int, subCapWeekly: int) {
    predicate Capped() {
      subCapDaily != 0 || subCapWeekly != 0
    }

    function SubCap(ws: Weekday): BudgetLimits {
      BudgetLimits(subCapDaily, subCapWeekly, ws)
    }
  }

  /** A row that was created: for which task, when, and which reservation paid for it. */
  datatype Created = Created(name: string, now: Moment, capped: bool, ticket: nat)

  /** Which storage calls of an enqueue fail. */
  datatype EnqueueFaults = EnqueueFaults(budget: Faults, loadSubCap: bool, setSubCap: bool, create: bool)

  datatype EnqueueError = BudgetFailed | BudgetBlocked(reason: BudgetReason) | SubCapFailed | SubCapReached | CreateFailed
  datatype EnqueueResult = Enqueued | Refused(error: EnqueueError) {
    /** The global budget did not grant a reservation. */
    predicate NotReserved() {
      Refused? && (error.BudgetFailed? || error.BudgetBlocked?)
    }
  }

  function CreatedIn(created: seq<Created>, name: string, scope: Scope, ws: Weekday, bucket: int): nat {
    if created == [] then 0
    else
      var c := created[|created| - 1];
      CreatedIn(created[..|created| - 1], name, scope, ws, bucket)
      + if c.name == name && c.capped && Bucket(scope, ws, c.now.day) == bucket then 1 else 0
  }

  function TicketsOf(created: seq<Created>): (tickets: seq<nat>)
    ensures |tickets| == |created| && forall i | 0 <= i < |created| :: tickets[i] == created[i].ticket
  {
    seq(|created|, i requires 0 <= i < |created| => created[i].ticket)
  }

  /** Every row has a reservation of its own, taken at the row's time. */
  ghost predicate Paid(created: seq<Created>, log: seq<Entry>) {
    && Tickets(log, TicketsOf(created))
    && forall i | 0 <= i < |created| :: log[created[i].ticket].now == created[i].now
  }

  function LogOf(subLogs: map<string, seq<Entry>>, name: string): seq<Entry> {
    if name in subLogs then subLogs[name] else []
  }

  function StoredOf(subCaps: map<string, Stored<BudgetCounters>>, name: string): Stored<BudgetCounters> {
    if name in subCaps then subCaps[name] else Absent
  }

  /** Every name's stored sub-cap counters are what its log replays to. */
  ghost predicate SubCapsStored(subLogs: map<string, seq<Entry>>, subCaps: map<string, Stored<BudgetCounters>>, ws: Weekday) {
    forall name: string :: Consistent(LogOf(subLogs, name), ws, StoredOf(subCaps, name))
  }

  /** The capped rows of a name never outnumber its sub-cap reservations. */
  ghost predicate Covered(created: seq<Created>, subLogs: map<string, seq<Entry>>, ws: Weekday) {
    forall name: string, scope, bucket ::
      CreatedIn(created, name, scope, ws, bucket) <= Grants(LogOf(subLogs, name), scope, ws, bucket)
  }

  lemma StoredTakes(subLogs: map<string, seq<Entry>>, subCaps: map<string, Stored<BudgetCounters>>, ws: Weekday,
                    name: string, e: Entry, stored: Stored<BudgetCounters>)
    requires SubCapsStored(subLogs, subCaps, ws)
    requires e.limits.weekStartsOn == ws && (e.granted ==> AllowedNext(LogOf(subLogs, name), e))
    requires LoadCounters(stored) == Record(LoadCounters(StoredOf(subCaps, name)), e)
    ensures SubCapsStored(subLogs[name := LogOf(subLogs, name) + [e]], subCaps[name := stored], ws)
  {
    hide Consistent, Record, AllowedNext;
    var log := LogOf(subLogs, name);
    ConsistentGrows(log, ws, StoredOf(subCaps, name), e, stored);
    var laterLogs, laterCaps := subLogs[name := log + [e]], subCaps[name := stored];
    forall n: string
      ensures Consistent(LogOf(laterLogs, n), ws, StoredOf(laterCaps, n))
    {
      if n != name {
        assert LogOf(laterLogs, n) == LogOf(subLogs, n);
        assert StoredOf(laterCaps, n) == StoredOf(subCaps, n);
      }
    }
  }

  lemma CoveredAtLeast(created: seq<Created>, subLogs: map<string, seq<Entry>>, ws: Weekday, name: string, e: Entry)
    requires Covered(created, subLogs, ws)
    ensures Covered(created, subLogs[name := LogOf(subLogs, name) + [e]], ws)
  {
    hide CreatedIn, Grants;
    var log := LogOf(subLogs, name);
    forall n: string, scope, bucket
      ensures CreatedIn(created, n, scope, ws, bucket) <= Grants(LogOf(subLogs[name := log + [e]], n), scope, ws, bucket)
    {
      assert CreatedIn(created, n, scope, ws, bucket) <= Grants(LogOf(subLogs, n), scope, ws, bucket);
      if n == name {
        GrantsSplit(log, [e], scope, ws, bucket);
      } else {
        assert LogOf(subLogs[name := log + [e]], n) == LogOf(subLogs, n);
      }
    }
  }

  /** A capped row together with the sub-cap reservation taken for it. */
  lemma CoveredTakes(created: seq<Created>, subLogs: map<string, seq<Entry>>, ws: Weekday, c: Created, e: Entry)
    requires Covered(created, subLogs, ws) && e.granted && e.now == c.now
    ensures Covered(created + [c], subLogs[c.name := LogOf(subLogs, c.name) + [e]], ws)
  {
    hide Snap;
    var log := LogOf(subLogs, c.name);
    assert (created + [c])[..|created|] == created && (log + [e])[..|log|] == log;
    forall n: string, scope, bucket
      ensures CreatedIn(created + [c], n, scope, ws, bucket)
           <= Grants(LogOf(subLogs[c.name := log + [e]], n), scope, ws, bucket)
    {
      assert CreatedIn(created, n, scope, ws, bucket) <= Grants(LogOf(subLogs, n), scope, ws, bucket);
    }
  }

  lemma CoveredUncapped(created: seq<Created>, subLogs: map<string, seq<Entry>>, ws: Weekday, c: Created)
    requires Covered(created, subLogs, ws) && !c.capped
    ensures Covered(created + [c], subLogs, ws)
  {
    hide Grants;
    assert (created + [c])[..|created|] == created;
    forall n: string, scope, bucket
      ensures CreatedIn(created + [c], n, scope, ws, bucket) <= Grants(LogOf(subLogs, n), scope, ws, bucket)
    {
      assert CreatedIn(created, n, scope, ws, bucket) <= Grants(LogOf(subLogs, n), scope, ws, bucket);
    }
  }

  lemma PaidTakes(created: seq<Created>, log: seq<Entry>, c: Created)
    requires Paid(created, log) && Reservation(log, c.ticket) && log[c.ticket].now == c.now && c.ticket !in TicketsOf(created)
    ensures Paid(created + [c], log)
  {
    TicketsTake(log, log, TicketsOf(created), c.ticket);
    assert TicketsOf(created + [c]) == TicketsOf(created) + [c.ticket];
  }

  /** A reservation the log did not have is nobody's yet. */
  lemma NewIsUnused(created: seq<Created>, log: seq<Entry>, n: nat)
    requires Paid(created, log) && n >= |log|
    ensures n !in TicketsOf(created)
  {
    TicketsBelow(log, TicketsOf(created));
  }

  class MaintenanceUseCase {
    const app: AppStates
    const budget: BudgetUseCase
    const weekStartsOn: Weekday

    /** Every row created, and every sub-cap reservation, since the counters were first stored. */
    ghost var created: seq<Created>
    ghost var subLogs: map<string, seq<Entry>>

    ghost predicate Valid()
      reads this, app, budget, budget.app
    {
      && budget.Valid() && budget.app == app
      && SubCapsStored(subLogs, app.subCaps, weekStartsOn)
      && Covered(created, subLogs, weekStartsOn)
      && Paid(created, budget.log)
    }

    /** What earlier processes recorded still describes the stored sub-caps and the log of
        the budget at hand. */
    ghost predicate Continues(app: AppStates, budget: BudgetUseCase, weekStartsOn: Weekday)
      reads this, app, budget
    {
      && this.app == app && this.weekStartsOn == weekStartsOn
      && SubCapsStored(subLogs, app.subCaps, weekStartsOn)
      && Covered(created, subLogs, weekStartsOn)
      && Paid(created, budget.log)
    }

    /** A process that starts on a table some earlier process left behind, and continues
        its records. */
    constructor (app: AppStates, budget: BudgetUseCase, weekStartsOn: Weekday, ghost history: MaintenanceUseCase?)
      requires budget.Valid() && budget.app == app
      requires history == null ==> forall name: string :: LoadCounters(StoredOf(app.subCaps, name)) == NO_COUNTERS
      requires history != null ==> history.Continues(app, budget, weekStartsOn)
      ensures Valid()
      ensures this.app == app && this.budget == budget && this.weekStartsOn == weekStartsOn
      ensures history == null ==> created == [] && subLogs == map[]
      ensures history != null ==> created == history.created && subLogs == history.subLogs
    {
      this.app, this.budget, this.weekStartsOn := app, budget, weekStartsOn;
      created := if history == null then [] else history.created;
      subLogs := if history == null then map[] else history.subLogs;
    }

    /** Whatever others do with the budget, as long as its log only grows and they leave
        the sub-caps alone. */
    twostate lemma BudgetMoves()
      requires old(Valid()) && budget.Valid() && old(budget.log) <= budget.log
      requires created == old(created) && subLogs == old(subLogs) && app.subCaps == old(app.subCaps)
      ensures Valid()
    {
      hide SubCapsStored, Covered, Paid, BudgetUseCase.Valid;
      PaidStays(created, old(budget.log), budget.log);
    }

    /** The gate a capped task has to pass besides the global budget. */
    ghost predicate SubCapAllows(mt: MaintenanceTask, now: Moment)
      reads this
    {
      AllowedNext(LogOf(subLogs, mt.name), Entry(now, true, mt.SubCap(weekStartsOn), NO_BLOCK))
    }

    method CheckAndIncrementSubCap(mt: MaintenanceTask, now: Moment, loadFails: bool, setFails: bool) returns (r: EnqueueResult)
      requires SubCapsStored(subLogs, app.subCaps, weekStartsOn)
      modifies app`subCaps, this`subLogs
      ensures SubCapsStored(subLogs, app.subCaps, weekStartsOn)
      ensures r == if mt.subCapDaily == 0 && mt.subCapWeekly == 0 then Enqueued
                   else if loadFails then Refused(SubCapFailed)
                   else if !old(SubCapAllows(mt, now)) then Refused(SubCapReached)
                   else if setFails then Refused(SubCapFailed)
                   else Enqueued
      ensures subLogs == if (mt.subCapDaily != 0 || mt.subCapWeekly != 0) && r == Enqueued
                then old(subLogs)[mt.name := LogOf(old(subLogs), mt.name) + [Entry(now, true, mt.SubCap(weekStartsOn), NO_BLOCK)]]
                else old(subLogs)
    {
      hide Consistent, DateKey, WeekKey, Gated, Replay, SubCapsStored;
      if mt.subCapDaily == 0 && mt.subCapWeekly == 0 {
        return Enqueued;
      }
      if loadFails {
        return Refused(SubCapFailed);
      }
      StoredReplays(subLogs, app.subCaps, weekStartsOn, mt.name);
      var counters := LoadCounters(StoredOf(app.subCaps, mt.name));
      var dailyKey, weeklyKey := DateKey(now.day), WeekKey(now.day, weekStartsOn);
      if counters.dailyKey != dailyKey {
        counters := counters.(dailyKey := dailyKey, dailyCount := 0);
      }
      if counters.weeklyKey != weeklyKey {
        counters := counters.(weeklyKey := weeklyKey, weeklyCount := 0);
      }
      if mt.subCapDaily > 0 && counters.dailyCount >= mt.subCapDaily {
        return Refused(SubCapReached);
      }
      if mt.subCapWeekly > 0 && counters.weeklyCount >= mt.subCapWeekly {
        return Refused(SubCapReached);
      }
      counters := counters.(dailyCount := counters.dailyCount + 1, weeklyCount := counters.weeklyCount + 1);
      if setFails {
        return Refused(SubCapFailed);
      }
      ghost var e := Entry(now, true, mt.SubCap(weekStartsOn), NO_BLOCK);
      StoredTakes(subLogs, app.subCaps, weekStartsOn, mt.name, e, Present(counters));
      app.subCaps := app.subCaps[mt.name := Present(counters)];
      subLogs := subLogs[mt.name := LogOf(subLogs, mt.name) + [e]];
      r := Enqueued;
    }

    /** The global gate. A granted reservation is the caller's to spend once. */
    method ReserveGlobal(now: Moment, io: Faults) returns (r: EnqueueResult)
      requires Valid()
      modifies app`taskCounters, budget`log
      ensures Valid()
      ensures r.Refused? <==> io.load || old(budget.RollFails(now, io)) || old(budget.Decision(now)) != Allowed || io.setIncremented
      ensures r.Refused? ==>
                r.NotReserved() && (budget.log == old(budget.log) || budget.log == old(budget.log) + [budget.Call(now, false)])
      ensures r.Refused? && r.error.BudgetBlocked? ==> r.error.reason == old(budget.Decision(now)) != Allowed
      ensures r == Enqueued ==> budget.log == old(budget.log) + [budget.Call(now, true)]
    {
      hide Consistent, FlagFirst, NoRepeat, Remembered, SubCapsStored, Covered, EvaluateBudget, RolloverCounters;
      ghost var log := budget.log;
      var reason := budget.CheckAndIncrement(now, io);
      PaidStays(created, log, budget.log);
      if reason.Err? {
        return Refused(BudgetFailed);
      }
      if reason.value != Allowed {
        return Refused(BudgetBlocked(reason.value));
      }
      r := Enqueued;
    }

    /** Under the use case's own mutex: the sub-cap, then the row, which spends the
        reservation it comes with. Reservations may be spent in any order. */
    method CreateReserved(mt: MaintenanceTask, now: Moment, ghost ticket: nat, io: EnqueueFaults) returns (r: EnqueueResult)
      requires Valid() && Reservation(budget.log, ticket) && budget.log[ticket].now == now && ticket !in TicketsOf(created)
      modifies app`subCaps, this`created, this`subLogs
      ensures Valid() && !r.NotReserved()
      ensures created == if r == Enqueued then old(created) + [Created(mt.name, now, mt.subCapDaily != 0 || mt.subCapWeekly != 0, ticket)] else old(created)
      ensures r == if mt.Capped() && io.loadSubCap then Refused(SubCapFailed)
                   else if mt.Capped() && !old(SubCapAllows(mt, now)) then Refused(SubCapReached)
                   else if mt.Capped() && io.setSubCap then Refused(SubCapFailed)
                   else if io.create then Refused(CreateFailed)
                   else Enqueued
    {
      hide Consistent, FlagFirst, NoRepeat, Remembered, SubCapsStored, Covered, Paid, AllowedNext, TicketsOf;
      ghost var logs := subLogs;
      ghost var row := Created(mt.name, now, mt.Capped(), ticket);
      r := CheckAndIncrementSubCap(mt, now, io.loadSubCap, io.setSubCap);
      if r.Refused? {
        return;
      }
      if mt.Capped() {
        CoveredAtLeast(created, logs, weekStartsOn, mt.name, Entry(now, true, mt.SubCap(weekStartsOn), NO_BLOCK));
      }
      if io.create {
        return Refused(CreateFailed);
      }
      if mt.Capped() {
        CoveredTakes(created, logs, weekStartsOn, row, Entry(now, true, mt.SubCap(weekStartsOn), NO_BLOCK));
      } else {
        CoveredUncapped(created, logs, weekStartsOn, row);
      }
      PaidTakes(created, budget.log, row);
      created := created + [row];
    }

    /** Both steps of one enqueue, with the budget calls of others in between. */
    method EnqueueMaintenance(mt: MaintenanceTask, now: Moment, io: EnqueueFaults, calls: seq<(Moment, Faults)>) returns (r: EnqueueResult)
      requires Valid()
      modifies app`subCaps, app`taskCounters, budget`log, this`created, this`subLogs
      ensures Valid()
      // A row appears exactly on success, paid for by the reservation just taken.
      ensures created == if r == Enqueued
                then old(created) + [Created(mt.name, now, mt.subCapDaily != 0 || mt.subCapWeekly != 0, |old(budget.log)|)]
                else old(created)
      // The global gate decides first; once it has granted, its reservation stays
      // spent whatever happens afterwards.
      ensures r.NotReserved() ==>
                subLogs == old(subLogs) && (budget.log == old(budget.log) || budget.log == old(budget.log) + [budget.Call(now, false)])
      ensures !r.NotReserved() ==>
                old(budget.log) + [budget.Call(now, true)] <= budget.log
      ensures r.Refused? && r.error.BudgetBlocked? ==> r.error.reason == old(budget.Decision(now)) != Allowed
      ensures r.NotReserved() <==>
                io.budget.load || old(budget.RollFails(now, io.budget)) || old(budget.Decision(now)) != Allowed || io.budget.setIncremented
      // Then the sub-cap of a capped task, then the row itself.
      ensures !r.NotReserved() ==>
                r == if mt.Capped() && io.loadSubCap then Refused(SubCapFailed)
                     else if mt.Capped() && !old(SubCapAllows(mt, now)) then Refused(SubCapReached)
                     else if mt.Capped() && io.setSubCap then Refused(SubCapFailed)
                     else if io.create then Refused(CreateFailed)
                     else Enqueued
    {
      hide BudgetUseCase.Valid, SubCapsStored, Covered, Paid, AllowedNext, EvaluateBudget, RolloverCounters, TicketsOf, Grants, Ordered;
      ghost var log := budget.log;
      NewIsUnused(created, log, |log|);
      r := ReserveGlobal(now, io.budget);
      if r.Refused? {
        return;
      }
      ghost var reserved := budget.log;
      OthersReserve(calls);
      assert budget.log[|log|] == reserved[|log|];
      r := CreateReserved(mt, now, |log|, io);
    }

    /** Whatever else is reserved in the meantime. */
    method OthersReserve(calls: seq<(Moment, Faults)>)
      requires Valid()
      modifies app`taskCounters, budget`log
      ensures Valid() && old(budget.log) <= budget.log
    {
      hide BudgetUseCase.Valid, SubCapsStored, Covered, Paid, Grants, Ordered;
      for i := 0 to |calls|
        invariant Valid() && old(budget.log) <= budget.log
      {
        ghost var log := budget.log;
        var _ := budget.CheckAndIncrement(calls[i].0, calls[i].1);
        PaidStays(created, log, budget.log);
      }
    }

    /** The sub-cap allows a row exactly while the name has fewer reservations of its own
        today and this week than each positive sub-cap, with a clock that keeps its days. */
    lemma SubCapOnLog(mt: MaintenanceTask, now: Moment)
      requires Valid() && Ordered(LogOf(subLogs, mt.name) + [Entry(now, true, mt.SubCap(weekStartsOn), NO_BLOCK)])
      ensures SubCapAllows(mt, now) <==>
                && (mt.subCapDaily > 0 ==> Grants(LogOf(subLogs, mt.name), Daily, weekStartsOn, now.day) < mt.subCapDaily)
                && (mt.subCapWeekly > 0 ==>
                      Grants(LogOf(subLogs, mt.name), Weekly, weekStartsOn, Snap(now.day, weekStartsOn)) < mt.subCapWeekly)
    {
      hide Grants, Ordered, Gated, Replay, Snap, EvaluateBudget, RolloverCounters, Covered, Paid, BudgetUseCase.Valid;
      var log := LogOf(subLogs, mt.name);
      assert Consistent(log, weekStartsOn, StoredOf(app.subCaps, mt.name));
      DecisionOnLog(log, Entry(now, true, mt.SubCap(weekStartsOn), NO_BLOCK), weekStartsOn);
    }

    /** Rows created for one name in one day or week never exceed a positive sub-cap
        (the largest in force there), while the clock does not go back a day. */
    lemma RowsWithinSubCap(name: string, scope: Scope, bucket: int, cap: nat)
      requires Valid() && Ordered(LogOf(subLogs, name))
      requires forall i | 0 <= i < |LogOf(subLogs, name)| && Bucket(scope, weekStartsOn, LogOf(subLogs, name)[i].now.day) == bucket
                 :: 0 < Cap(scope, LogOf(subLogs, name)[i].limits) <= cap
      ensures CreatedIn(created, name, scope, weekStartsOn, bucket) <= cap
    {
      hide CreatedIn, Grants, Gated, Replay, Snap;
      var log := LogOf(subLogs, name);
      assert Consistent(log, weekStartsOn, StoredOf(app.subCaps, name));
      BucketWithinCap(log, scope, weekStartsOn, bucket, cap);
    }

    /** All maintenance rows of a bucket are covered by distinct global reservations. */
    lemma RowsWithinGlobalGrants(scope: Scope, bucket: int)
      requires Valid()
      ensures TicketsIn(budget.log, TicketsOf(created), scope, budget.configLimits.weekStartsOn, bucket)
           <= Grants(budget.log, scope, budget.configLimits.weekStartsOn, bucket)
    {
      TicketsWithinGrants(budget.log, TicketsOf(created), scope, budget.configLimits.weekStartsOn, bucket);
    }
  }

  lemma PaidStays(created: seq<Created>, log: seq<Entry>, later: seq<Entry>)
    requires Paid(created, log) && log <= later
    ensures Paid(created, later)
  {
    TicketsKeep(log, later, TicketsOf(created));
  }

  lemma StoredReplays(subLogs: map<string, seq<Entry>>, subCaps: map<string, Stored<BudgetCounters>>, ws: Weekday, name: string)
    requires SubCapsStored(subLogs, subCaps, ws)
    ensures LoadCounters(StoredOf(subCaps, name)) == Replay(LogOf(subLogs, name))
  {
    hide Replay, Gated, Uniform, LogOf, StoredOf;
    assert Consistent(LogOf(subLogs, name), ws, StoredOf(subCaps, name));
  }
}
