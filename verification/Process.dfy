/** Workers and maintenance on one budget, over any number of restarts: everything that
    is paid for by a reservation is paid for by one of its own. */
module Processes {
  import opened Wrappers
  import opened Calendar
  import opened BudgetGate
  import opened BudgetLog
  import opened BudgetUseCases
  import opened CostWarn
  import opened Maintenance
  import opened Workers

  /** All reservations that were used, by Claude starts and by maintenance rows together:
      no reservation serves twice. */
  ghost predicate Spent(log: seq<Entry>, spent: seq<nat>, tickets: seq<nat>, rows: seq<nat>, ws: Weekday) {
    && Tickets(log, spent) && Tickets(log, tickets) && Tickets(log, rows)
    && (forall t | t in tickets || t in rows :: t in spent)
    && forall scope, bucket :: Balance(log, spent, tickets, rows, scope, ws, bucket)
  }

  ghost predicate Balance(log: seq<Entry>, spent: seq<nat>, tickets: seq<nat>, rows: seq<nat>, scope: Scope, ws: Weekday, bucket: int)
    requires Tickets(log, spent) && Tickets(log, tickets) && Tickets(log, rows)
  {
    TicketsIn(log, spent, scope, ws, bucket) == TicketsIn(log, tickets, scope, ws, bucket) + TicketsIn(log, rows, scope, ws, bucket)
  }

  lemma SpentStays(log: seq<Entry>, later: seq<Entry>, spent: seq<nat>, tickets: seq<nat>, rows: seq<nat>, ws: Weekday)
    requires Spent(log, spent, tickets, rows, ws) && log <= later
    ensures Spent(later, spent, tickets, rows, ws)
  {
    hide Tickets, TicketsIn;
    TicketsKeep(log, later, spent);
    TicketsKeep(log, later, tickets);
    TicketsKeep(log, later, rows);
    forall scope, bucket
      ensures Balance(later, spent, tickets, rows, scope, ws, bucket)
    {
      assert Balance(log, spent, tickets, rows, scope, ws, bucket);
      TicketsBelow(log, spent);
      TicketsBelow(log, tickets);
      TicketsBelow(log, rows);
      SameTickets(log, later, spent, scope, ws, bucket);
      SameTickets(log, later, tickets, scope, ws, bucket);
      SameTickets(log, later, rows, scope, ws, bucket);
    }
  }

  /** A reservation that was not used yet is used for a Claude start or for a row. */
  lemma SpentGrows(log: seq<Entry>, spent: seq<nat>, tickets: seq<nat>, rows: seq<nat>, ws: Weekday, n: nat, forRow: bool)
    requires Spent(log, spent, tickets, rows, ws) && Reservation(log, n) && n !in spent
    ensures if forRow then Spent(log, spent + [n], tickets, rows + [n], ws) else Spent(log, spent + [n], tickets + [n], rows, ws)
  {
    hide TicketsIn, Tickets;
    TicketsTake(log, log, spent, n);
    TicketsTake(log, log, if forRow then rows else tickets, n);
    var moreTickets, moreRows := if forRow then tickets else tickets + [n], if forRow then rows + [n] else rows;
    forall scope, bucket
      ensures Balance(log, spent + [n], moreTickets, moreRows, scope, ws, bucket)
    {
      assert Balance(log, spent, tickets, rows, scope, ws, bucket);
      CountsTicket(log, spent, n, scope, ws, bucket);
      CountsTicket(log, if forRow then rows else tickets, n, scope, ws, bucket);
    }
  }

  lemma CountsTicket(log: seq<Entry>, tickets: seq<nat>, n: nat, scope: Scope, ws: Weekday, bucket: int)
    requires Tickets(log, tickets) && Tickets(log, tickets + [n]) && n < |log|
    ensures TicketsIn(log, tickets + [n], scope, ws, bucket) ==
            TicketsIn(log, tickets, scope, ws, bucket) + if Bucket(scope, ws, log[n].now.day) == bucket then 1 else 0
  {
    hide Snap;
    assert (tickets + [n])[..|tickets|] == tickets;
  }

  lemma NothingSpent(log: seq<Entry>, ws: Weekday)
    ensures Spent(log, [], [], [], ws)
  {
  }

  class Process {
    const app: AppStates
    const budget: BudgetUseCase
    const maintenance: MaintenanceUseCase
    const worker: Worker

    /** The reservations used so far, oldest first, by this process and those before it. */
    ghost var spent: seq<nat>

    ghost predicate Valid()
      reads this, app, budget, maintenance, worker
    {
      && budget.app == app && maintenance.app == app && maintenance.budget == budget && worker.budget == budget
      && maintenance.weekStartsOn == budget.configLimits.weekStartsOn
      && maintenance.Valid() && worker.Valid()
      && Spent(budget.log, spent, worker.tickets, TicketsOf(maintenance.created), budget.configLimits.weekStartsOn)
    }

    /** Boots on a fresh table, or on the one the last process left behind. Caps may have
        been reconfigured in between. */
    constructor (app: AppStates, limits: BudgetLimits, dailyMaxCost: real, weeklyMaxCost: real,
                 createsPR: bool, ciFixEnabled: bool, ghost history: Process?)
      requires history == null ==>
                 && LoadCounters(app.taskCounters) == NO_COUNTERS && LoadWarnings(app.costWarn) == NO_WARNINGS
                 && forall name: string :: LoadCounters(StoredOf(app.subCaps, name)) == NO_COUNTERS
      requires history != null ==>
                 history.Valid() && history.app == app && history.budget.configLimits.weekStartsOn == limits.weekStartsOn
      ensures Valid() && this.app == app && budget.configLimits == limits
      ensures fresh(budget) && fresh(maintenance) && fresh(worker)
      ensures history == null ==> budget.log == [] && maintenance.created == [] && worker.tickets == []
      ensures history != null ==>
                && budget.log == history.budget.log && maintenance.created == history.maintenance.created
                && maintenance.subLogs == history.maintenance.subLogs
                && worker.tickets == history.worker.tickets && spent == history.spent
    {
      hide SubCapsStored, Covered, Paid, BudgetUseCase.Valid, Spent, Tickets;
      var b := new BudgetUseCase(app, limits, dailyMaxCost, weeklyMaxCost, if history == null then null else history.budget);
      var m := new MaintenanceUseCase(app, b, limits.weekStartsOn, if history == null then null else history.maintenance);
      var w := new Worker(b, createsPR, ciFixEnabled, if history == null then null else history.worker);
      this.app, budget, maintenance, worker := app, b, m, w;
      spent := if history == null then [] else history.spent;
      if history == null {
        NothingSpent(b.log, limits.weekStartsOn);
      }
    }

    /** One run of the worker; the others' calls may be further runs of it. */
    method RunTask(task: Task, o: Outcome) returns (ok: bool, ghost own: Option<nat>)
      requires Valid() && task.Claimed()
      modifies app`taskCounters, app`rateLimitBlock, budget`log, worker`tickets, this`spent, task
      ensures Valid() && old(budget.log) <= budget.log
      ensures RunPromise(worker.Wiring(), o, task.taskType.CIFix?, task.End(), task.journal)
      ensures BudgetPromise(old(budget.log), budget.log, old(worker.tickets), worker.tickets, o, task.journal, own)
      ensures spent == old(spent) + worker.tickets[|old(worker.tickets)|..]
    {
      hide SubCapsStored, Covered, Paid, BudgetUseCase.Valid, Spent, Tickets, RunPromise, Lawful, Started, TicketsOf;
      ghost var log, tickets, ws := budget.log, worker.tickets, budget.configLimits.weekStartsOn;
      SpentBelow(log, spent, tickets, TicketsOf(maintenance.created), ws);
      ok, own := worker.RunTask(task, o);
      maintenance.BudgetMoves();
      SpentStays(log, budget.log, spent, tickets, TicketsOf(maintenance.created), ws);
      NextSpent(budget.log, spent, tickets, worker.tickets, TicketsOf(maintenance.created), ws, |log|);
      spent := spent + worker.tickets[|tickets|..];
    }

    /** The first step of a maintenance enqueue: a reservation for its caller. */
    method ReserveGlobal(now: Moment, io: Faults) returns (r: EnqueueResult)
      requires Valid()
      modifies app`taskCounters, budget`log
      ensures Valid() && old(budget.log) <= budget.log
      ensures r == Enqueued ==> Reservation(budget.log, |old(budget.log)|) && |old(budget.log)| !in spent
      ensures r == Enqueued ==> budget.log[|old(budget.log)|].now == now
    {
      hide SubCapsStored, Covered, Paid, BudgetUseCase.Valid, BudgetUseCase.Decision, BudgetUseCase.RollFails, Spent, Tickets, TicketsOf;
      SpentBelow(budget.log, spent, worker.tickets, TicketsOf(maintenance.created), budget.configLimits.weekStartsOn);
      r := maintenance.ReserveGlobal(now, io);
      BudgetMoves();
    }

    /** The second step, any time later and in any order with those of other enqueues. */
    method CreateReserved(mt: MaintenanceTask, now: Moment, ghost ticket: nat, io: EnqueueFaults) returns (r: EnqueueResult)
      requires Valid() && Reservation(budget.log, ticket) && budget.log[ticket].now == now && ticket !in spent
      modifies app`subCaps, maintenance`created, maintenance`subLogs, this`spent
      ensures Valid()
      ensures maintenance.created ==
                if r == Enqueued then old(maintenance.created) + [Created(mt.name, now, mt.subCapDaily != 0 || mt.subCapWeekly != 0, ticket)] else old(maintenance.created)
      ensures spent == if r == Enqueued then old(spent) + [ticket] else old(spent)
    {
      hide SubCapsStored, Covered, Paid, BudgetUseCase.Valid, Spent, Tickets, TicketsOf, MaintenanceTask.Capped, MaintenanceUseCase.SubCapAllows;
      ghost var rows, ws := TicketsOf(maintenance.created), budget.configLimits.weekStartsOn;
      NotARow(budget.log, spent, worker.tickets, rows, ws, ticket);
      r := maintenance.CreateReserved(mt, now, ticket, io);
      if r == Enqueued {
        SpentGrows(budget.log, spent, worker.tickets, rows, ws, ticket, true);
        RowTickets(old(maintenance.created), maintenance.created, ticket);
        spent := spent + [ticket];
      }
    }

    /** Both steps, with the budget calls of others in between. */
    method EnqueueMaintenance(mt: MaintenanceTask, now: Moment, io: EnqueueFaults, calls: seq<(Moment, Faults)>) returns (r: EnqueueResult)
      requires Valid()
      modifies app`subCaps, app`taskCounters, budget`log, maintenance`created, maintenance`subLogs, this`spent
      ensures Valid() && old(budget.log) <= budget.log
      ensures maintenance.created == if r == Enqueued
                then old(maintenance.created) + [Created(mt.name, now, mt.subCapDaily != 0 || mt.subCapWeekly != 0, |old(budget.log)|)]
                else old(maintenance.created)
      ensures spent == if r == Enqueued then old(spent) + [|old(budget.log)|] else old(spent)
    {
      hide Valid, SubCapsStored, Covered, Paid, BudgetUseCase.Valid, BudgetUseCase.Decision, BudgetUseCase.RollFails, Spent, Tickets, TicketsOf;
      hide MaintenanceTask.Capped, MaintenanceUseCase.SubCapAllows;
      ghost var n := |budget.log|;
      r := ReserveGlobal(now, io.budget);
      if r.Refused? {
        return;
      }
      ghost var reserved := budget.log;
      OthersReserve(calls);
      assert budget.log[n] == reserved[n];
      r := CreateReserved(mt, now, n, io);
    }

    method OthersReserve(calls: seq<(Moment, Faults)>)
      requires Valid()
      modifies app`taskCounters, budget`log
      ensures Valid() && old(budget.log) <= budget.log
    {
      hide SubCapsStored, Covered, Paid, BudgetUseCase.Valid, Spent, Tickets, TicketsOf;
      maintenance.OthersReserve(calls);
      BudgetMoves();
    }

    /** Snapshots, changed limits, observed rate limits and cost warnings go to the budget
        directly and disturb nothing. */
    twostate lemma BudgetMoves()
      requires old(Valid()) && budget.Valid() && old(budget.log) <= budget.log && spent == old(spent)
      requires unchanged(maintenance) && unchanged(worker) && app.subCaps == old(app.subCaps)
      ensures Valid()
    {
      hide SubCapsStored, Covered, Paid, BudgetUseCase.Valid, Spent, Tickets, TicketsOf;
      maintenance.BudgetMoves();
      TicketsKeep(old(budget.log), budget.log, worker.tickets);
      SpentStays(old(budget.log), budget.log, spent, worker.tickets, TicketsOf(maintenance.created), budget.configLimits.weekStartsOn);
    }

    /** Claude starts and maintenance rows of a day or week together never exceed its cap
        (the largest in force there), over all processes, while the clock does not go
        back a day. */
    lemma SpentWithinCap(scope: Scope, bucket: int, cap: nat)
      requires Valid() && Ordered(budget.log)
      requires forall i | 0 <= i < |budget.log| && budget.log[i].granted
                 && Bucket(scope, budget.configLimits.weekStartsOn, budget.log[i].now.day) == bucket
                 :: 0 < Cap(scope, budget.log[i].limits) <= cap
      ensures TicketsIn(budget.log, worker.tickets, scope, budget.configLimits.weekStartsOn, bucket)
            + TicketsIn(budget.log, TicketsOf(maintenance.created), scope, budget.configLimits.weekStartsOn, bucket) <= cap
    {
      hide TicketsIn, Grants, Replay, Tickets, SubCapsStored, Covered;
      var ws := budget.configLimits.weekStartsOn;
      assert Balance(budget.log, spent, worker.tickets, TicketsOf(maintenance.created), scope, ws, bucket);
      BucketWithinCap(budget.log, scope, ws, bucket, cap);
      TicketsWithinGrants(budget.log, spent, scope, ws, bucket);
    }
  }

  lemma NotARow(log: seq<Entry>, spent: seq<nat>, tickets: seq<nat>, rows: seq<nat>, ws: Weekday, n: nat)
    requires Spent(log, spent, tickets, rows, ws) && n !in spent
    ensures n !in rows
  {
    hide Tickets, Balance;
  }

  lemma RowTickets(created: seq<Created>, more: seq<Created>, n: nat)
    requires |more| == |created| + 1 && more[..|created|] == created && more[|created|].ticket == n
    ensures TicketsOf(more) == TicketsOf(created) + [n]
  {
  }

  /** The tickets that are new after some runs of the worker are spent one after the
      other. */
  lemma {:induction false} NextSpent(log: seq<Entry>, spent: seq<nat>, held: seq<nat>, tickets: seq<nat>, rows: seq<nat>, ws: Weekday, bound: nat)
    requires Spent(log, spent, held, rows, ws) && Tickets(log, tickets) && held <= tickets
    requires (forall t | t in spent :: t < bound) && forall k | |held| <= k < |tickets| :: tickets[k] >= bound
    ensures Spent(log, spent + tickets[|held|..], tickets, rows, ws)
    decreases |tickets|
  {
    hide Spent, TicketsIn;
    if tickets == held {
      assert spent + tickets[|held|..] == spent;
    } else {
      var m := |tickets| - 1;
      var n := tickets[m];
      NextSpent(log, spent, held, tickets[..m], rows, ws, bound);
      var more := spent + tickets[..m][|held|..];
      assert Reservation(log, n) && n !in more;
      SpentGrows(log, more, tickets[..m], rows, ws, n, false);
      assert more + [n] == spent + tickets[|held|..] && tickets[..m] + [n] == tickets;
    }
  }

  lemma SpentBelow(log: seq<Entry>, spent: seq<nat>, tickets: seq<nat>, rows: seq<nat>, ws: Weekday)
    requires Spent(log, spent, tickets, rows, ws)
    ensures forall t | t in spent :: t < |log|
  {
    hide TicketsIn, Tickets, Balance;
    TicketsBelow(log, spent);
  }
}
