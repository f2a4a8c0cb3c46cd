/** The worker of internal/scheduler/worker.go: one task from mark-running to its end.
    Everything outside the process answers through an Outcome; what the worker does to
    the outside is recorded in the task's journal. */
module Workers {
  import opened Wrappers
  import opened BudgetGate
  import opened BudgetLog
  import opened BudgetUseCases
  import opened TaskTable

  datatype TaskType = CIFix | Ordinary(name: string)

  datatype Failure = NoFailure | CreateWorktree | RenderPrompt | BudgetError | ClaudeError | GateFailed | PRError

  /** What a worker does, in order. A save carries the status and finish time it writes;
      whether the write lands is up to the database. */
  datatype Effect =
    | Save(status: Status, finishedAt: Option<Moment>)
    | Reserved
    | Blocked
    | Claude(completed: bool)
    | Gate(passed: bool)
    | OpenPR(made: bool)
    | Report(status: Status, finishedAt: Option<Moment>)
    | RemoveWorktree
    | Watch

  // ---- the order a run has to respect --------------------------------------------

  predicate Terminal(status: Status) {
    status == Done || status == Failed || status == Cancelled
  }

  predicate Ends(e: Effect) {
    e.Save? && Terminal(e.status)
  }

  /** Nothing terminal has been written. */
  ghost predicate Unfinished(journal: seq<Effect>) {
    forall i | 0 <= i < |journal| :: !Ends(journal[i])
  }

  predicate GateRun(journal: seq<Effect>) {
    Gate(true) in journal || Gate(false) in journal
  }

  predicate Opened(journal: seq<Effect>) {
    OpenPR(true) in journal || OpenPR(false) in journal
  }

  /** What may follow a journal; budgeted says whether a budget gate is wired in. */
  ghost predicate Permits(journal: seq<Effect>, budgeted: bool, next: Effect) {
    match next
    case Save(status, at) =>
      && Unfinished(journal) && (Terminal(status) ==> at.Some?)
      && (status == Done ==> Claude(true) in journal && Gate(false) !in journal && OpenPR(false) !in journal)
    case Reserved => Claude(true) !in journal && Claude(false) !in journal
    case Blocked => true
    case Claude(_) =>
      && Claude(true) !in journal && Claude(false) !in journal
      && (budgeted ==> |journal| > 0 && journal[|journal| - 1].Reserved?)
    case Gate(_) => Claude(true) in journal && !GateRun(journal) && !Opened(journal) && Unfinished(journal)
    case OpenPR(_) => Claude(true) in journal && Gate(false) !in journal && !Opened(journal) && Unfinished(journal)
    case Report(status, at) => |journal| > 0 && Ends(journal[|journal| - 1]) && journal[|journal| - 1] == Save(status, at)
    case RemoveWorktree => Gate(false) !in journal && Watch !in journal
    case Watch => OpenPR(true) in journal && RemoveWorktree !in journal && (exists i | 0 <= i < |journal| :: journal[i].Save? && journal[i].status == Done)
  }

  ghost predicate Lawful(journal: seq<Effect>, budgeted: bool) {
    forall i | 0 <= i < |journal| :: Permits(journal[..i], budgeted, journal[i])
  }

  lemma LawfulGrows(journal: seq<Effect>, budgeted: bool, next: Effect)
    requires Lawful(journal, budgeted) && Permits(journal, budgeted, next)
    ensures Lawful(journal + [next], budgeted)
  {
    hide Permits;
    var longer := journal + [next];
    forall i | 0 <= i < |longer|
      ensures Permits(longer[..i], budgeted, longer[i])
    {
      assert longer[..i] == if i < |journal| then journal[..i] else journal;
    }
  }

  /** A journal with a report has exactly one terminal save and exactly one report; the
      report follows the save at once and carries its status and finish time. */
  lemma OneEnding(journal: seq<Effect>, budgeted: bool) returns (end: nat)
    requires Lawful(journal, budgeted) && exists i | 0 <= i < |journal| :: journal[i].Report?
    ensures end + 1 < |journal| && Ends(journal[end]) && journal[end].finishedAt.Some?
    ensures journal[end + 1] == Report(journal[end].status, journal[end].finishedAt)
    ensures forall i | 0 <= i < |journal| :: (Ends(journal[i]) <==> i == end) && (journal[i].Report? <==> i == end + 1)
  {
    hide Permits, Lawful;
    var r :| 0 <= r < |journal| && journal[r].Report?;
    ReportFollows(journal, budgeted, r);
    end := r - 1;
    forall i | 0 <= i < |journal|
      ensures Ends(journal[i]) ==> i == end
      ensures journal[i].Report? ==> i == end + 1
    {
      if Ends(journal[i]) {
        OnlyEnd(journal, budgeted, i, end);
      }
      ReportFollows(journal, budgeted, i);
      if journal[i].Report? {
        OnlyEnd(journal, budgeted, i - 1, end);
      }
    }
  }

  lemma OnlyEnd(journal: seq<Effect>, budgeted: bool, i: nat, j: nat)
    requires Lawful(journal, budgeted) && i < |journal| && j < |journal| && Ends(journal[i]) && Ends(journal[j])
    ensures i == j
  {
    hide Permits, Lawful;
    if i < j {
      EndsOnce(journal, budgeted, i, j);
    } else if j < i {
      EndsOnce(journal, budgeted, j, i);
    }
  }

  lemma ReportFollows(journal: seq<Effect>, budgeted: bool, i: nat)
    requires Lawful(journal, budgeted) && i < |journal|
    ensures journal[i].Report? ==>
              i > 0 && Ends(journal[i - 1]) && journal[i - 1].finishedAt.Some?
              && journal[i] == Report(journal[i - 1].status, journal[i - 1].finishedAt)
  {
    assert Permits(journal[..i], budgeted, journal[i]);
    if i > 0 {
      assert Permits(journal[..i - 1], budgeted, journal[i - 1]);
      assert journal[..i][i - 1] == journal[i - 1];
    }
  }

  lemma EndsOnce(journal: seq<Effect>, budgeted: bool, i: nat, j: nat)
    requires Lawful(journal, budgeted) && i < j < |journal| && Ends(journal[i])
    ensures !Ends(journal[j])
  {
    assert Permits(journal[..j], budgeted, journal[j]);
    assert journal[..j][i] == journal[i];
  }

  /** A run that ended as done reserved its ticket, then ran Claude to completion, then
      passed its quality gate if it has one, then opened its pull request if it creates
      one, then wrote the status; each of them once, and nothing failed. */
  lemma DoneInOrder(journal: seq<Effect>, budgeted: bool, end: nat) returns (ran: nat)
    requires Lawful(journal, budgeted) && end < |journal| && journal[end].Save? && journal[end].status == Done
    ensures ran < end && journal[ran] == Claude(true)
    ensures budgeted ==> ran > 0 && journal[ran - 1].Reserved?
    ensures forall i | 0 <= i < |journal| && journal[i].Claude? :: i == ran
    ensures forall i | 0 <= i < |journal| && journal[i].Gate? :: ran < i < end && journal[i].passed
    ensures forall i | 0 <= i < |journal| && journal[i].OpenPR? :: ran < i < end && journal[i].made
    ensures forall i, j | 0 <= i < |journal| && 0 <= j < |journal| && journal[i].Gate? && journal[j].OpenPR? :: i < j
    ensures forall i, j | 0 <= i < j < |journal| :: !(journal[i].Gate? && journal[j].Gate?) && !(journal[i].OpenPR? && journal[j].OpenPR?)
  {
    assert Permits(journal[..end], budgeted, journal[end]);
    ran :| 0 <= ran < end && journal[..end][ran] == Claude(true);
    assert Permits(journal[..ran], budgeted, journal[ran]);
    assert budgeted ==> journal[..ran][ran - 1] == journal[ran - 1];
    forall i | 0 <= i < |journal|
      ensures journal[i].Claude? ==> i == ran
      ensures journal[i].Gate? ==> ran < i < end && journal[i].passed
      ensures journal[i].OpenPR? ==> ran < i < end && journal[i].made
    {
      AroundClaude(journal, budgeted, ran, i);
      if end < i {
        AfterTheEnd(journal, budgeted, end, i);
      } else if i < end {
        assert journal[..end][i] == journal[i];
      }
    }
    forall i, j | 0 <= i < j < |journal|
      ensures journal[j].Gate? ==> !journal[i].Gate? && !journal[i].OpenPR?
      ensures journal[j].OpenPR? ==> !journal[i].OpenPR?
    {
      GateThenPR(journal, budgeted, i, j);
    }
  }

  lemma AfterTheEnd(journal: seq<Effect>, budgeted: bool, end: nat, i: nat)
    requires Lawful(journal, budgeted) && end < i < |journal| && Ends(journal[end])
    ensures !journal[i].OpenPR? && !journal[i].Gate?
  {
    assert Permits(journal[..i], budgeted, journal[i]);
    assert journal[..i][end] == journal[end];
  }

  lemma GateThenPR(journal: seq<Effect>, budgeted: bool, i: nat, j: nat)
    requires Lawful(journal, budgeted) && i < j < |journal|
    ensures journal[j].Gate? ==> !journal[i].Gate? && !journal[i].OpenPR?
    ensures journal[j].OpenPR? ==> !journal[i].OpenPR?
  {
    assert Permits(journal[..j], budgeted, journal[j]);
    assert journal[..j][i] == journal[i];
  }

  /** Claude runs once, and nothing that needs its work comes before it. */
  lemma AroundClaude(journal: seq<Effect>, budgeted: bool, ran: nat, i: nat)
    requires Lawful(journal, budgeted) && ran < |journal| && journal[ran] == Claude(true) && i < |journal|
    ensures journal[i].Claude? ==> i == ran
    ensures journal[i].OpenPR? || journal[i].Gate? ==> ran < i
  {
    assert Permits(journal[..i], budgeted, journal[i]);
    assert Permits(journal[..ran], budgeted, journal[ran]);
    if i < ran {
      assert journal[..ran][i] == journal[i];
      forall c | 0 <= c < i
        ensures journal[..i][c] != Claude(true)
      {
        assert journal[..ran][c] == journal[..i][c];
      }
    } else if ran < i {
      assert journal[..i][ran] == journal[ran];
    }
  }

  /** A worktree handed to the watcher is never removed by the worker. */
  lemma WatchKeepsWorktree(journal: seq<Effect>, budgeted: bool)
    requires Lawful(journal, budgeted) && Watch in journal
    ensures RemoveWorktree !in journal
  {
    var w :| 0 <= w < |journal| && journal[w] == Watch;
    forall r | 0 <= r < |journal|
      ensures journal[r] != RemoveWorktree
    {
      if r < w {
        assert Permits(journal[..w], budgeted, journal[w]);
        assert journal[..w][r] == journal[r];
      } else if w < r {
        assert Permits(journal[..r], budgeted, journal[r]);
        assert journal[..r][w] == journal[w];
      }
    }
  }

  // ---- the pipeline -----------------------------------------------------------------

  class Task {
    const id: TaskId
    const taskType: TaskType
    var status: Status
    var startedAt: Option<Moment>
    var finishedAt: Option<Moment>
    /** The row whose worktree the path names; a ci-fix row comes with its parent's. */
    var worktree: Option<TaskId>
    var failure: Failure
    var prNumber: int
    ghost var journal: seq<Effect>

    constructor (id: TaskId, taskType: TaskType, worktree: Option<TaskId>)
      ensures this.id == id && this.taskType == taskType && this.worktree == worktree
      ensures Claimed()
    {
      this.id, this.taskType, this.worktree := id, taskType, worktree;
      status, startedAt, finishedAt, failure, prNumber := Running, None, None, NoFailure, 0;
      journal := [];
    }

    /** As the scheduler hands it over. */
    ghost predicate Claimed()
      reads this
    {
      status == Running && finishedAt == None && failure == NoFailure && prNumber == 0 && journal == []
    }

    ghost function End(): TaskEnd
      reads this
    {
      TaskEnd(status, finishedAt, failure, prNumber)
    }

    /** Does one thing the journal permits. */
    ghost method Does(budgeted: bool, next: Effect)
      requires Lawful(journal, budgeted) && Permits(journal, budgeted, next)
      modifies this`journal
      ensures Lawful(journal, budgeted) && journal == old(journal) + [next]
    {
      hide Lawful, Permits;
      LawfulGrows(journal, budgeted, next);
      journal := journal + [next];
    }
  }

  datatype GateAnswer = Ungated | Granted | Denied | Errored
  datatype ClaudeAnswer = Completed | LimitHit(resetsAtUnix: int, rateLimitType: string) | Broke

  /** A budget call of another goroutine; starts says that it is another run of the
      worker, which starts Claude when it is granted. */
  datatype Call = Call(now: Moment, io: Faults, starts: bool)

  /** How the world answers one run. calls are the budget calls other goroutines make
      before this one reaches the gate, later those they make while Claude is running. */
  datatype Outcome = Outcome(
    startAt: Moment, markLands: bool, worktreeMade: bool, stoppedEarly: bool, rendered: bool, open: bool,
    calls: seq<Call>, gateAt: Moment, io: Faults,
    claude: ClaudeAnswer, later: seq<Call>, blockLost: bool, stoppedLate: bool,
    gated: bool, gatePasses: bool, pr: Result<int>, endAt: Moment)

  // ---- what one run promises -------------------------------------------------------

  datatype Config = Config(budgeted: bool, createsPR: bool, ciFixEnabled: bool)

  /** The fields a run leaves in its task. */
  datatype TaskEnd = TaskEnd(status: Status, finishedAt: Option<Moment>, failure: Failure, prNumber: int)

  predicate Started(journal: seq<Effect>) {
    Claude(true) in journal || Claude(false) in journal
  }

  /** Nothing but the budget stood between the task and Claude. */
  predicate Launched(o: Outcome) {
    o.markLands && o.worktreeMade && !o.stoppedEarly && o.rendered && o.open
  }

  /** A run that could not be marked running does nothing else; any other run ends, and
      reports the status and time it ended with. */
  predicate EndsOrNeverStarts(o: Outcome, t: TaskEnd, journal: seq<Effect>) {
    if !o.markLands then
      t.status == Running && journal == [MARK]
    else
      Terminal(t.status) && t.finishedAt == Some(o.endAt) && Report(t.status, t.finishedAt) in journal
  }

  /** The statuses a run saves, in order. */
  function Saves(journal: seq<Effect>): seq<Status> {
    if journal == [] then []
    else
      var last := journal[|journal| - 1];
      Saves(journal[..|journal| - 1]) + if last.Save? then [last.status] else []
  }

  /** It saves under 'running' once or twice, and then once under its final status. */
  predicate SavesInOrder(o: Outcome, t: TaskEnd, journal: seq<Effect>) {
    Saves(journal) ==
      if !o.markLands then [Running] else if !o.worktreeMade then [Running, t.status] else [Running, Running, t.status]
  }

  /** Which gates decide how it ends. */
  predicate EndsByItsGates(c: Config, o: Outcome, t: TaskEnd, journal: seq<Effect>) {
    && (Started(journal) <==> Launched(o) && (c.budgeted ==> Reserved in journal))
    && (t.status == Done <==>
          Started(journal) && o.claude.Completed? && (o.gated ==> o.gatePasses) && (c.createsPR ==> o.pr.Ok?))
    && (t.status == Cancelled <==>
          && o.markLands && o.worktreeMade
          && (|| o.stoppedEarly
              || (o.rendered && !o.open)
              || Blocked in journal
              || (Started(journal) && !o.claude.Completed? && o.stoppedLate)))
    && (t.status == Failed <==> t.failure != NoFailure)
  }

  /** The worktree is kept for the watcher, for an inspection after a failed gate or a
      failed run of Claude, and after an early failure; otherwise it is removed. */
  predicate TidiesUp(c: Config, o: Outcome, fix: bool, t: TaskEnd, journal: seq<Effect>) {
    && (Watch in journal <==> t.status == Done && c.ciFixEnabled && t.prNumber > 0 && !fix)
    && (RemoveWorktree in journal <==>
          || t.status == Cancelled || t.failure == BudgetError || t.failure == PRError
          || (t.status == Done && Watch !in journal))
    && (RemoveWorktree in journal ==> o.markLands && o.worktreeMade)
  }

  /** What a failed run failed for, and which pull request a done one has. */
  predicate FailsFor(c: Config, o: Outcome, t: TaskEnd, journal: seq<Effect>) {
    && (t.failure == CreateWorktree <==> o.markLands && !o.worktreeMade)
    && (t.failure == RenderPrompt <==> o.markLands && o.worktreeMade && !o.stoppedEarly && !o.rendered)
    && (t.failure == BudgetError <==> Launched(o) && c.budgeted && Reserved !in journal && Blocked !in journal)
    && (t.failure == ClaudeError <==> Started(journal) && !o.claude.Completed? && !o.stoppedLate)
    && (t.failure == GateFailed <==> Started(journal) && o.claude.Completed? && o.gated && !o.gatePasses)
    && (t.failure == PRError <==>
          Started(journal) && o.claude.Completed? && (o.gated ==> o.gatePasses) && c.createsPR && o.pr.Err?)
    && t.prNumber == if t.status == Done && c.createsPR && o.pr.Ok? then o.pr.value else 0
  }

  predicate RunPromise(c: Config, o: Outcome, fix: bool, t: TaskEnd, journal: seq<Effect>) {
    && EndsOrNeverStarts(o, t, journal)
    && SavesInOrder(o, t, journal)
    && EndsByItsGates(c, o, t, journal)
    && FailsFor(c, o, t, journal)
    && TidiesUp(c, o, fix, t, journal)
  }

  /** The one time a run starts Claude it spends a reservation of its own; the other
      tickets that are new belong to runs that started meanwhile. */
  ghost predicate BudgetPromise(before: seq<Entry>, after: seq<Entry>, held: seq<nat>, tickets: seq<nat>,
                                o: Outcome, journal: seq<Effect>, own: Option<nat>) {
    && before <= after && NewTickets(before, held, tickets)
    && (Started(journal) <==> own.Some?)
    && (own.Some? ==>
          own.value in tickets && own.value >= |before| && Reservation(after, own.value) && after[own.value].now == o.gateAt)
  }

  /** Only reservations that are new to the log were added. */
  ghost predicate NewTickets(before: seq<Entry>, held: seq<nat>, tickets: seq<nat>) {
    held <= tickets && forall k | |held| <= k < |tickets| :: tickets[k] >= |before|
  }

  ghost predicate BlockedUntil(stored: Stored<StoredBlock>, resetsAtUnix: int) {
    forall now: Moment :: LoadBlock(stored).Active(now) <==> resetsAtUnix != 0 && now.at < resetsAtUnix * NANOSECONDS
  }

  class Worker {
    const budget: BudgetUseCase?
    const createsPR: bool
    const ciFixEnabled: bool

    /** The reservations under which Claude was started, oldest first. */
    ghost var tickets: seq<nat>

    ghost predicate Valid()
      reads this, budget, if budget == null then {} else {budget.app}
    {
      budget != null ==> budget.Valid() && Tickets(budget.log, tickets)
    }

    ghost function Budgets(): set<BudgetUseCase> {
      if budget == null then {} else {budget}
    }

    ghost function Apps(): set<AppStates> {
      if budget == null then {} else {budget.app}
    }

    function Wiring(): Config {
      Config(budget != null, createsPR, ciFixEnabled)
    }

    /** A process that starts on the log some earlier process left behind, and continues
        its record of what was started. */
    constructor (budget: BudgetUseCase?, createsPR: bool, ciFixEnabled: bool, ghost history: Worker?)
      requires budget != null ==> budget.Valid()
      requires budget != null && history != null ==> Tickets(budget.log, history.tickets)
      ensures Valid() && tickets == if history == null then [] else history.tickets
      ensures this.budget == budget && this.createsPR == createsPR && this.ciFixEnabled == ciFixEnabled
    {
      this.budget, this.createsPR, this.ciFixEnabled := budget, createsPR, ciFixEnabled;
      tickets := if history == null then [] else history.tickets;
    }

    /** Runs one task to its end. ok is false when the caller gets an error. */
    method RunTask(task: Task, o: Outcome) returns (ok: bool, ghost own: Option<nat>)
      requires Valid() && task.Claimed()
      modifies Apps()`taskCounters, Apps()`rateLimitBlock, Budgets()`log, this`tickets, task
      ensures Valid() && Lawful(task.journal, budget != null)
      ensures ok <==> task.status == Done || task.status == Cancelled
      ensures task.startedAt == Some(o.startAt)
      ensures task.worktree == if o.markLands && o.worktreeMade then Some(task.id) else old(task.worktree)
      ensures RunPromise(Wiring(), o, task.taskType.CIFix?, task.End(), task.journal)
      ensures budget != null ==> BudgetPromise(old(budget.log), budget.log, old(tickets), tickets, o, task.journal, own)
      ensures budget != null && Started(task.journal) && o.claude.LimitHit? && !o.blockLost ==>
                BlockedUntil(budget.app.rateLimitBlock, o.claude.resetsAtUnix)
    {
      hide Lawful, Permits, BudgetUseCase.Valid, Tickets, RunPromise, Started, ConcludeSteps;
      own := None;
      var c := Wiring();
      var ready := Prepare(task, o);
      if !ready {
        EndsBeforeClaude(c, o, task.taskType.CIFix?, Ungated, task.End(), task.journal);
        return task.status == Cancelled, None;
      }
      var gate := Ungated;
      if budget != null {
        gate, own := AskBudget(o);
        Admit(task, gate, o.endAt);
        if gate != Granted {
          EndsBeforeClaude(c, o, task.taskType.CIFix?, gate, task.End(), task.journal);
          return gate == Denied, None;
        }
      }
      StartClaude(task, gate, o);
      if budget != null {
        OthersCall(o.later);
      }
      if budget != null && o.claude.LimitHit? {
        var _ := budget.RecordRateLimitBlock(o.claude.resetsAtUnix, o.claude.rateLimitType, o.endAt.at, o.blockLost);
      }
      Conclude(task, gate, o);
      EndsAfterClaude(c, o, task.taskType.CIFix?, gate, task.End(), task.journal);
      ok := task.status == Done || task.status == Cancelled;
    }

    /** Asks the budget gate, after whatever other goroutines ask of it first. An answer
        of Granted is the ticket for one run of Claude. */
    method AskBudget(o: Outcome) returns (gate: GateAnswer, ghost own: Option<nat>)
      requires Valid() && budget != null
      modifies budget.app`taskCounters, budget`log, this`tickets
      ensures Valid() && gate != Ungated
      ensures old(budget.log) <= budget.log && NewTickets(old(budget.log), old(tickets), tickets)
      ensures gate == Granted <==> own.Some?
      ensures own.Some? ==>
                && tickets != [] && own.value == tickets[|tickets| - 1] && own.value >= |old(budget.log)|
                && Reservation(budget.log, own.value) && budget.log[own.value].now == o.gateAt
    {
      hide Tickets, BudgetUseCase.Valid;
      OthersCall(o.calls);
      ghost var n := |budget.log|;
      gate := Reserve(o.gateAt, o.io);
      own := if gate == Granted then Some(n) else None;
    }

    /** One call of the gate; a grant is noted as the ticket of the run that asked. */
    method Reserve(at: Moment, io: Faults) returns (gate: GateAnswer)
      requires Valid() && budget != null
      modifies budget.app`taskCounters, budget`log, this`tickets
      ensures Valid() && gate != Ungated && old(budget.log) <= budget.log
      ensures gate == Granted ==> budget.log == old(budget.log) + [budget.Call(at, true)]
      ensures tickets == if gate == Granted then old(tickets) + [|old(budget.log)|] else old(tickets)
    {
      hide Tickets, BudgetUseCase.Valid, Grants, Ordered, EvaluateBudget, RolloverCounters;
      ghost var before := budget.log;
      var reason := budget.CheckAndIncrement(at, io);
      TicketsKeep(before, budget.log, tickets);
      if reason.Err? {
        return Errored;
      }
      if reason.value != Allowed {
        return Denied;
      }
      NewTicket(before, budget.log, tickets);
      tickets := tickets + [|before|];
      return Granted;
    }

    /** What other goroutines ask of the budget. */
    method OthersCall(calls: seq<Call>)
      requires Valid() && budget != null
      modifies budget.app`taskCounters, budget`log, this`tickets
      ensures Valid() && old(budget.log) <= budget.log && NewTickets(old(budget.log), old(tickets), tickets)
    {
      hide Tickets, BudgetUseCase.Valid, Grants, Ordered, EvaluateBudget, RolloverCounters;
      for i := 0 to |calls|
        invariant Valid() && old(budget.log) <= budget.log && NewTickets(old(budget.log), old(tickets), tickets)
      {
        if calls[i].starts {
          var _ := Reserve(calls[i].now, calls[i].io);
        } else {
          ghost var before := budget.log;
          var _ := budget.CheckAndIncrement(calls[i].now, calls[i].io);
          TicketsKeep(before, budget.log, tickets);
        }
      }
    }

    /** Claude is never started more often in a day or week than its cap (the largest in
        force there), while the clock does not go back a day. */
    lemma RunsWithinCap(scope: Scope, bucket: int, cap: nat)
      requires Valid() && budget != null && Ordered(budget.log)
      requires forall i | 0 <= i < |budget.log| && budget.log[i].granted
                 && Bucket(scope, budget.configLimits.weekStartsOn, budget.log[i].now.day) == bucket
                 :: 0 < Cap(scope, budget.log[i].limits) <= cap
      ensures TicketsIn(budget.log, tickets, scope, budget.configLimits.weekStartsOn, bucket) <= cap
    {
      hide TicketsIn, Grants, Replay;
      BucketWithinCap(budget.log, scope, budget.configLimits.weekStartsOn, bucket, cap);
      TicketsWithinGrants(budget.log, tickets, scope, budget.configLimits.weekStartsOn, bucket);
    }

    method Fail(task: Task, failure: Failure, at: Moment)
      requires Lawful(task.journal, budget != null) && Unfinished(task.journal)
      modifies task`status, task`finishedAt, task`failure, task`journal
      ensures Lawful(task.journal, budget != null)
      ensures task.journal == old(task.journal) + FailSteps(at)
      ensures task.status == Failed && task.finishedAt == Some(at) && task.failure == failure
    {
      hide Lawful;
      task.status, task.finishedAt, task.failure := Failed, Some(at), failure;
      task.Does(budget != null, Save(task.status, task.finishedAt));
      task.Does(budget != null, Report(task.status, task.finishedAt));
    }

    method Cancel(task: Task, at: Moment)
      requires Lawful(task.journal, budget != null) && Unfinished(task.journal)
      requires Gate(false) !in task.journal && Watch !in task.journal && task.worktree == Some(task.id)
      modifies task`status, task`finishedAt, task`journal
      ensures Lawful(task.journal, budget != null)
      ensures task.journal == old(task.journal) + CancelSteps(at)
      ensures task.status == Cancelled && task.finishedAt == Some(at)
    {
      hide Lawful;
      task.status, task.finishedAt := Cancelled, Some(at);
      task.Does(budget != null, Save(task.status, task.finishedAt));
      task.Does(budget != null, Report(task.status, task.finishedAt));
      DropWorktree(task);
    }

    /** Removes the run's own worktree, never one it was handed over with. */
    method DropWorktree(task: Task)
      requires Lawful(task.journal, budget != null) && task.worktree == Some(task.id)
      requires Gate(false) !in task.journal && Watch !in task.journal
      modifies task`journal
      ensures Lawful(task.journal, budget != null)
      ensures task.journal == old(task.journal) + [RemoveWorktree]
    {
      hide Lawful;
      task.Does(budget != null, RemoveWorktree);
    }

    /** Marks the task running, makes its worktree and renders its prompt. */
    method Prepare(task: Task, o: Outcome) returns (ready: bool)
      requires task.Claimed()
      modifies task`status, task`startedAt, task`finishedAt, task`worktree, task`failure, task`journal
      ensures Lawful(task.journal, budget != null) && ready == Launched(o)
      ensures task.worktree == if o.markLands && o.worktreeMade then Some(task.id) else old(task.worktree)
      ensures task.journal == PrepareSteps(o) && task.startedAt == Some(o.startAt)
      ensures task.failure == if !o.markLands then NoFailure
                              else if !o.worktreeMade then CreateWorktree
                              else if !o.stoppedEarly && !o.rendered then RenderPrompt
                              else NoFailure
      ensures task.status == if !o.markLands || ready then Running else if task.failure == NoFailure then Cancelled else Failed
      ensures task.finishedAt == if !o.markLands || ready then None else Some(o.endAt)
    {
      hide Lawful;
      assert Lawful(task.journal, budget != null) by { NothingIsLawful(budget != null); }
      task.status, task.startedAt, task.finishedAt := Running, Some(o.startAt), None;
      task.Does(budget != null, MARK);
      if !o.markLands {
        return false;
      }
      if !o.worktreeMade {
        Fail(task, CreateWorktree, o.endAt);
        return false;
      }
      task.worktree := Some(task.id);
      task.Does(budget != null, MARK);
      if o.stoppedEarly {
        Cancel(task, o.endAt);
        return false;
      }
      if !o.rendered {
        Fail(task, RenderPrompt, o.endAt);
        return false;
      }
      if !o.open {
        DropWorktree(task);
        Cancel(task, o.endAt);
        return false;
      }
      return true;
    }

    /** Acts on the budget gate's answer. */
    method Admit(task: Task, gate: GateAnswer, at: Moment)
      requires Lawful(task.journal, budget != null) && gate != Ungated
      requires task.journal == [MARK, MARK] && task.worktree == Some(task.id) && task.failure == NoFailure && task.finishedAt == None
      modifies task`journal, task`status, task`finishedAt, task`failure
      ensures Lawful(task.journal, budget != null)
      ensures task.journal == [MARK, MARK] + AdmitSteps(gate, at)
      ensures task.failure == if gate == Errored then BudgetError else NoFailure
      ensures task.status == match gate case Errored => Failed case Denied => Cancelled case _ => old(task.status)
      ensures task.finishedAt == if gate == Granted then None else Some(at)
    {
      hide Lawful;
      if gate == Errored {
        DropWorktree(task);
        Fail(task, BudgetError, at);
      } else if gate == Denied {
        task.Does(budget != null, Blocked);
        DropWorktree(task);
        Cancel(task, at);
      } else {
        task.Does(budget != null, Reserved);
      }
    }

    method StartClaude(task: Task, gate: GateAnswer, o: Outcome)
      requires Lawful(task.journal, budget != null)
      requires gate == (if budget == null then Ungated else Granted) && task.journal == [MARK, MARK] + AdmitSteps(gate, o.endAt)
      modifies task`journal
      ensures Lawful(task.journal, budget != null) && task.journal == UpToClaude(gate, o)
    {
      hide Lawful;
      task.Does(budget != null, Claude(o.claude.Completed?));
    }

    /** Acts on Claude's result: quality gate, pull request, end of the run. */
    method Conclude(task: Task, gate: GateAnswer, o: Outcome)
      requires Lawful(task.journal, budget != null)
      requires (gate == Ungated || gate == Granted) && task.journal == UpToClaude(gate, o)
      requires task.worktree == Some(task.id) && task.failure == NoFailure && task.prNumber == 0
      modifies task`status, task`finishedAt, task`failure, task`prNumber, task`journal
      ensures Lawful(task.journal, budget != null)
      ensures task.journal == UpToClaude(gate, o) + ConcludeSteps(Wiring(), o, task.taskType.CIFix?)
      ensures task.End() == ConcludedAs(Wiring(), o)
    {
      hide Lawful;
      if !o.claude.Completed? {
        if o.stoppedLate {
          Cancel(task, o.endAt);
        } else {
          Fail(task, ClaudeError, o.endAt);
        }
        return;
      }
      GateAndOpen(task, o);
    }

    /** The quality gate, where the repository has one, then the pull request. */
    method GateAndOpen(task: Task, o: Outcome)
      requires Lawful(task.journal, budget != null) && Unfinished(task.journal) && task.worktree == Some(task.id) && task.prNumber == 0
      requires Claude(true) in task.journal && !GateRun(task.journal) && !Opened(task.journal)
      requires RemoveWorktree !in task.journal && Watch !in task.journal && task.failure == NoFailure && o.claude.Completed?
      modifies task`status, task`finishedAt, task`failure, task`prNumber, task`journal
      ensures Lawful(task.journal, budget != null)
      ensures task.journal == old(task.journal) + ConcludeSteps(Wiring(), o, task.taskType.CIFix?)
      ensures task.End() == ConcludedAs(Wiring(), o)
    {
      hide Lawful, PRSteps;
      if o.gated {
        task.Does(budget != null, Gate(o.gatePasses));
        if !o.gatePasses {
          Fail(task, GateFailed, o.endAt);
          return;
        }
      }
      OpenAndComplete(task, o);
    }

    method OpenAndComplete(task: Task, o: Outcome)
      requires Lawful(task.journal, budget != null) && Unfinished(task.journal) && task.worktree == Some(task.id) && task.prNumber == 0
      requires Claude(true) in task.journal && Gate(false) !in task.journal && !Opened(task.journal)
      requires RemoveWorktree !in task.journal && Watch !in task.journal
      modifies task`status, task`finishedAt, task`failure, task`prNumber, task`journal
      ensures Lawful(task.journal, budget != null)
      ensures task.journal == old(task.journal) + PRSteps(Wiring(), o, task.taskType.CIFix?)
      ensures if createsPR && o.pr.Err? then task.status == Failed && task.failure == PRError && task.prNumber == 0
              else task.status == Done && task.failure == old(task.failure) && task.prNumber == if createsPR then o.pr.value else 0
      ensures task.finishedAt == Some(o.endAt)
    {
      hide Lawful;
      if createsPR {
        task.Does(budget != null, OpenPR(o.pr.Ok?));
        if o.pr.Err? {
          DropWorktree(task);
          Fail(task, PRError, o.endAt);
          return;
        }
        task.prNumber := o.pr.value;
      }
      Complete(task, o.endAt);
    }

    /** Marks the task done, then leaves its worktree to the watcher or removes it. */
    method Complete(task: Task, at: Moment)
      requires Lawful(task.journal, budget != null) && Unfinished(task.journal) && task.worktree == Some(task.id)
      requires Claude(true) in task.journal && Gate(false) !in task.journal && OpenPR(false) !in task.journal
      requires RemoveWorktree !in task.journal && Watch !in task.journal && (task.prNumber > 0 ==> OpenPR(true) in task.journal)
      modifies task`status, task`finishedAt, task`journal
      ensures Lawful(task.journal, budget != null)
      ensures task.journal == old(task.journal)
                + [Save(Done, Some(at)), Report(Done, Some(at)),
                   if ciFixEnabled && task.prNumber > 0 && !task.taskType.CIFix? then Watch else RemoveWorktree]
      ensures task.status == Done && task.finishedAt == Some(at)
    {
      hide Lawful;
      task.status, task.finishedAt := Done, Some(at);
      task.Does(budget != null, Save(task.status, task.finishedAt));
      task.Does(budget != null, Report(task.status, task.finishedAt));
      if ciFixEnabled && task.prNumber > 0 && !task.taskType.CIFix? {
        assert task.journal[|task.journal| - 2].Save?;
        task.Does(budget != null, Watch);
      } else {
        DropWorktree(task);
      }
    }
  }

  // ---- the steps of each stage -----------------------------------------------------

  const MARK := Save(Running, None)

  function FailSteps(at: Moment): seq<Effect> {
    [Save(Failed, Some(at)), Report(Failed, Some(at))]
  }

  function CancelSteps(at: Moment): seq<Effect> {
    [Save(Cancelled, Some(at)), Report(Cancelled, Some(at)), RemoveWorktree]
  }

  function PrepareSteps(o: Outcome): seq<Effect> {
    if !o.markLands then [MARK]
    else if !o.worktreeMade then [MARK] + FailSteps(o.endAt)
    else if o.stoppedEarly then [MARK, MARK] + CancelSteps(o.endAt)
    else if !o.rendered then [MARK, MARK] + FailSteps(o.endAt)
    else if !o.open then [MARK, MARK, RemoveWorktree] + CancelSteps(o.endAt)
    else [MARK, MARK]
  }

  function AdmitSteps(gate: GateAnswer, at: Moment): seq<Effect> {
    match gate
    case Ungated => []
    case Granted => [Reserved]
    case Denied => [Blocked, RemoveWorktree] + CancelSteps(at)
    case Errored => [RemoveWorktree] + FailSteps(at)
  }

  function UpToClaude(gate: GateAnswer, o: Outcome): seq<Effect> {
    [MARK, MARK] + AdmitSteps(gate, o.endAt) + [Claude(o.claude.Completed?)]
  }

  function ConcludeSteps(c: Config, o: Outcome, fix: bool): seq<Effect> {
    if !o.claude.Completed? then (if o.stoppedLate then CancelSteps(o.endAt) else FailSteps(o.endAt))
    else (if o.gated then [Gate(o.gatePasses)] else [])
         + if o.gated && !o.gatePasses then FailSteps(o.endAt) else PRSteps(c, o, fix)
  }

  function PRSteps(c: Config, o: Outcome, fix: bool): seq<Effect> {
    if c.createsPR && o.pr.Err? then [OpenPR(false), RemoveWorktree] + FailSteps(o.endAt)
    else (if c.createsPR then [OpenPR(true)] else [])
         + [Save(Done, Some(o.endAt)), Report(Done, Some(o.endAt)),
            if c.ciFixEnabled && c.createsPR && o.pr.value > 0 && !fix then Watch else RemoveWorktree]
  }

  function ConcludedAs(c: Config, o: Outcome): TaskEnd {
    if !o.claude.Completed? then
      TaskEnd(if o.stoppedLate then Cancelled else Failed, Some(o.endAt), if o.stoppedLate then NoFailure else ClaudeError, 0)
    else if o.gated && !o.gatePasses then TaskEnd(Failed, Some(o.endAt), GateFailed, 0)
    else if c.createsPR && o.pr.Err? then TaskEnd(Failed, Some(o.endAt), PRError, 0)
    else TaskEnd(Done, Some(o.endAt), NoFailure, if c.createsPR then o.pr.value else 0)
  }

  lemma EndsBeforeClaude(c: Config, o: Outcome, fix: bool, gate: GateAnswer, t: TaskEnd, journal: seq<Effect>)
    requires if Launched(o) then c.budgeted && (gate == Denied || gate == Errored) else gate == Ungated
    requires journal == PrepareSteps(o) + AdmitSteps(gate, o.endAt)
    requires t.failure == if !o.markLands then NoFailure
                          else if !o.worktreeMade then CreateWorktree
                          else if !o.stoppedEarly && !o.rendered then RenderPrompt
                          else if gate == Errored then BudgetError
                          else NoFailure
    requires t.status == if !o.markLands then Running else if t.failure == NoFailure then Cancelled else Failed
    requires t.finishedAt == (if !o.markLands then None else Some(o.endAt)) && t.prNumber == 0
    ensures RunPromise(c, o, fix, t, journal) && !Started(journal)
  {
    hide Saves;
    SavesBeforeClaude(o, gate);
  }

  lemma EndsAfterClaude(c: Config, o: Outcome, fix: bool, gate: GateAnswer, t: TaskEnd, journal: seq<Effect>)
    requires Launched(o) && gate == (if c.budgeted then Granted else Ungated)
    requires t == ConcludedAs(c, o) && journal == UpToClaude(gate, o) + ConcludeSteps(c, o, fix)
    ensures RunPromise(c, o, fix, t, journal) && Started(journal)
  {
    hide UpToClaude, ConcludeSteps, Saves;
    UpToClaudeHas(gate, o);
    ConcludeHas(c, o, fix);
    SavesAfterClaude(c, o, fix, gate);
  }

  // ---- what is saved -----------------------------------------------------------------

  lemma {:induction false} SavesAppend(a: seq<Effect>, b: seq<Effect>)
    ensures Saves(a + b) == Saves(a) + Saves(b)
  {
    if b == [] {
      assert a + b == a;
    } else {
      var n := |b| - 1;
      assert (a + b)[..|a + b| - 1] == a + b[..n];
      SavesAppend(a, b[..n]);
    }
  }

  function StatusOf(e: Effect): seq<Status> {
    if e.Save? then [e.status] else []
  }

  lemma SavesOne(a: Effect)
    ensures Saves([a]) == StatusOf(a)
  {
    assert [a][..0] == [];
  }

  lemma SavesTwo(a: Effect, b: Effect)
    ensures Saves([a, b]) == StatusOf(a) + StatusOf(b)
  {
    SavesOne(a);
    SavesOne(b);
    SavesAppend([a], [b]);
    assert [a] + [b] == [a, b];
  }

  lemma SavesThree(a: Effect, b: Effect, c: Effect)
    ensures Saves([a, b, c]) == StatusOf(a) + StatusOf(b) + StatusOf(c)
  {
    SavesTwo(a, b);
    SavesOne(c);
    SavesAppend([a, b], [c]);
    assert [a, b] + [c] == [a, b, c];
  }

  lemma EndingSaves(at: Moment)
    ensures Saves(FailSteps(at)) == [Failed] && Saves(CancelSteps(at)) == [Cancelled]
  {
    SavesTwo(Save(Failed, Some(at)), Report(Failed, Some(at)));
    SavesThree(Save(Cancelled, Some(at)), Report(Cancelled, Some(at)), RemoveWorktree);
  }

  lemma SavesBeforeClaude(o: Outcome, gate: GateAnswer)
    requires Launched(o) || gate == Ungated
    ensures Saves(PrepareSteps(o) + AdmitSteps(gate, o.endAt)) ==
              if !o.markLands then [Running]
              else if !o.worktreeMade then [Running, Failed]
              else if o.stoppedEarly then [Running, Running, Cancelled]
              else if !o.rendered then [Running, Running, Failed]
              else if !o.open then [Running, Running, Cancelled]
              else match gate
                case Denied => [Running, Running, Cancelled]
                case Errored => [Running, Running, Failed]
                case _ => [Running, Running]
  {
    hide Saves, FailSteps, CancelSteps;
    SavesOne(MARK);
    SavesTwo(MARK, MARK);
    SavesThree(MARK, MARK, RemoveWorktree);
    SavesOne(Reserved);
    SavesOne(RemoveWorktree);
    SavesTwo(Blocked, RemoveWorktree);
    EndingSaves(o.endAt);
    SavesAppend([MARK], FailSteps(o.endAt));
    SavesAppend([MARK, MARK], FailSteps(o.endAt));
    SavesAppend([MARK, MARK], CancelSteps(o.endAt));
    SavesAppend([MARK, MARK, RemoveWorktree], CancelSteps(o.endAt));
    SavesAppend([Blocked, RemoveWorktree], CancelSteps(o.endAt));
    SavesAppend([RemoveWorktree], FailSteps(o.endAt));
    SavesAppend(PrepareSteps(o), AdmitSteps(gate, o.endAt));
    assert PrepareSteps(o) + [] == PrepareSteps(o);
  }

  lemma SavesAfterClaude(c: Config, o: Outcome, fix: bool, gate: GateAnswer)
    requires gate == Ungated || gate == Granted
    ensures Saves(UpToClaude(gate, o) + ConcludeSteps(c, o, fix)) == [Running, Running, ConcludedAs(c, o).status]
  {
    hide Saves, FailSteps, CancelSteps, PRSteps;
    var start, ran := [MARK, MARK] + AdmitSteps(gate, o.endAt), [Claude(o.claude.Completed?)];
    SavesTwo(MARK, MARK);
    SavesOne(Reserved);
    SavesOne(Claude(o.claude.Completed?));
    SavesOne(Gate(o.gatePasses));
    EndingSaves(o.endAt);
    SavesAppend([MARK, MARK], AdmitSteps(gate, o.endAt));
    assert [MARK, MARK] + [] == [MARK, MARK];
    SavesAppend(start, ran);
    SavesAppend(start + ran, ConcludeSteps(c, o, fix));
    PRSaves(c, o, fix);
    SavesAppend([Gate(o.gatePasses)], FailSteps(o.endAt));
    SavesAppend([Gate(o.gatePasses)], PRSteps(c, o, fix));
    assert [] + PRSteps(c, o, fix) == PRSteps(c, o, fix);
  }

  lemma PRSaves(c: Config, o: Outcome, fix: bool)
    ensures Saves(PRSteps(c, o, fix)) == [if c.createsPR && o.pr.Err? then Failed else Done]
  {
    hide Saves, FailSteps;
    var last := if c.ciFixEnabled && c.createsPR && o.pr.Ok? && o.pr.value > 0 && !fix then Watch else RemoveWorktree;
    var done := [Save(Done, Some(o.endAt)), Report(Done, Some(o.endAt)), last];
    EndingSaves(o.endAt);
    SavesTwo(OpenPR(false), RemoveWorktree);
    SavesOne(OpenPR(true));
    SavesThree(Save(Done, Some(o.endAt)), Report(Done, Some(o.endAt)), last);
    SavesAppend([OpenPR(false), RemoveWorktree], FailSteps(o.endAt));
    SavesAppend([OpenPR(true)], done);
    assert [] + done == done;
  }

  // ---- what else is in the steps -----------------------------------------------------------

  lemma UpToClaudeHas(gate: GateAnswer, o: Outcome)
    requires gate == Ungated || gate == Granted
    ensures forall e :: e in UpToClaude(gate, o) <==> e == MARK || (gate == Granted && e == Reserved) || e == Claude(o.claude.Completed?)
  {
  }

  lemma ConcludeHas(c: Config, o: Outcome, fix: bool)
    ensures var steps, t := ConcludeSteps(c, o, fix), ConcludedAs(c, o);
            && !Started(steps) && Reserved !in steps && Blocked !in steps
            && Report(t.status, t.finishedAt) in steps
            && (Watch in steps <==> t.status == Done && c.ciFixEnabled && t.prNumber > 0 && !fix)
            && (RemoveWorktree in steps <==>
                  t.status == Cancelled || t.failure == PRError || (t.status == Done && Watch !in steps))
  {
    hide PRSteps;
    PRHas(c, o, fix);
  }

  lemma PRHas(c: Config, o: Outcome, fix: bool)
    ensures var steps := PRSteps(c, o, fix);
            && !Started(steps) && Reserved !in steps && Blocked !in steps
            && (Watch in steps <==> c.createsPR && o.pr.Ok? && c.ciFixEnabled && o.pr.value > 0 && !fix)
            && (RemoveWorktree in steps <==> Watch !in steps)
            && Report(if c.createsPR && o.pr.Err? then Failed else Done, Some(o.endAt)) in steps
  {
  }

  lemma NothingIsLawful(budgeted: bool)
    ensures Lawful([], budgeted)
  {
  }
}
