# claude-ops: a verified model of dispatch, budgets, CI fixes and usage

claude-ops drives rows of one `tasks` table from an issue to a pull request. A tick loop
claims queued rows under a slot limit, worker goroutines run Claude and save the rows
back, a reclaimer orphans rows whose lease ran out, boot recovery clears what a crash left
behind, a watcher polls the pull requests and enqueues repairs, and persisted counters,
filed under calendar keys, stand in for a log of everything that was started. This project
models those parts in Dafny and proves what they guarantee together.

Check it with `dafny verify dfyconfig.toml`.

## How the model is built

- **Protocol** (`TaskTable`, `Protocol`, `Dispatch`, `Lease`): a transition system over the
  rows, the slots, the live goroutines, the cancel map and the clock. A step is one atomic
  database statement or one action of a goroutine; tick, workers, reclaimer, API and
  restarts interleave freely. Safety is an invariant of all eighteen kinds of steps; the
  theorems are about every run.
- **Scheduler** (`Schedulers`): the scheduler as an object whose methods change its fields
  step by step, with any steps of the others in between. Every method extends a recorded
  run of the protocol, so the theorems about runs hold of the object.
- **Budget** (`Calendar`, `Keys`, `BudgetGate`, `BudgetLog`, `CostWarn`,
  `BudgetUseCases`, `Maintenance`): civil days are proleptic Gregorian day numbers, ISO
  week dates follow section 4.1.4 of ISO 8601:2004 (the Thursday rule), and the use cases
  are classes with a ghost log of every call that reached the gate. Any read or write of
  `app_states` may fail.
- **Worker** (`Workers`, `WorkerProtocol`): one run from mark-running to its end, with a
  journal of what it does to the outside, a statement of what may follow what, and the
  proof that such a run, woven into any steps of everybody else, is a run of the protocol.
- **Process** (`Processes`): workers and maintenance on one budget, over any number of
  restarts. Every use case object can be built on the table an earlier process left
  behind, and then continues its records.
- **CI watcher** (`Checks`, `CiWatchers`), **webhook deduplication** (`DedupCaches`),
  **usage** (`Tallies`, `UsageModels`, `UsageBuckets`) and **event stream** (`Streams`);
  `Wrappers` and `Sets` are small helpers.

Whatever the code cannot decide by itself (git, Claude, GitHub, failing queries, other
goroutines) is a parameter, and the theorems hold for all its values.

## Standing assumptions

The code does not enforce these by itself; each is a named predicate or a precondition,
and where it matters a lemma shows what happens without it.

- A claim is one atomic step and only the tick goroutine claims. A claim that finds
  nothing and the release of its slot are one step.
- Claim times of one process never repeat (`Protocol.ClaimsDistinct`). `claimed_at` has
  millisecond precision and the claimed row is found again by the latest one;
  `TaskTable.LoadsClaimedRowIff` says exactly when that finds the right row.
- A worker's two saves under `running` land before its lease runs out
  (`Protocol.SavesPrompt`). `Dispatch.LateSaveBreaksExclusion` is a run in which one does
  not, and `Dispatch.EarlySaveKeepsExclusionIff` the exact condition.
- There is one clock. In the code `claimed_at` is the database's NOW(3) and the
  reclaimer's cutoff is the process's clock minus the lease; the results about leases
  assume that the two clocks agree.
- A restart keeps the configured week start; caps may change. IDs generated for new rows
  are new, which only `CiWatchers.Watcher.Tick` needs, and it says so
  (`CiWatchers.FreshChildren`).
- A failed write to `app_states` is taken to have changed nothing. A write that reports
  an error after taking effect would leave a stored counter above the log of
  reservations, which errs on the side of the cap.
- Stopping a queued row reads and writes it in one step. Later saves of a slow worker may
  overwrite `orphaned` with a terminal status; that step is part of the model.
- The worker name is not empty, task IDs hold no `|`, and a row is handed to the watcher
  at most once, because it finishes at most once (each row is claimed at most once, which
  is proved).

## Where the code departs from its documentation

- A list of checks with a `stale` one passes; the comment says stuck
  (`Checks.DocumentedIff` has the exact condition).
- `max_attempts` does not bound the fixes of a pull request, because the attempt count
  that is compared belongs to the parent and nothing raises it. The number of fixes is the
  number of distinct failing heads; `exhausted` is never reached
  (`CiWatchers.Watcher.MaxAttemptsIff`, `CiWatchers.FixWithoutEnd`).
- After a 100% cost warning that came first, the next evaluation also sends the 80%
  warning, which the design reserves for costs below the limit
  (`CostWarn.EightyPastTheLimitIff`). Rounding moves both thresholds: 79.95% and 99.95%
  count as reached (`CostWarn.WarningThresholds`).
- Weekly usage totals are complete only while the last day of the range is not before the
  configured week start in its ISO week, because SQL groups by ISO week and the gaps are
  filled by the configured one (`UsageBuckets.WeekTotalsIff`).

## Model

| member | source | states |
|---|---|---|
| TaskTable.LoadsClaimedRowIff | db/query/task.sql:11-41 | the row loaded after a claim is the claimed one exactly when no row the worker still holds was claimed at the same time or later |
| TaskTable.ExclusiveClaims | db/query/task.sql:17-31 | claiming an eligible row leaves every repository with at most one running row |
| TaskTable.ExclusiveWriteIff | internal/repository/task_repository.go:185-193 | writing a whole row keeps exclusion exactly when the row ends up not running, was running already, or its repository is idle |
| TaskTable.ReclaimOrphans | db/query/task.sql:47-53 | exactly the running rows claimed before the cutoff become orphaned and lose their worker, and nothing else changes |
| TaskTable.RecoveryMarks | internal/gc/runner.go:117-142 | a running row that is saved at boot becomes orphaned when its worktree is dirty and failed when it is clean, and nothing else changes |
| Protocol.InvStep | internal/scheduler/scheduler.go:184-237 | each of the eighteen kinds of steps keeps exclusion, leases, distinct claims, distinct goroutines, slot accounting and the cancel map |
| Protocol.ClaimInv | internal/repository/task_repository.go:263-280 | a claim loads the row it flipped, and that row was never claimed and no goroutine has it |
| Protocol.SaveInv | internal/scheduler/worker.go:115-144 | a worker saving its whole copy, in time or with a final status, revives nothing beside a running row |
| Protocol.RestartInv | internal/gc/runner.go:106-142 | boot recovery re-establishes everything whatever was running, dirty or unsaved |
| Dispatch.ReachableStates | internal/scheduler/scheduler.go:184-237 | in every reachable state: one running row per repository, no row claimed twice, no two goroutines on one row, slots equal to goroutines plus the reservation and within the maximum, cancel map exact |
| Dispatch.StopHitsItsTask | internal/scheduler/scheduler.go:139-148 | stopping a running row cancels the goroutine of that row and no other, and finds nothing exactly when none is registered |
| Dispatch.EarlySaveKeepsExclusionIff | internal/scheduler/worker.go:118-122 | marking a row running keeps exclusion exactly when it still runs or its repository is idle |
| Dispatch.LateSaveBreaksExclusion | internal/scheduler/worker.go:118-122 | a reachable run in which a mark-running after the lease makes two running rows of one repository |
| Dispatch.FillLoopIsMaximal | internal/scheduler/scheduler.go:184-197 | when the fill loop ends without a repository error, all slots are taken or every queued row's repository is busy |
| Dispatch.QueueStep | db/query/task.sql:11-31 | a claim or stop takes exactly one row off the queue, an enqueue adds one, and no other step touches a queued row |
| Dispatch.QueueConserved | internal/scheduler/scheduler.go:180-197 | over every run, rows queued at the end plus rows claimed or stopped equal rows queued at the start plus rows enqueued |
| Dispatch.OvertakingIsBounded | db/query/task.sql:20-30 | while a row waits and newcomers are younger, claims that pass it by while its repository is idle are at most the rows queued ahead of it |
| Lease.PromptWorkersAreSafe | internal/scheduler/reclaimer.go:49-58 | if every worker ends within its lease, the reclaimer never touches a live worker's row and no repository has two live workers |
| Lease.DeadRowsAreReclaimed | internal/scheduler/reclaimer.go:44-60 | no row is running later than its lease (or the boot that left it) plus one interval, plus one interval per failed cycle in a row |
| Schedulers.Scheduler.Safe | internal/scheduler/scheduler.go:133-148 | after any sequence of the object's methods: exclusion, slots in use equal to goroutines plus reservation and within the maximum, cancel map exact, no row claimed twice |
| Schedulers.Scheduler.ClaimNext | internal/repository/task_repository.go:263-280 | claims and loads the oldest eligible row, reports none only when nothing is eligible, and gives its slot back whenever it returns no row; a failing query leaves everything as it was, or exactly the oldest eligible row flipped |
| Schedulers.Scheduler.DispatchOne | internal/scheduler/scheduler.go:199-238 | starts the goroutine of the oldest eligible row, or leaves rows and claims alone when nothing is eligible |
| Schedulers.Scheduler.Fill | internal/scheduler/scheduler.go:180-197 | ends with all slots taken, or with every queued row waiting for its own repository, or with the repository error; claims at most what was queued or arrived |
| Schedulers.Scheduler.Tick | internal/scheduler/scheduler.go:152-197 | a closed window or an exhausted budget dispatches nothing, a failing budget snapshot does not stop it, and otherwise it dispatches maximally |
| Schedulers.Scheduler.StopTask | internal/usecase/task_usecase.go:213-238 | a queued row becomes cancelled, a running one has exactly its goroutine cancelled, everything else is refused and left alone |
| Schedulers.Scheduler.Deregister | internal/scheduler/scheduler.go:223-228 | removes exactly its own entry from the cancel map |
| Schedulers.Scheduler.FreeSlot | internal/scheduler/scheduler.go:222 | a goroutine that ends always finds its slot to free |
| Schedulers.Scheduler.ReclaimStale | internal/scheduler/reclaimer.go:49-58 | orphans and counts exactly the running rows claimed before now minus the lease, and leaves every other row alone |
| Schedulers.Scheduler.Restart | internal/gc/runner.go:82-142 | a boot orphans the running rows with a dirty worktree and fails those with a clean one, leaves rows alone that did not run or could not be saved, and leaves none running when listing and saves succeed |
| Schedulers.Scheduler.RecoverOrphans | internal/gc/runner.go:106-142 | one save at a time, running rows with a dirty worktree become orphaned and those with a clean one failed; failed saves and other rows change nothing |
| Calendar.NextYear | internal/scheduler/budget_gate.go:81-83 | the closed form for the first day of a year agrees with the lengths of the years, leap years included |
| Calendar.MonthLength | internal/usecase/usage_usecase.go:196-207 | every month has its civil length, February by the leap rule |
| Calendar.UnixEpoch | internal/scheduler/budget_gate.go:78-80 | 1970-01-01 has the day number the clock counts from and is a Thursday |
| Calendar.IsoWeekCounts | internal/scheduler/budget_gate.go:83 | the Thursday rule and counting from the week of January 4 give the same week |
| Calendar.IsoWeekInjective | internal/scheduler/budget_gate.go:83-86 | two days share ISO year and week exactly when they share their Monday |
| Calendar.IsoWeekMonotone | internal/scheduler/budget_gate.go:83 | ISO year and week never go back in time |
| Keys.DateKeyInjective | internal/scheduler/budget_gate.go:64-69 | two days share a date key only if they are the same day |
| Keys.WeekKeyInjective | internal/scheduler/budget_gate.go:74-87 | for every week start, two days share a week key exactly when their weeks started on the same day |
| Keys.WeekKeyOrder | internal/scheduler/budget_gate.go:71-87 | over years 0 to 9999 week keys sort, as strings, strictly by the start of their week |
| Keys.Jan4 | internal/repository/usage_repository.go:258-260 | with Go's truncated remainder, the code's expression for the Monday of January 4's week is right for every year |
| Keys.WeekKeyRoundTrip | internal/repository/usage_repository.go:253-264 | parsing a formatted week key gives the Monday of the ISO week of the week's start and the next Monday |
| Keys.WeekRangeHoldsDay | internal/repository/usage_repository.go:251-264 | the range of a week key holds the day for Monday weeks, and for other week starts holds the start of its week |
| Keys.DayKeyRoundTrip | internal/repository/usage_repository.go:242-249 | parsing a formatted date key gives that day and the next |
| Keys.KeyExamples | internal/scheduler/budget_gate.go:63-87 | the keys of 1 July 2026 for days, months, Monday weeks and Sunday weeks |
| BudgetLog.CounterIsLogIff | internal/scheduler/budget_gate.go:92-106 | a stored counter equals the reservations of its bucket in the whole log exactly when that bucket has none before the last stretch of calls in it |
| BudgetLog.CounterIsLog | internal/usecase/budget_usecase.go:203-232 | with a clock that does not go back a day, daily and weekly counters equal the logged reservations of the current day and week |
| BudgetLog.DailyWithinWeekly | internal/scheduler/budget_gate.go:50-106 | the daily counter never exceeds the weekly one |
| BudgetLog.BucketWithinCap | internal/usecase/budget_usecase.go:130-148 | no day or week has more reservations than the largest cap in force at one of them |
| BudgetLog.WeekIsSevenDays | internal/scheduler/budget_gate.go:63-87 | the reservations of a week are those of its seven days |
| BudgetGate.DerivedCaps | internal/config/validate.go:177-189 | configured caps stay, a missing weekly cap is seven daily ones, a missing daily cap is the least that can use up the week |
| BudgetLog.WeeklyNeverBinds | internal/config/validate.go:177-189 | when the weekly cap is derived as seven times the daily one, the gate never answers weekly_cap_reached |
| BudgetLog.TicketsWithinGrants | internal/usecase/budget_usecase.go:127-148 | what is done once per reservation happens in no bucket more often than it has reservations |
| BudgetUseCases.DecisionOnLog | internal/usecase/budget_usecase.go:203-232 | each answer of the gate exactly in its case: rate_limited while a block is active, daily_cap_reached when the log has used up the day, weekly_cap_reached when only the week is used up, and allowed otherwise |
| BudgetUseCases.BudgetUseCase.constructor | internal/usecase/budget_usecase.go:84-101 | a new process on the stored state continues the same log |
| BudgetUseCases.BudgetUseCase.SnapshotLocked | internal/usecase/budget_usecase.go:203-256 | rolls the counters over, reports the effective limits and the block, and decides from the log |
| BudgetUseCases.BudgetUseCase.Snapshot | internal/usecase/budget_usecase.go:103-118 | reported counters are the logged reservations of the day and week |
| BudgetUseCases.BudgetUseCase.CheckAndIncrement | internal/usecase/budget_usecase.go:127-148 | reserves exactly when the log and the block allow it, counts one reservation then and none otherwise, also when storage fails |
| BudgetUseCases.BudgetUseCase.RecordRateLimitBlock | internal/usecase/budget_usecase.go:150-170 | afterwards the gate is blocked exactly until the reported time |
| BudgetUseCases.BudgetUseCase.SetLimits | internal/usecase/budget_usecase.go:172-200 | rejects negative or inverted limits and leaves them alone; otherwise positive overrides take effect and zeros fall back |
| CostWarn.WarningThresholds | internal/usecase/budget_usecase.go:360-363 | for every cost, rounding to a tenth makes 79.95% and 99.95% of the limit count as reached |
| CostWarn.EightyPastTheLimitIff | docs/specs/usage-dashboard.md:57 | at 100% or more the 80% warning is sent exactly when the 100% flag is up and the 80% flag is down, which two evaluations in a row bring about |
| CostWarn.EvaluationSends | internal/usecase/budget_usecase.go:342-413 | the same for the evaluation as a value: what is sent and which flags are up, by cost, limit and stored flags |
| CostWarn.EvaluationKeeps | internal/usecase/budget_usecase.go:339-414 | an evaluation writes each flag directly before sending and repeats nothing in a bucket while the clock does not go back a day |
| BudgetUseCases.BudgetUseCase.WarningsPerBucket | docs/specs/usage-dashboard.md:57 | over all processes, each scope sends at most one notification per flag in a bucket, each right after the write of its flag, while no write is lost and the clock does not go back a day |
| BudgetUseCases.BudgetUseCase.EvaluateCostWarn | internal/usecase/budget_usecase.go:321-414 | per scope, sends the 100% warning exactly when the limit is set, the cost known, 99.95% reached and that flag not up in this bucket; otherwise the 80% warning exactly at 79.95% with its flag not up; raises the flag of what it sends, clears flags of earlier buckets, and stores them |
| Maintenance.MaintenanceUseCase.CheckAndIncrementSubCap | internal/usecase/maintenance_usecase.go:110-148 | passes exactly when the sub-cap's own log has room, and logs one reservation then |
| Maintenance.MaintenanceUseCase.SubCapOnLog | internal/usecase/maintenance_usecase.go:124-142 | the sub-cap allows exactly while the name has fewer reservations of its own than each positive sub-cap |
| Maintenance.MaintenanceUseCase.ReserveGlobal | internal/usecase/maintenance_usecase.go:73-80 | the first of the two steps of an enqueue: the global gate, which leaves its caller one reservation or none |
| Maintenance.MaintenanceUseCase.CreateReserved | internal/usecase/maintenance_usecase.go:82-107 | the second step, at any later time and in any order with those of overlapping enqueues: the sub-cap, then the row, which carries its own reservation |
| Maintenance.MaintenanceUseCase.EnqueueMaintenance | internal/usecase/maintenance_usecase.go:67-108 | both steps with reservations of others in between: a row is created exactly on success and carries the reservation taken for it; a refusal after the reservation leaves it spent |
| Maintenance.MaintenanceUseCase.constructor | internal/usecase/maintenance_usecase.go:50-62 | a new process on the stored sub-cap counters continues the records of the earlier ones |
| Maintenance.MaintenanceUseCase.BudgetMoves | internal/usecase/maintenance_usecase.go:70-80 | whatever others reserve on the shared budget leaves the maintenance records in order |
| Maintenance.MaintenanceUseCase.RowsWithinSubCap | internal/usecase/maintenance_usecase.go:136-147 | rows created per name and day or week, by this process and those before it, never exceed a positive sub-cap |
| Maintenance.MaintenanceUseCase.RowsWithinGlobalGrants | internal/usecase/maintenance_usecase.go:73-80 | maintenance rows of a bucket, over all processes and in whatever order they are created, are covered by distinct global reservations |
| Workers.OneEnding | internal/scheduler/worker.go:332-368 | a run that reports has exactly one terminal save and one report, adjacent, with the same status and finish time |
| Workers.DoneInOrder | internal/scheduler/worker.go:183-285 | a done run reserved, then ran Claude, then passed its quality gate, then opened its pull request, in this order and each at most once, before it wrote its status |
| Workers.WatchKeepsWorktree | internal/scheduler/worker.go:301-312 | a worktree handed to the watcher is not removed |
| Workers.Worker.RunTask | internal/scheduler/worker.go:115-314 | every run that gets past mark-running ends once; done means window, budget, Claude, quality gate and pull request all succeeded; a failed run failed for exactly the step that failed; the worktree is kept or removed as each ending calls for, and never one the row was handed over with; Claude started exactly with a reservation of its own |
| WorkerProtocol.ForeignStepKeeps | internal/scheduler/scheduler.go:219-235 | no step of anybody else, short of a restart, moves a goroutine, gives it another task or touches its copy, also not after it is gone |
| WorkerProtocol.OwnStepWrites | internal/repository/task_repository.go:185-193 | a goroutine's landing save writes its whole copy under the one status, and its other steps write nothing |
| WorkerProtocol.WovenRun | internal/scheduler/scheduler.go:219-235 | with any steps of others before, between and after its own, a goroutine is never blocked and ends where its own steps lead |
| WorkerProtocol.RunTaskFollowsProtocol | internal/scheduler/worker.go:115-144 | a run of the worker, from mark-running to the freed slot and with any steps of others in between, is a run of the protocol in which the goroutine saves the journal's statuses in order and is gone in the end |
| WorkerProtocol.StopWasTaken | internal/scheduler/scheduler.go:138-148 | over every run, a goroutine's cancel flag goes up only by a stop of its own row |
| WorkerProtocol.StoppedRunWasStopped | internal/scheduler/worker.go:146-151 | a run that ended because its context was cancelled was stopped by one of the others before it wrote its last status |
| Workers.Worker.constructor | internal/scheduler/worker.go:106-112 | a new process continues the record of what was started under which reservation |
| Workers.Worker.RunsWithinCap | internal/scheduler/worker.go:179-209 | Claude is started in no day or week more often than its cap, over all processes |
| Processes.Process.constructor | internal/usecase/budget_usecase.go:258-276 | after a restart budget, maintenance and worker continue their records on the stored counters |
| Processes.Process.RunTask | internal/scheduler/worker.go:183-209 | a worker run, with others and further runs reserving before it reaches the gate and while Claude runs, keeps budget, maintenance and the joint record in order and adds the reservations that started Claude |
| Processes.Process.ReserveGlobal | internal/usecase/maintenance_usecase.go:73-80 | a granted reservation is one that nothing was spent on |
| Processes.Process.CreateReserved | internal/usecase/maintenance_usecase.go:82-107 | a row spends an unspent reservation, whichever enqueue took it and whatever was reserved or created since |
| Processes.Process.EnqueueMaintenance | internal/usecase/maintenance_usecase.go:70-108 | a whole enqueue, with reservations of others inside it, spends exactly its own |
| Processes.Process.SpentWithinCap | internal/usecase/maintenance_usecase.go:73-80 | Claude starts and maintenance rows of a day or week together, over all processes and in any order of reservations and rows, never exceed the cap: no reservation is used twice |
| Workers.Worker.AskBudget | internal/scheduler/worker.go:183-197 | a granted answer is a fresh reservation in the log, the run's own, whatever other goroutines and other runs asked in between |
| Checks.AggregateConclusion | internal/ci/checks.go:47-76 | pending for an empty or unfinished list, failed when a run failed, timed out or was cancelled, stuck when one only requires action, passed otherwise, with exactly the failing runs |
| Checks.FailingRunsInOrder | internal/ci/checks.go:54-61 | the failing runs are those that failed, timed out or were cancelled, in the order of the list |
| Checks.DocumentedIff | internal/ci/checks.go:38-46 | the code agrees with its comment exactly outside completed, failure-free lists with a check that is neither harmless nor waiting for an action |
| CiWatchers.DedupKeyInjective | migrations/000007_add_ci_fix_columns_to_tasks.up.sql:36-45 | the concatenated key separates (parent, head) pairs when parents hold no separator |
| CiWatchers.KeyTakenIff | db/query/task.sql:69-74 | the unique index refuses exactly the pairs that already have a child |
| CiWatchers.Watcher.ProcessTask | internal/ci/watcher.go:147-267 | from the poll's own fields: no pull request ends the watch, an overdue poll times out, a state other than open closes, an unfinished list keeps watching, a finished one without failures is stuck exactly with a required action and passed otherwise, a failing one gets its one fix; nothing else changes |
| CiWatchers.Watcher.HandleFailure | internal/ci/watcher.go:204-267 | a failing head gets a child exactly when it has none, attempts are left and nothing fails |
| CiWatchers.Watcher.EnqueueFixTask | internal/usecase/task_usecase.go:157-187 | creates the queued ci-fix child of the parent at the head, with attempt one, unless the write is lost or a key is taken |
| CiWatchers.Watcher.Tick | internal/ci/watcher.go:131-145 | every watched row has what its poll calls for, told from the polls' own fields and whatever happens to the others; every failing head is noted and answered; rows that are not watched stay as they are |
| CiWatchers.Watcher.FinishTask | internal/scheduler/worker.go:301-309 | only ordinary finished rows with a pull request become watched |
| CiWatchers.Watcher.SettledForGood | internal/ci/watcher.go:152-262 | over whole runs: rows stay, fixes keep parent and head, and a settled status is final, including the one of a row that is not or no longer watched |
| CiWatchers.Watcher.UniqueFixes | migrations/000007_add_ci_fix_columns_to_tasks.up.sql:33-45 | ci-fix rows are unique per (parent, head) |
| CiWatchers.Watcher.FixesAreEarned | internal/ci/watcher.go:185-262 | every ci-fix row answers completed checks with a failure on a head of an ordinary row, and is never watched itself |
| CiWatchers.Watcher.ChildrenAreFailingHeads | internal/ci/watcher.go:210-262 | a parent has at most as many children as distinct failing heads, and exactly as many while no prompt or create is lost |
| CiWatchers.Watcher.MaxAttemptsIff | docs/specs/ci-fix-loop.md:80 | the configured maximum bounds the fixes exactly while no more heads failed; exhausted is never reached |
| CiWatchers.FixWithoutEnd | internal/ci/watcher.go:217-229 | for every maximum and every n there is a run with n fixes of one pull request |
| DedupCaches.MemDedupCache.CheckAndAdd | internal/github/webhook_dedup.go:46-60 | accepts exactly when the unbounded history has no acceptance of the ID less than the ttl ago |
| DedupCaches.MemDedupCache.EvictExpired | internal/github/webhook_dedup.go:76-85 | deletes exactly the expired entries, and the cache still answers like the unbounded history |
| DedupCaches.RepeatsAreSpaced | internal/github/webhook_dedup.go:49-60 | two accepted deliveries of one ID are at least the ttl apart |
| DedupCaches.NothingIsLost | internal/github/webhook_dedup.go:49-60 | the first delivery of an ID is accepted, and one is turned away only if its ID was accepted less than the ttl earlier |
| UsageModels.SumByModel | internal/repository/usage_repository.go:122-198 | one row per model with that model's sums, by descending cost, adding up to everything the rows hold |
| UsageModels.ResultFields | internal/repository/usage_repository.go:141-187 | every field of a result row is that field summed over what the rows hold under the name, with nameless models and rows without models under unknown |
| UsageModels.TotalReads | internal/repository/usage_repository.go:141-174 | the total is, field by field, the model sums of rows with models and the totals of rows without |
| UsageModels.MentionsMeans | internal/repository/usage_repository.go:143-165 | which names appear in the result |
| UsageModels.Accumulate | internal/repository/usage_repository.go:139-174 | the accumulators hold each model's sum, unknown for nameless models and for rows without a readable map |
| UsageModels.SortByCost | internal/repository/usage_repository.go:189-195 | the exchange sort permutes the rows into descending cost |
| UsageModels.OrderIndependent | internal/repository/usage_repository.go:158-195 | whatever the map order, the rows are the same and so is the cost at every position |
| Tallies.SumOverTake | internal/repository/usage_repository.go:158-187 | a sum over a map does not depend on the order it is gone through |
| UsageBuckets.GroupsConserve | db/query/usage.sql:1-48 | the groups of a query add up to all rows in the range, whatever the granularity |
| UsageBuckets.FieldsAddUp | db/query/usage.sql:4-16 | in each group and over the range, counts, tokens and cost are those of done rows, and failed cost that of failed and cancelled ones |
| UsageBuckets.GapFill | internal/usecase/usage_usecase.go:160-211 | every bucket of the range exactly once in the order of time, one by one from the first day's to the last's, looked up in the groups and zero where there is none |
| UsageBuckets.FillMonths | internal/usecase/usage_usecase.go:196-207 | the same for months |
| UsageBuckets.FillWeeks | internal/usecase/usage_usecase.go:179-195 | the same for weeks, where only days are counted and seen keys are skipped |
| UsageBuckets.Aggregate | internal/usecase/usage_usecase.go:54-77 | each error exactly in its case; otherwise the buckets of the range, with totals that are everything in the range when the buckets are complete |
| UsageBuckets.GranularityIndependent | internal/usecase/usage_usecase.go:67-76 | with Monday weeks in UTC, days, weeks and months of one range have the same totals |
| UsageBuckets.FiledWeek | internal/scheduler/budget_gate.go:78-86 | a day is filed under its own ISO week exactly from the configured week start onwards, and never under a later one |
| UsageBuckets.WeekTotalsIff | internal/usecase/usage_usecase.go:179-195 | week totals are complete for every set of rows exactly when the last day is not before the configured week start in its ISO week |
| Streams.ParseStream | internal/claude/stream/parser.go:63-181 | the first event that ends the stream decides, from its own fields: a refused rate limit with its reset time and type, a session with a key, a result by its error flag and text; sends the texts, one warning per allowed rate-limit event and the result up to there; a cancellation only truncates, and exactly when it comes before they are through |
| Streams.HeardIsPrefix | internal/claude/stream/parser.go:67-175 | everything heard is a prefix in which only the last event ends the stream |
| Streams.LaterEventsIgnored | internal/claude/stream/parser.go:57-60 | events after an ending one change nothing |
| Streams.OneResultAtTheEnd | internal/claude/stream/parser.go:149-167 | at most one result is sent, last, and exactly when a result event ended the stream |
| Streams.TextsInOrder | internal/claude/stream/parser.go:113-121 | the chunks sent are the non-empty texts heard, in order |
| Streams.ToldIsSent | internal/claude/stream/parser.go:92-167 | the fold over the events heard sends what the events tell from the first one on |
| Streams.LowerFolds | internal/claude/stream/parser.go:155-164 | the comparison of result texts forgets the case of ASCII letters and nothing else |

## Left out

- HTTP handlers, the CLI, Slack and GitHub clients, metrics export, main wiring: plumbing.
- Process spawning, signals, git, prompts and the quality-gate shell: they answer through parameters of `Workers.Worker.RunTask` and `CiWatchers.Watcher.ProcessTask`.
- JSON and GORM: values are typed, and an undecodable value is a case of its own.
- Time zones: the zone database and daylight saving; a moment carries the civil day it falls on in the configured zone, and the usage queries run in UTC.
- Integer widths: counters and times are unbounded integers.
- Floating point: costs are reals, so sums do not depend on the order of rounding.
- The order in which the watcher polls rows, and MySQL's ORDER BY in the usage queries, neither of which reaches a result that is modelled.
- Cost ranges against budget buckets: the ranges are Monday-anchored and in UTC, the buckets follow the configured week start and zone.
- Watching ends within the poll timeout: every poll refreshes the time it is measured from.
- One active row per repository and issue: check and create are separate statements.
- Window arithmetic, label matching, secret masking, webhook signatures and the ETA: easy or library behaviour; the window is a parameter.
- Schedulers.Scheduler.Fill: the model advances the clock by at least one unit before each claim, which stands in for distinct claim times.
- Workers.Worker.RunTask: counts attempts to save; whether a terminal save lands is the database's answer, and after a cancellation it may not. Token counts, log files, events and cost warnings at the end of a run are not recorded in the journal.
- BudgetUseCases.BudgetUseCase.CheckAndIncrement: the log starts with the counters that were stored first; a stored value that somebody else corrupts would start it anew.
- WorkerProtocol.StoppedRunWasStopped: a process that shuts down cancels every context; the lemma speaks of contexts that are cancelled by a stop (`ReadsFlag`).
- Keys.DayKeyRoundTrip: for years 0 to 9999, where the layout has four digits.
- UsageBuckets.Groups: MySQL's date formats are taken to agree with Go's keys, which they do in years 0 to 9999.
- Streams.Lower: lower-casing is ASCII only.
