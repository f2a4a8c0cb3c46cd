/** Claim, lease and dispatch as a transition system: the scheduler's tick, its worker
    goroutines, the reclaimer, the API and process restarts interleave freely, one
    atomic step at a time. */
module Protocol {
  import opened Wrappers
  import opened TaskTable

  /** maxFailures bounds how many reclaim cycles in a row may hit a database error. */
  datatype Config = Config(maxParallel: nat, lease: int, interval: int, maxFailures: nat)

  /** Where the tick goroutine is: waiting for the ticker, at the top of the fill loop,
      holding a slot it has not used, or holding a claimed row it has not dispatched. */
  datatype TickPc = Idle | Filling | Reserved | Loaded(id: TaskId, copy: Row)

  /** A worker goroutine between its spawn and its last deferred call. */
  datatype Phase = Spawned | Marked | Working | Exiting | Unregistered

  /** A worker goroutine and the copy of the row it saves back as a whole. */
  datatype Worker = Worker(task: TaskId, copy: Row, phase: Phase, cancelled: bool) {
    /** It may still run Claude or write the row. */
    predicate Live() {
      phase.Spawned? || phase.Marked? || phase.Working?
    }
  }

  datatype State = State(
    rows: Table, now: int, me: string,
    tick: TickPc, slots: nat, workers: map<nat, Worker>, nextWorker: nat, cancelMap: map<TaskId, nat>,
    claims: seq<TaskId>, lastFire: int, failures: nat, lastOk: int, lastBoot: int)

  datatype Step =
    | Enqueue(id: TaskId, repo: string, createdAt: int)
    | StopQueued(id: TaskId)
    | StopRunning(id: TaskId)
    | TickStart
    | Reserve
    | SlotsFull
    | Claim(id: TaskId, loaded: TaskId)
    | NothingToClaim
    | ClaimFails(flipped: Option<TaskId>)
    | Dispatch
    | MarkRunning(w: nat, landed: bool)
    | SaveWorktree(w: nat, landed: bool)
    | Finish(w: nat, status: Status, landed: bool)
    | Unregister(w: nat)
    | Release(w: nat)
    | Reclaim(ok: bool)
    | Restart(down: nat, me: string, dirty: set<TaskId>, unsaved: set<TaskId>)
    | Advance(dt: nat)

  predicate Enabled(c: Config, s: State, step: Step) {
    match step
    case Enqueue(id, _, _) => id !in s.rows
    case StopQueued(id) => id in s.rows && s.rows[id].status == Queued
    case StopRunning(id) => id in s.rows && s.rows[id].status == Running
    case TickStart => s.tick.Idle?
    case Reserve => s.tick.Filling? && s.slots < c.maxParallel
    case SlotsFull => s.tick.Filling? && s.slots >= c.maxParallel
    case Claim(id, loaded) =>
      s.tick.Reserved? && OldestEligible(s.rows, id) && LatestClaim(Claimed(s.rows, id, s.me, s.now), loaded, s.me)
    case NothingToClaim => s.tick.Reserved? && forall id | id in s.rows :: !Eligible(s.rows, id)
    case ClaimFails(flipped) => s.tick.Reserved? && (flipped.Some? ==> OldestEligible(s.rows, flipped.value))
    case Dispatch => s.tick.Loaded?
    case MarkRunning(w, _) => w in s.workers && s.workers[w].phase.Spawned?
    case SaveWorktree(w, _) => w in s.workers && s.workers[w].phase.Marked?
    case Finish(w, status, _) =>
      w in s.workers && (s.workers[w].phase.Marked? || s.workers[w].phase.Working?)
      && (status == Done || status == Failed || status == Cancelled)
    case Unregister(w) => w in s.workers && s.workers[w].phase.Exiting?
    case Release(w) => w in s.workers && s.workers[w].phase.Unregistered? && s.slots > 0
    case Reclaim(_) => true
    case Restart(_, me, _, _) => me != ""
    case Advance(_) => true
  }

  /** The row a worker writes: its whole copy under a new status. */
  function Saved(rows: Table, w: Worker, status: Status, landed: bool): Table {
    if landed then rows[w.task := w.copy.(status := status)] else rows
  }

  function InPhase(s: State, w: nat, phase: Phase): map<nat, Worker>
    requires w in s.workers
  {
    s.workers[w := s.workers[w].(phase := phase)]
  }

  function Apply(c: Config, s: State, step: Step): State
    requires Enabled(c, s, step)
  {
    match step
    case Enqueue(id, repo, createdAt) => s.(rows := s.rows[id := Row(repo, Queued, createdAt, None, None)])
    case StopQueued(id) => s.(rows := s.rows[id := s.rows[id].(status := Cancelled)])
    case StopRunning(id) =>
      if id in s.cancelMap && s.cancelMap[id] in s.workers then
        var w := s.cancelMap[id];
        s.(workers := s.workers[w := s.workers[w].(cancelled := true)])
      else s
    case TickStart => s.(tick := Filling)
    case Reserve => s.(tick := Reserved, slots := s.slots + 1)
    case SlotsFull => s.(tick := Idle)
    case Claim(id, loaded) =>
      var rows := Claimed(s.rows, id, s.me, s.now);
      s.(rows := rows, claims := s.claims + [id], tick := Loaded(loaded, rows[loaded]))
    case NothingToClaim => s.(tick := Idle, slots := if s.slots > 0 then s.slots - 1 else 0)
    case ClaimFails(flipped) =>
      var released := s.(tick := Idle, slots := if s.slots > 0 then s.slots - 1 else 0);
      if flipped.None? then released
      else released.(rows := Claimed(s.rows, flipped.value, s.me, s.now), claims := s.claims + [flipped.value])
    case Dispatch =>
      s.(tick := Filling, nextWorker := s.nextWorker + 1,
         workers := s.workers[s.nextWorker := Worker(s.tick.id, s.tick.copy, Spawned, false)],
         cancelMap := s.cancelMap[s.tick.id := s.nextWorker])
    case MarkRunning(w, landed) =>
      s.(rows := Saved(s.rows, s.workers[w], Running, landed), workers := InPhase(s, w, if landed then Marked else Exiting))
    case SaveWorktree(w, landed) =>
      s.(rows := Saved(s.rows, s.workers[w], Running, landed), workers := InPhase(s, w, Working))
    case Finish(w, status, landed) =>
      s.(rows := Saved(s.rows, s.workers[w], status, landed), workers := InPhase(s, w, Exiting))
    case Unregister(w) => s.(cancelMap := s.cancelMap - {s.workers[w].task}, workers := InPhase(s, w, Unregistered))
    case Release(w) => s.(workers := s.workers - {w}, slots := s.slots - 1)
    case Reclaim(ok) =>
      if ok then s.(rows := Reclaimed(s.rows, s.now - c.lease), lastFire := s.now, failures := 0, lastOk := s.now)
      else s.(lastFire := s.now, failures := s.failures + 1)
    case Restart(down, me, dirty, unsaved) =>
      var now := s.now + down;
      s.(rows := Recovered(s.rows, dirty, unsaved), now := now, me := me, tick := Idle, slots := 0,
         workers := map[], cancelMap := map[], lastFire := now, failures := 0, lastOk := now, lastBoot := now)
    case Advance(dt) => s.(now := s.now + dt)
  }

  ghost predicate Initial(s: State) {
    && s.rows == map[] && s.tick.Idle? && s.slots == 0 && s.workers == map[] && s.cancelMap == map[] && s.claims == [] && s.nextWorker == 0
    && s.me != "" && s.lastFire == s.lastOk == s.lastBoot == s.now && s.failures == 0
  }

  // ---- what the code does not enforce by itself -------------------------------------------

  /** Claim times of one process never repeat. */
  ghost predicate ClaimsDistinct(s: State, step: Step) {
    step.Claim? ==> ClaimTimeDistinct(s.rows, s.me, s.now)
  }

  /** A worker's two saves under 'running' land before its lease has run out. */
  predicate SavesPrompt(c: Config, s: State, step: Step) {
    (step.MarkRunning? || step.SaveWorktree?) && step.landed && step.w in s.workers ==>
      InLease(c, s.now, s.workers[step.w].copy)
  }

  predicate InLease(c: Config, now: int, row: Row) {
    row.claimedAt.Some? && now <= row.claimedAt.value + c.lease
  }

  /** No worker outlives its lease. */
  ghost predicate WorkersPrompt(c: Config, s: State, step: Step) {
    step.Advance? ==>
      && (forall w | w in s.workers && s.workers[w].Live() :: InLease(c, s.now + step.dt, s.workers[w].copy))
      && (s.tick.Loaded? ==> InLease(c, s.now + step.dt, s.tick.copy))
  }

  /** The reclaimer fires at least once an interval and fails at most maxFailures times in a row. */
  ghost predicate ReclaimerPrompt(c: Config, s: State, step: Step) {
    && (step.Advance? ==> s.now + step.dt <= s.lastFire + c.interval)
    && (step == Reclaim(false) ==> s.failures < c.maxFailures)
  }

  // ---- runs ----------------------------------------------------------------------------------

  /** Steps that can be taken one after the other, under the two standing assumptions. */
  ghost predicate Run(c: Config, s: State, steps: seq<Step>)
    decreases |steps|
  {
    steps != [] ==>
      && Enabled(c, s, steps[0]) && ClaimsDistinct(s, steps[0]) && SavesPrompt(c, s, steps[0])
      && Run(c, Apply(c, s, steps[0]), steps[1..])
  }

  ghost function End(c: Config, s: State, steps: seq<Step>): State
    requires Run(c, s, steps)
    decreases |steps|
  {
    if steps == [] then s else End(c, Apply(c, s, steps[0]), steps[1..])
  }

  // ---- the invariant ----------------------------------------------------------------------------

  /** Exclusion, and every running row carries its claim time. */
  ghost predicate RowsOk(rows: Table) {
    && Exclusive(rows)
    && forall id | id in rows && rows[id].status == Running :: rows[id].claimedAt.Some?
  }

  /** The copy someone works from belongs to a claimed row of the same repository. */
  ghost predicate CopyOk(rows: Table, claims: seq<TaskId>, id: TaskId, copy: Row) {
    && id in rows && id in claims
    && copy.repo == rows[id].repo && copy.status == Running && copy.claimedAt.Some?
  }

  ghost predicate CopiesOk(rows: Table, claims: seq<TaskId>, workers: map<nat, Worker>, tick: TickPc) {
    && (forall w | w in workers :: CopyOk(rows, claims, workers[w].task, workers[w].copy))
    && (tick.Loaded? ==> CopyOk(rows, claims, tick.id, tick.copy))
  }

  /** Until its lease is over, a claimed row stays running under the same claim time. */
  ghost predicate Held(lease: int, now: int, rows: Table, id: TaskId, copy: Row) {
    copy.claimedAt.Some? && now <= copy.claimedAt.value + lease ==>
      id in rows && rows[id].status == Running && rows[id].claimedAt == copy.claimedAt
  }

  ghost predicate HoldsOk(lease: int, now: int, rows: Table, workers: map<nat, Worker>, tick: TickPc) {
    && (forall w | w in workers && workers[w].Live() :: Held(lease, now, rows, workers[w].task, workers[w].copy))
    && (tick.Loaded? ==> Held(lease, now, rows, tick.id, tick.copy))
  }

  /** No two goroutines work on the same task. */
  ghost predicate Distinct(workers: map<nat, Worker>, nextWorker: nat, tick: TickPc) {
    && (forall w | w in workers :: w < nextWorker)
    && (forall v, w | v in workers && w in workers && v != w :: workers[v].task != workers[w].task)
    && (tick.Loaded? ==> forall w | w in workers :: workers[w].task != tick.id)
  }

  /** No row was ever claimed twice, and a claimed row is never queued again. */
  ghost predicate ClaimsOk(rows: Table, claims: seq<TaskId>) {
    && (forall i, j | 0 <= i < j < |claims| :: claims[i] != claims[j])
    && (forall id | id in claims :: id in rows && rows[id].status != Queued)
  }

  /** Slots in use: one per worker goroutine, and one the tick holds for the next. */
  ghost predicate SlotsOk(max: nat, slots: nat, workers: map<nat, Worker>, tick: TickPc) {
    slots == |workers| + (if tick.Reserved? || tick.Loaded? then 1 else 0) <= max
  }

  /** cancelMap lists exactly the registered workers, each under its own task. */
  ghost predicate CancelMapOk(workers: map<nat, Worker>, cancelMap: map<TaskId, nat>) {
    && (forall id | id in cancelMap ::
          cancelMap[id] in workers && workers[cancelMap[id]].task == id && !workers[cancelMap[id]].phase.Unregistered?)
    && (forall w | w in workers && !workers[w].phase.Unregistered? ::
          workers[w].task in cancelMap && cancelMap[workers[w].task] == w)
  }

  ghost predicate Inv(c: Config, s: State) {
    && RowsOk(s.rows)
    && CopiesOk(s.rows, s.claims, s.workers, s.tick)
    && HoldsOk(c.lease, s.now, s.rows, s.workers, s.tick)
    && Distinct(s.workers, s.nextWorker, s.tick)
    && ClaimsOk(s.rows, s.claims)
    && SlotsOk(c.maxParallel, s.slots, s.workers, s.tick)
    && CancelMapOk(s.workers, s.cancelMap)
  }

  lemma InitialInv(c: Config, s: State)
    requires Initial(s)
    ensures Inv(c, s)
  {
  }

  // ---- every step keeps the invariant -------------------------------------------------------------

  /** TickStart, Reserve, SlotsFull and NothingToClaim move only the tick and its slot. */
  lemma TickInv(c: Config, s: State, tick: TickPc, slots: nat)
    requires Inv(c, s) && !tick.Loaded? && SlotsOk(c.maxParallel, slots, s.workers, tick)
    ensures Inv(c, s.(tick := tick, slots := slots))
  {
    hide RowsOk, ClaimsOk, SlotsOk, CancelMapOk, CopyOk, Held;
  }

  /** Enqueue and StopQueued write a row nobody ever claimed. */
  lemma UnclaimedRowInv(c: Config, s: State, id: TaskId, row: Row)
    requires Inv(c, s) && id !in s.claims && row.status != Running
    requires id in s.rows ==> s.rows[id].status != Running && s.rows[id].repo == row.repo
    ensures Inv(c, s.(rows := s.rows[id := row]))
  {
    hide SlotsOk, CancelMapOk, Distinct;
  }

  /** A claim flips a queued row and enters it in the history. */
  lemma FlipInv(c: Config, s: State, id: TaskId)
    requires Inv(c, s) && Eligible(s.rows, id)
    ensures var rows := Claimed(s.rows, id, s.me, s.now);
            && RowsOk(rows) && ClaimsOk(rows, s.claims + [id])
            && CopiesOk(rows, s.claims + [id], s.workers, s.tick)
            && HoldsOk(c.lease, s.now, rows, s.workers, s.tick)
            && (forall w | w in s.workers :: s.workers[w].task != id)
            && CopyOk(rows, s.claims + [id], id, rows[id]) && Held(c.lease, s.now, rows, id, rows[id])
  {
    hide SlotsOk, CancelMapOk, Distinct, Exclusive;
    ExclusiveClaims(s.rows, id, s.me, s.now);
    assert id !in s.claims;
  }

  lemma ClaimInv(c: Config, s: State, id: TaskId, loaded: TaskId)
    requires Inv(c, s) && Enabled(c, s, Claim(id, loaded)) && ClaimTimeDistinct(s.rows, s.me, s.now)
    ensures loaded == id && Inv(c, Apply(c, s, Claim(id, loaded)))
  {
    hide RowsOk, ClaimsOk, CancelMapOk, CopyOk, Held, LatestClaim, ClaimTimeDistinct, Claimed;
    FlipInv(c, s, id);
    LoadsClaimedRowIff(s.rows, id, s.me, s.now);
  }

  lemma ClaimFailsInv(c: Config, s: State, flipped: Option<TaskId>)
    requires Inv(c, s) && Enabled(c, s, ClaimFails(flipped))
    ensures Inv(c, Apply(c, s, ClaimFails(flipped)))
  {
    hide RowsOk, ClaimsOk, CancelMapOk, CopyOk, Held, Claimed;
    if flipped.Some? {
      FlipInv(c, s, flipped.value);
    }
  }

  lemma DispatchInv(c: Config, s: State)
    requires Inv(c, s) && s.tick.Loaded?
    ensures Inv(c, Apply(c, s, Dispatch))
  {
    hide RowsOk, ClaimsOk, CopyOk, Held, CancelMapOk;
    var worker := Worker(s.tick.id, s.tick.copy, Spawned, false);
    assert s.nextWorker !in s.workers;
    CancelMapDispatch(s.workers, s.cancelMap, s.nextWorker, worker);
  }

  lemma CancelMapDispatch(workers: map<nat, Worker>, cancelMap: map<TaskId, nat>, w: nat, worker: Worker)
    requires CancelMapOk(workers, cancelMap) && w !in workers && !worker.phase.Unregistered?
    requires forall v | v in workers :: workers[v].task != worker.task
    ensures CancelMapOk(workers[w := worker], cancelMap[worker.task := w])
  {
  }

  lemma CancelMapPhase(workers: map<nat, Worker>, cancelMap: map<TaskId, nat>, w: nat, worker: Worker)
    requires CancelMapOk(workers, cancelMap) && w in workers && !workers[w].phase.Unregistered?
    requires !worker.phase.Unregistered? && worker.task == workers[w].task
    ensures CancelMapOk(workers[w := worker], cancelMap)
  {
  }

  lemma CancelMapUnregister(workers: map<nat, Worker>, cancelMap: map<TaskId, nat>, w: nat)
    requires CancelMapOk(workers, cancelMap) && w in workers && !workers[w].phase.Unregistered?
    requires forall v | v in workers && v != w :: workers[v].task != workers[w].task
    ensures CancelMapOk(workers[w := workers[w].(phase := Unregistered)], cancelMap - {workers[w].task})
  {
  }

  lemma CancelMapRelease(workers: map<nat, Worker>, cancelMap: map<TaskId, nat>, w: nat)
    requires CancelMapOk(workers, cancelMap) && w in workers && workers[w].phase.Unregistered?
    ensures CancelMapOk(workers - {w}, cancelMap)
  {
  }

  /** A worker moves on, whether or not its save of the whole row lands. */
  lemma SaveInv(c: Config, s: State, w: nat, status: Status, landed: bool, phase: Phase)
    requires Inv(c, s) && w in s.workers && s.workers[w].Live() && !phase.Unregistered? && status != Queued
    requires status == Running && landed ==> InLease(c, s.now, s.workers[w].copy)
    requires status != Running && landed ==> phase.Exiting?
    ensures Inv(c, s.(rows := Saved(s.rows, s.workers[w], status, landed), workers := InPhase(s, w, phase)))
  {
    PhaseInv(c, s, w, s.workers[w].(phase := phase));
    if landed {
      WriteInv(c, s, w, status, phase);
    }
  }

  /** Replacing a registered worker by itself in another registered phase. */
  lemma PhaseInv(c: Config, s: State, w: nat, worker: Worker)
    requires Inv(c, s) && w in s.workers && !s.workers[w].phase.Unregistered? && !worker.phase.Unregistered?
    requires worker.task == s.workers[w].task && worker.copy == s.workers[w].copy
    requires worker.Live() ==> s.workers[w].Live()
    ensures Inv(c, s.(workers := s.workers[w := worker]))
  {
    hide RowsOk, ClaimsOk, CancelMapOk, CopiesOk, HoldsOk, Distinct;
    assert s.workers[w := worker].Keys == s.workers.Keys;
    SameTasks(c, s, s.workers[w := worker]);
    CancelMapPhase(s.workers, s.cancelMap, w, worker);
  }

  lemma WriteInv(c: Config, s: State, w: nat, status: Status, phase: Phase)
    requires Inv(c, s) && w in s.workers && s.workers[w].Live() && status != Queued && !phase.Unregistered?
    requires Inv(c, s.(workers := InPhase(s, w, phase)))
    requires if status == Running then InLease(c, s.now, s.workers[w].copy) else phase.Exiting?
    ensures Inv(c, s.(rows := Saved(s.rows, s.workers[w], status, true), workers := InPhase(s, w, phase)))
  {
    hide SlotsOk, CancelMapOk, Exclusive, RowsOk, CopiesOk, HoldsOk, ClaimsOk, Distinct;
    WriteRows(s.rows, s.workers[w], status, c.lease, s.now, s.claims, s.workers, s.tick, w);
    WriteCopies(s.rows, s.workers[w], status, s.claims, InPhase(s, w, phase), s.tick, w);
    WriteHolds(s.rows, s.workers[w], status, c.lease, s.now, InPhase(s, w, phase), s.nextWorker, s.tick, w);
  }

  lemma WriteRows(rows: Table, worker: Worker, status: Status, lease: int, now: int, claims: seq<TaskId>,
                  workers: map<nat, Worker>, tick: TickPc, w: nat)
    requires RowsOk(rows) && CopiesOk(rows, claims, workers, tick) && HoldsOk(lease, now, rows, workers, tick) && ClaimsOk(rows, claims)
    requires w in workers && workers[w] == worker && worker.Live() && status != Queued
    requires status == Running ==> worker.copy.claimedAt.Some? && now <= worker.copy.claimedAt.value + lease
    ensures RowsOk(Saved(rows, worker, status, true)) && ClaimsOk(Saved(rows, worker, status, true), claims)
  {
    hide Exclusive;
    assert CopyOk(rows, claims, worker.task, worker.copy) && Held(lease, now, rows, worker.task, worker.copy);
    ExclusiveWriteIff(rows, worker.task, worker.copy.(status := status));
  }

  lemma WriteCopies(rows: Table, worker: Worker, status: Status, claims: seq<TaskId>, workers: map<nat, Worker>, tick: TickPc, w: nat)
    requires CopiesOk(rows, claims, workers, tick)
    requires w in workers && workers[w].task == worker.task && workers[w].copy == worker.copy
    ensures CopiesOk(Saved(rows, worker, status, true), claims, workers, tick)
  {
    assert CopyOk(rows, claims, worker.task, worker.copy);
  }

  lemma WriteHolds(rows: Table, worker: Worker, status: Status, lease: int, now: int,
                   workers: map<nat, Worker>, nextWorker: nat, tick: TickPc, w: nat)
    requires HoldsOk(lease, now, rows, workers, tick) && Distinct(workers, nextWorker, tick)
    requires w in workers && workers[w].task == worker.task && workers[w].copy == worker.copy
    requires status == Running || !workers[w].Live()
    ensures HoldsOk(lease, now, Saved(rows, worker, status, true), workers, tick)
  {
  }

  lemma StopRunningInv(c: Config, s: State, id: TaskId)
    requires Inv(c, s) && Enabled(c, s, StopRunning(id))
    ensures Inv(c, Apply(c, s, StopRunning(id)))
  {
    hide RowsOk, ClaimsOk, SlotsOk, CopyOk, Held, CopiesOk, HoldsOk, Distinct;
    if id in s.cancelMap {
      var w := s.cancelMap[id];
      PhaseInv(c, s, w, s.workers[w].(cancelled := true));
    }
  }

  lemma UnregisterInv(c: Config, s: State, w: nat)
    requires Inv(c, s) && w in s.workers && s.workers[w].phase.Exiting?
    ensures Inv(c, s.(cancelMap := s.cancelMap - {s.workers[w].task}, workers := InPhase(s, w, Unregistered)))
  {
    hide RowsOk, ClaimsOk, CancelMapOk, CopiesOk, HoldsOk, Distinct;
    assert InPhase(s, w, Unregistered).Keys == s.workers.Keys;
    SameTasks(c, s, InPhase(s, w, Unregistered));
    DistinctOthers(s.workers, s.nextWorker, s.tick, w);
    CancelMapUnregister(s.workers, s.cancelMap, w);
  }

  lemma DistinctOthers(workers: map<nat, Worker>, nextWorker: nat, tick: TickPc, w: nat)
    requires Distinct(workers, nextWorker, tick) && w in workers
    ensures forall v | v in workers && v != w :: workers[v].task != workers[w].task
  {
  }

  /** What is said about workers by their tasks and copies survives any subset of
      them, in any phase that revives none. */
  lemma SameTasks(c: Config, s: State, workers: map<nat, Worker>)
    requires CopiesOk(s.rows, s.claims, s.workers, s.tick) && HoldsOk(c.lease, s.now, s.rows, s.workers, s.tick)
    requires Distinct(s.workers, s.nextWorker, s.tick)
    requires forall w | w in workers ::
               w in s.workers && workers[w].task == s.workers[w].task && workers[w].copy == s.workers[w].copy
               && (workers[w].Live() ==> s.workers[w].Live())
    ensures CopiesOk(s.rows, s.claims, workers, s.tick) && HoldsOk(c.lease, s.now, s.rows, workers, s.tick)
    ensures Distinct(workers, s.nextWorker, s.tick)
  {
    hide CopyOk, Held;
  }

  lemma ReleaseInv(c: Config, s: State, w: nat)
    requires Inv(c, s) && w in s.workers && s.workers[w].phase.Unregistered?
    ensures Inv(c, s.(workers := s.workers - {w}, slots := s.slots - 1))
  {
    hide RowsOk, ClaimsOk, CancelMapOk, CopiesOk, HoldsOk, Distinct;
    assert s.workers.Keys == (s.workers - {w}).Keys + {w};
    SameTasks(c, s, s.workers - {w});
    CancelMapRelease(s.workers, s.cancelMap, w);
  }

  lemma ReclaimInv(c: Config, s: State, ok: bool)
    requires Inv(c, s)
    ensures Inv(c, Apply(c, s, Reclaim(ok)))
  {
    hide SlotsOk, CancelMapOk, Distinct;
  }

  lemma RestartInv(c: Config, s: State, down: nat, me: string, dirty: set<TaskId>, unsaved: set<TaskId>)
    requires Inv(c, s) && me != ""
    ensures Inv(c, Apply(c, s, Restart(down, me, dirty, unsaved)))
  {
    hide CopyOk, Held;
  }

  lemma AdvanceInv(c: Config, s: State, dt: nat)
    requires Inv(c, s)
    ensures Inv(c, Apply(c, s, Advance(dt)))
  {
    hide RowsOk, ClaimsOk, SlotsOk, CancelMapOk, CopyOk, Distinct;
  }

  lemma TickStepInv(c: Config, s: State, step: Step)
    requires Inv(c, s) && Enabled(c, s, step)
    requires step.TickStart? || step.Reserve? || step.SlotsFull? || step.NothingToClaim?
    ensures Inv(c, Apply(c, s, step))
  {
    hide RowsOk, CopiesOk, HoldsOk, Distinct, ClaimsOk, CancelMapOk, Eligible;
    match step
    case TickStart => TickInv(c, s, Filling, s.slots);
    case Reserve => TickInv(c, s, Reserved, s.slots + 1);
    case SlotsFull => TickInv(c, s, Idle, s.slots);
    case NothingToClaim => TickInv(c, s, Idle, s.slots - 1);
  }

  lemma RowStepInv(c: Config, s: State, step: Step)
    requires Inv(c, s) && Enabled(c, s, step)
    requires step.Enqueue? || step.StopQueued?
    ensures Inv(c, Apply(c, s, step))
  {
    hide RowsOk, CopiesOk, HoldsOk, Distinct, SlotsOk, CancelMapOk;
    match step
    case Enqueue(id, repo, createdAt) => UnclaimedRowInv(c, s, id, Row(repo, Queued, createdAt, None, None));
    case StopQueued(id) => UnclaimedRowInv(c, s, id, s.rows[id].(status := Cancelled));
  }

  lemma WorkerStepInv(c: Config, s: State, step: Step)
    requires Inv(c, s) && Enabled(c, s, step) && SavesPrompt(c, s, step)
    requires step.MarkRunning? || step.SaveWorktree? || step.Finish? || step.Unregister? || step.Release?
    ensures Inv(c, Apply(c, s, step))
  {
    hide Inv;
    match step
    case MarkRunning(w, landed) => SaveInv(c, s, w, Running, landed, if landed then Marked else Exiting);
    case SaveWorktree(w, landed) => SaveInv(c, s, w, Running, landed, Working);
    case Finish(w, status, landed) => SaveInv(c, s, w, status, landed, Exiting);
    case Unregister(w) => UnregisterInv(c, s, w);
    case Release(w) => ReleaseInv(c, s, w);
  }

  lemma InvStep(c: Config, s: State, step: Step)
    requires Inv(c, s) && Enabled(c, s, step) && ClaimsDistinct(s, step) && SavesPrompt(c, s, step)
    ensures Inv(c, Apply(c, s, step))
  {
    hide Inv, Apply, SavesPrompt, OldestEligible, LatestClaim;
    match step
    case StopRunning(id) => StopRunningInv(c, s, id);
    case Claim(id, loaded) => ClaimInv(c, s, id, loaded);
    case ClaimFails(flipped) => ClaimFailsInv(c, s, flipped);
    case Dispatch => DispatchInv(c, s);
    case Reclaim(ok) => ReclaimInv(c, s, ok);
    case Restart(down, me, dirty, unsaved) => RestartInv(c, s, down, me, dirty, unsaved);
    case Advance(dt) => AdvanceInv(c, s, dt);
    case _ =>
      if step.TickStart? || step.Reserve? || step.SlotsFull? || step.NothingToClaim? {
        TickStepInv(c, s, step);
      } else if step.Enqueue? || step.StopQueued? {
        RowStepInv(c, s, step);
      } else {
        WorkerStepInv(c, s, step);
      }
  }
}
