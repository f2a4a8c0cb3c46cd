/** The timed half of the protocol: with prompt workers the reclaimer only ever takes rows
    from the dead, and with a prompt reclaimer it takes them in bounded time. */
module Lease {
  import opened Wrappers
  import opened TaskTable
  import opened Protocol
  import opened Dispatch

  // ---- prompt workers -------------------------------------------------------------------

  /** Whoever holds a copy of a row is still within the lease. */
  ghost predicate WithinLease(c: Config, s: State) {
    && (forall w | w in s.workers && s.workers[w].Live() :: InLease(c, s.now, s.workers[w].copy))
    && (s.tick.Loaded? ==> InLease(c, s.now, s.tick.copy))
  }

  ghost predicate PromptRun(c: Config, s: State, steps: seq<Step>)
    requires Run(c, s, steps)
    decreases |steps|
  {
    steps != [] ==> WorkersPrompt(c, s, steps[0]) && PromptRun(c, Apply(c, s, steps[0]), steps[1..])
  }

  lemma WithinLeaseStep(c: Config, s: State, step: Step)
    requires Inv(c, s) && WithinLease(c, s) && Enabled(c, s, step) && WorkersPrompt(c, s, step)
    requires ClaimsDistinct(s, step) && c.lease >= 0
    ensures WithinLease(c, Apply(c, s, step))
  {
    hide RowsOk, CopiesOk, HoldsOk, Distinct, ClaimsOk, SlotsOk, CancelMapOk, RepoBusy, LatestClaim, ClaimTimeDistinct;
    if step.Claim? {
      ClaimInv(c, s, step.id, step.loaded);
    }
  }

  lemma {:induction false} PromptRunKeeps(c: Config, s: State, steps: seq<Step>)
    requires Inv(c, s) && WithinLease(c, s) && Run(c, s, steps) && PromptRun(c, s, steps) && c.lease >= 0
    ensures Inv(c, End(c, s, steps)) && WithinLease(c, End(c, s, steps))
    decreases |steps|
  {
    hide Inv, Apply, Enabled, WithinLease;
    if steps != [] {
      InvStep(c, s, steps[0]);
      WithinLeaseStep(c, s, steps[0]);
      PromptRunKeeps(c, Apply(c, s, steps[0]), steps[1..]);
    }
  }

  /** If every worker finishes within the lease, then in every reachable state the row of
      a live worker is running, the reclaimer would leave it alone, and no repository has
      two live workers. */
  lemma PromptWorkersAreSafe(c: Config, s: State, steps: seq<Step>)
    requires Initial(s) && Run(c, s, steps) && PromptRun(c, s, steps) && c.lease >= 0
    ensures var e := End(c, s, steps);
            && (forall w | w in e.workers && e.workers[w].Live() ::
                  var task := e.workers[w].task;
                  && task in e.rows && e.rows[task].status == Running
                  && Apply(c, e, Reclaim(true)).rows[task] == e.rows[task])
            && (forall v, w | v in e.workers && w in e.workers && e.workers[v].Live() && e.workers[w].Live()
                              && e.workers[v].copy.repo == e.workers[w].copy.repo :: v == w)
  {
    hide Inv, Apply, Enabled;
    InitialInv(c, s);
    PromptRunKeeps(c, s, steps);
    LiveRowsAreRunning(c, End(c, s, steps));
  }

  lemma LiveRowsAreRunning(c: Config, e: State)
    requires Inv(c, e) && WithinLease(c, e)
    ensures forall w | w in e.workers && e.workers[w].Live() ::
              var task := e.workers[w].task;
              && task in e.rows && e.rows[task].status == Running
              && Apply(c, e, Reclaim(true)).rows[task] == e.rows[task]
    ensures forall v, w | v in e.workers && w in e.workers && e.workers[v].Live() && e.workers[w].Live()
              && e.workers[v].copy.repo == e.workers[w].copy.repo :: v == w
  {
    hide SlotsOk, CancelMapOk, ClaimsOk;
    forall w | w in e.workers && e.workers[w].Live()
      ensures e.workers[w].task in e.rows && e.rows[e.workers[w].task].status == Running
      ensures e.rows[e.workers[w].task].claimedAt == e.workers[w].copy.claimedAt
      ensures e.rows[e.workers[w].task].repo == e.workers[w].copy.repo
    {
      assert CopyOk(e.rows, e.claims, e.workers[w].task, e.workers[w].copy);
      assert Held(c.lease, e.now, e.rows, e.workers[w].task, e.workers[w].copy);
    }
  }

  // ---- a prompt reclaimer ------------------------------------------------------------------

  ghost predicate ReclaimedRun(c: Config, s: State, steps: seq<Step>)
    requires Run(c, s, steps)
    decreases |steps|
  {
    steps != [] ==> ReclaimerPrompt(c, s, steps[0]) && ReclaimedRun(c, Apply(c, s, steps[0]), steps[1..])
  }

  /** When the lease of a running row counts from: its claim, or the boot that left it. */
  function Due(c: Config, s: State, row: Row): int {
    var over := if row.claimedAt.Some? then row.claimedAt.value + c.lease else s.lastBoot;
    if over >= s.lastBoot then over else s.lastBoot
  }

  ghost predicate ReclaimClockOk(c: Config, s: State) {
    && s.lastOk <= s.now && s.lastFire <= s.now <= s.lastFire + c.interval
    && s.failures <= c.maxFailures
    && s.lastFire <= s.lastOk + s.failures * c.interval
    && forall id | id in s.rows && s.rows[id].status == Running :: s.lastOk <= Due(c, s, s.rows[id])
  }

  lemma ReclaimClockStep(c: Config, s: State, step: Step)
    requires Inv(c, s) && ReclaimClockOk(c, s) && Enabled(c, s, step) && ReclaimerPrompt(c, s, step)
    requires SavesPrompt(c, s, step) && c.lease >= 0 && c.interval >= 0
    ensures ReclaimClockOk(c, Apply(c, s, step))
  {
    hide Inv, ReclaimClockOk, Apply, Enabled;
    if step.MarkRunning? || step.SaveWorktree? || step.Finish? {
      SaveClock(c, s, step);
    } else if step.Reclaim? || step.Restart? {
      SweepClock(c, s, step);
    } else {
      OtherClock(c, s, step);
    }
  }

  lemma SaveClock(c: Config, s: State, step: Step)
    requires Inv(c, s) && ReclaimClockOk(c, s) && Enabled(c, s, step) && SavesPrompt(c, s, step)
    requires step.MarkRunning? || step.SaveWorktree? || step.Finish?
    ensures ReclaimClockOk(c, Apply(c, s, step))
  {
    hide RowsOk, CopiesOk, HoldsOk, Distinct, ClaimsOk, SlotsOk, CancelMapOk, Saved;
    SaveKeepsDue(c, s, step.w, if step.Finish? then step.status else Running, step.landed);
  }

  lemma SweepClock(c: Config, s: State, step: Step)
    requires Inv(c, s) && ReclaimClockOk(c, s) && Enabled(c, s, step) && ReclaimerPrompt(c, s, step)
    requires (step.Reclaim? || step.Restart?) && c.lease >= 0 && c.interval >= 0
    ensures ReclaimClockOk(c, Apply(c, s, step))
  {
    hide Exclusive, CopiesOk, HoldsOk, Distinct, ClaimsOk, SlotsOk, CancelMapOk;
    assert (s.failures + 1) * c.interval == s.failures * c.interval + c.interval;
  }

  lemma OtherClock(c: Config, s: State, step: Step)
    requires Inv(c, s) && ReclaimClockOk(c, s) && Enabled(c, s, step) && ReclaimerPrompt(c, s, step) && c.lease >= 0
    requires !step.MarkRunning? && !step.SaveWorktree? && !step.Finish? && !step.Reclaim? && !step.Restart?
    ensures ReclaimClockOk(c, Apply(c, s, step))
  {
    hide Inv, RepoBusy, LatestClaim, Saved, Reclaimed, Recovered;
  }

  /** A save leaves no running row with an earlier claim time than it had. */
  lemma SaveKeepsDue(c: Config, s: State, w: nat, status: Status, landed: bool)
    requires HoldsOk(c.lease, s.now, s.rows, s.workers, s.tick) && w in s.workers && s.workers[w].Live()
    requires status == Running && landed ==> InLease(c, s.now, s.workers[w].copy)
    ensures var rows := Saved(s.rows, s.workers[w], status, landed);
            forall id | id in rows && rows[id].status == Running ::
              id in s.rows && s.rows[id].status == Running && rows[id].claimedAt == s.rows[id].claimedAt
  {
    assert Held(c.lease, s.now, s.rows, s.workers[w].task, s.workers[w].copy);
  }

  lemma {:induction false} ReclaimedRunKeeps(c: Config, s: State, steps: seq<Step>)
    requires Inv(c, s) && ReclaimClockOk(c, s) && Run(c, s, steps) && ReclaimedRun(c, s, steps)
    requires c.lease >= 0 && c.interval >= 0
    ensures ReclaimClockOk(c, End(c, s, steps))
    decreases |steps|
  {
    hide Inv, Apply, Enabled, ReclaimClockOk;
    if steps != [] {
      InvStep(c, s, steps[0]);
      ReclaimClockStep(c, s, steps[0]);
      ReclaimedRunKeeps(c, Apply(c, s, steps[0]), steps[1..]);
    }
  }

  /** A row is never running later than one reclaim interval, plus one for every failed
      cycle in a row, after its lease ran out (or after the boot that failed to clear it):
      by then it has finished or the reclaimer has orphaned it. */
  lemma DeadRowsAreReclaimed(c: Config, s: State, steps: seq<Step>, id: TaskId)
    requires Initial(s) && Run(c, s, steps) && ReclaimedRun(c, s, steps)
    requires c.lease >= 0 && c.interval >= 0
    requires var e := End(c, s, steps); id in e.rows && e.rows[id].status == Running
    ensures var e := End(c, s, steps);
            e.now <= Due(c, e, e.rows[id]) + (c.maxFailures + 1) * c.interval
  {
    hide Apply, Enabled;
    InitialInv(c, s);
    ReclaimedRunKeeps(c, s, steps);
    var e := End(c, s, steps);
    FailuresBound(e.failures, c.maxFailures, c.interval);
  }

  lemma FailuresBound(a: nat, b: nat, interval: int)
    requires a <= b && interval >= 0
    ensures a * interval + interval <= (b + 1) * interval
  {
    assert (b + 1) * interval - (a * interval + interval) == (b - a) * interval;
  }
}
