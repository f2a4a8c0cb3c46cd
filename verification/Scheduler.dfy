/** The scheduler, the reclaimer and boot recovery as the code runs them: fields that
    change step by step, with other goroutines interleaving between any two actions.
    Every method extends a recorded run of the protocol, so whatever holds of all runs
    holds of these objects. */
module Schedulers {
  import opened Wrappers
  import opened TaskTable
  import opened Protocol
  import opened Dispatch

  /** Steps of everybody but the tick goroutine. */
  predicate OthersStep(step: Step) {
    step.Enqueue? || step.StopQueued? || step.StopRunning? || step.MarkRunning? || step.SaveWorktree? || step.Finish?
    || step.Unregister? || step.Release? || step.Reclaim? || step.Advance?
  }

  lemma OthersLeaveTheTick(c: Config, s: State, step: Step)
    requires Enabled(c, s, step) && OthersStep(step)
    ensures var e := Apply(c, s, step);
            e.tick == s.tick && e.claims == s.claims && e.nextWorker == s.nextWorker && e.me == s.me && e.now >= s.now && e.lastBoot == s.lastBoot
  {
  }

  predicate Past(row: Row, now: int) {
    row.claimedAt.Some? ==> row.claimedAt.value <= now
  }

  /** No row and no copy carries a claim time of the future. */
  ghost predicate ClaimsPast(s: State) {
    && (forall id | id in s.rows :: Past(s.rows[id], s.now))
    && (forall w | w in s.workers :: Past(s.workers[w].copy, s.now))
    && (s.tick.Loaded? ==> Past(s.tick.copy, s.now))
  }

  lemma ClaimsPastStep(c: Config, s: State, step: Step)
    requires ClaimsPast(s) && Enabled(c, s, step)
    ensures ClaimsPast(Apply(c, s, step))
  {
    hide ClaimsPast, Enabled, Apply;
    if step.Reclaim? || step.Restart? {
      ClaimsPastSweep(c, s, step);
    } else if step.Claim? || step.ClaimFails? {
      ClaimsPastClaim(c, s, step);
    } else {
      ClaimsPastOther(c, s, step);
    }
  }

  lemma ClaimsPastSweep(c: Config, s: State, step: Step)
    requires ClaimsPast(s) && Enabled(c, s, step) && (step.Reclaim? || step.Restart?)
    ensures ClaimsPast(Apply(c, s, step))
  {
    hide Stale;
  }

  lemma ClaimsPastClaim(c: Config, s: State, step: Step)
    requires ClaimsPast(s) && Enabled(c, s, step) && (step.Claim? || step.ClaimFails?)
    ensures ClaimsPast(Apply(c, s, step))
  {
    hide RepoBusy;
  }

  lemma ClaimsPastOther(c: Config, s: State, step: Step)
    requires ClaimsPast(s) && Enabled(c, s, step)
    requires !step.Reclaim? && !step.Restart? && !step.Claim? && !step.ClaimFails?
    ensures ClaimsPast(Apply(c, s, step))
  {
    hide Eligible, OldestEligible, LatestClaim, Reclaimed, Recovered, Claimed;
  }

  lemma {:induction false} ClaimsPastRun(c: Config, s: State, steps: seq<Step>)
    requires ClaimsPast(s) && Run(c, s, steps)
    ensures ClaimsPast(End(c, s, steps))
    decreases |steps|
  {
    hide ClaimsPast, Apply, Enabled;
    if steps != [] {
      ClaimsPastStep(c, s, steps[0]);
      ClaimsPastRun(c, Apply(c, s, steps[0]), steps[1..]);
    }
  }

  lemma {:induction false} OldestExists(rows: Table, ids: set<TaskId>) returns (oldest: TaskId)
    requires ids != {} && ids <= rows.Keys
    ensures oldest in ids && forall id | id in ids :: rows[oldest].createdAt <= rows[id].createdAt
    decreases |ids|
  {
    var id :| id in ids;
    if ids == {id} {
      oldest := id;
    } else {
      var rest := OldestExists(rows, ids - {id});
      oldest := if rows[rest].createdAt <= rows[id].createdAt then rest else id;
    }
  }

  lemma EligibleIsRow(rows: Table, id: TaskId)
    requires Eligible(rows, id)
    ensures id in rows
  {
  }

  lemma SomeOldest(rows: Table, id: TaskId)
    requires Eligible(rows, id)
    ensures exists oldest | oldest in rows :: OldestEligible(rows, oldest)
  {
    hide Eligible;
    var eligible := set other | other in rows && Eligible(rows, other);
    assert id in eligible by { EligibleIsRow(rows, id); }
    var oldest := OldestExists(rows, eligible);
    assert OldestEligible(rows, oldest);
  }

  /** A step of the others does not look at the tick or the claim history. */
  lemma TickAside(c: Config, s: State, aside: State, step: Step)
    requires OthersStep(step) && aside == s.(tick := Idle, claims := [])
    requires Enabled(c, aside, step) && SavesPrompt(c, aside, step)
    ensures Enabled(c, s, step) && SavesPrompt(c, s, step) && ClaimsDistinct(s, step)
    ensures Apply(c, s, step) == Apply(c, aside, step).(tick := s.tick, claims := s.claims)
  {
    hide Enabled, Apply, SavesPrompt, ClaimsDistinct;
    if step.MarkRunning? || step.SaveWorktree? || step.Finish? {
      SaveAside(c, s, aside, step);
    } else if step.Enqueue? || step.StopQueued? || step.StopRunning? {
      RequestAside(c, s, aside, step);
    } else {
      OtherAside(c, s, aside, step);
    }
  }

  lemma SaveAside(c: Config, s: State, aside: State, step: Step)
    requires (step.MarkRunning? || step.SaveWorktree? || step.Finish?) && aside == s.(tick := Idle, claims := [])
    requires Enabled(c, aside, step) && SavesPrompt(c, aside, step)
    ensures Enabled(c, s, step) && SavesPrompt(c, s, step) && ClaimsDistinct(s, step)
    ensures Apply(c, s, step) == Apply(c, aside, step).(tick := s.tick, claims := s.claims)
  {
    hide Saved, InLease;
  }

  lemma RequestAside(c: Config, s: State, aside: State, step: Step)
    requires (step.Enqueue? || step.StopQueued? || step.StopRunning?) && aside == s.(tick := Idle, claims := [])
    requires Enabled(c, aside, step) && SavesPrompt(c, aside, step)
    ensures Enabled(c, s, step) && SavesPrompt(c, s, step) && ClaimsDistinct(s, step)
    ensures Apply(c, s, step) == Apply(c, aside, step).(tick := s.tick, claims := s.claims)
  {
  }

  lemma OtherAside(c: Config, s: State, aside: State, step: Step)
    requires (step.Unregister? || step.Release? || step.Reclaim? || step.Advance?) && aside == s.(tick := Idle, claims := [])
    requires Enabled(c, aside, step) && SavesPrompt(c, aside, step)
    ensures Enabled(c, s, step) && SavesPrompt(c, s, step) && ClaimsDistinct(s, step)
    ensures Apply(c, s, step) == Apply(c, aside, step).(tick := s.tick, claims := s.claims)
  {
    hide Reclaimed;
  }

  /** What goes on around one turn of the fill loop: the steps of others before the claim
      and between the claim and the dispatch, and how the repository answers. */
  datatype Turn = Turn(before: seq<Step>, fails: bool, flips: bool, between: seq<Step>)

  /** Rows that others enqueue during the turns. */
  function Arrivals(turns: seq<Turn>): nat {
    if turns == [] then 0 else Added(turns[0].before) + Added(turns[0].between) + Arrivals(turns[1..])
  }

  /** What a failing claim leaves behind: nothing at all, or exactly the oldest eligible
      row flipped, in the history of claims and with no goroutine. */
  ghost predicate FailedClaim(before: Table, was: seq<TaskId>, after: Table, claims: seq<TaskId>, worker: string, now: int) {
    || (after == before && claims == was)
    || (&& |claims| == |was| + 1 && claims == was + [claims[|was|]] && OldestEligible(before, claims[|was|])
        && claims[|was|] in before && after == Claimed(before, claims[|was|], worker, now))
  }

  /** Why a tick ended. */
  datatype Stop = Closed | OverBudget | Full | Drained | Broken

  datatype StopResult = Stopped | Refused

  class Scheduler {
    const c: Config
    var rows: Table
    var now: int
    var workerId: string
    var sem: nat
    var cancelMap: map<TaskId, nat>
    var workers: map<nat, Worker>
    var nextWorker: nat
    var lastFire: int
    var failures: nat
    var lastOk: int
    var lastBoot: int

    ghost var tick: TickPc
    ghost var claims: seq<TaskId>
    ghost const start: State
    ghost var history: seq<Step>

    ghost function View(): State
      reads this
    {
      State(rows, now, workerId, tick, sem, workers, nextWorker, cancelMap, claims, lastFire, failures, lastOk, lastBoot)
    }

    /** The object is where its recorded run of the protocol leads. */
    ghost predicate Valid()
      reads this
    {
      Reached(View())
    }

    ghost predicate Reached(s: State)
      reads this`history
    {
      Initial(start) && Run(c, start, history) && End(c, start, history) == s
    }

    constructor (c: Config, workerId: string, now: int)
      requires workerId != ""
      ensures Valid() && history == [] && tick.Idle?
      ensures this.c == c && rows == map[]
    {
      this.c := c;
      this.workerId, this.now := workerId, now;
      rows, sem, cancelMap, workers, nextWorker := map[], 0, map[], map[], 0;
      lastFire, failures, lastOk, lastBoot := now, 0, now, now;
      tick, claims, history := Idle, [], [];
      start := State(map[], now, workerId, Idle, 0, map[], 0, map[], [], now, 0, now, now);
    }

    lemma Invariant(s: State)
      requires Reached(s)
      ensures Inv(c, s) && ClaimsPast(s)
    {
      hide Inv, Apply, Enabled;
      InitialInv(c, start);
      RunKeepsInv(c, start, history);
      ClaimsPastRun(c, start, history);
    }

    /** What holds of the object after any sequence of its methods. */
    lemma Safe()
      requires Valid()
      ensures Exclusive(rows)
      ensures sem == |workers| + (if tick.Reserved? || tick.Loaded? then 1 else 0) <= c.maxParallel
      ensures CancelMapOk(workers, cancelMap)
      ensures forall v, w | v in workers && w in workers && v != w :: workers[v].task != workers[w].task
      ensures forall i, j | 0 <= i < j < |claims| :: claims[i] != claims[j]
    {
      hide CancelMapOk, Run, End, Apply, Enabled;
      ReachableStates(c, start, history);
    }

    /** Adds a step to the recorded run. */
    ghost method Record(s: State, step: Step)
      requires Reached(s) && Enabled(c, s, step) && ClaimsDistinct(s, step) && SavesPrompt(c, s, step)
      modifies this`history
      ensures Reached(Apply(c, s, step))
      ensures |QueuedIds(Apply(c, s, step).rows)| <=
              |QueuedIds(s.rows)| + (if step.Enqueue? then 1 else 0) - (if step.Claim? then 1 else 0)
      ensures Inv(c, s) && Inv(c, Apply(c, s, step))
    {
      hide Inv, Apply, Enabled, ClaimsDistinct, SavesPrompt, QueuedIds;
      Invariant(s);
      QueueStep(c, s, step);
      InvStep(c, s, step);
      history := Extend(c, start, history, step);
    }

    /** One step of somebody else, as the protocol defines it. */
    method Others(step: Step)
      requires Valid() && OthersStep(step)
      modifies this
      ensures Valid()
      ensures tick == old(tick) && claims == old(claims) && workerId == old(workerId) && now >= old(now)
      ensures |QueuedIds(rows)| <= |QueuedIds(old(rows))| + if step.Enqueue? then 1 else 0
    {
      hide Inv, Reached, Apply, Enabled, SavesPrompt, ClaimsDistinct, QueuedIds;
      var s := State(rows, now, workerId, Idle, sem, workers, nextWorker, cancelMap, [], lastFire, failures, lastOk, lastBoot);
      if !Enabled(c, s, step) || !SavesPrompt(c, s, step) {
        return;
      }
      ghost var before := View();
      TickAside(c, before, s, step);
      OthersLeaveTheTick(c, before, step);
      Record(before, step);
      var e := Apply(c, s, step);
      rows, now, sem, workers, cancelMap := e.rows, e.now, e.slots, e.workers, e.cancelMap;
      lastFire, failures, lastOk := e.lastFire, e.failures, e.lastOk;
      assert View() == Apply(c, before, step);
    }

    /** The others take, of the given steps, those that are possible when their turn comes. */
    method Interleave(steps: seq<Step>)
      requires Valid()
      modifies this
      ensures Valid()
      ensures tick == old(tick) && claims == old(claims) && workerId == old(workerId) && now >= old(now)
      ensures |QueuedIds(rows)| <= |QueuedIds(old(rows))| + Added(steps)
    {
      hide Valid, QueuedIds;
      var i := 0;
      while i < |steps|
        invariant 0 <= i <= |steps| && Valid()
        invariant tick == old(tick) && claims == old(claims) && workerId == old(workerId) && now >= old(now)
        invariant |QueuedIds(rows)| + Added(steps[i..]) <= |QueuedIds(old(rows))| + Added(steps)
      {
        assert steps[i..][0] == steps[i] && steps[i..][1..] == steps[i + 1..];
        if OthersStep(steps[i]) {
          Others(steps[i]);
        }
        i := i + 1;
      }
    }

    /** Atomically claim the oldest queued row whose repository is idle, and load it.
        Err stands for a failing query; flips says whether the claim went through before it. */
    method ClaimNext(fails: bool, flips: bool) returns (r: Result<Option<TaskId>>)
      requires Valid() && tick.Reserved? && ClaimTimeDistinct(rows, workerId, now)
      modifies this`rows, this`claims, this`tick, this`sem, this`history
      ensures Valid() && sem == old(sem) - if tick.Loaded? then 0 else 1
      ensures r.Err? <==> fails
      ensures fails ==> FailedClaim(old(rows), old(claims), rows, claims, workerId, now) && (!flips ==> rows == old(rows))
      ensures r.Ok? && r.value.Some? <==> tick.Loaded?
      ensures !tick.Loaded? ==> tick.Idle?
      ensures r == Ok(None) ==> rows == old(rows) && claims == old(claims) && forall id | id in rows :: !Eligible(rows, id)
      ensures r.Ok? && r.value.Some? ==>
                var id := r.value.value;
                && id in rows && OldestEligible(old(rows), id) && rows == Claimed(old(rows), id, workerId, now)
                && claims == old(claims) + [id] && tick == Loaded(id, rows[id])
      ensures |QueuedIds(rows)| <= |QueuedIds(old(rows))| - if tick.Loaded? then 1 else 0
      ensures |old(claims)| <= |claims| <= |old(claims)| + 1
    {
      hide Valid, ClaimTimeDistinct, Claimed, OldestEligible, QueuedIds, Eligible;
      if !fails || flips {
        if id :| id in rows && Eligible(rows, id) {
          SomeOldest(rows, id);
          var picked :| picked in rows && OldestEligible(rows, picked);
          if fails {
            GiveUp(Some(picked));
            return Err;
          }
          var loaded := Load(picked);
          return Ok(Some(loaded));
        }
      }
      if fails {
        GiveUp(None);
        return Err;
      }
      NothingFound();
      return Ok(None);
    }

    /** No row was updated; the slot is released. */
    method NothingFound()
      requires Valid() && tick.Reserved? && forall id | id in rows :: !Eligible(rows, id)
      modifies this`tick, this`sem, this`history
      ensures Valid() && tick.Idle? && sem == old(sem) - 1
    {
      hide Inv, Reached, Apply, Enabled, Eligible, QueuedIds;
      ghost var before := View();
      Invariant(before);
      NothingStep(c, before);
      Record(before, NothingToClaim);
      sem := sem - 1;
      tick := Idle;
    }

    /** Flips the picked row to running, then loads the row of the worker's latest claim. */
    method Load(picked: TaskId) returns (loaded: TaskId)
      requires Valid() && tick.Reserved? && ClaimTimeDistinct(rows, workerId, now)
      requires picked in rows && OldestEligible(rows, picked)
      modifies this`rows, this`claims, this`tick, this`history
      ensures Valid() && loaded == picked && rows == Claimed(old(rows), picked, workerId, now)
      ensures claims == old(claims) + [picked] && loaded in rows && tick == Loaded(loaded, rows[loaded])
      ensures |QueuedIds(rows)| <= |QueuedIds(old(rows))| - 1
    {
      hide Inv, Reached, Apply, Enabled, ClaimTimeDistinct, Claimed, LatestClaim, OldestEligible, QueuedIds, RepoBusy;
      ghost var before := View();
      Invariant(before);
      ClaimStep(c, before, picked);
      Record(before, Claim(picked, picked));
      rows := Claimed(rows, picked, workerId, now);
      claims := claims + [picked];
      loaded :| loaded in rows && LatestClaim(rows, loaded, workerId);
      tick := Loaded(loaded, rows[loaded]);
    }

    /** A query fails, after the flip or before it, and the slot is released. */
    method GiveUp(flipped: Option<TaskId>)
      requires Valid() && tick.Reserved?
      requires flipped.Some? ==> flipped.value in rows && OldestEligible(rows, flipped.value)
      modifies this`rows, this`claims, this`tick, this`sem, this`history
      ensures Valid() && tick.Idle? && sem == old(sem) - 1
      ensures rows == if flipped.Some? then Claimed(old(rows), flipped.value, workerId, now) else old(rows)
      ensures claims == if flipped.Some? then old(claims) + [flipped.value] else old(claims)
      ensures |QueuedIds(rows)| <= |QueuedIds(old(rows))|
    {
      hide Inv, Reached, Apply, Enabled, Claimed, OldestEligible, QueuedIds, RepoBusy;
      ghost var before := View();
      Invariant(before);
      FlipStep(c, before, flipped);
      Record(before, ClaimFails(flipped));
      if flipped.Some? {
        rows := Claimed(rows, flipped.value, workerId, now);
        claims := claims + [flipped.value];
      }
      sem := sem - 1;
      tick := Idle;
    }

    /** Claims one row and starts its worker; the caller holds a slot. */
    method DispatchOne(turn: Turn) returns (dispatched: bool)
      requires Valid() && tick.Reserved? && ClaimTimeDistinct(rows, workerId, now)
      modifies this
      ensures Valid() && workerId == old(workerId) && now >= old(now)
      ensures tick == if dispatched then Filling else Idle
      ensures dispatched ==> |claims| == |old(claims)| + 1 && OldestEligible(old(rows), claims[|old(claims)|])
      ensures !dispatched && turn.fails ==> FailedClaim(old(rows), old(claims), rows, claims, workerId, now)
      ensures !dispatched && !turn.fails ==>
                claims == old(claims) && rows == old(rows) && forall id | id in rows :: !Eligible(rows, id)
      ensures |old(claims)| <= |claims| <= |old(claims)| + 1
      ensures |QueuedIds(rows)| <= |QueuedIds(old(rows))| + Added(turn.between) - if dispatched then 1 else 0
    {
      hide Valid, OldestEligible, Eligible, QueuedIds, Claimed, ClaimTimeDistinct;
      var task := ClaimNext(turn.fails, turn.flips);
      if task.Err? || task.value.None? {
        return false;
      }
      var copy := rows[task.value.value];
      Interleave(turn.between);
      Spawn(task.value.value, copy);
      return true;
    }

    /** Registers the task's cancel function and starts its goroutine. */
    method Spawn(id: TaskId, copy: Row)
      requires Valid() && tick == Loaded(id, copy)
      modifies this`cancelMap, this`workers, this`nextWorker, this`tick, this`history
      ensures Valid() && tick == Filling
      ensures nextWorker == old(nextWorker) + 1 && cancelMap == old(cancelMap)[id := old(nextWorker)]
      ensures workers == old(workers)[old(nextWorker) := Worker(id, copy, Spawned, false)]
    {
      hide Inv, Reached, Apply, Enabled, QueuedIds;
      ghost var before := View();
      DispatchStep(c, before);
      Record(before, Dispatch);
      cancelMap := cancelMap[id := nextWorker];
      workers := workers[nextWorker := Worker(id, copy, Spawned, false)];
      nextWorker := nextWorker + 1;
      tick := Filling;
    }

    /** The select on the slot channel: takes a slot if one is free. */
    method TryReserve() returns (ok: bool)
      requires Valid() && tick.Filling?
      modifies this`sem, this`tick, this`history
      ensures Valid() && ok == (old(sem) < c.maxParallel)
      ensures if ok then tick == Reserved && sem == old(sem) + 1 else tick == Idle && sem == old(sem) == c.maxParallel
    {
      hide Inv, Reached, QueuedIds;
      ghost var before := View();
      ok := sem < c.maxParallel;
      if ok {
        Record(before, Reserve);
        sem := sem + 1;
        tick := Reserved;
      } else {
        Record(before, SlotsFull);
        SlotsBounded(c, before);
        tick := Idle;
      }
    }

    /** The next claim happens at a later instant than every claim so far. */
    method Later()
      requires Valid()
      modifies this`now, this`history
      ensures Valid() && now > old(now) && ClaimTimeDistinct(rows, workerId, now)
    {
      hide Inv, Reached, QueuedIds;
      ghost var before := View();
      Invariant(before);
      PastIsDistinct(before);
      Record(before, Advance(1));
      now := now + 1;
    }

    /** One firing of the ticker. budget is the budget gate's answer; an error does not
        stop the tick. polled is what the poller and others do before the fill loop. */
    method Tick(open: bool, polled: seq<Step>, budget: Result<bool>, turns: seq<Turn>)
        returns (dispatched: nat, stopped: Stop)
      requires Valid() && tick.Idle?
      modifies this
      ensures Valid() && tick.Idle?
      ensures stopped == Closed <==> !open
      ensures stopped == OverBudget <==> open && budget == Ok(false)
      ensures stopped == Full ==> sem == c.maxParallel
      ensures stopped == Drained ==> forall id | id in rows && rows[id].status == Queued :: RepoBusy(rows, rows[id].repo)
      ensures stopped.Closed? || stopped.OverBudget? ==> dispatched == 0 && claims == old(claims)
      ensures stopped.Broken? ==> dispatched < |turns| && turns[dispatched].fails
      ensures dispatched <= |claims| - |old(claims)| <= dispatched + 1
      ensures dispatched + |QueuedIds(rows)| <= |QueuedIds(old(rows))| + Added(polled) + Arrivals(turns)
    {
      hide Valid, QueuedIds, ClaimTimeDistinct, OldestEligible, Eligible, RepoBusy;
      dispatched := 0;
      if !open {
        return 0, Closed;
      }
      Interleave(polled);
      if budget == Ok(false) {
        return 0, OverBudget;
      }
      BeginFilling();
      dispatched, stopped := Fill(turns);
    }

    /** Fill every empty slot; the loop ends because each turn either stops it or takes a
        row off the queue. */
    method Fill(turns: seq<Turn>) returns (dispatched: nat, stopped: Stop)
      requires Valid() && tick.Filling?
      modifies this
      ensures Valid() && tick.Idle?
      ensures stopped == Full || stopped == Drained || stopped == Broken
      ensures stopped == Full ==> sem == c.maxParallel
      ensures stopped == Drained ==> forall id | id in rows && rows[id].status == Queued :: RepoBusy(rows, rows[id].repo)
      ensures stopped == Broken ==> dispatched < |turns| && turns[dispatched].fails
      ensures dispatched <= |claims| - |old(claims)| <= dispatched + 1
      ensures dispatched + |QueuedIds(rows)| <= |QueuedIds(old(rows))| + Arrivals(turns)
    {
      hide Valid, QueuedIds, ClaimTimeDistinct, OldestEligible, Eligible, RepoBusy;
      dispatched := 0;
      while true
        invariant Valid() && tick.Filling?
        invariant |claims| == |old(claims)| + dispatched
        invariant dispatched + |QueuedIds(rows)| + Arrivals(Rest(turns, dispatched)) <= |QueuedIds(old(rows))| + Arrivals(turns)
        decreases |QueuedIds(rows)| + Arrivals(Rest(turns, dispatched))
      {
        var turn := if dispatched < |turns| then turns[dispatched] else Turn([], false, false, []);
        RestStep(turns, dispatched);
        Interleave(turn.before);
        var free := TryReserve();
        if !free {
          return dispatched, Full;
        }
        Later();
        var one := DispatchOne(turn);
        if !one {
          stopped := if turn.fails then Broken else Drained;
          if !turn.fails {
            NobodyEligible(rows);
          }
          return;
        }
        dispatched := dispatched + 1;
      }
    }

    /** Stops a task: a queued row becomes cancelled, a running one has its goroutine's
        context cancelled, and anything else is refused. saves says whether the row is
        written. */
    method StopTask(id: TaskId, saves: bool) returns (r: StopResult)
      requires Valid()
      modifies this`rows, this`workers, this`history
      ensures Valid()
      ensures r == Stopped <==>
                && id in old(rows)
                && ((old(rows)[id].status == Queued && saves) || (old(rows)[id].status == Running && id in cancelMap))
      ensures rows == if r == Stopped && old(rows)[id].status == Queued then old(rows)[id := old(rows)[id].(status := Cancelled)] else old(rows)
      ensures workers.Keys == old(workers).Keys
      ensures forall w | w in workers ::
                workers[w] == old(workers)[w].(cancelled := old(workers)[w].cancelled
                  || (id in rows && rows[id].status == Running && old(workers)[w].task == id && !old(workers)[w].phase.Unregistered?))
    {
      hide Inv, Reached, Apply, Enabled, QueuedIds;
      if id !in rows || (rows[id].status != Queued && rows[id].status != Running) {
        return Refused;
      }
      ghost var before := View();
      Invariant(before);
      StopSteps(c, before, id);
      if rows[id].status == Running {
        Record(before, StopRunning(id));
        if id !in cancelMap {
          return Refused;
        }
        workers := workers[cancelMap[id] := workers[cancelMap[id]].(cancelled := true)];
      } else if !saves {
        return Refused;
      } else {
        Record(before, StopQueued(id));
        rows := rows[id := rows[id].(status := Cancelled)];
      }
      return Stopped;
    }

    /** A goroutine's last deferred calls: it leaves the cancel map, then frees its slot. */
    method Deregister(w: nat)
      requires Valid() && w in workers && workers[w].phase.Exiting?
      modifies this`cancelMap, this`workers, this`history
      ensures Valid() && workers == old(workers)[w := old(workers)[w].(phase := Unregistered)]
      ensures old(workers)[w].task in old(cancelMap) && cancelMap == old(cancelMap) - {workers[w].task}
    {
      hide Inv, Reached, QueuedIds;
      ghost var before := View();
      Record(before, Unregister(w));
      Registered(c, before, w);
      cancelMap := cancelMap - {workers[w].task};
      workers := workers[w := workers[w].(phase := Unregistered)];
    }

    method FreeSlot(w: nat)
      requires Valid() && w in workers && workers[w].phase.Unregistered?
      modifies this`sem, this`workers, this`history
      ensures Valid() && workers == old(workers) - {w} && sem == old(sem) - 1
    {
      hide Inv, Reached, QueuedIds;
      ghost var before := View();
      Invariant(before);
      SlotHeld(c, before, w);
      Record(before, Release(w));
      sem := sem - 1;
      workers := workers - {w};
    }

    /** One firing of the reclaimer: running rows claimed before now - lease are orphaned. */
    method ReclaimStale(ok: bool) returns (count: nat)
      requires Valid()
      modifies this`rows, this`lastFire, this`lastOk, this`failures, this`history
      ensures Valid() && (!ok ==> rows == old(rows) && count == 0)
      ensures ok ==> OnlyStaleOrphaned(old(rows), rows, now - c.lease)
      ensures ok ==> count == |StaleIds(old(rows), now - c.lease)|
    {
      hide Inv, Reached, Apply, Enabled, QueuedIds, Reclaimed, StaleIds, OnlyStaleOrphaned;
      ghost var before := View();
      ReclaimStep(c, before, ok);
      Record(before, Reclaim(ok));
      if ok {
        count := Sweep(now - c.lease);
        failures, lastOk := 0, now;
      } else {
        failures, count := failures + 1, 0;
      }
      lastFire := now;
    }

    /** The reclaimer's one statement, and the number of rows it touched. */
    method Sweep(cutoff: int) returns (count: nat)
      modifies this`rows
      ensures rows == Reclaimed(old(rows), cutoff) && OnlyStaleOrphaned(old(rows), rows, cutoff)
      ensures count == |StaleIds(old(rows), cutoff)|
    {
      hide Reclaimed, StaleIds, OnlyStaleOrphaned;
      ReclaimOrphans(rows, cutoff);
      var stale := StaleIds(rows, cutoff);
      rows := Reclaimed(rows, cutoff);
      count := |stale|;
    }

    /** The process stops, is down for a while and boots under a new worker name: it
        reconciles every row it finds running before the tick loop starts. lists says
        whether the running rows could be listed, unsaved whose saves fail. */
    method Restart(down: nat, name: string, lists: bool, dirty: set<TaskId>, unsaved: set<TaskId>)
      requires Valid() && name != ""
      modifies this
      ensures Valid() && tick.Idle? && sem == 0 && workers == map[] && cancelMap == map[] && claims == old(claims)
      ensures rows.Keys == old(rows).Keys && (!lists ==> rows == old(rows))
      ensures lists ==> forall id | id in rows ::
                rows[id] == if old(rows)[id].status == Running && id !in unsaved
                            then old(rows)[id].(status := if id in dirty then Orphaned else Failed) else old(rows)[id]
      ensures lists && unsaved == {} ==> NoneRunning(rows)
    {
      hide Inv, Reached, Apply, Enabled, QueuedIds, Recovered, NoneRunning;
      ghost var before := View();
      ghost var missed := if lists then unsaved else rows.Keys;
      RestartStep(c, before, down, name, dirty, missed);
      RecoveryMarks(rows, dirty, unsaved);
      Record(before, Protocol.Restart(down, name, dirty, missed));
      if lists {
        RecoverOrphans(dirty, unsaved);
      }
      ForgetWorkers(name);
      StartClocks(down);
    }

    /** A fresh process knows no goroutines. */
    method ForgetWorkers(name: string)
      modifies this`workerId, this`sem, this`workers, this`cancelMap, this`tick
      ensures workerId == name && sem == 0 && workers == map[] && cancelMap == map[] && tick == Idle
    {
      hide Reached;
      workerId, sem, workers, cancelMap := name, 0, map[], map[];
      tick := Idle;
    }

    /** Its clocks start when it is up. */
    method StartClocks(down: nat)
      modifies this`now, this`lastFire, this`failures, this`lastOk, this`lastBoot
      ensures now == lastFire == lastOk == lastBoot == old(now) + down && failures == 0
    {
      hide Reached;
      now := now + down;
      lastFire, failures, lastOk, lastBoot := now, 0, now, now;
    }

    /** Reconciles, one save at a time, the rows that were running. */
    method RecoverOrphans(dirty: set<TaskId>, unsaved: set<TaskId>)
      modifies this`rows
      ensures rows == Recovered(old(rows), dirty, unsaved)
      ensures rows.Keys == old(rows).Keys
      ensures forall id | id in rows ::
                rows[id] == if old(rows)[id].status == Running && id !in unsaved
                            then old(rows)[id].(status := if id in dirty then Orphaned else Failed) else old(rows)[id]
    {
      var pending := set id | id in rows && rows[id].status == Running;
      while pending != {}
        invariant pending <= old(rows).Keys == rows.Keys
        invariant forall id | id in rows ::
                    rows[id] == if id in unsaved || id in pending then old(rows)[id] else Reconciled(old(rows)[id], id in dirty)
        decreases pending
      {
        var id :| id in pending;
        if id !in unsaved {
          rows := rows[id := Reconciled(rows[id], id in dirty)];
        }
        pending := pending - {id};
      }
      assert rows == Recovered(old(rows), dirty, unsaved);
      RecoveryMarks(old(rows), dirty, unsaved);
    }

    method BeginFilling()
      requires Valid() && tick.Idle?
      modifies this`tick, this`history
      ensures Valid() && tick.Filling?
    {
      hide Inv, Reached, QueuedIds;
      ghost var before := View();
      Record(before, TickStart);
      tick := Filling;
    }
  }

  lemma StopSteps(c: Config, s: State, id: TaskId)
    requires Inv(c, s) && id in s.rows
    ensures s.rows[id].status == Queued ==>
              Enabled(c, s, StopQueued(id)) && Apply(c, s, StopQueued(id)) == s.(rows := s.rows[id := s.rows[id].(status := Cancelled)])
    ensures id in s.cancelMap ==>
              && s.cancelMap[id] in s.workers
              && forall w | w in s.workers :: w == s.cancelMap[id] <==> s.workers[w].task == id && !s.workers[w].phase.Unregistered?
    ensures id !in s.cancelMap ==> forall w | w in s.workers && s.workers[w].task == id :: s.workers[w].phase.Unregistered?
    ensures s.rows[id].status == Running ==>
              && Enabled(c, s, StopRunning(id))
              && Apply(c, s, StopRunning(id)) ==
                   if id !in s.cancelMap then s
                   else s.(workers := s.workers[s.cancelMap[id] := s.workers[s.cancelMap[id]].(cancelled := true)])
  {
    hide RowsOk, CopiesOk, HoldsOk, ClaimsOk, SlotsOk, Distinct;
  }

  lemma Registered(c: Config, s: State, w: nat)
    requires Inv(c, s) && w in s.workers && !s.workers[w].phase.Unregistered?
    ensures s.workers[w].task in s.cancelMap
  {
    hide RowsOk, CopiesOk, HoldsOk, ClaimsOk, SlotsOk, Distinct;
  }

  lemma SlotHeld(c: Config, s: State, w: nat)
    requires Inv(c, s) && w in s.workers
    ensures s.slots > 0
  {
    hide RowsOk, CopiesOk, HoldsOk, ClaimsOk, CancelMapOk, Distinct;
    assert |s.workers| > 0;
  }

  lemma ReclaimStep(c: Config, s: State, ok: bool)
    ensures Enabled(c, s, Reclaim(ok)) && ClaimsDistinct(s, Reclaim(ok)) && SavesPrompt(c, s, Reclaim(ok))
    ensures Apply(c, s, Reclaim(ok)) ==
            if ok then s.(rows := Reclaimed(s.rows, s.now - c.lease), lastFire := s.now, failures := 0, lastOk := s.now)
            else s.(lastFire := s.now, failures := s.failures + 1)
  {
  }

  lemma RestartStep(c: Config, s: State, down: nat, name: string, dirty: set<TaskId>, missed: set<TaskId>)
    requires name != ""
    ensures var step := Restart(down, name, dirty, missed);
            && Enabled(c, s, step) && ClaimsDistinct(s, step) && SavesPrompt(c, s, step)
            && Apply(c, s, step) ==
                 s.(rows := Recovered(s.rows, dirty, missed), now := s.now + down, me := name, tick := Idle, slots := 0,
                    workers := map[], cancelMap := map[], lastFire := s.now + down, failures := 0,
                    lastOk := s.now + down, lastBoot := s.now + down)
    ensures Recovered(s.rows, dirty, s.rows.Keys) == s.rows
    ensures missed == {} ==> NoneRunning(Recovered(s.rows, dirty, missed))
  {
  }

  predicate NoneRunning(rows: Table) {
    forall id | id in rows :: rows[id].status != Running
  }

  lemma PastIsDistinct(s: State)
    requires ClaimsPast(s)
    ensures ClaimTimeDistinct(s.rows, s.me, s.now + 1)
  {
    forall id | id in s.rows && s.rows[id].claimedAt.Some?
      ensures s.rows[id].claimedAt.value < s.now + 1
    {
      assert Past(s.rows[id], s.now);
    }
  }

  lemma SlotsBounded(c: Config, s: State)
    requires Inv(c, s)
    ensures s.slots <= c.maxParallel
  {
    hide RowsOk, CopiesOk, HoldsOk, Distinct, ClaimsOk, CancelMapOk;
  }

  lemma NobodyEligible(rows: Table)
    requires forall id | id in rows :: !Eligible(rows, id)
    ensures forall id | id in rows && rows[id].status == Queued :: RepoBusy(rows, rows[id].repo)
  {
    hide RepoBusy;
    forall id | id in rows && rows[id].status == Queued
      ensures RepoBusy(rows, rows[id].repo)
    {
      assert !Eligible(rows, id);
    }
  }

  function Rest(turns: seq<Turn>, done: nat): seq<Turn> {
    if done <= |turns| then turns[done..] else []
  }

  lemma RestStep(turns: seq<Turn>, done: nat)
    ensures var turn := if done < |turns| then turns[done] else Turn([], false, false, []);
            Arrivals(Rest(turns, done)) == Added(turn.before) + Added(turn.between) + Arrivals(Rest(turns, done + 1))
  {
    if done < |turns| {
      assert turns[done..][0] == turns[done] && turns[done..][1..] == turns[done + 1..];
    }
  }

  lemma NothingStep(c: Config, s: State)
    requires Inv(c, s) && s.tick.Reserved? && forall id | id in s.rows :: !Eligible(s.rows, id)
    ensures s.slots > 0 && Enabled(c, s, NothingToClaim)
    ensures Apply(c, s, NothingToClaim) == s.(tick := Idle, slots := s.slots - 1)
  {
    hide RowsOk, CopiesOk, HoldsOk, Distinct, ClaimsOk, CancelMapOk, Eligible;
  }

  lemma FlipStep(c: Config, s: State, flipped: Option<TaskId>)
    requires Inv(c, s) && s.tick.Reserved? && (flipped.Some? ==> OldestEligible(s.rows, flipped.value))
    ensures s.slots > 0 && Enabled(c, s, ClaimFails(flipped)) && (flipped.Some? ==> flipped.value in s.rows)
    ensures Apply(c, s, ClaimFails(flipped)) ==
            if flipped.None? then s.(tick := Idle, slots := s.slots - 1)
            else s.(tick := Idle, slots := s.slots - 1, rows := Claimed(s.rows, flipped.value, s.me, s.now), claims := s.claims + [flipped.value])
  {
    hide RowsOk, CopiesOk, HoldsOk, Distinct, ClaimsOk, CancelMapOk, OldestEligible, RepoBusy;
    if flipped.Some? {
      OldestIsEligible(s.rows, flipped.value);
    }
  }

  lemma ClaimStep(c: Config, s: State, id: TaskId)
    requires Inv(c, s) && s.tick.Reserved? && OldestEligible(s.rows, id) && ClaimTimeDistinct(s.rows, s.me, s.now)
    ensures var rows := Claimed(s.rows, id, s.me, s.now);
            && Enabled(c, s, Claim(id, id)) && id in rows
            && Apply(c, s, Claim(id, id)) == s.(rows := rows, claims := s.claims + [id], tick := Loaded(id, rows[id]))
            && forall x :: LatestClaim(rows, x, s.me) <==> x == id
  {
    hide RowsOk, CopiesOk, HoldsOk, Distinct, ClaimsOk, CancelMapOk, SlotsOk, OldestEligible, RepoBusy, LatestClaim, ClaimTimeDistinct;
    OldestIsEligible(s.rows, id);
    LoadsClaimedRowIff(s.rows, id, s.me, s.now);
  }

  lemma DispatchStep(c: Config, s: State)
    requires s.tick.Loaded?
    ensures Enabled(c, s, Dispatch)
    ensures ClaimsDistinct(s, Dispatch) && SavesPrompt(c, s, Dispatch)
    ensures Apply(c, s, Dispatch) ==
            s.(tick := Filling, nextWorker := s.nextWorker + 1,
               workers := s.workers[s.nextWorker := Worker(s.tick.id, s.tick.copy, Spawned, false)],
               cancelMap := s.cancelMap[s.tick.id := s.nextWorker])
  {
  }
}
