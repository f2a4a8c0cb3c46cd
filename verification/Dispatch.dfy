/** What the protocol guarantees over whole runs: exclusion, at-most-once dispatch, slot
    accounting, and maximal, fair and finite dispatch. */
module Dispatch {
  import opened Wrappers
  import opened TaskTable
  import opened Protocol
  import opened Sets

  // ---- safety over every run -----------------------------------------------------------

  lemma {:induction false} RunKeepsInv(c: Config, s: State, steps: seq<Step>)
    requires Inv(c, s) && Run(c, s, steps)
    ensures Inv(c, End(c, s, steps))
    decreases |steps|
  {
    hide Inv, Apply, Enabled;
    if steps != [] {
      InvStep(c, s, steps[0]);
      RunKeepsInv(c, Apply(c, s, steps[0]), steps[1..]);
    }
  }

  /** In every reachable state no repository has two running rows, no row was claimed
      twice, no two goroutines share a task, and slots are accounted for exactly. */
  lemma ReachableStates(c: Config, s: State, steps: seq<Step>)
    requires Initial(s) && Run(c, s, steps)
    ensures var e := End(c, s, steps);
            && Exclusive(e.rows)
            && (forall i, j | 0 <= i < j < |e.claims| :: e.claims[i] != e.claims[j])
            && (forall v, w | v in e.workers && w in e.workers && v != w :: e.workers[v].task != e.workers[w].task)
            && e.slots == |e.workers| + (if e.tick.Reserved? || e.tick.Loaded? then 1 else 0) <= c.maxParallel
            && CancelMapOk(e.workers, e.cancelMap)
  {
    InitialInv(c, s);
    RunKeepsInv(c, s, steps);
  }

  /** Stopping a running task cancels the goroutine of that task and no other; it finds
      nothing exactly when no registered goroutine has the task. */
  lemma StopHitsItsTask(c: Config, s: State, id: TaskId)
    requires Inv(c, s) && Enabled(c, s, StopRunning(id))
    ensures var e := Apply(c, s, StopRunning(id));
            && e.workers.Keys == s.workers.Keys && e.rows == s.rows
            && (forall w | w in s.workers ::
                  e.workers[w] == s.workers[w].(cancelled := s.workers[w].cancelled
                    || (s.workers[w].task == id && !s.workers[w].phase.Unregistered?)))
    ensures id in s.cancelMap <==> exists w | w in s.workers :: s.workers[w].task == id && !s.workers[w].phase.Unregistered?
  {
    hide RowsOk, CopiesOk, HoldsOk, ClaimsOk, SlotsOk;
    if id in s.cancelMap {
      assert s.workers[s.cancelMap[id]].task == id;
    }
  }

  // ---- where the standing assumption on saves comes from ------------------------------------

  /** A worker's save under 'running' keeps exclusion exactly when its row is still
      running or its repository is idle. */
  lemma EarlySaveKeepsExclusionIff(c: Config, s: State, w: nat)
    requires Inv(c, s) && Enabled(c, s, MarkRunning(w, true))
    ensures var task := s.workers[w].task;
            Exclusive(Apply(c, s, MarkRunning(w, true)).rows)
            <==> s.rows[task].status == Running || !RepoBusy(s.rows, s.rows[task].repo)
  {
    var worker := s.workers[w];
    assert CopyOk(s.rows, s.claims, worker.task, worker.copy);
    ExclusiveWriteIff(s.rows, worker.task, worker.copy.(status := Running));
  }

  lemma OneStep(c: Config, s: State, step: Step)
    requires Enabled(c, s, step) && ClaimsDistinct(s, step) && SavesPrompt(c, s, step)
    ensures Run(c, s, [step]) && End(c, s, [step]) == Apply(c, s, step)
  {
    assert [step][1..] == [];
    assert Run(c, Apply(c, s, step), []);
  }

  lemma {:induction false} Concat(c: Config, s: State, p: seq<Step>, q: seq<Step>)
    requires Run(c, s, p) && Run(c, End(c, s, p), q)
    ensures Run(c, s, p + q) && End(c, s, p + q) == End(c, End(c, s, p), q)
    decreases |p|
  {
    hide Apply, Enabled, ClaimsDistinct, SavesPrompt;
    if p == [] {
      assert p + q == q;
    } else {
      assert (p + q)[1..] == p[1..] + q;
      Concat(c, Apply(c, s, p[0]), p[1..], q);
    }
  }

  lemma Extend(c: Config, s: State, steps: seq<Step>, step: Step) returns (longer: seq<Step>)
    requires Run(c, s, steps)
    requires var e := End(c, s, steps); Enabled(c, e, step) && ClaimsDistinct(e, step) && SavesPrompt(c, e, step)
    ensures longer == steps + [step] && Run(c, s, longer) && End(c, s, longer) == Apply(c, End(c, s, steps), step)
  {
    hide Apply, Enabled, ClaimsDistinct, SavesPrompt;
    OneStep(c, End(c, s, steps), step);
    Concat(c, s, steps, [step]);
    longer := steps + [step];
  }

  /** From the top of the fill loop: take a slot, claim a row and start its worker. */
  lemma ClaimAndDispatch(c: Config, s: State, steps: seq<Step>, id: TaskId) returns (longer: seq<Step>)
    requires Run(c, s, steps)
    requires var e := End(c, s, steps);
             e.tick.Filling? && e.slots < c.maxParallel && OldestEligible(e.rows, id) && ClaimTimeDistinct(e.rows, e.me, e.now)
    ensures Run(c, s, longer)
    ensures var e, after := End(c, s, steps), End(c, s, longer);
            var rows := Claimed(e.rows, id, e.me, e.now);
            after == e.(rows := rows, slots := e.slots + 1, claims := e.claims + [id], nextWorker := e.nextWorker + 1,
                        workers := e.workers[e.nextWorker := Worker(id, rows[id], Spawned, false)],
                        cancelMap := e.cancelMap[id := e.nextWorker])
  {
    hide OldestEligible, ClaimTimeDistinct, LatestClaim;
    var e := End(c, s, steps);
    longer := Extend(c, s, steps, Reserve);
    LoadsClaimedRowIff(e.rows, id, e.me, e.now) by { OldestIsEligible(e.rows, id); }
    longer := Extend(c, s, longer, Claim(id, id));
    longer := Extend(c, s, longer, Dispatch);
  }

  lemma OldestIsEligible(rows: Table, id: TaskId)
    requires OldestEligible(rows, id)
    ensures Eligible(rows, id)
  {
  }

  /** It can fail: a goroutine that marks its row after the reclaimer has given the row
      up revives it next to a row of the same repository claimed in between. */
  lemma LateSaveBreaksExclusion(c: Config, s: State, a: TaskId, b: TaskId, repo: string) returns (steps: seq<Step>)
    requires Initial(s) && a != b && c.lease >= 0 && c.maxParallel >= 2
    ensures Run(c, s, steps)
    ensures var e := End(c, s, steps);
            && Enabled(c, e, MarkRunning(0, true)) && !SavesPrompt(c, e, MarkRunning(0, true))
            && !Exclusive(Apply(c, e, MarkRunning(0, true)).rows)
  {
    hide Run, End, LatestClaim;
    var queued, copy := Row(repo, Queued, s.now, None, None), Row(repo, Running, s.now, Some(s.me), Some(s.now));
    steps := FirstQueued(c, s, a, queued);
    assert OldestEligible(map[a := queued], a);
    steps := ClaimAndDispatch(c, s, steps, a);
    var first := End(c, s, steps);
    assert first.rows == map[a := copy];

    steps := LeaseRunsOut(c, s, steps, a, b, copy);
    var orphaned := copy.(status := Orphaned, workerId := None);
    OnlyChoice(a, b, orphaned, queued, s.me, first.now + c.lease + 1);
    steps := ClaimAndDispatch(c, s, steps, b);

    var e := End(c, s, steps);
    assert e.workers[0] == Worker(a, copy, Spawned, false);
    LateSave(c, e, a, b);
  }

  lemma FirstQueued(c: Config, s: State, a: TaskId, row: Row) returns (steps: seq<Step>)
    requires Initial(s) && row == Row(row.repo, Queued, row.createdAt, None, None)
    ensures Run(c, s, steps) && End(c, s, steps) == s.(rows := map[a := row], tick := Filling)
  {
    steps := Extend(c, s, [], Enqueue(a, row.repo, row.createdAt));
    steps := Extend(c, s, steps, TickStart);
  }

  lemma OnlyChoice(a: TaskId, b: TaskId, orphaned: Row, queued: Row, me: string, now: int)
    requires a != b && orphaned.status == Orphaned && queued.status == Queued
    ensures OldestEligible(map[a := orphaned, b := queued], b) && ClaimTimeDistinct(map[a := orphaned, b := queued], me, now)
  {
  }

  lemma LateSave(c: Config, e: State, a: TaskId, b: TaskId)
    requires 0 in e.workers && e.workers[0].task == a && e.workers[0].phase.Spawned? && a != b
    requires b in e.rows && e.rows[b].status == Running && e.rows[b].repo == e.workers[0].copy.repo
    requires !InLease(c, e.now, e.workers[0].copy)
    ensures Enabled(c, e, MarkRunning(0, true)) && !SavesPrompt(c, e, MarkRunning(0, true))
    ensures !Exclusive(Apply(c, e, MarkRunning(0, true)).rows)
  {
    var rows := Apply(c, e, MarkRunning(0, true)).rows;
    assert rows[a].status == Running && rows[b].status == Running && rows[a].repo == rows[b].repo;
  }

  lemma LeaseRunsOut(c: Config, s: State, steps: seq<Step>, a: TaskId, b: TaskId, copy: Row) returns (longer: seq<Step>)
    requires Run(c, s, steps) && a != b && c.lease >= 0
    requires End(c, s, steps).rows == map[a := copy] && copy.status == Running && copy.claimedAt == Some(End(c, s, steps).now)
    ensures Run(c, s, longer)
    ensures var e, after := End(c, s, steps), End(c, s, longer);
            after == e.(now := after.now, lastFire := after.now, lastOk := after.now, failures := 0,
                        rows := map[a := copy.(status := Orphaned, workerId := None), b := Row(copy.repo, Queued, e.now, None, None)])
            && after.now == e.now + c.lease + 1
  {
    hide Run, End, LatestClaim, OldestEligible, ClaimTimeDistinct, Reclaimed;
    var e := End(c, s, steps);
    var queued := Row(copy.repo, Queued, e.now, None, None);
    longer := Extend(c, s, steps, Enqueue(b, copy.repo, e.now));
    assert End(c, s, longer) == e.(rows := map[a := copy, b := queued]);
    longer := Extend(c, s, longer, Advance(c.lease + 1));
    longer := Extend(c, s, longer, Reclaim(true));
    ReclaimedPair(a, b, copy, queued, e.now + 1);
  }

  lemma ReclaimedPair(a: TaskId, b: TaskId, copy: Row, queued: Row, cutoff: int)
    requires a != b && Stale(copy, cutoff) && queued.status == Queued
    ensures Reclaimed(map[a := copy, b := queued], cutoff) == map[a := copy.(status := Orphaned, workerId := None), b := queued]
  {
  }

  // ---- maximal, fair and finite dispatch ----------------------------------------------------------

  /** When the fill loop ends without a repository error, every slot is taken or every
      queued row waits for a running row of its own repository. */
  lemma FillLoopIsMaximal(c: Config, s: State, step: Step)
    requires Inv(c, s) && Enabled(c, s, step) && !s.tick.Idle? && Apply(c, s, step).tick.Idle?
    requires !step.ClaimFails? && !step.Restart?
    ensures var e := Apply(c, s, step);
            || e.slots == c.maxParallel
            || forall id | id in e.rows && e.rows[id].status == Queued :: RepoBusy(e.rows, e.rows[id].repo)
  {
    hide RowsOk, CopiesOk, HoldsOk, ClaimsOk, CancelMapOk, Distinct, RepoBusy;
    if step.NothingToClaim? {
      forall id | id in s.rows && s.rows[id].status == Queued
        ensures RepoBusy(s.rows, s.rows[id].repo)
      {
        assert !Eligible(s.rows, id);
      }
    }
  }

  function QueuedIds(rows: Table): set<TaskId> {
    set id | id in rows && rows[id].status == Queued
  }

  /** The row a step takes off the queue by claiming it. */
  function ClaimedBy(step: Step): Option<TaskId> {
    match step
    case Claim(id, _) => Some(id)
    case ClaimFails(flipped) => flipped
    case _ => None
  }

  /** What one step does to the queue: a claim or a stop takes one row off, an enqueue
      adds one, and nothing else touches it. */
  lemma QueueStep(c: Config, s: State, step: Step)
    requires Inv(c, s) && Enabled(c, s, step)
    ensures var e := Apply(c, s, step);
            QueuedIds(e.rows) ==
              if step.Enqueue? then QueuedIds(s.rows) + {step.id}
              else if step.StopQueued? then QueuedIds(s.rows) - {step.id}
              else if ClaimedBy(step).Some? then QueuedIds(s.rows) - {ClaimedBy(step).value}
              else QueuedIds(s.rows)
    ensures step.Enqueue? ==> step.id !in QueuedIds(s.rows)
    ensures step.StopQueued? ==> step.id in QueuedIds(s.rows)
    ensures ClaimedBy(step).Some? ==> ClaimedBy(step).value in QueuedIds(s.rows)
    ensures var e := Apply(c, s, step);
            forall id | id in QueuedIds(e.rows) && id in s.rows :: e.rows[id] == s.rows[id]
  {
    hide RowsOk, CopiesOk, HoldsOk, SlotsOk, CancelMapOk, Distinct, RepoBusy, LatestClaim, Saved;
    if step.MarkRunning? || step.SaveWorktree? {
      SaveKeepsQueue(s, step.w, Running, step.landed);
    } else if step.Finish? {
      SaveKeepsQueue(s, step.w, step.status, step.landed);
    }
  }

  lemma SaveKeepsQueue(s: State, w: nat, status: Status, landed: bool)
    requires CopiesOk(s.rows, s.claims, s.workers, s.tick) && ClaimsOk(s.rows, s.claims)
    requires w in s.workers && status != Queued
    ensures var rows := Saved(s.rows, s.workers[w], status, landed);
            QueuedIds(rows) == QueuedIds(s.rows) && forall id | id in QueuedIds(rows) :: rows[id] == s.rows[id]
  {
    assert CopyOk(s.rows, s.claims, s.workers[w].task, s.workers[w].copy);
  }

  function Added(steps: seq<Step>): nat {
    if steps == [] then 0 else Added(steps[1..]) + if steps[0].Enqueue? then 1 else 0
  }

  function Taken(steps: seq<Step>): nat {
    if steps == [] then 0
    else Taken(steps[1..]) + if steps[0].StopQueued? || ClaimedBy(steps[0]).Some? then 1 else 0
  }

  /** Rows are conserved: what was queued or enqueued is still queued, was claimed once
      or was stopped once. So a run without enqueues claims at most the rows queued
      when it began, and the fill loop runs out of work. */
  lemma {:induction false} QueueConserved(c: Config, s: State, steps: seq<Step>)
    requires Inv(c, s) && Run(c, s, steps)
    ensures |QueuedIds(End(c, s, steps).rows)| + Taken(steps) == |QueuedIds(s.rows)| + Added(steps)
    decreases |steps|
  {
    hide Inv, Apply, Enabled, QueuedIds;
    if steps != [] {
      QueueStep(c, s, steps[0]);
      InvStep(c, s, steps[0]);
      QueueConserved(c, Apply(c, s, steps[0]), steps[1..]);
    }
  }

  // ---- no overtaking ---------------------------------------------------------------------------------

  /** The queued rows that may be claimed while q could have been. */
  function Ahead(rows: Table, q: TaskId): set<TaskId>
    requires q in rows
  {
    set id | id in rows && id != q && rows[id].status == Queued && rows[id].createdAt <= rows[q].createdAt
  }

  /** q stays queued all along, and whatever is enqueued is younger. */
  ghost predicate Waits(c: Config, s: State, steps: seq<Step>, q: TaskId)
    requires Run(c, s, steps)
    decreases |steps|
  {
    && q in s.rows && s.rows[q].status == Queued
    && (steps != [] ==>
          && (steps[0].Enqueue? ==> steps[0].createdAt > s.rows[q].createdAt)
          && Waits(c, Apply(c, s, steps[0]), steps[1..], q))
  }

  /** Claims that took another row although the repository of q was idle. */
  ghost function Overtakes(c: Config, s: State, steps: seq<Step>, q: TaskId): nat
    requires Run(c, s, steps)
    decreases |steps|
  {
    if steps == [] then 0
    else Overtakes(c, Apply(c, s, steps[0]), steps[1..], q)
         + if ClaimedBy(steps[0]).Some? && Eligible(s.rows, q) then 1 else 0
  }

  lemma AheadStep(c: Config, s: State, step: Step, q: TaskId)
    requires Inv(c, s) && Enabled(c, s, step)
    requires q in s.rows && s.rows[q].status == Queued
    requires q in Apply(c, s, step).rows && Apply(c, s, step).rows[q].status == Queued
    requires step.Enqueue? ==> step.createdAt > s.rows[q].createdAt
    ensures |Ahead(Apply(c, s, step).rows, q)| + (if ClaimedBy(step).Some? && Eligible(s.rows, q) then 1 else 0)
         <= |Ahead(s.rows, q)|
  {
    hide Inv, Apply, RepoBusy, LatestClaim;
    QueueStep(c, s, step);
    var before, after := Ahead(s.rows, q), Ahead(Apply(c, s, step).rows, q);
    assert q in QueuedIds(Apply(c, s, step).rows);
    if step.Enqueue? {
      NewRowIsLast(c, s, step);
    }
    forall id | id in after
      ensures id in before
    {
      assert id in QueuedIds(Apply(c, s, step).rows);
    }
    SubsetSize(after, before);
    if ClaimedBy(step).Some? && Eligible(s.rows, q) {
      var id := ClaimedBy(step).value;
      assert OldestEligible(s.rows, id);
      assert id !in QueuedIds(Apply(c, s, step).rows) && id in before;
      SubsetSize(after, before - {id});
    }
  }

  lemma NewRowIsLast(c: Config, s: State, step: Step)
    requires step.Enqueue? && Enabled(c, s, step)
    ensures Apply(c, s, step).rows == s.rows[step.id := Row(step.repo, Queued, step.createdAt, None, None)]
  {
  }

  /** A waiting row is overtaken, while its repository is idle, at most once by each row
      that was queued before it: claims are oldest first. */
  lemma {:induction false} OvertakingIsBounded(c: Config, s: State, steps: seq<Step>, q: TaskId)
    requires Inv(c, s) && Run(c, s, steps) && Waits(c, s, steps, q)
    ensures q in End(c, s, steps).rows
    ensures Overtakes(c, s, steps, q) + |Ahead(End(c, s, steps).rows, q)| <= |Ahead(s.rows, q)|
    decreases |steps|
  {
    hide Inv, Apply, Enabled, Ahead, Eligible;
    if steps != [] {
      AheadStep(c, s, steps[0], q);
      InvStep(c, s, steps[0]);
      OvertakingIsBounded(c, Apply(c, s, steps[0]), steps[1..], q);
    }
  }
}
