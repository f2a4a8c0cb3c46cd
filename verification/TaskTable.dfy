/** The tasks table as far as dispatching goes, and the statements of
    db/query/task.sql that change it. */
module TaskTable {
  import opened Wrappers

  type TaskId = string

  datatype Status = Queued | Running | Done | Failed | Cancelled | Orphaned

  datatype Row = Row(repo: string, status: Status, createdAt: int, workerId: Option<string>, claimedAt: Option<int>)

  type Table = map<TaskId, Row>

  // ---- ClaimNextTask -------------------------------------------------------------

  predicate RunningIn(rows: Table, id: TaskId, repo: string) {
    id in rows && rows[id].status == Running && rows[id].repo == repo
  }

  predicate RepoBusy(rows: Table, repo: string) {
    exists id | id in rows :: RunningIn(rows, id, repo)
  }

  /** Queued, and nothing of the same repository is running. */
  predicate Eligible(rows: Table, id: TaskId) {
    id in rows && rows[id].status == Queued && !RepoBusy(rows, rows[id].repo)
  }

  /** A row that ORDER BY created_at LIMIT 1 may pick; equal times leave a choice. */
  predicate OldestEligible(rows: Table, id: TaskId) {
    Eligible(rows, id) && forall other | other in rows && Eligible(rows, other) :: rows[id].createdAt <= rows[other].createdAt
  }

  function Claimed(rows: Table, id: TaskId, worker: string, now: int): Table
    requires id in rows
  {
    rows[id := rows[id].(status := Running, workerId := Some(worker), claimedAt := Some(now))]
  }

  // ---- GetClaimedTaskID ------------------------------------------------------------

  predicate HeldBy(rows: Table, id: TaskId, worker: string) {
    id in rows && rows[id].status == Running && rows[id].workerId == Some(worker)
  }

  predicate NotLater(a: Option<int>, b: Option<int>) {
    a.None? || (b.Some? && a.value <= b.value)
  }

  /** A row that ORDER BY claimed_at DESC LIMIT 1 may return for a worker. */
  predicate LatestClaim(rows: Table, id: TaskId, worker: string) {
    HeldBy(rows, id, worker)
    && forall other | other in rows && HeldBy(rows, other, worker) :: NotLater(rows[other].claimedAt, rows[id].claimedAt)
  }

  /** The claim time is later than every claim the worker still holds. */
  predicate ClaimTimeDistinct(rows: Table, worker: string, now: int) {
    forall id | id in rows && HeldBy(rows, id, worker) && rows[id].claimedAt.Some? :: rows[id].claimedAt.value < now
  }

  /** The row that is loaded after a claim is the claimed row exactly when the claim
      time is later than every claim the worker still holds. With a tie, the database
      may hand back a row that is already being worked on. */
  lemma LoadsClaimedRowIff(rows: Table, id: TaskId, worker: string, now: int)
    requires Eligible(rows, id)
    ensures var after := Claimed(rows, id, worker, now);
            (forall x :: LatestClaim(after, x, worker) <==> x == id) <==> ClaimTimeDistinct(rows, worker, now)
  {
    var after := Claimed(rows, id, worker, now);
    forall x | x in rows && x != id
      ensures HeldBy(after, x, worker) <==> HeldBy(rows, x, worker)
      ensures after[x] == rows[x]
    {
    }
    if ClaimTimeDistinct(rows, worker, now) {
      forall x
        ensures LatestClaim(after, x, worker) <==> x == id
      {
        if x == id {
        } else if HeldBy(after, x, worker) {
          assert HeldBy(after, id, worker) && HeldBy(rows, x, worker);
        }
      }
    } else {
      var late := LatestHeld(rows, worker, now);
      assert LatestClaim(after, late, worker);
    }
  }

  /** Among rows held at or after now there is a latest one. */
  lemma LatestHeld(rows: Table, worker: string, now: int) returns (late: TaskId)
    requires !ClaimTimeDistinct(rows, worker, now)
    ensures LatestClaim(rows, late, worker) && rows[late].claimedAt.Some? && rows[late].claimedAt.value >= now
  {
    var first :| first in rows && HeldBy(rows, first, worker) && rows[first].claimedAt.Some? && rows[first].claimedAt.value >= now;
    late := first;
    var rest := rows.Keys;
    while rest != {}
      invariant rest <= rows.Keys
      invariant HeldBy(rows, late, worker) && rows[late].claimedAt.Some? && rows[late].claimedAt.value >= now
      invariant forall x | x in rows && x !in rest && HeldBy(rows, x, worker) :: NotLater(rows[x].claimedAt, rows[late].claimedAt)
      decreases rest
    {
      var x :| x in rest;
      if HeldBy(rows, x, worker) && !NotLater(rows[x].claimedAt, rows[late].claimedAt) {
        late := x;
      }
      rest := rest - {x};
    }
  }

  // ---- ReclaimStaleTasks and boot recovery -------------------------------------------

  predicate Stale(row: Row, cutoff: int) {
    row.status == Running && row.claimedAt.Some? && row.claimedAt.value < cutoff
  }

  function StaleIds(rows: Table, cutoff: int): set<TaskId> {
    set id | id in rows && Stale(rows[id], cutoff)
  }

  function Reclaimed(rows: Table, cutoff: int): (after: Table)
    ensures after.Keys == rows.Keys
  {
    map id | id in rows :: if Stale(rows[id], cutoff) then rows[id].(status := Orphaned, workerId := None) else rows[id]
  }

  /** What RecoverOrphans makes of a row found running at boot. */
  function Reconciled(row: Row, dirty: bool): Row {
    if row.status != Running then row
    else row.(status := if dirty then Orphaned else Failed)
  }

  /** Boot recovery; rows whose save fails stay as they are. */
  function Recovered(rows: Table, dirty: set<TaskId>, unsaved: set<TaskId>): (after: Table)
    ensures after.Keys == rows.Keys
  {
    map id | id in rows :: if id in unsaved then rows[id] else Reconciled(rows[id], id in dirty)
  }

  /** Rows claimed before the cutoff that still run are orphaned and lose their worker;
      nothing else about the table changes. */
  ghost predicate OnlyStaleOrphaned(before: Table, after: Table, cutoff: int) {
    && after.Keys == before.Keys
    && forall id | id in before ::
         after[id] == if before[id].status == Running && before[id].claimedAt.Some? && before[id].claimedAt.value < cutoff
                      then before[id].(status := Orphaned, workerId := None) else before[id]
  }

  lemma ReclaimOrphans(rows: Table, cutoff: int)
    ensures OnlyStaleOrphaned(rows, Reclaimed(rows, cutoff), cutoff)
    ensures forall id | id in rows :: id in StaleIds(rows, cutoff) <==> Reclaimed(rows, cutoff)[id] != rows[id]
  {
  }

  /** A row that was running and is saved is orphaned when its worktree is dirty and
      failed when it is clean; nothing else changes. */
  lemma RecoveryMarks(rows: Table, dirty: set<TaskId>, unsaved: set<TaskId>)
    ensures forall id | id in rows ::
              Recovered(rows, dirty, unsaved)[id] ==
                if rows[id].status == Running && id !in unsaved
                then rows[id].(status := if id in dirty then Orphaned else Failed) else rows[id]
  {
  }

  // ---- per-repository exclusion ----------------------------------------------------------

  /** No repository has two running rows. */
  ghost predicate Exclusive(rows: Table) {
    forall a, b | a in rows && b in rows && rows[a].status == Running && rows[b].status == Running && rows[a].repo == rows[b].repo
      :: a == b
  }

  lemma ExclusiveClaims(rows: Table, id: TaskId, worker: string, now: int)
    requires Exclusive(rows) && Eligible(rows, id)
    ensures Exclusive(Claimed(rows, id, worker, now))
  {
    forall other | other in rows && rows[other].status == Running
      ensures rows[other].repo != rows[id].repo
    {
      assert !RunningIn(rows, other, rows[id].repo);
    }
  }

  /** Writing a row that ends up not running, or was running already, keeps exclusion;
      writing 'running' over any other row keeps it exactly when the repository is idle. */
  lemma ExclusiveWriteIff(rows: Table, id: TaskId, row: Row)
    requires Exclusive(rows) && id in rows && rows[id].repo == row.repo
    ensures Exclusive(rows[id := row]) <==>
              row.status != Running || rows[id].status == Running || !RepoBusy(rows, row.repo)
  {
    var after := rows[id := row];
    if row.status == Running && rows[id].status != Running {
      if RepoBusy(rows, row.repo) {
        var other :| other in rows && RunningIn(rows, other, row.repo);
        assert after[other] == rows[other] && other != id && after[id] == row;
      } else {
        forall other | other in rows && rows[other].status == Running
          ensures rows[other].repo != row.repo
        {
          assert !RunningIn(rows, other, row.repo);
        }
      }
    }
  }
}
