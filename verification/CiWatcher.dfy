/** The CI watcher of internal/ci/watcher.go over the tasks table: it polls the pull
    requests of finished tasks and enqueues ci-fix children for failing heads. */
module CiWatchers {
  import opened Wrappers
  import Checks
  import opened Sets

  type TaskId = string

  datatype CiStatus = NotWatched | Watching | CiPassed | CiStuck | CiTimeout | CiClosed | CiExhausted

  datatype Row = Row(fix: bool, done: bool, parent: Option<TaskId>, headSha: string, attempts: nat,
                     ci: CiStatus, prNumber: int, updatedAt: int)

  type Table = map<TaskId, Row>

  // ---- the UNIQUE index on ci_fix_dedup_key ---------------------------------------

  const BAR := '|'

  function DedupKey(parent: TaskId, headSha: string): string {
    parent + [BAR] + headSha
  }

  lemma DedupKeyInjective(p: TaskId, q: TaskId, a: string, b: string)
    requires BAR !in p && BAR !in q
    ensures DedupKey(p, a) == DedupKey(q, b) <==> p == q && a == b
  {
    if |p| < |q| {
      BarComesFirst(p, q, a, b);
    } else if |q| < |p| {
      BarComesFirst(q, p, b, a);
    } else {
      assert DedupKey(p, a)[..|p|] == p && DedupKey(q, b)[..|p|] == q;
      assert DedupKey(p, a)[|p| + 1..] == a && DedupKey(q, b)[|p| + 1..] == b;
    }
  }

  lemma BarComesFirst(p: TaskId, q: TaskId, a: string, b: string)
    requires BAR !in q && |p| < |q|
    ensures DedupKey(p, a) != DedupKey(q, b)
  {
    assert DedupKey(p, a)[|p|] == BAR && DedupKey(q, b)[|p|] == q[|p|];
  }

  predicate ChildOf(row: Row, parent: TaskId, headSha: string) {
    row.fix && row.parent == Some(parent) && row.headSha == headSha
  }

  /** The index refuses a second ci-fix row under the same key. */
  predicate KeyTaken(rows: Table, parent: TaskId, headSha: string) {
    exists id | id in rows ::
      rows[id].fix && DedupKey(if rows[id].parent.Some? then rows[id].parent.value else "", rows[id].headSha) == DedupKey(parent, headSha)
  }

  // ---- the history of a watcher ------------------------------------------------------

  /** A ci-fix row that was enqueued, and the check runs that led to it. */
  datatype Fix = Fix(child: TaskId, parent: TaskId, headSha: string, checks: seq<Checks.CheckRun>)

  ghost predicate LogOk(rows: Table, log: seq<Fix>, failing: set<(TaskId, string)>) {
    forall i | 0 <= i < |log| ::
      var e := log[i];
      && e.child in rows && ChildOf(rows[e.child], e.parent, e.headSha)
      && e.parent in rows && !rows[e.parent].fix
      && Checks.Code(e.checks) == Checks.Failed && (e.parent, e.headSha) in failing
  }

  /** No (parent, head) pair was enqueued twice. */
  ghost predicate OncePerHead(log: seq<Fix>) {
    forall i, j | 0 <= i < j < |log| :: log[i].parent != log[j].parent || log[i].headSha != log[j].headSha
  }

  ghost predicate Logged(rows: Table, log: seq<Fix>) {
    forall id | id in rows && rows[id].fix :: exists i :: 0 <= i < |log| && log[i].child == id
  }

  /** Only rows of finished ordinary tasks are ever watched, only ci-fix rows have an
      attempt count, and nothing is exhausted unless no attempt is allowed at all. */
  ghost predicate RowsOk(rows: Table, maxAttempts: int) {
    forall id | id in rows ::
      && BAR !in id
      && (rows[id].ci != NotWatched ==> !rows[id].fix && rows[id].done)
      && rows[id].attempts == (if rows[id].fix then 1 else 0)
      && (rows[id].ci == CiExhausted ==> maxAttempts <= 0)
  }

  /** Every head that was seen failing has its child. */
  ghost predicate Answered(rows: Table, failing: set<(TaskId, string)>) {
    forall p | p in failing :: exists id :: id in rows && ChildOf(rows[id], p.0, p.1)
  }

  ghost predicate Sound(rows: Table, log: seq<Fix>, failing: set<(TaskId, string)>, maxAttempts: int) {
    RowsOk(rows, maxAttempts) && LogOk(rows, log, failing) && OncePerHead(log) && Logged(rows, log)
  }

  /** The watcher is through with a row, or will never get it. */
  predicate Settled(row: Row) {
    row.ci != Watching && (row.done || row.ci != NotWatched)
  }

  /** What never changes about a row: whose fix it is, and a status once it is settled. */
  ghost predicate Later(before: Table, after: Table) {
    forall id | id in before ::
      && id in after
      && after[id].fix == before[id].fix
      && (before[id].fix ==> after[id].parent == before[id].parent && after[id].headSha == before[id].headSha)
      && (before[id].done ==> after[id].done)
      && (Settled(before[id]) ==> after[id].ci == before[id].ci)
  }

  /** A history of tables in which nothing settled was ever unsettled. */
  ghost predicate Chain(tables: seq<Table>) {
    forall i, j | 0 <= i < j < |tables| :: Later(tables[i], tables[j])
  }

  lemma ChainGrows(past: seq<Table>, before: Table, after: Table)
    requires Chain(past + [before]) && Later(before, after)
    ensures Chain(past + [before] + [after])
  {
    hide Later;
    var was, all := past + [before], past + [before] + [after];
    forall i, j | 0 <= i < j < |all|
      ensures Later(all[i], all[j])
    {
      if j < |was| {
        assert Later(was[i], was[j]);
      } else if i < |past| {
        assert Later(was[i], was[|past|]);
        LaterTrans(was[i], before, after);
      }
    }
  }

  lemma LaterTrans(a: Table, b: Table, c: Table)
    requires Later(a, b) && Later(b, c)
    ensures Later(a, c)
  {
  }

  // ---- steps on the table -------------------------------------------------------------

  /** UpdateTaskCIStatus. */
  function Polled(row: Row, ci: CiStatus, headSha: string, now: int): Row {
    row.(ci := ci, headSha := headSha, updatedAt := now)
  }

  /** Writing ordinary rows, old or new, leaves the fixes as they are. */
  ghost predicate SameFixes(rows: Table, after: Table) {
    && (forall id | id in rows ::
          id in after && after[id].fix == rows[id].fix
          && (rows[id].fix ==> after[id].parent == rows[id].parent && after[id].headSha == rows[id].headSha))
    && (forall id | id in after && after[id].fix :: id in rows)
  }

  lemma SameFixesSound(rows: Table, log: seq<Fix>, failing: set<(TaskId, string)>, after: Table)
    requires LogOk(rows, log, failing) && Logged(rows, log) && SameFixes(rows, after)
    ensures LogOk(after, log, failing) && Logged(after, log)
    ensures Answered(rows, failing) ==> Answered(after, failing)
  {
    hide Checks.Code;
    if Answered(rows, failing) {
      forall p | p in failing
        ensures exists id :: id in after && ChildOf(after[id], p.0, p.1)
      {
        var id :| id in rows && ChildOf(rows[id], p.0, p.1);
        assert ChildOf(after[id], p.0, p.1);
      }
    }
  }

  lemma PolledSound(rows: Table, log: seq<Fix>, failing: set<(TaskId, string)>, maxAttempts: int,
                    id: TaskId, ci: CiStatus, headSha: string, now: int)
    requires Sound(rows, log, failing, maxAttempts) && id in rows && rows[id].ci == Watching
    requires ci == CiExhausted ==> maxAttempts <= 0
    ensures var after := rows[id := Polled(rows[id], ci, headSha, now)];
            Sound(after, log, failing, maxAttempts) && Later(rows, after) && (Answered(rows, failing) ==> Answered(after, failing))
  {
    hide LogOk, Logged, OncePerHead, Answered;
    SameFixesSound(rows, log, failing, rows[id := Polled(rows[id], ci, headSha, now)]);
  }

  function FixRow(parent: TaskId, headSha: string, attempts: nat, now: int): Row {
    Row(true, false, Some(parent), headSha, attempts + 1, NotWatched, 0, now)
  }

  lemma FixSound(rows: Table, log: seq<Fix>, failing: set<(TaskId, string)>, maxAttempts: int, e: Fix, now: int)
    requires Sound(rows, log, failing, maxAttempts)
    requires e.parent in rows && !rows[e.parent].fix && e.child !in rows && BAR !in e.child && !KeyTaken(rows, e.parent, e.headSha)
    requires Checks.Code(e.checks) == Checks.Failed && (e.parent, e.headSha) in failing
    ensures var after := rows[e.child := FixRow(e.parent, e.headSha, 0, now)];
            Sound(after, log + [e], failing, maxAttempts) && Later(rows, after)
  {
    hide Checks.Code;
    FixIsNew(rows, log, failing, e);
    var after, longer := rows[e.child := FixRow(e.parent, e.headSha, 0, now)], log + [e];
    forall id | id in after && after[id].fix
      ensures exists i :: 0 <= i < |longer| && longer[i].child == id
    {
      if id == e.child {
        assert longer[|log|].child == id;
      } else {
        var i :| 0 <= i < |log| && log[i].child == id;
        assert longer[i].child == id;
      }
    }
  }

  lemma FixIsNew(rows: Table, log: seq<Fix>, failing: set<(TaskId, string)>, e: Fix)
    requires LogOk(rows, log, failing) && OncePerHead(log) && !KeyTaken(rows, e.parent, e.headSha)
    ensures OncePerHead(log + [e])
  {
    forall i | 0 <= i < |log|
      ensures log[i].parent != e.parent || log[i].headSha != e.headSha
    {
      assert ChildOf(rows[log[i].child], log[i].parent, log[i].headSha);
    }
  }

  lemma AnsweredGrows(rows: Table, failing: set<(TaskId, string)>, after: Table, p: (TaskId, string), child: TaskId)
    requires Answered(rows, failing) && Later(rows, after) && child in after && ChildOf(after[child], p.0, p.1)
    ensures Answered(after, failing + {p})
  {
    forall q | q in failing + {p}
      ensures exists id :: id in after && ChildOf(after[id], q.0, q.1)
    {
      if q in failing {
        var id :| id in rows && ChildOf(rows[id], q.0, q.1);
        assert ChildOf(after[id], q.0, q.1);
      }
    }
  }

  lemma SeenSound(rows: Table, log: seq<Fix>, failing: set<(TaskId, string)>, maxAttempts: int, p: (TaskId, string))
    requires Sound(rows, log, failing, maxAttempts)
    ensures Sound(rows, log, failing + {p}, maxAttempts)
  {
    hide Checks.Code, RowsOk, Logged, OncePerHead;
  }

  // ---- what the watcher makes of a poll ----------------------------------------------------

  datatype View = View(state: string, headSha: string)

  /** How the database and GitHub answer while one task is processed. */
  datatype Poll = Poll(now: int, loads: bool, view: Result<View>, checks: Result<seq<Checks.CheckRun>>,
                       finds: bool, renders: bool, child: TaskId, creates: bool, writes: bool)

  datatype Reaction = Ignore | Move(ci: CiStatus, headSha: string) | Mend(headSha: string)

  function React(row: Row, pollTimeout: int, poll: Poll): Reaction {
    if !poll.loads then Ignore
    else if row.prNumber == 0 then Move(NotWatched, row.headSha)
    else if pollTimeout > 0 && poll.now - row.updatedAt > pollTimeout then Move(CiTimeout, row.headSha)
    else if poll.view.Err? then Ignore
    else if poll.view.value.state != "" && poll.view.value.state != "OPEN" then Move(CiClosed, poll.view.value.headSha)
    else if poll.checks.Err? then Ignore
    else
      var headSha := poll.view.value.headSha;
      match Checks.Code(poll.checks.value)
      case Pending => Move(Watching, headSha)
      case Passed => Move(CiPassed, headSha)
      case Stuck => Move(CiStuck, headSha)
      case Failed => Mend(headSha)
  }

  predicate HasChild(rows: Table, parent: TaskId, headSha: string) {
    exists id | id in rows :: ChildOf(rows[id], parent, headSha)
  }

  predicate Creatable(rows: Table, poll: Poll) {
    poll.renders && poll.creates && poll.child !in rows && BAR !in poll.child
  }

  /** Whether a failing head is answered with a new row. */
  predicate Enqueues(rows: Table, id: TaskId, headSha: string, poll: Poll, maxAttempts: int)
    requires id in rows
  {
    !HasChild(rows, id, headSha) && rows[id].attempts < maxAttempts && Creatable(rows, poll)
  }

  function RepairedRows(rows: Table, id: TaskId, headSha: string, poll: Poll, maxAttempts: int): Table
    requires id in rows
  {
    if Enqueues(rows, id, headSha, poll, maxAttempts) then
      var created := rows[poll.child := FixRow(id, headSha, 0, poll.now)];
      if poll.writes then created[id := Polled(rows[id], Watching, headSha, poll.now)] else created
    else if !(poll.finds && HasChild(rows, id, headSha)) && rows[id].attempts >= maxAttempts && poll.writes then
      rows[id := Polled(rows[id], CiExhausted, headSha, poll.now)]
    else rows
  }

  lemma WatchedRow(rows: Table, log: seq<Fix>, failing: set<(TaskId, string)>, maxAttempts: int, id: TaskId)
    requires Sound(rows, log, failing, maxAttempts) && id in rows && rows[id].ci == Watching
    ensures !rows[id].fix && rows[id].attempts == 0 && BAR !in id
  {
  }

  /** The unique index refuses exactly the pairs that already have a child. */
  lemma KeyTakenIff(rows: Table, log: seq<Fix>, failing: set<(TaskId, string)>, maxAttempts: int, parent: TaskId, headSha: string)
    requires Sound(rows, log, failing, maxAttempts) && BAR !in parent
    ensures KeyTaken(rows, parent, headSha) <==> HasChild(rows, parent, headSha)
  {
    hide DedupKey, Checks.Code;
    forall id | id in rows && rows[id].fix
      ensures rows[id].parent.Some?
      ensures DedupKey(rows[id].parent.value, rows[id].headSha) == DedupKey(parent, headSha) <==> ChildOf(rows[id], parent, headSha)
    {
      var i :| 0 <= i < |log| && log[i].child == id;
      assert log[i].parent in rows;
      DedupKeyInjective(rows[id].parent.value, parent, rows[id].headSha, headSha);
    }
  }

  lemma RepairAnswers(rows: Table, failing: set<(TaskId, string)>, id: TaskId, headSha: string, poll: Poll, maxAttempts: int)
    requires Answered(rows, failing) && id in rows && rows[id].attempts < maxAttempts && !rows[id].fix
    requires HasChild(rows, id, headSha) || Creatable(rows, poll)
    requires Later(rows, RepairedRows(rows, id, headSha, poll, maxAttempts))
    ensures Answered(RepairedRows(rows, id, headSha, poll, maxAttempts), failing + {(id, headSha)})
  {
    hide Answered, Later;
    var after := RepairedRows(rows, id, headSha, poll, maxAttempts);
    if HasChild(rows, id, headSha) {
      var child :| child in rows && ChildOf(rows[child], id, headSha);
      AnsweredGrows(rows, failing, after, (id, headSha), child);
    } else {
      assert ChildOf(after[poll.child], id, headSha);
      AnsweredGrows(rows, failing, after, (id, headSha), poll.child);
    }
  }

  /** Everything a watcher keeps. */
  datatype Books = Books(rows: Table, log: seq<Fix>, failing: set<(TaskId, string)>, clean: bool)

  /** What one poll changes. */
  ghost predicate Processed(before: Books, after: Books, id: TaskId, poll: Poll, reaction: Reaction, maxAttempts: int)
    requires id in before.rows && (reaction.Mend? ==> poll.checks.Ok?)
  {
    match reaction
    case Ignore => after == before
    case Move(ci, headSha) =>
      after == before.(rows := if poll.writes then before.rows[id := Polled(before.rows[id], ci, headSha, poll.now)] else before.rows)
    case Mend(headSha) =>
      after == Books(
        RepairedRows(before.rows, id, headSha, poll, maxAttempts),
        if Enqueues(before.rows, id, headSha, poll, maxAttempts)
          then before.log + [Fix(poll.child, id, headSha, poll.checks.value)] else before.log,
        before.failing + {(id, headSha)},
        before.clean && (HasChild(before.rows, id, headSha) || Creatable(before.rows, poll)))
  }

  lemma OthersUntouched(before: Books, after: Books, id: TaskId, poll: Poll, pollTimeout: int, maxAttempts: int)
    requires Watched(before.rows, id)
    requires var r := React(before.rows[id], pollTimeout, poll);
             (r.Mend? ==> poll.checks.Ok?) && Processed(before, after, id, poll, r, maxAttempts)
    ensures forall x | x in before.rows :: x in after.rows && (x != id ==> after.rows[x] == before.rows[x])
    ensures var r := React(before.rows[id], pollTimeout, poll);
            && (!r.Mend? ==> id in after.rows && after.rows[id] == Ticked(before.rows[id], pollTimeout, poll))
            && (forall p :: p in after.failing <==> p in before.failing || (r.Mend? && p == (id, r.headSha)))
  {
    hide React, HasChild;
  }

  lemma ReactSound(row: Row, pollTimeout: int, poll: Poll)
    ensures var r := React(row, pollTimeout, poll);
            && (r.Mend? ==> poll.checks.Ok? && Checks.Code(poll.checks.value) == Checks.Failed)
            && (r.Move? ==> r.ci != CiExhausted)
  {
  }

  predicate Watched(rows: Table, id: TaskId) {
    id in rows && rows[id].ci == Watching
  }

  /** What a tick leaves of a row that nobody else touches. */
  function Ticked(row: Row, pollTimeout: int, poll: Poll): Row {
    match React(row, pollTimeout, poll)
    case Move(ci, headSha) => if poll.writes then Polled(row, ci, headSha, poll.now) else row
    case _ => row
  }

  /** The heads a tick sees failing. */
  ghost predicate SeesFailing(rows: Table, pollTimeout: int, polls: TaskId -> Poll, p: (TaskId, string)) {
    Watched(rows, p.0) && React(rows[p.0], pollTimeout, polls(p.0)) == Mend(p.1)
  }

  function Children(rows: Table, parent: TaskId): set<TaskId> {
    set id | id in rows && rows[id].fix && rows[id].parent == Some(parent)
  }

  ghost function FailingHeads(failing: set<(TaskId, string)>, parent: TaskId): set<string> {
    set p | p in failing && p.0 == parent :: p.1
  }

  lemma FinishKeeps(rows: Table, maxAttempts: int, id: TaskId, row: Row)
    requires RowsOk(rows, maxAttempts) && id in rows && !rows[id].done
    requires row == rows[id].(done := true, ci := row.ci, prNumber := row.prNumber, updatedAt := row.updatedAt)
    requires row.ci == rows[id].ci || (row.ci == Watching && !row.fix)
    ensures RowsOk(rows[id := row], maxAttempts) && Later(rows, rows[id := row]) && SameFixes(rows, rows[id := row])
  {
  }

  /** The IDs for new rows are in use nowhere, and no two are the same. */
  ghost predicate FreshChildren(rows: Table, polls: TaskId -> Poll) {
    && (forall id | Watched(rows, id) :: polls(id).child !in rows)
    && (forall a, b | Watched(rows, a) && Watched(rows, b) && a != b :: polls(a).child != polls(b).child)
  }

  /** What has become of a row whose head was failing, and of its fix. */
  predicate Mended(start: Table, rows: Table, id: TaskId, headSha: string, poll: Poll, maxAttempts: int)
    requires id in start
  {
    && id in rows
    && rows[id] == MendedRow(start, id, headSha, poll, maxAttempts)
    && (poll.child in rows <==> Enqueues(start, id, headSha, poll, maxAttempts))
    && (poll.child in rows ==> rows[poll.child] == FixRow(id, headSha, 0, poll.now))
  }

  function MendedRow(rows: Table, id: TaskId, headSha: string, poll: Poll, maxAttempts: int): Row
    requires id in rows
  {
    if !poll.writes then rows[id]
    else if Enqueues(rows, id, headSha, poll, maxAttempts) then Polled(rows[id], Watching, headSha, poll.now)
    else if !(poll.finds && HasChild(rows, id, headSha)) && rows[id].attempts >= maxAttempts then
      Polled(rows[id], CiExhausted, headSha, poll.now)
    else rows[id]
  }

  /** Every row of a failing head that has had its turn is mended, and no other rows have
      appeared. */
  ghost predicate AllMended(start: Table, rows: Table, pending: set<TaskId>, pollTimeout: int, polls: TaskId -> Poll, maxAttempts: int) {
    && (forall p | SeesFailing(start, pollTimeout, polls, p) && p.0 !in pending :: Mended(start, rows, p.0, p.1, polls(p.0), maxAttempts))
    && (forall x | x in rows && x !in start :: AddedBy(start, x, rows[x], pending, pollTimeout, polls))
  }

  ghost predicate AddedBy(start: Table, x: TaskId, row: Row, pending: set<TaskId>, pollTimeout: int, polls: TaskId -> Poll) {
    exists p :: SeesFailing(start, pollTimeout, polls, p) && p.0 !in pending && x == polls(p.0).child && row.parent == Some(p.0)
  }

  lemma NoneMended(start: Table, pending: set<TaskId>, pollTimeout: int, polls: TaskId -> Poll, maxAttempts: int)
    requires forall id | Watched(start, id) :: id in pending
    ensures AllMended(start, start, pending, pollTimeout, polls, maxAttempts)
  {
  }

  lemma NoFixWatched(rows: Table, log: seq<Fix>, failing: set<(TaskId, string)>, maxAttempts: int)
    requires Sound(rows, log, failing, maxAttempts)
    ensures forall id | Watched(rows, id) :: !rows[id].fix
  {
  }

  /** Half-way through a tick, a row that waits for its turn is as it was, has the fixes it
      had, and nobody has taken the ID meant for its next one. */
  ghost predicate Waits(start: Table, rows: Table, pending: set<TaskId>) {
    && (forall x | x in start :: x in rows && (x in pending || !Watched(start, x) ==> rows[x] == start[x]))
    && (forall x | Watched(start, x) :: !start[x].fix && x in rows && !rows[x].fix)
  }

  lemma StillAsItWas(start: Table, rows: Table, pending: set<TaskId>, id: TaskId, headSha: string, pollTimeout: int,
                     polls: TaskId -> Poll, maxAttempts: int)
    requires FreshChildren(start, polls) && AllMended(start, rows, pending, pollTimeout, polls, maxAttempts)
    requires Waits(start, rows, pending) && id in pending && Watched(start, id)
    ensures rows[id] == start[id] && polls(id).child !in rows
    ensures HasChild(rows, id, headSha) <==> HasChild(start, id, headSha)
  {
    hide Mended, React;
    forall x | x in rows && x !in start
      ensures x != polls(id).child && rows[x].parent != Some(id)
    {
      assert AddedBy(start, x, rows[x], pending, pollTimeout, polls);
    }
    if HasChild(rows, id, headSha) {
      var x :| x in rows && ChildOf(rows[x], id, headSha);
      assert x in start && ChildOf(start[x], id, headSha);
    }
    if HasChild(start, id, headSha) {
      var x :| x in start && ChildOf(start[x], id, headSha);
      assert x in rows && ChildOf(rows[x], id, headSha);
    }
  }

  /** Repairing one row leaves the mended ones as they are. */
  lemma StaysMended(start: Table, rows: Table, after: Table, j: TaskId, headSha: string, poll: Poll, maxAttempts: int, id: TaskId, child: TaskId)
    requires j in start && Mended(start, rows, j, headSha, poll, maxAttempts)
    requires j != id && poll.child != child && poll.child != id
    requires forall x | x in rows :: x in after && (x != id ==> after[x] == rows[x])
    requires forall x | x in after :: x in rows || x == child
    ensures Mended(start, after, j, headSha, poll, maxAttempts)
  {
    hide MendedRow, Enqueues;
  }

  lemma MendsNow(start: Table, rows: Table, id: TaskId, headSha: string, poll: Poll, maxAttempts: int)
    requires id in start && id in rows && rows[id] == start[id] && poll.child !in rows && poll.child !in start
    requires HasChild(rows, id, headSha) <==> HasChild(start, id, headSha)
    ensures Mended(start, RepairedRows(rows, id, headSha, poll, maxAttempts), id, headSha, poll, maxAttempts)
  {
    hide HasChild;
  }

  lemma ProcessedKeys(before: Books, after: Books, id: TaskId, poll: Poll, r: Reaction, maxAttempts: int)
    requires id in before.rows && (r.Mend? ==> poll.checks.Ok?) && Processed(before, after, id, poll, r, maxAttempts)
    ensures forall x | x in before.rows :: x in after.rows && (x != id ==> after.rows[x] == before.rows[x])
    ensures forall x | x in after.rows :: x in before.rows || (r.Mend? && x == poll.child && after.rows[x].parent == Some(id))
  {
    hide HasChild;
  }

  /** One more watched row has its turn. */
  lemma OneMended(start: Table, before: Books, after: Books, pending: set<TaskId>, id: TaskId, pollTimeout: int,
                  polls: TaskId -> Poll, maxAttempts: int)
    requires FreshChildren(start, polls) && AllMended(start, before.rows, pending, pollTimeout, polls, maxAttempts)
    requires Waits(start, before.rows, pending) && id in pending && Watched(start, id) && id in before.rows
    requires var r := React(before.rows[id], pollTimeout, polls(id));
             (r.Mend? ==> polls(id).checks.Ok?) && Processed(before, after, id, polls(id), r, maxAttempts)
    ensures AllMended(start, after.rows, pending - {id}, pollTimeout, polls, maxAttempts)
  {
    hide React, Processed, Mended, RepairedRows, Waits, AddedBy;
    var r := React(before.rows[id], pollTimeout, polls(id));
    var headSha := if r.Mend? then r.headSha else "";
    WaitsFor(start, before.rows, pending, id);
    StillAsItWas(start, before.rows, pending, id, headSha, pollTimeout, polls, maxAttempts);
    ProcessedKeys(before, after, id, polls(id), r, maxAttempts);
    forall p | SeesFailing(start, pollTimeout, polls, p) && p.0 !in pending - {id}
      ensures Mended(start, after.rows, p.0, p.1, polls(p.0), maxAttempts)
    {
      if p.0 == id {
        MendsNow(start, before.rows, id, p.1, polls(id), maxAttempts);
        MendedBy(before, after, id, polls(id), r, maxAttempts);
      } else {
        StaysMended(start, before.rows, after.rows, p.0, p.1, polls(p.0), maxAttempts, id, polls(id).child);
      }
    }
    forall x | x in after.rows && x !in start
      ensures AddedBy(start, x, after.rows[x], pending - {id}, pollTimeout, polls)
    {
      StaysAdded(start, before.rows, after.rows, x, pending, id, pollTimeout, polls, headSha);
    }
  }

  lemma WaitsFor(start: Table, rows: Table, pending: set<TaskId>, id: TaskId)
    requires Waits(start, rows, pending) && id in pending && Watched(start, id)
    ensures id in rows && rows[id] == start[id]
  {
  }

  /** The state of a tick: the rows in pending are still to come. */
  ghost predicate PolledBut(start: Table, failing: set<(TaskId, string)>, now: Books, pending: set<TaskId>, pollTimeout: int,
                            polls: TaskId -> Poll, maxAttempts: int) {
    // Rows to come, and rows that are not watched, are as they were.
    && Waits(start, now.rows, pending)
    // Rows that needed no fix have the status their poll calls for.
    && (forall id | Watched(start, id) && id !in pending && !React(start[id], pollTimeout, polls(id)).Mend? ::
          id in now.rows && now.rows[id] == Ticked(start[id], pollTimeout, polls(id)))
    // Every failing head was noted.
    && (forall p :: p in now.failing <==> p in failing || (p.0 !in pending && SeesFailing(start, pollTimeout, polls, p)))
    // Rows of failing heads are mended; the IDs for new rows are expected to be new.
    && (FreshChildren(start, polls) ==> AllMended(start, now.rows, pending, pollTimeout, polls, maxAttempts))
  }

  lemma NonePolled(start: Books, pending: set<TaskId>, pollTimeout: int, polls: TaskId -> Poll, maxAttempts: int)
    requires Sound(start.rows, start.log, start.failing, maxAttempts)
    requires forall id | Watched(start.rows, id) :: id in pending
    ensures PolledBut(start.rows, start.failing, start, pending, pollTimeout, polls, maxAttempts)
  {
    hide Sound, React, AllMended, FreshChildren, Waits;
    NoFixWatched(start.rows, start.log, start.failing, maxAttempts);
    AllWait(start.rows, pending);
    NoneMended(start.rows, pending, pollTimeout, polls, maxAttempts);
  }

  lemma OnePolled(start: Table, failing: set<(TaskId, string)>, before: Books, after: Books, pending: set<TaskId>, id: TaskId,
                  pollTimeout: int, polls: TaskId -> Poll, maxAttempts: int)
    requires PolledBut(start, failing, before, pending, pollTimeout, polls, maxAttempts)
    requires id in pending && Watched(start, id) && Watched(before.rows, id)
    requires Later(before.rows, after.rows)
    requires var r := React(before.rows[id], pollTimeout, polls(id));
             (r.Mend? ==> polls(id).checks.Ok?) && Processed(before, after, id, polls(id), r, maxAttempts)
    ensures PolledBut(start, failing, after, pending - {id}, pollTimeout, polls, maxAttempts)
  {
    hide React, AllMended, FreshChildren, Waits, Ticked, Processed, Later;
    WaitsFor(start, before.rows, pending, id);
    OthersUntouched(before, after, id, polls(id), pollTimeout, maxAttempts);
    NeverAFix(start, before.rows, after.rows, pending, id);
    StillWaits(start, before.rows, after.rows, pending, id);
    if FreshChildren(start, polls) {
      OneMended(start, before, after, pending, id, pollTimeout, polls, maxAttempts);
    }
  }

  lemma ToCome(start: Table, failing: set<(TaskId, string)>, now: Books, pending: set<TaskId>, id: TaskId, pollTimeout: int,
               polls: TaskId -> Poll, maxAttempts: int)
    requires PolledBut(start, failing, now, pending, pollTimeout, polls, maxAttempts) && id in pending && Watched(start, id)
    ensures Watched(now.rows, id)
  {
    hide React, AllMended, FreshChildren, Ticked;
  }

  lemma LastStep(past: seq<Table>, rows: Table)
    requires Chain(past + [rows]) && past != []
    ensures Later(past[|past| - 1], rows)
  {
    hide Later;
    var all := past + [rows];
    assert Later(all[|past| - 1], all[|past|]);
  }

  lemma NeverAFix(start: Table, before: Table, after: Table, pending: set<TaskId>, id: TaskId)
    requires Waits(start, before, pending) && Watched(start, id) && Later(before, after)
    ensures id in after && !after[id].fix
  {
  }

  lemma AllWait(start: Table, pending: set<TaskId>)
    requires forall x | Watched(start, x) :: !start[x].fix
    ensures Waits(start, start, pending)
  {
  }

  lemma StillWaits(start: Table, before: Table, after: Table, pending: set<TaskId>, id: TaskId)
    requires Waits(start, before, pending) && Watched(start, id)
    requires forall x | x in before :: x in after && (x != id ==> after[x] == before[x])
    requires id in after && !after[id].fix
    ensures Waits(start, after, pending - {id})
  {
  }

  lemma MendedBy(before: Books, after: Books, id: TaskId, poll: Poll, r: Reaction, maxAttempts: int)
    requires id in before.rows && r.Mend? && poll.checks.Ok? && Processed(before, after, id, poll, r, maxAttempts)
    ensures after.rows == RepairedRows(before.rows, id, r.headSha, poll, maxAttempts)
  {
    hide RepairedRows, Enqueues, HasChild, Creatable;
  }

  lemma StaysAdded(start: Table, rows: Table, after: Table, x: TaskId, pending: set<TaskId>, id: TaskId, pollTimeout: int,
                   polls: TaskId -> Poll, headSha: string)
    requires x in after && x !in start && Watched(start, id)
    requires forall y | y in rows && y !in start :: AddedBy(start, y, rows[y], pending, pollTimeout, polls)
    requires forall y | y in rows :: y in after && (y != id ==> after[y] == rows[y])
    requires x !in rows ==> SeesFailing(start, pollTimeout, polls, (id, headSha)) && x == polls(id).child && after[x].parent == Some(id)
    ensures AddedBy(start, x, after[x], pending - {id}, pollTimeout, polls)
  {
    hide React;
    if x in rows {
      assert AddedBy(start, x, rows[x], pending, pollTimeout, polls);
    } else {
      var p := (id, headSha);
      assert SeesFailing(start, pollTimeout, polls, p) && p.0 !in pending - {id};
    }
  }

  // ---- the same, told from what the poll says --------------------------------------------

  predicate Overdue(row: Row, pollTimeout: int, poll: Poll) {
    pollTimeout > 0 && poll.now - row.updatedAt > pollTimeout
  }

  /** The pull request is open, as far as is known, and its checks could be read. */
  predicate Readable(row: Row, pollTimeout: int, poll: Poll) {
    && poll.loads && row.prNumber != 0 && !Overdue(row, pollTimeout, poll)
    && poll.view.Ok? && (poll.view.value.state == "" || poll.view.value.state == "OPEN") && poll.checks.Ok?
  }

  /** All checks are through, and some failed, timed out or were cancelled. */
  predicate FailsAt(row: Row, pollTimeout: int, poll: Poll, headSha: string) {
    && Readable(row, pollTimeout, poll) && headSha == poll.view.value.headSha
    && Checks.Finished(poll.checks.value) && Checks.Concluded(poll.checks.value, {Checks.Failure, Checks.TimedOut, Checks.Cancelled})
  }

  /** What a poll without a failure leaves of a row. */
  predicate ShownBy(was: Row, now: Row, pollTimeout: int, poll: Poll) {
    if !poll.loads || !poll.writes then now == was
    else if was.prNumber == 0 then now == was.(ci := NotWatched, updatedAt := poll.now)
    else if Overdue(was, pollTimeout, poll) then now == was.(ci := CiTimeout, updatedAt := poll.now)
    else if poll.view.Err? then now == was
    else if poll.view.value.state != "" && poll.view.value.state != "OPEN" then
      now == was.(ci := CiClosed, headSha := poll.view.value.headSha, updatedAt := poll.now)
    else if poll.checks.Err? then now == was
    else
      now == was.(headSha := poll.view.value.headSha, updatedAt := poll.now,
                  ci := if !Checks.Finished(poll.checks.value) then Watching
                        else if Checks.Concluded(poll.checks.value, {Checks.ActionRequired}) then CiStuck
                        else CiPassed)
  }

  /** What a failing head does to the table: it gets its one child unless it has one, no
      attempt is left, or the prompt or the create fails. */
  ghost predicate AnswersFailure(before: Table, after: Table, id: TaskId, headSha: string, poll: Poll, maxAttempts: int)
    requires id in before
  {
    var was := before[id];
    var hasChild := exists x | x in before :: before[x].fix && before[x].parent == Some(id) && before[x].headSha == headSha;
    var gets := !hasChild && was.attempts < maxAttempts && poll.renders && poll.creates && poll.child !in before && '|' !in poll.child;
    && id in after
    && (gets ==>
          && poll.child in after
          && after[poll.child] == Row(true, false, Some(id), headSha, 1, NotWatched, 0, poll.now)
          && after[id] == if poll.writes then was.(ci := Watching, headSha := headSha, updatedAt := poll.now) else was)
    && (!gets ==>
          && (poll.child !in before ==> poll.child !in after)
          && after[id] == if poll.writes && was.attempts >= maxAttempts && !(poll.finds && hasChild)
                          then was.(ci := CiExhausted, headSha := headSha, updatedAt := poll.now) else was)
  }

  /** One poll of one watched row. */
  ghost predicate PollDoes(before: Table, after: Table, id: TaskId, pollTimeout: int, poll: Poll, maxAttempts: int)
    requires id in before
  {
    && (forall x | x in before && x != id :: x in after && after[x] == before[x])
    && (forall x | x in after :: x in before || x == poll.child)
    && (forall headSha :: FailsAt(before[id], pollTimeout, poll, headSha) ==> AnswersFailure(before, after, id, headSha, poll, maxAttempts))
    && ((forall headSha :: !FailsAt(before[id], pollTimeout, poll, headSha)) ==>
          after.Keys == before.Keys && ShownBy(before[id], after[id], pollTimeout, poll))
  }

  /** A reaction means a mend exactly for a failing head, and shows the poll otherwise. */
  lemma ReactMeans(row: Row, pollTimeout: int, poll: Poll)
    ensures forall headSha :: React(row, pollTimeout, poll) == Mend(headSha) <==> FailsAt(row, pollTimeout, poll, headSha)
    ensures !React(row, pollTimeout, poll).Mend? ==> ShownBy(row, Ticked(row, pollTimeout, poll), pollTimeout, poll)
  {
    hide Checks.Code, Checks.Finished, Checks.Concluded;
    if poll.checks.Ok? {
      Checks.CodeMeans(poll.checks.value);
    }
  }

  lemma MendAnswers(before: Table, id: TaskId, headSha: string, poll: Poll, maxAttempts: int)
    requires Watched(before, id) && before[id].attempts == 0
    ensures AnswersFailure(before, RepairedRows(before, id, headSha, poll, maxAttempts), id, headSha, poll, maxAttempts)
  {
    HasChildMeans(before, id, headSha);
    hide HasChild;
  }

  lemma HasChildMeans(rows: Table, id: TaskId, headSha: string)
    ensures HasChild(rows, id, headSha) <==>
            exists x | x in rows :: rows[x].fix && rows[x].parent == Some(id) && rows[x].headSha == headSha
  {
    if HasChild(rows, id, headSha) {
      var x :| x in rows && ChildOf(rows[x], id, headSha);
      assert rows[x].fix;
    }
    if exists x | x in rows :: rows[x].fix && rows[x].parent == Some(id) && rows[x].headSha == headSha {
      var x :| x in rows && rows[x].fix && rows[x].parent == Some(id) && rows[x].headSha == headSha;
      assert ChildOf(rows[x], id, headSha);
    }
  }

  lemma ProcessedDoes(before: Books, after: Books, id: TaskId, pollTimeout: int, poll: Poll, maxAttempts: int)
    requires Watched(before.rows, id) && before.rows[id].attempts == 0
    requires var r := React(before.rows[id], pollTimeout, poll);
             (r.Mend? ==> poll.checks.Ok?) && Processed(before, after, id, poll, r, maxAttempts)
    ensures PollDoes(before.rows, after.rows, id, pollTimeout, poll, maxAttempts)
  {
    hide React, ShownBy, FailsAt, AnswersFailure, RepairedRows, Enqueues, Creatable, HasChild, Processed, Ticked;
    var r := React(before.rows[id], pollTimeout, poll);
    ReactMeans(before.rows[id], pollTimeout, poll);
    OthersUntouched(before, after, id, poll, pollTimeout, maxAttempts);
    ProcessedKeys(before, after, id, poll, r, maxAttempts);
    if r.Mend? {
      MendedBy(before, after, id, poll, r, maxAttempts);
      MendAnswers(before.rows, id, r.headSha, poll, maxAttempts);
      forall headSha | FailsAt(before.rows[id], pollTimeout, poll, headSha)
        ensures AnswersFailure(before.rows, after.rows, id, headSha, poll, maxAttempts)
      {
        assert r == Mend(headSha);
      }
      assert FailsAt(before.rows[id], pollTimeout, poll, r.headSha);
    } else {
      forall headSha
        ensures !FailsAt(before.rows[id], pollTimeout, poll, headSha)
      {
        assert r != Mend(headSha);
      }
    }
  }

  /** A whole tick. */
  ghost predicate TickDoes(start: Table, seen: set<(TaskId, string)>, rows: Table, failing: set<(TaskId, string)>,
                           pollTimeout: int, polls: TaskId -> Poll, maxAttempts: int) {
    // Rows that are not watched stay as they are.
    && (forall id | id in start && start[id].ci != Watching :: id in rows && rows[id] == start[id])
    // A watched row without a failing head shows its poll.
    && (forall id | id in start && start[id].ci == Watching && Unfailing(start[id], pollTimeout, polls(id)) ::
          id in rows && ShownBy(start[id], rows[id], pollTimeout, polls(id)))
    // Every failing head is noted, and nothing else.
    && (forall p: (TaskId, string) :: p in failing <==> p in seen || (p.0 in start && start[p.0].ci == Watching && FailsAt(start[p.0], pollTimeout, polls(p.0), p.1)))
    // Every failing head is answered, as long as the IDs for new rows are new.
    && (FreshChildren(start, polls) ==>
          forall p: (TaskId, string) | Watched(start, p.0) && FailsAt(start[p.0], pollTimeout, polls(p.0), p.1) ::
            AnswersFailure(start, rows, p.0, p.1, polls(p.0), maxAttempts))
  }

  ghost predicate Unfailing(row: Row, pollTimeout: int, poll: Poll) {
    forall headSha :: !FailsAt(row, pollTimeout, poll, headSha)
  }

  lemma UnfailingShows(row: Row, pollTimeout: int, poll: Poll)
    ensures Unfailing(row, pollTimeout, poll) <==> !React(row, pollTimeout, poll).Mend?
    ensures Unfailing(row, pollTimeout, poll) ==> ShownBy(row, Ticked(row, pollTimeout, poll), pollTimeout, poll)
    ensures forall headSha :: React(row, pollTimeout, poll) == Mend(headSha) <==> FailsAt(row, pollTimeout, poll, headSha)
  {
    hide React, ShownBy, FailsAt, Ticked;
    ReactMeans(row, pollTimeout, poll);
    var r := React(row, pollTimeout, poll);
    if r.Mend? {
      assert FailsAt(row, pollTimeout, poll, r.headSha);
    } else {
      forall headSha
        ensures !FailsAt(row, pollTimeout, poll, headSha)
      {
        assert r != Mend(headSha);
      }
    }
  }

  lemma MendedAnswers(start: Table, rows: Table, id: TaskId, headSha: string, poll: Poll, maxAttempts: int)
    requires id in start && Mended(start, rows, id, headSha, poll, maxAttempts) && start[id].attempts == 0 && poll.child !in start
    ensures AnswersFailure(start, rows, id, headSha, poll, maxAttempts)
  {
    HasChildMeans(start, id, headSha);
    hide HasChild;
  }

  lemma AllPolledDoes(start: Table, seen: set<(TaskId, string)>, now: Books, pollTimeout: int, polls: TaskId -> Poll, maxAttempts: int)
    requires PolledBut(start, seen, now, {}, pollTimeout, polls, maxAttempts)
    requires forall id | Watched(start, id) :: start[id].attempts == 0
    ensures TickDoes(start, seen, now.rows, now.failing, pollTimeout, polls, maxAttempts)
  {
    hide React, ShownBy, FailsAt, Ticked, AnswersFailure, Mended, Unfailing;
    forall id | Watched(start, id)
      ensures Unfailing(start[id], pollTimeout, polls(id)) <==> !React(start[id], pollTimeout, polls(id)).Mend?
      ensures Unfailing(start[id], pollTimeout, polls(id)) ==> ShownBy(start[id], Ticked(start[id], pollTimeout, polls(id)), pollTimeout, polls(id))
      ensures forall headSha :: React(start[id], pollTimeout, polls(id)) == Mend(headSha) <==> FailsAt(start[id], pollTimeout, polls(id), headSha)
    {
      UnfailingShows(start[id], pollTimeout, polls(id));
    }
    if FreshChildren(start, polls) {
      forall p: (TaskId, string) | Watched(start, p.0) && FailsAt(start[p.0], pollTimeout, polls(p.0), p.1)
        ensures AnswersFailure(start, now.rows, p.0, p.1, polls(p.0), maxAttempts)
      {
        assert SeesFailing(start, pollTimeout, polls, p);
        MendedAnswers(start, now.rows, p.0, p.1, polls(p.0), maxAttempts);
      }
    }
  }

  lemma WatchedRows(rows: Table, log: seq<Fix>, failing: set<(TaskId, string)>, maxAttempts: int)
    requires Sound(rows, log, failing, maxAttempts)
    ensures forall id | Watched(rows, id) :: rows[id].attempts == 0
  {
  }

  class Watcher {
    const maxAttempts: int
    const pollTimeout: int
    var rows: Table

    /** Every fix enqueued, and every head seen failing. */
    ghost var log: seq<Fix>
    ghost var failing: set<(TaskId, string)>
    /** No prompt and no create was lost to an error. */
    ghost var clean: bool
    /** The tables before this one, one for every change. */
    ghost var past: seq<Table>

    ghost predicate Valid()
      reads this
    {
      Recorded() && Chain(past + [rows])
    }

    ghost predicate Recorded()
      reads this
    {
      && Sound(rows, log, failing, maxAttempts)
      && (clean && maxAttempts >= 1 ==> Answered(rows, failing))
    }

    constructor (maxAttempts: int, pollTimeout: int)
      ensures Valid() && rows == map[] && log == [] && failing == {} && clean
      ensures this.maxAttempts == maxAttempts && this.pollTimeout == pollTimeout
    {
      this.maxAttempts, this.pollTimeout := maxAttempts, pollTimeout;
      rows, log, failing, clean, past := map[], [], {}, true, [];
    }

    /** An ordinary task appears. */
    method AddTask(id: TaskId, now: int)
      requires Valid() && id !in rows && BAR !in id
      modifies this`rows, this`past
      ensures Valid() && past == old(past) + [old(rows)]
      ensures rows == old(rows)[id := Row(false, false, None, "", 0, NotWatched, 0, now)]
    {
      hide LogOk, Logged, OncePerHead, Answered, Chain;
      ghost var before := rows;
      rows := rows[id := Row(false, false, None, "", 0, NotWatched, 0, now)];
      SameFixesSound(before, log, failing, rows);
      ChainGrows(past, before, rows);
      past := past + [before];
    }

    /** The worker finishes a task and hands an ordinary one with a pull request over. */
    method FinishTask(id: TaskId, prNumber: int, ciFixEnabled: bool, lands: bool, now: int)
      requires Valid() && id in rows && !rows[id].done
      modifies this`rows, this`past
      ensures Valid() && past == old(past) + [old(rows)]
      ensures var row := old(rows)[id].(done := true, prNumber := prNumber, updatedAt := now);
              rows == old(rows)[id := if ciFixEnabled && prNumber > 0 && !row.fix && lands then row.(ci := Watching) else row]
    {
      hide LogOk, Logged, OncePerHead, Answered, RowsOk, Later, SameFixes, Chain;
      ghost var before := rows;
      rows := rows[id := rows[id].(done := true, prNumber := prNumber, updatedAt := now)];
      if ciFixEnabled && prNumber > 0 && !rows[id].fix && lands {
        rows := rows[id := rows[id].(ci := Watching)];
      }
      assert rows == before[id := rows[id]];
      FinishKeeps(before, maxAttempts, id, rows[id]);
      SameFixesSound(before, log, failing, rows);
      ChainGrows(past, before, rows);
      past := past + [before];
    }

    /** Creates the child unless the write is lost or an index refuses it. */
    method EnqueueFixTask(parent: TaskId, headSha: string, ghost checks: seq<Checks.CheckRun>, child: TaskId, creates: bool, now: int)
        returns (ok: bool)
      requires Sound(rows, log, failing, maxAttempts) && parent in rows && !rows[parent].fix
      requires Checks.Code(checks) == Checks.Failed && (parent, headSha) in failing
      modifies this`rows, this`log
      ensures Sound(rows, log, failing, maxAttempts) && Later(old(rows), rows)
      ensures ok <==> creates && child !in old(rows) && BAR !in child && !KeyTaken(old(rows), parent, headSha)
      ensures rows == if ok then old(rows)[child := Row(true, false, Some(parent), headSha, 1, NotWatched, 0, now)] else old(rows)
      ensures log == if ok then old(log) + [Fix(child, parent, headSha, checks)] else old(log)
    {
      hide LogOk, Logged, OncePerHead, Checks.Code, KeyTaken;
      ok := creates && child !in rows && BAR !in child && !KeyTaken(rows, parent, headSha);
      if ok {
        FixSound(rows, log, failing, maxAttempts, Fix(child, parent, headSha, checks), now);
        rows := rows[child := FixRow(parent, headSha, rows[parent].attempts, now)];
        log := log + [Fix(child, parent, headSha, checks)];
      }
    }

    method UpdateCiStatus(id: TaskId, ci: CiStatus, headSha: string, poll: Poll)
      requires Sound(rows, log, failing, maxAttempts) && id in rows && rows[id].ci == Watching && (ci == CiExhausted ==> maxAttempts <= 0)
      modifies this`rows
      ensures Sound(rows, log, failing, maxAttempts) && Later(old(rows), rows)
      ensures Answered(old(rows), failing) ==> Answered(rows, failing)
      ensures rows == if poll.writes then old(rows)[id := Polled(old(rows)[id], ci, headSha, poll.now)] else old(rows)
    {
      hide Sound, Answered, Later;
      LaterRefl(rows);
      if poll.writes {
        PolledSound(rows, log, failing, maxAttempts, id, ci, headSha, poll.now);
        rows := rows[id := Polled(rows[id], ci, headSha, poll.now)];
      }
    }

    ghost function Book(): Books
      reads this
    {
      Books(rows, log, failing, clean)
    }

    /** What the pull request and its checks call for. */
    method Decide(id: TaskId, poll: Poll) returns (r: Reaction)
      requires id in rows
      ensures r == React(rows[id], pollTimeout, poll)
    {
      hide Checks.Code;
      if !poll.loads {
        return Ignore;
      }
      var task := rows[id];
      if task.prNumber == 0 {
        return Move(NotWatched, task.headSha);
      }
      if pollTimeout > 0 && poll.now - task.updatedAt > pollTimeout {
        return Move(CiTimeout, task.headSha);
      }
      if poll.view.Err? {
        return Ignore;
      }
      var view := poll.view.value;
      if view.state != "" && view.state != "OPEN" {
        return Move(CiClosed, view.headSha);
      }
      if poll.checks.Err? {
        return Ignore;
      }
      var verdict, failed := Checks.AggregateConclusion(poll.checks.value);
      match verdict
      case Pending => r := Move(Watching, view.headSha);
      case Passed => r := Move(CiPassed, view.headSha);
      case Stuck => r := Move(CiStuck, view.headSha);
      case Failed => r := Mend(view.headSha);
    }

    /** Polls one watched task. */
    method ProcessTask(id: TaskId, poll: Poll)
      requires Valid() && id in rows && rows[id].ci == Watching
      modifies this
      ensures Valid() && past == old(past) + [old(rows)]
      ensures Processed(old(Book()), Book(), id, poll, React(old(rows)[id], pollTimeout, poll), maxAttempts)
      ensures PollDoes(old(rows), rows, id, pollTimeout, poll, maxAttempts)
    {
      hide Sound, Answered, Later, Chain, Checks.Code, React, RepairedRows, Enqueues, Creatable, HasChild;
      hide PollDoes;
      ghost var before, books := rows, Book();
      LaterRefl(rows);
      WatchedRow(rows, log, failing, maxAttempts, id);
      ReactSound(rows[id], pollTimeout, poll);
      var reaction := Decide(id, poll);
      match reaction {
        case Ignore =>
        case Move(ci, headSha) => UpdateCiStatus(id, ci, headSha, poll);
        case Mend(headSha) => HandleFailure(id, headSha, poll);
      }
      ProcessedDoes(books, Book(), id, pollTimeout, poll, maxAttempts);
      ChainGrows(past, before, rows);
      past := past + [before];
    }

    /** One firing of the ticker: every watched task is processed once; a failure in one
        does not keep the others from their turn. */
    method Tick(lists: bool, polls: TaskId -> Poll)
      requires Valid()
      modifies this
      ensures Valid() && old(past) <= past
      ensures !lists ==> Book() == old(Book())
      ensures lists ==> PolledBut(old(rows), old(failing), Book(), {}, pollTimeout, polls, maxAttempts)
      ensures lists ==> TickDoes(old(rows), old(failing), rows, failing, pollTimeout, polls, maxAttempts)
    {
      hide Sound, Answered, React, Processed, Later, Chain, PolledBut, PollDoes, TickDoes;
      WatchedRows(rows, log, failing, maxAttempts);
      if !lists {
        return;
      }
      ghost var start, seen := rows, failing;
      var ids := set id | id in rows && Watched(rows, id);
      NonePolled(Book(), ids, pollTimeout, polls, maxAttempts);
      while ids != {}
        invariant Valid() && old(past) <= past
        invariant forall id | id in ids :: Watched(start, id)
        invariant PolledBut(start, seen, Book(), ids, pollTimeout, polls, maxAttempts)
        decreases ids
      {
        var id :| id in ids;
        ghost var before := Book();
        ToCome(start, seen, before, ids, id, pollTimeout, polls, maxAttempts);
        ReactSound(rows[id], pollTimeout, polls(id));
        ProcessTask(id, polls(id));
        LastStep(past, rows);
        OnePolled(start, seen, before, Book(), ids, id, pollTimeout, polls, maxAttempts);
        ids := ids - {id};
      }
      AllPolledDoes(start, seen, Book(), pollTimeout, polls, maxAttempts);
    }

    /** A failing head gets a child unless it has one. */
    method HandleFailure(id: TaskId, headSha: string, poll: Poll)
      requires Recorded() && id in rows && rows[id].ci == Watching
      requires poll.checks.Ok? && Checks.Code(poll.checks.value) == Checks.Failed
      modifies this`rows, this`log, this`failing, this`clean
      ensures Recorded() && Later(old(rows), rows)
      ensures failing == old(failing) + {(id, headSha)}
      ensures clean == (old(clean) && (HasChild(old(rows), id, headSha) || Creatable(old(rows), poll)))
      ensures rows == RepairedRows(old(rows), id, headSha, poll, maxAttempts)
      ensures log == if Enqueues(old(rows), id, headSha, poll, maxAttempts)
                     then old(log) + [Fix(poll.child, id, headSha, poll.checks.value)] else old(log)
    {
      hide Answered, Later, Checks.Code, Sound, RepairedRows, Creatable;
      ghost var before, seen := rows, failing;
      SeenSound(rows, log, failing, maxAttempts, (id, headSha));
      failing := failing + {(id, headSha)};
      clean := clean && (HasChild(rows, id, headSha) || Creatable(rows, poll));
      Repair(id, headSha, poll);
      if clean && maxAttempts >= 1 {
        WatchedRow(before, old(log), seen, maxAttempts, id);
        RepairAnswers(before, seen, id, headSha, poll, maxAttempts);
      }
    }

    method Repair(id: TaskId, headSha: string, poll: Poll)
      requires Sound(rows, log, failing, maxAttempts) && id in rows && rows[id].ci == Watching
      requires poll.checks.Ok? && Checks.Code(poll.checks.value) == Checks.Failed && (id, headSha) in failing
      modifies this`rows, this`log
      ensures Sound(rows, log, failing, maxAttempts) && Later(old(rows), rows)
      ensures rows == RepairedRows(old(rows), id, headSha, poll, maxAttempts)
      ensures log == if Enqueues(old(rows), id, headSha, poll, maxAttempts)
                     then old(log) + [Fix(poll.child, id, headSha, poll.checks.value)] else old(log)
    {
      hide Answered, Later, Checks.Code, Sound, KeyTaken, HasChild;
      ghost var before := rows;
      LaterRefl(rows);
      WatchedRow(rows, log, failing, maxAttempts, id);
      KeyTakenIff(rows, log, failing, maxAttempts, id, headSha);
      if poll.finds && HasChild(rows, id, headSha) {
        return;
      }
      if rows[id].attempts >= maxAttempts {
        UpdateCiStatus(id, CiExhausted, headSha, poll);
        return;
      }
      if !poll.renders {
        return;
      }
      var ok := EnqueueFixTask(id, headSha, poll.checks.value, poll.child, poll.creates, poll.now);
      if !ok {
        return;
      }
      UpdateCiStatus(id, Watching, headSha, poll);
      LaterTrans(before, before[poll.child := FixRow(id, headSha, 0, poll.now)], rows);
    }

    /** Over whole runs: rows stay, a fix stays the fix of its parent and head, and a
        status once settled, "not watched" included, is final. */
    lemma SettledForGood(i: nat, id: TaskId)
      requires Valid() && i < |past| && id in past[i]
      ensures id in rows && rows[id].fix == past[i][id].fix
      ensures past[i][id].ci != Watching && (past[i][id].done || past[i][id].ci != NotWatched) ==> rows[id].ci == past[i][id].ci
      ensures past[i][id].fix ==> rows[id].parent == past[i][id].parent && rows[id].headSha == past[i][id].headSha
    {
      hide Recorded;
      assert Later((past + [rows])[i], (past + [rows])[|past|]);
    }

    /** ci-fix rows are unique per (parent, head). */
    lemma UniqueFixes(a: TaskId, b: TaskId)
      requires Valid() && a in rows && b in rows && rows[a].fix && rows[b].fix
      requires rows[a].parent == rows[b].parent && rows[a].headSha == rows[b].headSha
      ensures a == b
    {
      hide Checks.Code, RowsOk;
      var i :| 0 <= i < |log| && log[i].child == a;
      var j :| 0 <= j < |log| && log[j].child == b;
    }

    /** Every ci-fix row answers completed checks with a failure on a head of an ordinary
        task; a ci-fix row is itself never watched, so chains of fixes have depth one. */
    lemma FixesAreEarned(a: TaskId)
      requires Valid() && a in rows && rows[a].fix
      ensures rows[a].ci == NotWatched && rows[a].attempts == 1
      ensures rows[a].parent.Some? && rows[a].parent.value in rows && !rows[rows[a].parent.value].fix
      ensures exists i | 0 <= i < |log| ::
                log[i].child == a && Checks.AllCompleted(log[i].checks) && Checks.SomeFailing(log[i].checks)
      ensures (rows[a].parent.value, rows[a].headSha) in failing
    {
      var i :| 0 <= i < |log| && log[i].child == a;
    }

    /** A parent never has more children than distinct failing heads, and, as long as no
        prompt or create was lost, exactly that many. */
    lemma ChildrenAreFailingHeads(parent: TaskId)
      requires Valid()
      ensures |Children(rows, parent)| <= |FailingHeads(failing, parent)|
      ensures clean && maxAttempts >= 1 ==> |Children(rows, parent)| == |FailingHeads(failing, parent)|
    {
      hide Sound, Answered, Checks.Code;
      var children := Children(rows, parent);
      forall a, b | a in children && b in children && rows[a].headSha == rows[b].headSha
        ensures a == b
      {
        UniqueFixes(a, b);
      }
      HeadsCount(rows, children);
      var heads := HeadsOf(rows, children);
      forall h | h in heads
        ensures h in FailingHeads(failing, parent)
      {
        var a :| a in children && rows[a].headSha == h;
        FixesAreEarned(a);
        assert (parent, h) in failing;
      }
      SubsetSize(heads, FailingHeads(failing, parent));
      if clean && maxAttempts >= 1 {
        AnsweredHeads(rows, failing, parent);
        SubsetSize(FailingHeads(failing, parent), heads);
      }
    }

    /** So the configured maximum does not bound the fixes of a pull request: it holds
        exactly while no more heads than that were seen failing, and a watched row is
        never marked exhausted. */
    lemma MaxAttemptsIff(parent: TaskId)
      requires Valid() && clean && maxAttempts >= 1
      ensures |Children(rows, parent)| <= maxAttempts <==> |FailingHeads(failing, parent)| <= maxAttempts
      ensures forall id | id in rows :: rows[id].ci != CiExhausted
    {
      hide Children, FailingHeads;
      ChildrenAreFailingHeads(parent);
    }
  }

  function HeadsOf(rows: Table, ids: set<TaskId>): set<string>
    requires ids <= rows.Keys
  {
    set id | id in ids :: rows[id].headSha
  }

  lemma {:induction false} HeadsCount(rows: Table, ids: set<TaskId>)
    requires ids <= rows.Keys
    requires forall a, b | a in ids && b in ids && rows[a].headSha == rows[b].headSha :: a == b
    ensures |HeadsOf(rows, ids)| == |ids|
  {
    if ids == {} {
      assert HeadsOf(rows, ids) == {};
    } else {
      var id :| id in ids;
      HeadsCount(rows, ids - {id});
      assert HeadsOf(rows, ids) == HeadsOf(rows, ids - {id}) + {rows[id].headSha};
    }
  }

  lemma AnsweredHeads(rows: Table, failing: set<(TaskId, string)>, parent: TaskId)
    requires Answered(rows, failing)
    ensures FailingHeads(failing, parent) <= HeadsOf(rows, Children(rows, parent))
  {
    forall h | h in FailingHeads(failing, parent)
      ensures h in HeadsOf(rows, Children(rows, parent))
    {
      var id :| id in rows && ChildOf(rows[id], parent, h);
      assert id in Children(rows, parent);
    }
  }

  /** A head for every number. */
  function Sha(n: nat): string {
    seq(n, _ => 'f')
  }

  /** However many new heads fail, each gets its fix: with any maximum, n polls make n
      children of one pull request. */
  method FixWithoutEnd(maxAttempts: int, n: nat) returns (w: Watcher)
    requires maxAttempts >= 1
    ensures w.Valid() && w.maxAttempts == maxAttempts && |Children(w.rows, "t")| == n
  {
    hide Watcher.Valid, Later, React, RepairedRows, Children, FailingHeads, Checks.Code;
    w := new Watcher(maxAttempts, 0);
    w.AddTask("t", 0);
    w.FinishTask("t", 1, true, true, 0);
    for i := 0 to n
      invariant w.Valid() && w.clean && w.maxAttempts == maxAttempts && w.pollTimeout == 0
      invariant Watched(w.rows, "t") && w.rows["t"].prNumber == 1 && w.rows["t"].attempts == 0
      invariant forall id | id in w.rows && id != "t" :: exists k :: 0 <= k < i && id == Child(k)
      invariant w.failing == Seen(i)
    {
      var poll := Poll(0, true, Ok(View("OPEN", Sha(i))), Ok([Checks.CheckRun("build", Checks.COMPLETED, Checks.Failure)]),
                       true, true, Child(i), true, true);
      assert Child(i) !in w.rows && BAR !in Child(i) by { ChildrenDiffer(i); }
      FailingPoll(w.rows["t"], poll, Sha(i));
      OneMore(w.rows, "t", Sha(i), poll, maxAttempts);
      w.ProcessTask("t", poll);
      assert Seen(i + 1) == Seen(i) + {("t", Sha(i))};
    }
    w.ChildrenAreFailingHeads("t");
    SeenHeads(n);
  }

  function Child(n: nat): TaskId {
    "c" + Sha(n)
  }

  function Seen(n: nat): set<(TaskId, string)> {
    set k | 0 <= k < n :: ("t", Sha(k))
  }

  lemma ChildrenDiffer(i: nat)
    ensures forall k | 0 <= k < i :: Child(k) != Child(i)
    ensures Child(i) != "t" && BAR !in Child(i)
  {
    forall k | 0 <= k < i
      ensures Child(k) != Child(i)
    {
      assert |Child(k)| == k + 1 && |Child(i)| == i + 1;
    }
    assert Child(i)[0] == 'c';
  }

  lemma FailingPoll(row: Row, poll: Poll, headSha: string)
    requires row.prNumber == 1 && poll.loads && poll.view == Ok(View("OPEN", headSha))
    requires poll.checks == Ok([Checks.CheckRun("build", Checks.COMPLETED, Checks.Failure)])
    ensures React(row, 0, poll) == Mend(headSha)
  {
    assert poll.checks.value[0].Failing();
  }

  lemma OneMore(rows: Table, id: TaskId, headSha: string, poll: Poll, maxAttempts: int)
    requires Watched(rows, id) && rows[id].attempts < maxAttempts && Creatable(rows, poll) && poll.writes
    ensures var after := RepairedRows(rows, id, headSha, poll, maxAttempts);
            && (forall x | x in after :: x in rows || x == poll.child)
            && Watched(after, id) && after[id].prNumber == rows[id].prNumber && after[id].attempts == rows[id].attempts
  {
    hide HasChild, Creatable;
  }

  lemma {:induction false} SeenHeads(n: nat)
    ensures |FailingHeads(Seen(n), "t")| == n
  {
    var heads := FailingHeads(Seen(n), "t");
    if n == 0 {
      assert heads == {};
    } else {
      SeenHeads(n - 1);
      var fewer := FailingHeads(Seen(n - 1), "t");
      assert Seen(n) == Seen(n - 1) + {("t", Sha(n - 1))};
      assert heads == fewer + {Sha(n - 1)};
      forall p | p in Seen(n - 1)
        ensures p.1 != Sha(n - 1)
      {
        var k :| 0 <= k < n - 1 && p == ("t", Sha(k));
        assert |Sha(k)| == k;
      }
    }
  }

  lemma LaterRefl(rows: Table)
    ensures Later(rows, rows)
  {
  }
}
