/** The worker's pipeline as seen by the protocol: one run of the worker, woven into
    whatever everybody else does meanwhile, is a run of the protocol. */
module WorkerProtocol {
  import opened Wrappers
  import opened TaskTable
  import opened Protocol
  import Dispatch
  import Workers

  // ---- where a goroutine is ------------------------------------------------------------

  datatype Place = At(phase: Phase) | Gone

  /** A step of goroutine w itself. */
  predicate Owns(w: nat, step: Step) {
    match step
    case MarkRunning(v, _) => v == w
    case SaveWorktree(v, _) => v == w
    case Finish(v, _, _) => v == w
    case Unregister(v) => v == w
    case Release(v) => v == w
    case _ => false
  }

  /** Anything else, short of the end of the process. */
  predicate Foreign(w: nat, step: Step) {
    !Owns(w, step) && !step.Restart?
  }

  ghost predicate Stands(s: State, w: nat, worker: Worker, place: Place) {
    && w < s.nextWorker
    && match place
       case Gone => w !in s.workers
       case At(phase) =>
         && w in s.workers && s.workers[w].phase == phase
         && s.workers[w].task == worker.task && s.workers[w].copy == worker.copy
  }

  /** Nobody else moves a goroutine, gives it another task or touches its copy. */
  lemma ForeignStepKeeps(c: Config, s: State, step: Step, w: nat, worker: Worker, place: Place)
    requires Stands(s, w, worker, place) && Enabled(c, s, step) && Foreign(w, step)
    ensures Stands(Apply(c, s, step), w, worker, place)
  {
    hide OldestEligible, LatestClaim, Eligible, Saved, Reclaimed, Recovered, Claimed;
  }

  ghost predicate AllForeign(w: nat, steps: seq<Step>) {
    forall i | 0 <= i < |steps| :: Foreign(w, steps[i])
  }

  lemma {:induction false} ForeignStepsKeep(c: Config, s: State, steps: seq<Step>, w: nat, worker: Worker, place: Place)
    requires Stands(s, w, worker, place) && Run(c, s, steps) && AllForeign(w, steps)
    ensures Stands(End(c, s, steps), w, worker, place)
    decreases |steps|
  {
    hide Stands, Apply, Enabled, Foreign, ClaimsDistinct, SavesPrompt;
    if steps != [] {
      ForeignStepKeeps(c, s, steps[0], w, worker, place);
      ForeignStepsKeep(c, Apply(c, s, steps[0]), steps[1..], w, worker, place);
    }
  }

  // ---- what a goroutine does next ----------------------------------------------------------

  predicate Fits(w: nat, place: Place, step: Step) {
    match step
    case MarkRunning(v, _) => v == w && place == At(Spawned)
    case SaveWorktree(v, _) => v == w && place == At(Marked)
    case Finish(v, status, _) =>
      v == w && (place == At(Marked) || place == At(Working)) && (status == Done || status == Failed || status == Cancelled)
    case Unregister(v) => v == w && place == At(Exiting)
    case Release(v) => v == w && place == At(Unregistered)
    case _ => false
  }

  function Next(place: Place, step: Step): Place {
    match step
    case MarkRunning(_, landed) => At(if landed then Marked else Exiting)
    case SaveWorktree(_, _) => At(Working)
    case Finish(_, _, _) => At(Exiting)
    case Unregister(_) => At(Unregistered)
    case Release(_) => Gone
    case _ => place
  }

  /** A goroutine's steps in an order its code allows, and where they lead. */
  predicate Path(w: nat, place: Place, own: seq<Step>)
    decreases |own|
  {
    own != [] ==> Fits(w, place, own[0]) && Path(w, Next(place, own[0]), own[1..])
  }

  function Leads(place: Place, own: seq<Step>): Place
    decreases |own|
  {
    if own == [] then place else Leads(Next(place, own[0]), own[1..])
  }

  /** A goroutine where it stands can always take its next step. */
  lemma OwnStepMoves(c: Config, s: State, step: Step, w: nat, worker: Worker, place: Place)
    requires Inv(c, s) && Stands(s, w, worker, place) && Fits(w, place, step)
    ensures Enabled(c, s, step) && ClaimsDistinct(s, step)
    ensures Stands(Apply(c, s, step), w, worker, Next(place, step))
  {
    hide RowsOk, CopiesOk, HoldsOk, ClaimsOk, CancelMapOk, Distinct, Saved;
    assert w in s.workers ==> |s.workers| > 0;
  }

  /** What a goroutine's step writes: nothing, or its whole copy under the one status. */
  lemma OwnStepWrites(c: Config, s: State, step: Step, w: nat)
    requires Enabled(c, s, step) && Owns(w, step)
    ensures var rows := Apply(c, s, step).rows;
            match step
            case MarkRunning(_, true) => rows == s.rows[s.workers[w].task := s.workers[w].copy.(status := Running)]
            case SaveWorktree(_, true) => rows == s.rows[s.workers[w].task := s.workers[w].copy.(status := Running)]
            case Finish(_, status, true) => rows == s.rows[s.workers[w].task := s.workers[w].copy.(status := status)]
            case _ => rows == s.rows
  {
  }

  // ---- weaving ------------------------------------------------------------------------------

  /** The goroutine's steps with the others' in between. */
  function Weave(own: seq<Step>, others: seq<seq<Step>>): seq<Step>
    requires |others| == |own| + 1
  {
    if own == [] then others[0] else others[0] + ([own[0]] + Weave(own[1..], others[1..]))
  }

  ghost predicate OthersForeign(w: nat, others: seq<seq<Step>>) {
    forall k | 0 <= k < |others| :: AllForeign(w, others[k])
  }

  /** The others can take their steps when their turn comes, and the goroutine's saves
      under 'running' are in time when they land. Nothing is asked of the goroutine's own
      steps besides. */
  ghost predicate Weavable(c: Config, s: State, own: seq<Step>, others: seq<seq<Step>>)
    requires |others| == |own| + 1
    decreases |own|
  {
    && Run(c, s, others[0])
    && (own != [] ==>
          var m := End(c, s, others[0]);
          && SavesPrompt(c, m, own[0])
          && (Enabled(c, m, own[0]) ==> Weavable(c, Apply(c, m, own[0]), own[1..], others[1..])))
  }

  /** Whatever the others do in between, the goroutine gets through its steps, all of them
      or as many as a restart leaves it. */
  lemma {:induction false} WovenRun(c: Config, s: State, w: nat, worker: Worker, place: Place, own: seq<Step>, others: seq<seq<Step>>)
    requires Inv(c, s) && Stands(s, w, worker, place) && Path(w, place, own)
    requires |others| == |own| + 1 && OthersForeign(w, others) && Weavable(c, s, own, others)
    ensures Run(c, s, Weave(own, others))
    ensures Stands(End(c, s, Weave(own, others)), w, worker, Leads(place, own))
    decreases |own|
  {
    hide Inv, Stands, Apply, Enabled, Fits, Next, SavesPrompt, ClaimsDistinct, AllForeign, Run, End;
    ForeignStepsKeep(c, s, others[0], w, worker, place);
    if own != [] {
      var m := End(c, s, others[0]);
      Dispatch.RunKeepsInv(c, s, others[0]);
      OwnStepMoves(c, m, own[0], w, worker, place);
      InvStep(c, m, own[0]);
      var rest := Weave(own[1..], others[1..]);
      WovenRun(c, Apply(c, m, own[0]), w, worker, Next(place, own[0]), own[1..], others[1..]);
      Dispatch.OneStep(c, m, own[0]);
      Dispatch.Concat(c, m, [own[0]], rest);
      Dispatch.Concat(c, s, others[0], [own[0]] + rest);
    }
  }

  // ---- the worker's run ------------------------------------------------------------------------

  /** The protocol's steps of goroutine w during a run, from mark-running to the freed
      slot; the flags say which of the later saves land. */
  function StepsOf(w: nat, o: Workers.Outcome, t: Workers.TaskEnd, pathLands: bool, endLands: bool): seq<Step> {
    (if !o.markLands then [MarkRunning(w, false)]
     else if !o.worktreeMade then [MarkRunning(w, true), Finish(w, t.status, endLands)]
     else [MarkRunning(w, true), SaveWorktree(w, pathLands), Finish(w, t.status, endLands)])
    + [Unregister(w), Release(w)]
  }

  /** The status a step of goroutine w writes. */
  function SavedBy(w: nat, step: Step): seq<Status> {
    match step
    case MarkRunning(v, _) => if v == w then [Running] else []
    case SaveWorktree(v, _) => if v == w then [Running] else []
    case Finish(v, status, _) => if v == w then [status] else []
    case _ => []
  }

  function SavedByAll(w: nat, steps: seq<Step>): seq<Status> {
    if steps == [] then [] else SavedBy(w, steps[0]) + SavedByAll(w, steps[1..])
  }

  /** A run that keeps its promise is, with any steps of the others before, between and
      after its own, a run of the protocol: no step of a freshly spawned goroutine is
      ever blocked, it saves the same statuses in the same order as the run's journal,
      and in the end it is gone. */
  lemma RunTaskFollowsProtocol(c: Config, s: State, w: nat, wiring: Workers.Config, o: Workers.Outcome, fix: bool,
                               t: Workers.TaskEnd, journal: seq<Workers.Effect>, pathLands: bool, endLands: bool,
                               others: seq<seq<Step>>)
    requires Inv(c, s) && w in s.workers && s.workers[w].phase.Spawned?
    requires Workers.RunPromise(wiring, o, fix, t, journal)
    requires var own := StepsOf(w, o, t, pathLands, endLands);
             |others| == |own| + 1 && OthersForeign(w, others) && Weavable(c, s, own, others)
    ensures var run := Weave(StepsOf(w, o, t, pathLands, endLands), others);
            && Run(c, s, run)
            && w !in End(c, s, run).workers
            && SavedByAll(w, run) == Workers.Saves(journal)
  {
    hide Run, End, Inv, Weavable, Workers.Saves, Workers.EndsByItsGates, Workers.TidiesUp, Weave, Path, Leads;
    var own := StepsOf(w, o, t, pathLands, endLands);
    StandsNow(c, s, w);
    OwnPath(w, o, t, pathLands, endLands);
    WovenRun(c, s, w, s.workers[w], At(Spawned), own, others);
    OnlyOwnSaves(w, own, others);
    SavedInOrder(w, o, t, pathLands, endLands);
  }

  lemma StandsNow(c: Config, s: State, w: nat)
    requires Inv(c, s) && w in s.workers
    ensures Stands(s, w, s.workers[w], At(s.workers[w].phase))
  {
    hide RowsOk, CopiesOk, HoldsOk, ClaimsOk, SlotsOk, CancelMapOk;
  }

  lemma OwnPath(w: nat, o: Workers.Outcome, t: Workers.TaskEnd, pathLands: bool, endLands: bool)
    requires o.markLands ==> Workers.Terminal(t.status)
    ensures var own := StepsOf(w, o, t, pathLands, endLands);
            Path(w, At(Spawned), own) && Leads(At(Spawned), own) == Gone
  {
    var mark, save, finish := MarkRunning(w, o.markLands), SaveWorktree(w, pathLands), Finish(w, t.status, endLands);
    hide Path, Leads;
    var last, rest := [Release(w)], [Unregister(w), Release(w)];
    NoPath(w, Gone);
    Onward(w, At(Unregistered), Release(w), []);
    assert [Release(w)] + [] == last;
    Onward(w, At(Exiting), Unregister(w), last);
    assert [Unregister(w)] + last == rest;
    if !o.markLands {
      Onward(w, At(Spawned), mark, rest);
    } else if !o.worktreeMade {
      Onward(w, At(Marked), finish, rest);
      Onward(w, At(Spawned), mark, [finish] + rest);
      assert [mark] + ([finish] + rest) == StepsOf(w, o, t, pathLands, endLands);
    } else {
      Onward(w, At(Working), finish, rest);
      Onward(w, At(Marked), save, [finish] + rest);
      Onward(w, At(Spawned), mark, [save] + ([finish] + rest));
      assert [mark] + ([save] + ([finish] + rest)) == StepsOf(w, o, t, pathLands, endLands);
    }
  }

  lemma NoPath(w: nat, place: Place)
    ensures Path(w, place, []) && Leads(place, []) == place
  {
  }

  lemma Onward(w: nat, place: Place, step: Step, own: seq<Step>)
    requires Fits(w, place, step) && Path(w, Next(place, step), own)
    ensures Path(w, place, [step] + own) && Leads(place, [step] + own) == Leads(Next(place, step), own)
  {
    assert ([step] + own)[1..] == own;
  }

  lemma {:induction false} SavedAppend(w: nat, a: seq<Step>, b: seq<Step>)
    ensures SavedByAll(w, a + b) == SavedByAll(w, a) + SavedByAll(w, b)
  {
    if a == [] {
      assert a + b == b;
    } else {
      assert (a + b)[1..] == a[1..] + b;
      SavedAppend(w, a[1..], b);
    }
  }

  lemma {:induction false} ForeignSavesNothing(w: nat, steps: seq<Step>)
    requires AllForeign(w, steps)
    ensures SavedByAll(w, steps) == []
  {
    if steps != [] {
      assert Foreign(w, steps[0]);
      assert AllForeign(w, steps[1..]);
      ForeignSavesNothing(w, steps[1..]);
    }
  }

  /** What the others save under their own names is left out of the goroutine's saves. */
  lemma {:induction false} OnlyOwnSaves(w: nat, own: seq<Step>, others: seq<seq<Step>>)
    requires |others| == |own| + 1 && OthersForeign(w, others)
    ensures SavedByAll(w, Weave(own, others)) == SavedByAll(w, own)
  {
    hide AllForeign;
    ForeignSavesNothing(w, others[0]);
    if own != [] {
      var rest := Weave(own[1..], others[1..]);
      OnlyOwnSaves(w, own[1..], others[1..]);
      SavedAppend(w, others[0], [own[0]] + rest);
      assert ([own[0]] + rest)[1..] == rest;
    }
  }

  lemma SavedInOrder(w: nat, o: Workers.Outcome, t: Workers.TaskEnd, pathLands: bool, endLands: bool)
    ensures SavedByAll(w, StepsOf(w, o, t, pathLands, endLands)) ==
              if !o.markLands then [Running] else if !o.worktreeMade then [Running, t.status] else [Running, Running, t.status]
  {
    hide SavedByAll;
    var mark, save, finish := MarkRunning(w, o.markLands), SaveWorktree(w, pathLands), Finish(w, t.status, endLands);
    var rest := [Unregister(w), Release(w)];
    SavesOnto(w, Release(w), []);
    SavesOnto(w, Unregister(w), [Release(w)]);
    assert [Unregister(w)] + [Release(w)] == rest && [Release(w)] + [] == [Release(w)];
    if !o.markLands {
      SavesOnto(w, mark, rest);
    } else if !o.worktreeMade {
      SavesOnto(w, finish, rest);
      SavesOnto(w, mark, [finish] + rest);
      assert [mark] + ([finish] + rest) == StepsOf(w, o, t, pathLands, endLands);
    } else {
      SavesOnto(w, finish, rest);
      SavesOnto(w, save, [finish] + rest);
      SavesOnto(w, mark, [save] + ([finish] + rest));
      assert [mark] + ([save] + ([finish] + rest)) == StepsOf(w, o, t, pathLands, endLands);
    }
  }

  lemma SavesOnto(w: nat, step: Step, steps: seq<Step>)
    ensures SavedByAll(w, [step] + steps) == SavedBy(w, step) + SavedByAll(w, steps)
    ensures steps == [] ==> SavedByAll(w, steps) == []
  {
    assert ([step] + steps)[1..] == steps;
  }

  // ---- stops ---------------------------------------------------------------------------------

  /** Only a stop of its own row raises a goroutine's flag. */
  lemma FlagNeedsStop(c: Config, s: State, step: Step, w: nat)
    requires Inv(c, s) && Enabled(c, s, step) && w in s.workers && !s.workers[w].cancelled
    requires w in Apply(c, s, step).workers && Apply(c, s, step).workers[w].cancelled
    ensures step == StopRunning(s.workers[w].task)
  {
    hide RowsOk, CopiesOk, HoldsOk, ClaimsOk, SlotsOk, OldestEligible, LatestClaim, Saved, Reclaimed, Recovered, Claimed;
  }

  /** A goroutine keeps its task, and once gone it does not come back. */
  lemma SameTask(c: Config, s: State, step: Step, w: nat)
    requires Enabled(c, s, step) && w < s.nextWorker
    ensures w < Apply(c, s, step).nextWorker
    ensures w in Apply(c, s, step).workers ==> w in s.workers && Apply(c, s, step).workers[w].task == s.workers[w].task
  {
    hide OldestEligible, LatestClaim, Saved, Reclaimed, Recovered, Claimed;
  }

  lemma {:induction false} StaysGone(c: Config, s: State, steps: seq<Step>, w: nat)
    requires Run(c, s, steps) && w < s.nextWorker && w !in s.workers
    ensures w !in End(c, s, steps).workers
    decreases |steps|
  {
    hide Apply, Enabled;
    if steps != [] {
      SameTask(c, s, steps[0], w);
      StaysGone(c, Apply(c, s, steps[0]), steps[1..], w);
    }
  }

  /** A raised flag was raised by a stop of the goroutine's row. */
  lemma {:induction false} StopWasTaken(c: Config, s: State, steps: seq<Step>, w: nat)
    requires Inv(c, s) && Run(c, s, steps) && w in s.workers && w < s.nextWorker && !s.workers[w].cancelled
    requires w in End(c, s, steps).workers && End(c, s, steps).workers[w].cancelled
    ensures StopRunning(s.workers[w].task) in steps
    decreases |steps|
  {
    hide Inv, Apply, Enabled;
    if steps != [] {
      var next := Apply(c, s, steps[0]);
      SameTask(c, s, steps[0], w);
      InvStep(c, s, steps[0]);
      if w !in next.workers {
        StaysGone(c, next, steps[1..], w);
      } else if next.workers[w].cancelled {
        FlagNeedsStop(c, s, steps[0], w);
      } else {
        StopWasTaken(c, next, steps[1..], w);
      }
    }
  }

  /** The run ended because its context was found cancelled. */
  predicate EndedByStop(o: Workers.Outcome, journal: seq<Workers.Effect>) {
    && o.markLands && o.worktreeMade
    && (o.stoppedEarly || (o.rendered && Workers.Started(journal) && !o.claude.Completed? && o.stoppedLate))
  }

  /** The context is found cancelled only if the goroutine's flag is up by the time it
      writes its last status. */
  ghost predicate ReadsFlag(c: Config, s: State, w: nat, own: seq<Step>, others: seq<seq<Step>>)
    requires |own| >= 2 && |others| == |own| + 1
  {
    var before := Weave(own[..2], others[..3]);
    Run(c, s, before) && w in End(c, s, before).workers ==> End(c, s, before).workers[w].cancelled
  }

  /** A run that ended by a stop was stopped: one of the others stopped its row before it
      wrote its last status. */
  lemma StoppedRunWasStopped(c: Config, s: State, w: nat, wiring: Workers.Config, o: Workers.Outcome, fix: bool,
                             t: Workers.TaskEnd, journal: seq<Workers.Effect>, pathLands: bool, endLands: bool,
                             others: seq<seq<Step>>)
    requires Inv(c, s) && w in s.workers && s.workers[w].phase.Spawned? && !s.workers[w].cancelled
    requires Workers.RunPromise(wiring, o, fix, t, journal) && EndedByStop(o, journal)
    requires var own := StepsOf(w, o, t, pathLands, endLands);
             |others| == |own| + 1 && OthersForeign(w, others) && Weavable(c, s, own, others) && ReadsFlag(c, s, w, own, others)
    ensures t.status == Cancelled
    ensures exists k | 0 <= k < 3 :: StopRunning(s.workers[w].task) in others[k]
  {
    hide Run, End, Inv, Weavable, Workers.TidiesUp, Workers.Saves, Weave, Path, Leads;
    var own := StepsOf(w, o, t, pathLands, endLands);
    var before := Weave(own[..2], others[..3]);
    assert own[..2] == [MarkRunning(w, true), SaveWorktree(w, pathLands)];
    StandsNow(c, s, w);
    EarlyPath(w, pathLands);
    WeavablePrefix(c, s, own, others, 2);
    WovenRun(c, s, w, s.workers[w], At(Spawned), own[..2], others[..3]);
    StopWasTaken(c, s, before, w);
    FromOthers(own[..2], others[..3], StopRunning(s.workers[w].task));
  }

  lemma EarlyPath(w: nat, pathLands: bool)
    ensures var own := [MarkRunning(w, true), SaveWorktree(w, pathLands)];
            Path(w, At(Spawned), own) && Leads(At(Spawned), own) == At(Working)
  {
    hide Path, Leads;
    NoPath(w, At(Working));
    Onward(w, At(Marked), SaveWorktree(w, pathLands), []);
    assert [SaveWorktree(w, pathLands)] + [] == [SaveWorktree(w, pathLands)];
    Onward(w, At(Spawned), MarkRunning(w, true), [SaveWorktree(w, pathLands)]);
    assert [MarkRunning(w, true)] + [SaveWorktree(w, pathLands)] == [MarkRunning(w, true), SaveWorktree(w, pathLands)];
  }

  lemma {:induction false} WeavablePrefix(c: Config, s: State, own: seq<Step>, others: seq<seq<Step>>, n: nat)
    requires n <= |own| && |others| == |own| + 1 && Weavable(c, s, own, others)
    ensures Weavable(c, s, own[..n], others[..n + 1])
    decreases |own|
  {
    hide Run, End, Apply, Enabled, SavesPrompt;
    if n > 0 {
      var m := End(c, s, others[0]);
      assert own[..n][1..] == own[1..][..n - 1] && others[..n + 1][1..] == others[1..][..n];
      if Enabled(c, m, own[0]) {
        WeavablePrefix(c, Apply(c, m, own[0]), own[1..], others[1..], n - 1);
      }
    }
  }

  lemma {:induction false} FromOthers(own: seq<Step>, others: seq<seq<Step>>, step: Step)
    requires |others| == |own| + 1 && step in Weave(own, others) && step !in own
    ensures exists k | 0 <= k < |others| :: step in others[k]
  {
    if own != [] && step !in others[0] {
      FromOthers(own[1..], others[1..], step);
      var k :| 0 <= k < |others[1..]| && step in others[1..][k];
      assert step in others[k + 1];
    }
  }
}
