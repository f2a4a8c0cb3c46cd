/** Classification of a pull request's check runs, internal/ci/checks.go. */
module Checks {

  datatype Conclusion = NoConclusion | Success | Failure | TimedOut | Cancelled | ActionRequired | Skipped | Neutral | Stale | Unknown

  const COMPLETED := "completed"

  datatype CheckRun = CheckRun(name: string, status: string, conclusion: Conclusion) {
    predicate Failing() {
      conclusion == Failure || conclusion == TimedOut || conclusion == Cancelled
    }
  }

  datatype Verdict = Pending | Passed | Failed | Stuck

  predicate AllCompleted(checks: seq<CheckRun>) {
    checks != [] && forall i | 0 <= i < |checks| :: checks[i].status == COMPLETED
  }

  predicate SomeFailing(checks: seq<CheckRun>) {
    exists i | 0 <= i < |checks| :: checks[i].Failing()
  }

  predicate SomeConcluded(checks: seq<CheckRun>, conclusion: Conclusion) {
    exists i | 0 <= i < |checks| :: checks[i].conclusion == conclusion
  }

  function FailingRuns(checks: seq<CheckRun>): seq<CheckRun> {
    if checks == [] then []
    else
      var last := checks[|checks| - 1];
      FailingRuns(checks[..|checks| - 1]) + if last.Failing() then [last] else []
  }

  /** What the loop decides, in terms of what the list holds. */
  function Code(checks: seq<CheckRun>): Verdict {
    if !AllCompleted(checks) then Pending
    else if SomeFailing(checks) then Failed
    else if SomeConcluded(checks, ActionRequired) then Stuck
    else Passed
  }

  method AggregateConclusion(checks: seq<CheckRun>) returns (verdict: Verdict, failedRuns: seq<CheckRun>)
    ensures verdict == Code(checks)
    ensures verdict == if !Finished(checks) then Pending
                       else if Concluded(checks, {Failure, TimedOut, Cancelled}) then Failed
                       else if Concluded(checks, {ActionRequired}) then Stuck
                       else Passed
    ensures failedRuns == if verdict == Failed then FailingRuns(checks) else []
    ensures verdict == Failed <==> failedRuns != []
  {
    hide SomeFailing, SomeConcluded, FailingRuns, Finished, Concluded;
    CodeMeans(checks);
    failedRuns := [];
    if |checks| == 0 {
      return Pending, [];
    }
    var allTerminal, hasFailure, hasActionRequired := true, false, false;
    NoChecks(checks[..0]);
    for i := 0 to |checks|
      invariant allTerminal <==> forall k | 0 <= k < i :: checks[k].status == COMPLETED
      invariant hasFailure <==> SomeFailing(checks[..i])
      invariant hasActionRequired <==> SomeConcluded(checks[..i], ActionRequired)
      invariant failedRuns == FailingRuns(checks[..i])
      invariant hasFailure <==> failedRuns != []
    {
      var c := checks[i];
      OneMore(checks, i);
      if c.status != COMPLETED {
        allTerminal := false;
      }
      if c.Failing() {
        hasFailure := true;
        failedRuns := failedRuns + [c];
      } else if c.conclusion == ActionRequired {
        hasActionRequired := true;
      }
    }
    assert checks[..|checks|] == checks;
    if !allTerminal {
      return Pending, [];
    }
    if hasFailure {
      return Failed, failedRuns;
    }
    verdict := if hasActionRequired then Stuck else Passed;
    failedRuns := [];
  }

  lemma NoChecks(checks: seq<CheckRun>)
    requires checks == []
    ensures !SomeFailing(checks) && !SomeConcluded(checks, ActionRequired) && FailingRuns(checks) == []
  {
  }

  lemma OneMore(checks: seq<CheckRun>, i: nat)
    requires i < |checks|
    ensures var c := checks[i];
            && (SomeFailing(checks[..i + 1]) <==> SomeFailing(checks[..i]) || c.Failing())
            && (SomeConcluded(checks[..i + 1], ActionRequired) <==> SomeConcluded(checks[..i], ActionRequired) || c.conclusion == ActionRequired)
            && FailingRuns(checks[..i + 1]) == if c.Failing() then FailingRuns(checks[..i]) + [c] else FailingRuns(checks[..i])
  {
    var shorter, longer := checks[..i], checks[..i + 1];
    assert longer[..i] == shorter && longer[i] == checks[i];
    assert forall k | 0 <= k < i :: longer[k] == shorter[k];
  }

  // ---- the same, told by the conclusions themselves ---------------------------------

  predicate Finished(checks: seq<CheckRun>) {
    checks != [] && forall i | 0 <= i < |checks| :: checks[i].status == "completed"
  }

  predicate Concluded(checks: seq<CheckRun>, conclusions: set<Conclusion>) {
    exists i | 0 <= i < |checks| :: checks[i].conclusion in conclusions
  }

  /** Failures, time-outs and cancellations fail a completed list, a required action makes
      it stuck, and anything else passes. */
  lemma CodeMeans(checks: seq<CheckRun>)
    ensures Code(checks) ==
              if !Finished(checks) then Pending
              else if Concluded(checks, {Failure, TimedOut, Cancelled}) then Failed
              else if Concluded(checks, {ActionRequired}) then Stuck
              else Passed
  {
    assert AllCompleted(checks) <==> Finished(checks);
    var bad := {Failure, TimedOut, Cancelled};
    assert forall i | 0 <= i < |checks| :: checks[i].Failing() <==> checks[i].conclusion in bad;
    assert SomeFailing(checks) <==> Concluded(checks, bad);
    assert SomeConcluded(checks, ActionRequired) <==> Concluded(checks, {ActionRequired});
  }

  /** The failing runs are those of the list that failed, timed out or were cancelled, in
      the order of the list. */
  lemma {:induction false} FailingRunsInOrder(checks: seq<CheckRun>)
    requires checks != []
    ensures FailingRuns(checks) ==
              (if checks[0].conclusion in {Failure, TimedOut, Cancelled} then [checks[0]] else []) + FailingRuns(checks[1..])
  {
    var n := |checks| - 1;
    if n > 0 {
      FailingRunsInOrder(checks[..n]);
      assert checks[..n][1..] == checks[1..][..n - 1];
    }
  }

  /** The decision tree of the comment above the function: passed needs every check to
      be a success, skipped or neutral; whatever is left over is stuck. */
  function Documented(checks: seq<CheckRun>): Verdict {
    if !AllCompleted(checks) then Pending
    else if forall i | 0 <= i < |checks| :: Harmless(checks[i].conclusion) then Passed
    else if SomeFailing(checks) then Failed
    else Stuck
  }

  predicate Harmless(conclusion: Conclusion) {
    conclusion == Success || conclusion == Skipped || conclusion == Neutral
  }

  /** The code departs from its comment exactly on completed lists without a failure or
      a required action in which some check is stale, unknown or has no conclusion. */
  lemma DocumentedIff(checks: seq<CheckRun>)
    ensures Code(checks) == Documented(checks) <==>
            !(&& AllCompleted(checks) && !SomeFailing(checks) && !SomeConcluded(checks, ActionRequired)
              && exists i | 0 <= i < |checks| :: !Harmless(checks[i].conclusion))
    ensures Code(checks) != Documented(checks) ==> Code(checks) == Passed && Documented(checks) == Stuck
  {
    if AllCompleted(checks) && SomeFailing(checks) {
      var i :| 0 <= i < |checks| && checks[i].Failing();
      assert !Harmless(checks[i].conclusion);
    }
    if AllCompleted(checks) && !SomeFailing(checks) && SomeConcluded(checks, ActionRequired) {
      var i :| 0 <= i < |checks| && checks[i].conclusion == ActionRequired;
      assert !Harmless(checks[i].conclusion);
    }
  }

  /** The smallest instance: one stale check passes, though documented as stuck. */
  lemma StalePasses(name: string)
    ensures var checks := [CheckRun(name, COMPLETED, Stale)];
            Code(checks) == Passed && Documented(checks) == Stuck
  {
    assert !Harmless([CheckRun(name, COMPLETED, Stale)][0].conclusion);
  }
}
