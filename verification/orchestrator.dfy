/** The release orchestrator's loops over the steps of a bundle, and the bounded rescanning loop of the
    orchestration use case, each proved against its walk in `Walks`. */
module Orchestrator {
  import opened Base
  import opened Drone
  import opened Rows
  import opened Bundles
  import opened Walks
  import opened DeploymentService

  predicate Distinct(steps: seq<Deployment>) {
    forall i, j :: 0 <= i < j < |steps| ==> steps[i] != steps[j]
  }

  function Values(steps: seq<Deployment>): (rows: seq<Row>)
    reads steps
    ensures |rows| == |steps|
    ensures forall i :: 0 <= i < |steps| ==> rows[i] == steps[i].Value()
  {
    if steps == [] then [] else [steps[0].Value()] + Values(steps[1..])
  }

  lemma Pinned(steps: seq<Deployment>, rows: seq<Row>)
    requires |rows| == |steps| && forall j :: 0 <= j < |steps| ==> steps[j].Value() == rows[j]
    ensures Values(steps) == rows
  {
  }

  // ---------------------------------------------------------------- verdicts

  method CancelLater(steps: seq<Deployment>)
    requires Distinct(steps)
    modifies steps
    ensures Values(steps) == CancelWaiting(old(Values(steps)))
  {
    hide CancelWaiting, Values, CancelledRow;
    ghost var rows := Values(steps);
    for i := 0 to |steps|
      invariant forall j :: 0 <= j < i ==> steps[j].Value() == CancelWaiting(rows)[j]
      invariant forall j :: i <= j < |steps| ==> steps[j].Value() == rows[j]
    {
      assert steps[i].Value() == rows[i];
      if steps[i].status == Status.Waiting {
        steps[i].Cancel();
      }
    }
    Pinned(steps, CancelWaiting(rows));
  }

  method SomeSucceeded(steps: seq<Deployment>) returns (some: bool)
    ensures some <==> AnySucceeded(Values(steps))
  {
    hide Values;
    ghost var rows := Values(steps);
    some := false;
    for i := 0 to |steps|
      invariant some ==> AnySucceeded(rows)
      invariant !some ==> forall j :: 0 <= j < i ==> !rows[j].status.Success?
    {
      assert rows[i].status == steps[i].status;
      if steps[i].status == Status.Success {
        assert rows[i].status.Success?;
        some := true;
      }
    }
  }

  method FailBundle(release: Release, failed: Deployment, steps: seq<Deployment>)
    requires Distinct(steps) && failed in steps && failed.status.Failed?
    modifies release, steps
    ensures WalkResult(Values(steps), release.Value()) ==
            Stopped(old(Values(steps)), old(release.Value()), old(failed.Value()))
  {
    hide CancelWaiting, Values, AnySucceeded;
    ghost var index :| 0 <= index < |steps| && steps[index] == failed;
    assert failed.Value() == Values(steps)[index];
    CancelLater(steps);
    assert failed.Value() == Values(steps)[index];
    var some := SomeSucceeded(steps);
    var status := if some then BundleStatus.PartialFailure else BundleStatus.Failed;
    ghost var after := Values(steps);
    release.status := status;
    release.deploymentStatus := status;
    release.currentStage := None;
    release.failedStage := failed.failedStage;
    release.errorCode := failed.errorCode;
    assert Values(steps) == after;
  }

  method FinishRelease(release: Release)
    modifies release
    ensures release.Value() == FinishSuccess(old(release.Value()))
  {
    release.status := BundleStatus.Success;
    release.deploymentStatus := BundleStatus.Success;
    release.currentStage := None;
  }

  // ---------------------------------------------------------------- the single walk

  /** What visiting one step makes of its row, and of the bundle row it mirrors. */
  function VisitedRow(row: Row, i: nat, env: Surroundings): (r: Row)
    requires i < |env.polls| == |env.promotes|
  {
    if row.status.InFlight() then Refreshed(row, env.now, env.timeout, env.polls[i])
    else if row.status.Waiting? then Settled(Claimed(row, env.now), env.promotes[i])
    else row
  }

  function VisitedBundle(bundle: Bundle, row: Row, i: nat, env: Surroundings): Bundle
    requires i < |env.polls| == |env.promotes|
  {
    if row.status.InFlight() then BundleAfterPoll(bundle, row, VisitedRow(row, i, env))
    else if row.status.Waiting? then
      BundleAfterPromote(Mirrored(bundle, BundleStatus.Promoting, PromoteStage(row.component)), row, env.promotes[i])
    else bundle
  }

  /** One turn of the loop, read off the walk: visit, then stop, fail or go on. */
  lemma WalkTurn(rows: seq<Row>, bundle: Bundle, i: nat, env: Surroundings)
    requires i < |rows| && env.Covers(rows)
    ensures var after := VisitedRow(rows[i], i, env);
            var rows', bundle' := rows[i := after], VisitedBundle(bundle, rows[i], i, env);
            Walk(rows, bundle, i, env) ==
            if after.status.Failed? then Stopped(rows', bundle', after)
            else if after.status.Success? then Walk(rows', bundle', i + 1, env)
            else WalkResult(rows', bundle')
  {
    assert rows[i := rows[i]] == rows;
    if rows[i].status.Waiting? {
      var promoted := Settled(Claimed(rows[i], env.now), env.promotes[i]);
      assert !promoted.status.Success?;
      hide Settled, Claimed;
    } else {
      hide Refreshed;
    }
  }

  method Visit(release: Release, step: Deployment, i: nat, env: Surroundings)
    requires i < |env.polls| == |env.promotes|
    modifies release, step
    ensures step.Value() == VisitedRow(old(step.Value()), i, env)
    ensures release.Value() == VisitedBundle(old(release.Value()), old(step.Value()), i, env)
  {
    hide Refreshed, Settled, Claimed, Follows;
    if step.status.InFlight() {
      step.Refresh(release, env.now, env.timeout, env.polls[i]);
    } else if step.status == Status.Waiting {
      step.Promote(release, env.now, env.promotes[i]);
    }
  }

  /** Walk the components in order and stop at the first one that is not finished. */
  method Advance(release: Release, steps: seq<Deployment>, env: Surroundings)
    requires Distinct(steps) && |env.polls| == |steps| == |env.promotes|
    modifies release, steps
    ensures WalkResult(Values(steps), release.Value()) == Walk(old(Values(steps)), old(release.Value()), 0, env)
  {
    hide Values, Walk, Stopped, FinishSuccess, VisitedRow, VisitedBundle;
    ghost var end := Walk(Values(steps), release.Value(), 0, env);
    for i := 0 to |steps|
      invariant Walk(Values(steps), release.Value(), i, env) == end
    {
      ghost var rows := Values(steps);
      WalkTurn(rows, release.Value(), i, env);
      assert rows[i] == steps[i].Value();
      Visit(release, steps[i], i, env);
      Pinned(steps, rows[i := steps[i].Value()]);
      if steps[i].status == Status.Failed {
        FailBundle(release, steps[i], steps);
        return;
      }
      if steps[i].status != Status.Success {
        return;
      }
    }
    WalkEnds(Values(steps), release.Value(), env);
    ghost var rows := Values(steps);
    FinishRelease(release);
    assert Values(steps) == rows;
  }

  lemma WalkEnds(rows: seq<Row>, bundle: Bundle, env: Surroundings)
    requires env.Covers(rows)
    ensures Walk(rows, bundle, |rows|, env) == WalkResult(rows, FinishSuccess(bundle))
  {
  }

  // ---------------------------------------------------------------- retry

  datatype RetryOutcome = NotRetryable | AlreadyPublished | NothingToRetry | Started

  method ResetSteps(steps: seq<Deployment>)
    requires Distinct(steps)
    modifies steps
    ensures Values(steps) == ResetUnfinished(old(Values(steps)))
  {
    hide ResetUnfinished, Values, Reset;
    ghost var rows := Values(steps);
    for i := 0 to |steps|
      invariant forall j :: 0 <= j < i ==> steps[j].Value() == ResetUnfinished(rows)[j]
      invariant forall j :: i <= j < |steps| ==> steps[j].Value() == rows[j]
    {
      assert steps[i].Value() == rows[i];
      if steps[i].status != Status.Success {
        steps[i].ResetForRetry();
      }
    }
    Pinned(steps, ResetUnfinished(rows));
  }

  method Reopen(release: Release)
    modifies release
    ensures release.Value() == NEW_BUNDLE
  {
    release.status := BundleStatus.Pending;
    release.deploymentStatus := BundleStatus.Pending;
    release.currentStage := Some("CREATE_RELEASE_BUNDLE");
    release.failedStage := None;
    release.errorCode := None;
  }

  method AllSucceeded(steps: seq<Deployment>) returns (all: bool)
    ensures all <==> forall i :: 0 <= i < |steps| ==> Values(steps)[i].status.Success?
  {
    hide Values;
    assert forall i :: 0 <= i < |steps| ==> Values(steps)[i].status == steps[i].status;
    all := forall i :: 0 <= i < |steps| ==> steps[i].status == Status.Success;
    if all {
      assert forall i :: 0 <= i < |steps| ==> steps[i].status == Status.Success;
    } else {
      var i :| 0 <= i < |steps| && steps[i].status != Status.Success;
      assert !Values(steps)[i].status.Success?;
    }
  }

  /** Drive a failed bundle forward: reset what did not succeed, then walk from the front. */
  method RetryBundle(release: Release, steps: seq<Deployment>, published: bool, env: Surroundings) returns (outcome: RetryOutcome)
    requires Distinct(steps) && |env.polls| == |steps| == |env.promotes|
    modifies release, steps
    ensures outcome == Started <==> RetryAllowed(old(Values(steps)), old(release.Value()), published)
    ensures var status := old(release.Value()).deploymentStatus;
            && (outcome == NotRetryable <==> status != BundleStatus.Failed && status != BundleStatus.PartialFailure)
            && (outcome == AlreadyPublished <==> outcome != NotRetryable && published)
    ensures outcome != Started ==> Values(steps) == old(Values(steps)) && release.Value() == old(release.Value())
    ensures outcome == Started ==>
              WalkResult(Values(steps), release.Value()) ==
              Walk(ResetUnfinished(old(Values(steps))),
                   NEW_BUNDLE, 0, env)
  {
    hide Values, Walk, ResetUnfinished;
    ghost var rows := Values(steps);
    if release.deploymentStatus != BundleStatus.Failed && release.deploymentStatus != BundleStatus.PartialFailure {
      return NotRetryable;
    }
    if published {
      return AlreadyPublished;
    }
    var all := AllSucceeded(steps);
    assert Values(steps) == rows;
    if all {
      return NothingToRetry;
    }
    ResetSteps(steps);
    ghost var reset := Values(steps);
    Reopen(release);
    assert Values(steps) == reset;
    Advance(release, steps, env);
    return Started;
  }

  // ---------------------------------------------------------------- refresh

  /** A bundle that is over is left alone. */
  method RefreshBundle(release: Release, steps: seq<Deployment>, env: Surroundings)
    requires Distinct(steps) && |env.polls| == |steps| == |env.promotes|
    modifies release, steps
    ensures old(release.Value()).status.Terminal() ==> Values(steps) == old(Values(steps)) && release.Value() == old(release.Value())
    ensures !old(release.Value()).status.Terminal() ==>
              WalkResult(Values(steps), release.Value()) == Walk(old(Values(steps)), old(release.Value()), 0, env)
  {
    hide Values, Walk;
    if release.status.Terminal() {
      return;
    }
    Advance(release, steps, env);
  }

  /** A success is announced, however it was reached and however often it is looked at. */
  function Announced(row: Row): Row {
    if row.status.Success?
    then Noted(Noted(row, Event(ReleaseCompleted, "COMPLETE_DEPLOYMENT", Of(row.status), None)),
               Event(StageStarted, "WAIT_PUBLISH_REQUEST", Of(row.status), None))
    else row
  }

  method RefreshStandalone(step: Deployment, bundled: bool, now: int, timeout: int, poll: Answer, promote: PromoteAnswer)
      returns (refused: bool)
    modifies step
    ensures refused == bundled
    ensures step.Value() ==
            if bundled then old(step.Value())
            else Announced(VisitedRow(old(step.Value()), 0, Surroundings(now, timeout, [poll], [promote])))
    ensures !bundled && step.status == Status.Success ==>
              |step.events| >= 2
              && step.events[|step.events| - 2] == Event(ReleaseCompleted, "COMPLETE_DEPLOYMENT", Of(Status.Success), None)
              && step.events[|step.events| - 1] == Event(StageStarted, "WAIT_PUBLISH_REQUEST", Of(Status.Success), None)
  {
    hide Refreshed, Settled, Claimed, Follows;
    if bundled {
      return true;
    }
    if step.status == Status.Waiting {
      step.Promote(null, now, promote);
    } else {
      ghost var row := step.Value();
      TerminalStays(row, now, timeout, poll);
      step.Refresh(null, now, timeout, poll);
    }
    if step.status == Status.Success {
      step.Append(ReleaseCompleted, "COMPLETE_DEPLOYMENT", Of(step.status), None);
      step.Append(StageStarted, "WAIT_PUBLISH_REQUEST", Of(step.status), None);
    }
    return false;
  }

  lemma TerminalStays(row: Row, now: int, timeout: int, poll: Answer)
    ensures row.status.Terminal() ==> Refreshed(row, now, timeout, poll) == row
  {
  }
}
