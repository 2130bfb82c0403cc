/** The orchestration use case's own promote, poll and bounded rescanning loop, proved against the walk
    `RescanWalk`. */
module RescanUseCase {
  import opened Base
  import opened Drone
  import opened Rows
  import opened Bundles
  import opened Walks
  import opened RowOutcomes
  import opened WalkOutcomes
  import opened DeploymentService
  import opened Orchestrator

  method Promote(step: Deployment, release: Release?, now: int, reply: Reply)
    modifies step, release
    ensures step.Value() == if old(step.status).Waiting? then RescanSettled(Claimed(old(step.Value()), now), reply)
                            else old(step.Value())
    ensures old(step.status) == Status.Waiting ==> Promoted(old(step.Value()), step.Value(), now, PromoteAnswer(true, true, reply))
    ensures release != null ==>
              release.Value() ==
              if old(step.status).Waiting?
              then BundleAfterPromote(Mirrored(old(release.Value()), BundleStatus.Promoting, PromoteStage(step.component)),
                                      old(step.Value()), PromoteAnswer(true, true, reply))
              else old(release.Value())
  {
    if step.status == Status.Waiting {
      RescanPromoteMeans(step.Value(), now, reply);
    }
    hide Claimed, Follows, Promoted;
    var stage := PromoteStage(step.component);
    var won := step.ClaimForPromotion(release, now);
    if !won {
      return;
    }
    match reply {
      case Raised(error) =>
        if error.Unconfirmed() {
          step.MarkPromotionUnconfirmed(stage, error);
        } else {
          step.Fail(stage, error.Code());
        }
      case Created(number) =>
        step.RecordPromotion(number, stage, release);
    }
  }

  method Refresh(step: Deployment, release: Release?, now: int, timeout: int, answer: Answer)
    modifies step, release
    ensures step.Value() == RescanRefreshed(old(step.Value()), now, timeout, answer)
    ensures Polled(old(step.Value()), step.Value(), now, timeout, answer, false)
    ensures release != null ==> release.Value() == BundleAfterPoll(old(release.Value()), old(step.Value()), step.Value())
  {
    RescanPollMeans(step.Value(), now, timeout, answer);
    hide Polled;
    if step.status.Terminal() {
      return;
    }
    var stage := step.currentStage.GetOr(WaitStage(step.component));
    if step.startedAt.Some? && now - step.startedAt.value > timeout {
      step.Fail(stage, WorkflowTimeout);
      return;
    }
    if step.promotionBuild == None {
      var _ := step.ReconcilePromotion(stage, release, answer.listing);
      return;
    }
    if answer.poll.Unreachable? {
      step.RecordPollFailure(stage, answer.poll.code);
      return;
    }
    var build := answer.poll.build;
    step.ClearPollFailure(stage);
    step.Append(DroneStatusChanged, stage, DroneText(build.status), None);
    if build.status in RUNNING {
      step.status := Status.Deploying;
    } else if build.status == "success" {
      step.Succeed();
    } else {
      step.Fail(stage, if build.status == "killed" then DroneBuildKilled else DroneBuildFailed);
    }
  }

  /** The first step that has not succeeded decides what this round does. */
  method NextDecision(steps: seq<Deployment>) returns (k: nat)
    ensures k == Front(Values(steps))
  {
    hide Values, Front;
    k := 0;
    assert forall i :: 0 <= i < |steps| ==> Values(steps)[i] == steps[i].Value();
    while k < |steps| && steps[k].status == Status.Success
      invariant k <= |steps| && AllBefore(Values(steps), k)
    {
      k := k + 1;
    }
    FrontIs(Values(steps), k);
  }

  // ---------------------------------------------------------------- one round, read off the walk

  lemma {:induction false} RescanFrom(rows: seq<Row>, bundle: Bundle, i: nat, k: nat, env: Surroundings)
    requires i <= k <= |rows| && env.Covers(rows) && AllBefore(rows, k)
    ensures RescanWalk(rows, bundle, i, env) == RescanWalk(rows, bundle, k, env)
    decreases k - i
  {
    if i < k {
      RescanFrom(rows, bundle, i + 1, k, env);
    }
  }

  function ActedRow(row: Row, k: nat, env: Surroundings): Row
    requires k < |env.polls| == |env.promotes|
  {
    if row.status.InFlight() then RescanRefreshed(row, env.now, env.timeout, env.polls[k])
    else if row.status.Waiting? then RescanSettled(Claimed(row, env.now), env.promotes[k].reply)
    else row
  }

  function ActedBundle(bundle: Bundle, row: Row, k: nat, env: Surroundings): Bundle
    requires k < |env.polls| == |env.promotes|
  {
    if row.status.InFlight() then BundleAfterPoll(bundle, row, ActedRow(row, k, env))
    else if row.status.Waiting? then
      BundleAfterPromote(Mirrored(bundle, BundleStatus.Promoting, PromoteStage(row.component)), row,
                         PromoteAnswer(true, true, env.promotes[k].reply))
    else bundle
  }

  /** Acting on the front step and scanning again from the start is the same as walking on from it. */
  lemma RoundIsTurn(rows: seq<Row>, bundle: Bundle, env: Surroundings)
    requires env.Covers(rows) && Front(rows) < |rows|
    ensures var k := Front(rows);
            var after := ActedRow(rows[k], k, env);
            var rows', bundle' := rows[k := after], ActedBundle(bundle, rows[k], k, env);
            && RescanWalk(rows, bundle, 0, env) ==
               (if after.status.Failed? then Stopped(rows', bundle', after)
                else if after.status.Success? then RescanWalk(rows', bundle', 0, env)
                else WalkResult(rows', bundle'))
            && (after.status.Success? ==> Front(rows') > k)
  {
    var k := Front(rows);
    RescanFrom(rows, bundle, 0, k, env);
    var after := ActedRow(rows[k], k, env);
    var rows', bundle' := rows[k := after], ActedBundle(bundle, rows[k], k, env);
    if rows[k].status.Waiting? {
      assert !after.status.Success?;
    }
    hide RescanRefreshed, RescanSettled, Claimed, Front;
    if after.status.Success? {
      RescanFrom(rows', bundle', 0, k + 1, env);
    } else {
      assert rows[k := rows[k]] == rows;
    }
  }

  lemma FinishRound(rows: seq<Row>, bundle: Bundle, env: Surroundings)
    requires env.Covers(rows) && Front(rows) == |rows|
    ensures RescanWalk(rows, bundle, 0, env) == WalkResult(rows, FinishSuccess(bundle))
  {
    RescanFrom(rows, bundle, 0, |rows|, env);
  }

  method Act(release: Release, step: Deployment, k: nat, env: Surroundings)
    requires k < |env.polls| == |env.promotes|
    modifies release, step
    ensures step.Value() == ActedRow(old(step.Value()), k, env)
    ensures release.Value() == ActedBundle(old(release.Value()), old(step.Value()), k, env)
  {
    hide RescanRefreshed, RescanSettled, Claimed, Follows;
    if step.status.InFlight() {
      Refresh(step, release, env.now, env.timeout, env.polls[k]);
    } else if step.status == Status.Waiting {
      Promote(step, release, env.now, env.promotes[k].reply);
    }
  }

  // ---------------------------------------------------------------- the bounded loop

  /** Round after round until the bundle settles; it always does, inside one round per step and one more. */
  method Advance(release: Release, steps: seq<Deployment>, env: Surroundings) returns (settled: bool)
    requires Distinct(steps) && |env.polls| == |steps| == |env.promotes|
    modifies release, steps
    ensures settled
    ensures WalkResult(Values(steps), release.Value()) == RescanWalk(old(Values(steps)), old(release.Value()), 0, env)
  {
    hide Values, RescanWalk, Stopped, FinishSuccess, ActedRow, ActedBundle, Front;
    settled := false;
    ghost var end := RescanWalk(Values(steps), release.Value(), 0, env);
    for round := 0 to |steps| + 1
      invariant !settled && round <= Front(Values(steps))
      invariant RescanWalk(Values(steps), release.Value(), 0, env) == end
    {
      ghost var rows := Values(steps);
      var k := NextDecision(steps);
      if k == |steps| {
        FinishRound(rows, release.Value(), env);
        FinishRelease(release);
        assert Values(steps) == rows;
        settled := true;
        break;
      }
      RoundIsTurn(rows, release.Value(), env);
      assert rows[k] == steps[k].Value();
      Act(release, steps[k], k, env);
      Pinned(steps, rows[k := steps[k].Value()]);
      if steps[k].status == Status.Failed {
        Orchestrator.FailBundle(release, steps[k], steps);
        settled := true;
        break;
      }
      if steps[k].status != Status.Success {
        settled := true;
        break;
      }
    }
  }
}
