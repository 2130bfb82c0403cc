/** What polls and promotes come to, column by column and answer by answer: what a caller of the service sees,
    without the functions the service is given by. */
module RowOutcomes {
  import opened Base
  import opened Drone
  import opened Rows

  // ---------------------------------------------------------------- one row

  predicate Over(row: Row) {
    row.status == Status.Success || row.status == Status.Failed || row.status == Status.Cancelled
  }

  predicate Late(row: Row, now: int, timeout: int) {
    row.startedAt.Some? && now > row.startedAt.value + timeout
  }

  /** The names the interface shows for asking and for waiting. */
  predicate Asking(component: string, stage: string) {
    if component == "frontend" then stage == "PROMOTE_FRONTEND"
    else if component == "backend" then stage == "PROMOTE_BACKEND"
    else stage == "PROMOTE_COMPONENT"
  }

  predicate Awaiting(component: string, stage: string) {
    if component == "frontend" then stage == "WAIT_FRONTEND_DEPLOYMENT"
    else if component == "backend" then stage == "WAIT_BACKEND_DEPLOYMENT"
    else stage == "WAIT_COMPONENT_DEPLOYMENT"
  }

  /** The stage the row is in, or, if it is in none, the one it would wait in. */
  predicate At(row: Row, stage: string) {
    if row.stage.Some? then stage == row.stage.value else Awaiting(row.component, stage)
  }

  predicate LastLogged(row: Row, e: Event) {
    row.log != [] && row.log[|row.log| - 1] == e
  }

  /** FAILED in the stage the row was in, with that code, and the code is the last thing logged. */
  predicate EndedWith(row: Row, after: Row, code: ErrorCode) {
    && after.failedStage.Some? && At(row, after.failedStage.value)
    && after == row.(status := Status.Failed, stage := None, failedStage := after.failedStage, errorCode := Some(code),
                     pollCode := after.pollCode, pollCount := after.pollCount, log := after.log)
    && LastLogged(after, Event(StageFailed, after.failedStage.value, Of(Status.Failed), Some(code)))
  }

  /** One more poll that learned nothing: only the poll columns move, and only a new condition is logged. */
  predicate LearnedNothing(row: Row, after: Row, code: ErrorCode) {
    && after == row.(pollCode := Some(code), pollCount := row.pollCount + 1, log := after.log)
    && (if row.pollCode == Some(code) then after.log == row.log
        else
          && after.log != [] && after.log[..|after.log| - 1] == row.log && At(row, after.log[|after.log| - 1].stage)
          && LastLogged(after, Event(UpstreamUnavailable, after.log[|after.log| - 1].stage, Of(row.status), Some(code))))
  }

  /** DEPLOYING under that build number, in the stage of waiting. */
  predicate DeploysAs(row: Row, after: Row, number: int) {
    && after.stage.Some? && Awaiting(row.component, after.stage.value)
    && after == row.(status := Status.Deploying, promotion := Some(number), stage := after.stage,
                     pollCode := after.pollCode, pollCount := after.pollCount, log := after.log)
    && LastLogged(after, Event(StageStarted, after.stage.value, Of(Status.Deploying), None))
  }

  /** No poll error is pending; a row that had none keeps its columns. */
  predicate PollQuiet(row: Row, after: Row) {
    after.pollCode == None && after.pollCount == if row.pollCode == None then row.pollCount else 0
  }

  // ---------------------------------------------------------------- polling

  /** Where stages are required: the row's own promotion, on its commit, with every required stage. */
  predicate Enough(row: Row, build: Build) {
    row.required.Some? ==> Fulfils(build, row.slot.source, row.slot.target, row.commit, row.required.value)
  }

  /** What a found build makes of the row: still at work, succeeded as `verified` says, or failed. */
  predicate JudgedBy(row: Row, after: Row, build: Build, verified: bool) {
    && PollQuiet(row, after) && after.promotion == row.promotion
    && (after.status == Status.Deploying <==>
          build.status == "pending" || build.status == "running" || build.status == "blocked")
    && (after.status == Status.Success <==> build.status == "success" && verified)
    && (after.status == Status.Deploying ==>
          && after == row.(status := Status.Deploying, pollCode := None, pollCount := after.pollCount, log := after.log)
          && after.log != [] && after.log[|after.log| - 1].status == DroneText(build.status))
    && (after.status == Status.Success ==>
          && after == row.(status := Status.Success, stage := None, pollCode := None, pollCount := after.pollCount,
                           log := after.log)
          && after.log != [] && after.log[|after.log| - 1].kind == StageSucceeded)
    && (after.status != Status.Deploying && after.status != Status.Success ==>
          EndedWith(row, after,
                    if build.status == "success" then PromotionStagesRejected
                    else if build.status == "killed" then DroneBuildKilled else DroneBuildFailed))
  }

  predicate NewestPromotion(builds: seq<Build>, row: Row, number: int) {
    && (exists b :: b in builds && Promotes(b, row.slot.source, row.slot.target) && b.number == number)
    && (forall b :: b in builds && Promotes(b, row.slot.source, row.slot.target) ==> b.number <= number)
  }

  predicate NonePromotes(builds: seq<Build>, row: Row) {
    forall b :: b in builds ==> !Promotes(b, row.slot.source, row.slot.target)
  }

  /** A poll of a row without a build number. */
  predicate LookedFor(row: Row, after: Row, listing: ListAnswer) {
    match listing
    case ListFailed(code) => LearnedNothing(row, after, code)
    case Listed(builds) =>
      && (NonePromotes(builds, row) ==> LearnedNothing(row, after, PromoteUnconfirmed))
      && (!NonePromotes(builds, row) ==>
            && after.promotion.Some? && NewestPromotion(builds, row, after.promotion.value)
            && DeploysAs(row, after, after.promotion.value) && PollQuiet(row, after))
  }

  lemma LearningNothing(row: Row, at: string, code: ErrorCode)
    requires At(row, at)
    ensures LearnedNothing(row, PollFailed(row, at, code), code)
  {
    assert row.log + [] == row.log;
    hide At;
  }

  function Adopted(row: Row, at: string, number: int): Row {
    Recorded(Noted(PollCleared(row, at), Event(PromotionReconciled, at, Of(row.status), None)), number, at)
  }

  lemma Adopting(row: Row, at: string, number: int)
    ensures DeploysAs(row, Adopted(row, at, number), number) && PollQuiet(row, Adopted(row, at, number))
  {
    hide Follows;
  }

  lemma LookingFor(row: Row, at: string, listing: ListAnswer)
    requires At(row, at)
    ensures LookedFor(row, Reconciled(row, at, listing), listing)
  {
    LearningNothing(row, at, if listing.ListFailed? then listing.code else PromoteUnconfirmed);
    if listing.Listed? {
      forall b | b in listing.builds
        ensures b.IsPromotionOf(row.slot.source, row.slot.target) <==> Promotes(b, row.slot.source, row.slot.target)
      {
        FulfilsIff(b, row.slot.source, row.slot.target, row.commit, []);
      }
      var found := FindPromotionBuild(listing.builds, row.slot.source, row.slot.target);
      if found.Some? {
        Adopting(row, at, found.value.number);
        assert Reconciled(row, at, listing) == Adopted(row, at, found.value.number);
      }
    }
    hide Promotes, Follows, Adopted, Recorded, Noted, PollCleared, PollFailed, LearnedNothing, DeploysAs, PollQuiet, At;
  }

  lemma Failing(row: Row, at: string, code: ErrorCode)
    requires At(row, at)
    ensures EndedWith(row, FailedWith(row, at, code), code)
    ensures FailedWith(row, at, code).pollCode == row.pollCode && FailedWith(row, at, code).pollCount == row.pollCount
  {
  }

  lemma EnoughIff(row: Row, build: Build)
    ensures VerifiedSuccess(row, build) <==> Enough(row, build)
  {
    if row.required.Some? {
      FulfilsIff(build, row.slot.source, row.slot.target, row.commit, row.required.value);
    }
    hide Fulfils, StagesSucceeded;
  }

  lemma Judging(row: Row, at: string, build: Build)
    requires At(row, at)
    ensures JudgedBy(row, Judged(row, at, build), build, Enough(row, build))
  {
    EnoughIff(row, build);
    hide Enough, VerifiedSuccess, Follows;
  }

  /** What a poll makes of a row: one that is over stays; past the timeout it fails; without a build number it is
      looked for; an unreachable Drone teaches nothing; and a found build judges it, in the light of its required
      stages if those are checked. */
  predicate Polled(row: Row, after: Row, now: int, timeout: int, answer: Answer, checked: bool) {
    if Over(row) then after == row
    else if Late(row, now, timeout) then
      EndedWith(row, after, WorkflowTimeout) && after.pollCode == row.pollCode && after.pollCount == row.pollCount
    else if row.promotion == None then LookedFor(row, after, answer.listing)
    else
      match answer.poll
      case Unreachable(code) => LearnedNothing(row, after, code)
      case Found(build) =>
        JudgedBy(row, after, build, !checked || Enough(row, build))
  }

  /** So does every poll of the deployment service, whatever it finds; required stages are checked. */
  lemma PollMeans(row: Row, now: int, timeout: int, answer: Answer)
    ensures Polled(row, Refreshed(row, now, timeout, answer), now, timeout, answer, true)
  {
    hide LookedFor, LearnedNothing, JudgedBy, EndedWith, PollFailed, Reconciled, Judged, FailedWith, Enough, Follows;
    var at := ActiveStage(row);
    if Late(row, now, timeout) {
      Failing(row, at, WorkflowTimeout);
    } else if row.promotion == None {
      LookingFor(row, at, answer.listing);
    } else if answer.poll.Unreachable? {
      LearningNothing(row, at, answer.poll.code);
    } else {
      Judging(row, at, answer.poll.build);
    }
  }

  /** A poll moves the bundle exactly when it adopts a promotion, and then to DEPLOYING in the stage of waiting. */
  predicate PollMoved(row: Row, bundle: Bundle, after: Bundle, now: int, timeout: int, answer: Answer) {
    if !Over(row) && !Late(row, now, timeout) && row.promotion == None
       && answer.listing.Listed? && !NonePromotes(answer.listing.builds, row)
    then
      && after.stage.Some? && Awaiting(row.component, after.stage.value)
      && after == bundle.(status := BundleStatus.Deploying, deploymentStatus := BundleStatus.Deploying, stage := after.stage)
    else after == bundle
  }

  lemma PollMovesBundleIff(row: Row, bundle: Bundle, now: int, timeout: int, answer: Answer)
    ensures PollMoved(row, bundle, BundleAfterPoll(bundle, row, Refreshed(row, now, timeout, answer)), now, timeout, answer)
  {
    PollMeans(row, now, timeout, answer);
    hide NonePromotes, Refreshed, Fulfils;
  }

  // ---------------------------------------------------------------- promoting

  /** The request may have arrived: PROMOTING as before, with the unknown outcome on record. */
  predicate LeftOpen(row: Row, after: Row, code: ErrorCode) {
    && after.status == Status.Promoting && after.promotion == row.promotion
    && after.stage.Some? && Asking(row.component, after.stage.value)
    && after.pollCode == Some(PromoteUnconfirmed) && after.pollCount == row.pollCount + 1
    && after.errorCode == row.errorCode && after.failedStage == row.failedStage
    && LastLogged(after, Event(PromotionUnconfirmed, after.stage.value, Of(Status.Promoting), Some(code)))
  }

  /** FAILED in the stage of asking, with that code. */
  predicate RefusedWith(row: Row, after: Row, code: ErrorCode) {
    && after.failedStage.Some? && Asking(row.component, after.failedStage.value)
    && after.status == Status.Failed && after.stage == None && after.errorCode == Some(code)
    && after.promotion == row.promotion && after.pollCode == row.pollCode && after.pollCount == row.pollCount
    && LastLogged(after, Event(StageFailed, after.failedStage.value, Of(Status.Failed), Some(code)))
  }

  predicate AnsweredBy(row: Row, after: Row, reply: Reply) {
    match reply
    case Created(number) =>
      && DeploysAs(row.(startedAt := after.startedAt), after, number)
      && after.pollCode == row.pollCode && after.pollCount == row.pollCount
    case Raised(TimedOutCall) => LeftOpen(row, after, DroneTimeout)
    case Raised(ConnectionLost) => LeftOpen(row, after, DroneUnavailable)
    case Raised(UnexpectedResponse) => LeftOpen(row, after, DroneUnavailable)
    case Raised(AuthRefused) => RefusedWith(row, after, DroneAuthFailed)
    case Raised(NotFound) => RefusedWith(row, after, BuildNotFound)
    case Raised(PromoteRefused) => RefusedWith(row, after, DronePromoteFailed)
  }

  /** What a promote makes of a waiting row: the CI guard refuses first, then the plan guard, then Drone's reply
      decides; the row's clock starts now unless it runs already. */
  predicate Promoted(row: Row, after: Row, now: int, answer: PromoteAnswer) {
    && after.startedAt == (if row.startedAt.Some? then row.startedAt else Some(now))
    && (if !answer.ciAllowed then RefusedWith(row, after, CiDispatchRejected)
        else if !answer.planHolds then RefusedWith(row, after, ApprovedPlanChanged)
        else AnsweredBy(row, after, answer.reply))
  }

  lemma PromoteMeans(row: Row, now: int, answer: PromoteAnswer)
    requires row.status == Status.Waiting
    ensures Promoted(row, Settled(Claimed(row, now), answer), now, answer)
  {
    hide Follows;
  }

  /** The bundle of a promoted step: PROMOTING in the stage of asking, or, exactly when a promotion was created,
      DEPLOYING in the stage of waiting. */
  predicate PromoteMoved(row: Row, bundle: Bundle, after: Bundle, answer: PromoteAnswer) {
    && after.stage.Some?
    && (if answer.ciAllowed && answer.planHolds && answer.reply.Created? then
          && Awaiting(row.component, after.stage.value)
          && after == bundle.(status := BundleStatus.Deploying, deploymentStatus := BundleStatus.Deploying, stage := after.stage)
        else
          && Asking(row.component, after.stage.value)
          && after == bundle.(status := BundleStatus.Promoting, deploymentStatus := BundleStatus.Promoting, stage := after.stage))
  }

  lemma PromoteMovesBundleIff(row: Row, bundle: Bundle, answer: PromoteAnswer)
    ensures PromoteMoved(row, bundle,
                         BundleAfterPromote(Mirrored(bundle, BundleStatus.Promoting, PromoteStage(row.component)), row, answer), answer)
  {
  }
}

/** What retries and whole walks come to, told in the same way. */
module WalkOutcomes {
  import opened Base
  import opened Drone
  import opened Rows
  import opened Bundles
  import opened Walks
  import opened RowOutcomes

  // ---------------------------------------------------------------- the rescanning use case

  lemma RescanJudging(row: Row, at: string, build: Build)
    requires At(row, at)
    ensures JudgedBy(row, RescanJudged(row, at, build), build, true)
  {
    hide Follows;
  }

  /** The rescanning use case polls in the same way but takes Drone's word for success. */
  lemma RescanPollMeans(row: Row, now: int, timeout: int, answer: Answer)
    ensures Polled(row, RescanRefreshed(row, now, timeout, answer), now, timeout, answer, false)
  {
    hide LookedFor, LearnedNothing, JudgedBy, EndedWith, PollFailed, Reconciled, RescanJudged, FailedWith, Follows;
    var at := ActiveStage(row);
    if Late(row, now, timeout) {
      Failing(row, at, WorkflowTimeout);
    } else if row.promotion == None {
      LookingFor(row, at, answer.listing);
    } else if answer.poll.Unreachable? {
      LearningNothing(row, at, answer.poll.code);
    } else {
      RescanJudging(row, at, answer.poll.build);
    }
  }

  lemma RescanPollMovesBundleIff(row: Row, bundle: Bundle, now: int, timeout: int, answer: Answer)
    ensures PollMoved(row, bundle, BundleAfterPoll(bundle, row, RescanRefreshed(row, now, timeout, answer)), now, timeout, answer)
  {
    RescanPollMeans(row, now, timeout, answer);
    hide NonePromotes, RescanRefreshed;
  }

  /** The rescanning use case asks neither guard. */
  lemma RescanPromoteMeans(row: Row, now: int, reply: Reply)
    requires row.status == Status.Waiting
    ensures Promoted(row, RescanSettled(Claimed(row, now), reply), now, PromoteAnswer(true, true, reply))
  {
    hide Follows;
  }

  // ---------------------------------------------------------------- the end of a bundle, and its retry

  /** Called off: CANCELLED and in no stage; everything else stays. */
  predicate CalledOff(row: Row, after: Row) {
    && after == row.(status := Status.Cancelled, stage := None, log := after.log)
    && after.log != [] && after.log[|after.log| - 1].kind == DeploymentCancelled
    && after.log[|after.log| - 1].status == Of(Status.Cancelled)
  }

  /** Exactly the waiting steps are called off, and the bundle says which stage and code ended it and whether some
      component had reached its target. */
  predicate StoppedBy(rows: seq<Row>, bundle: Bundle, failed: Row, end: WalkResult) {
    && |end.rows| == |rows|
    && (forall i :: 0 <= i < |rows| ==>
          if rows[i].status == Status.Waiting then CalledOff(rows[i], end.rows[i]) else end.rows[i] == rows[i])
    && end.bundle == Bundle(end.bundle.status, end.bundle.status, None, failed.failedStage, failed.errorCode)
    && (end.bundle.status == BundleStatus.PartialFailure || end.bundle.status == BundleStatus.Failed)
    && (end.bundle.status == BundleStatus.PartialFailure <==> exists i :: 0 <= i < |rows| && rows[i].status == Status.Success)
  }

  lemma FailureMeans(rows: seq<Row>, bundle: Bundle, failed: Row)
    ensures StoppedBy(rows, bundle, failed, Stopped(rows, bundle, failed))
  {
    var after := CancelWaiting(rows);
    assert forall i :: 0 <= i < |rows| ==> (after[i].status == Status.Success <==> rows[i].status == Status.Success);
    hide CancelWaiting, Follows;
  }

  /** As it was created: waiting, with nothing left of the attempt but its log. */
  predicate AsNew(row: Row, after: Row) {
    && after == Row(row.component, row.slot, row.commit, row.branch, row.requestedBy, row.required, Status.Waiting, None, None,
                    None, None, None, None, 0, after.log)
    && row.log <= after.log && after.log != [] && after.log[|after.log| - 1].kind == DeploymentRetried
  }

  /** A retry is allowed exactly for a failed bundle that has published nothing and has a step that did not succeed;
      it puts exactly those steps back as they were created, and the bundle with them. */
  lemma RetryMeans(rows: seq<Row>, bundle: Bundle, published: bool)
    ensures RetryAllowed(rows, bundle, published) <==>
              && (bundle.deploymentStatus == BundleStatus.Failed || bundle.deploymentStatus == BundleStatus.PartialFailure)
              && !published && exists i :: 0 <= i < |rows| && rows[i].status != Status.Success
    ensures |ResetUnfinished(rows)| == |rows|
    ensures forall i :: 0 <= i < |rows| ==>
              if rows[i].status == Status.Success then ResetUnfinished(rows)[i] == rows[i]
              else AsNew(rows[i], ResetUnfinished(rows)[i])
    ensures NEW_BUNDLE.status == NEW_BUNDLE.deploymentStatus == BundleStatus.Pending
    ensures NEW_BUNDLE.stage == Some("CREATE_RELEASE_BUNDLE") && NEW_BUNDLE.failedStage == None && NEW_BUNDLE.errorCode == None
  {
    hide ResetUnfinished;
  }

  // ---------------------------------------------------------------- one walk

  /** Every step before k has succeeded, and k has not. */
  predicate FirstUnfinished(rows: seq<Row>, k: nat) {
    && k <= |rows| && (forall j :: 0 <= j < k ==> rows[j].status == Status.Success)
    && (k < |rows| ==> rows[k].status != Status.Success)
  }

  predicate SameElsewhere(rows: seq<Row>, after: seq<Row>, k: nat) {
    |after| == |rows| && forall j :: 0 <= j < |rows| && j != k ==> after[j] == rows[j]
  }

  /** What a walk does at the first step that has not succeeded, when the step has become `row` and the bundle
      `bundle'`: a failure stops the bundle, a success lets the walk go on, anything else ends it here. */
  predicate TurnedAt(rows: seq<Row>, k: nat, row: Row, bundle: Bundle, end: WalkResult, onward: WalkResult)
    requires k < |rows|
  {
    if row.status == Status.Failed then StoppedBy(rows[k := row], bundle, row, end)
    else if row.status == Status.Success then end == onward
    else end == WalkResult(rows[k := row], bundle)
  }

  lemma {:induction false} WalkPasses(rows: seq<Row>, bundle: Bundle, i: nat, k: nat, env: Surroundings)
    requires i <= k <= |rows| && env.Covers(rows) && forall j :: 0 <= j < k ==> rows[j].status == Status.Success
    ensures Walk(rows, bundle, i, env) == Walk(rows, bundle, k, env)
    ensures RescanWalk(rows, bundle, i, env) == RescanWalk(rows, bundle, k, env)
    decreases k - i
  {
    hide Stopped, FinishSuccess, Claimed, Settled, RescanSettled, Refreshed, RescanRefreshed, BundleAfterPoll, BundleAfterPromote;
    if i < k {
      WalkPasses(rows, bundle, i + 1, k, env);
    }
  }

  lemma SuccessStays(rows: seq<Row>, bundle: Bundle, k: nat, row: Row, env: Surroundings)
    requires k < |rows| && FirstUnfinished(rows, k) && env.Covers(rows) && row.status == Status.Success
    ensures Walk(rows[k := row], bundle, k + 1, env) == Walk(rows[k := row], bundle, 0, env)
    ensures RescanWalk(rows[k := row], bundle, k + 1, env) == RescanWalk(rows[k := row], bundle, 0, env)
  {
    var rows' := rows[k := row];
    assert forall j :: 0 <= j < k ==> rows'[j].status == Status.Success;
    WalkPasses(rows', bundle, 0, k + 1, env);
  }

  /** What a walk does: it passes the steps that have succeeded and acts on the first that has not.  A cancelled one
      ends it; a failed one stops the bundle; a waiting one is promoted, one at work is polled, and what becomes of
      it decides: a failure stops the bundle, a success lets the walk go on, anything else ends it. */
  lemma WalkMeans(rows: seq<Row>, bundle: Bundle, k: nat, env: Surroundings) returns (row: Row, after: Bundle)
    requires k < |rows| && FirstUnfinished(rows, k) && env.Covers(rows)
    ensures var end := Walk(rows, bundle, 0, env);
            if rows[k].status == Status.Cancelled then end == WalkResult(rows, bundle)
            else if rows[k].status == Status.Failed then StoppedBy(rows, bundle, rows[k], end)
            else if rows[k].status == Status.Waiting then
              && Promoted(rows[k], row, env.now, env.promotes[k]) && PromoteMoved(rows[k], bundle, after, env.promotes[k])
              && row.status != Status.Success && TurnedAt(rows, k, row, after, end, end)
            else
              && Polled(rows[k], row, env.now, env.timeout, env.polls[k], true)
              && PollMoved(rows[k], bundle, after, env.now, env.timeout, env.polls[k])
              && TurnedAt(rows, k, row, after, end, Walk(rows[k := row], after, 0, env))
  {
    WalkPasses(rows, bundle, 0, k, env);
    row, after := rows[k], bundle;
    if rows[k].status == Status.Waiting {
      row := Settled(Claimed(rows[k], env.now), env.promotes[k]);
      after := BundleAfterPromote(Mirrored(bundle, BundleStatus.Promoting, PromoteStage(rows[k].component)), rows[k], env.promotes[k]);
      PromoteMeans(rows[k], env.now, env.promotes[k]);
      PromoteMovesBundleIff(rows[k], bundle, env.promotes[k]);
      FailureMeans(rows[k := row], after, row);
      assert row.status != Status.Success;
      hide Settled, Claimed, BundleAfterPromote, Promoted, PromoteMoved, StoppedBy, Stopped, FirstUnfinished;
    } else if rows[k].status == Status.Promoting || rows[k].status == Status.Deploying {
      row := Refreshed(rows[k], env.now, env.timeout, env.polls[k]);
      after := BundleAfterPoll(bundle, rows[k], row);
      PollMeans(rows[k], env.now, env.timeout, env.polls[k]);
      PollMovesBundleIff(rows[k], bundle, env.now, env.timeout, env.polls[k]);
      FailureMeans(rows[k := row], after, row);
      if row.status == Status.Success {
        SuccessStays(rows, after, k, row, env);
      }
      hide Refreshed, BundleAfterPoll, Polled, PollMoved, StoppedBy, Stopped, FirstUnfinished;
    } else {
      FailureMeans(rows, bundle, rows[k]);
      hide StoppedBy, Stopped;
    }
  }

  /** Past the last step the bundle has succeeded. */
  lemma WalkFinishes(rows: seq<Row>, bundle: Bundle, env: Surroundings)
    requires FirstUnfinished(rows, |rows|) && env.Covers(rows)
    ensures Walk(rows, bundle, 0, env) == RescanWalk(rows, bundle, 0, env)
    ensures Walk(rows, bundle, 0, env) ==
            WalkResult(rows, bundle.(status := BundleStatus.Success, deploymentStatus := BundleStatus.Success, stage := None))
  {
    WalkPasses(rows, bundle, 0, |rows|, env);
  }
}
