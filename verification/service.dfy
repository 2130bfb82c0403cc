/** The deployment service in its own shape: rows mutated field by field, events appended.
    Every method is tied to the value-level write in `Rows` that it performs. */
module DeploymentService {
  import opened Base
  import opened Drone
  import opened Rows
  import opened RowOutcomes

  /** A release bundle row whose columns follow the deployment being driven. */
  class Release {
    var status: BundleStatus
    var deploymentStatus: BundleStatus
    var currentStage: Option<string>
    var failedStage: Option<string>
    var errorCode: Option<ErrorCode>

    constructor ()
      ensures Value() == NEW_BUNDLE
    {
      status, deploymentStatus := BundleStatus.Pending, BundleStatus.Pending;
      currentStage, failedStage, errorCode := Some("CREATE_RELEASE_BUNDLE"), None, None;
    }

    function Value(): Bundle
      reads this
    {
      Bundle(status, deploymentStatus, currentStage, failedStage, errorCode)
    }

    method Mirror(to: BundleStatus, stage: string)
      modifies this
      ensures Value() == Mirrored(old(Value()), to, stage)
    {
      status := to;
      deploymentStatus := to;
      currentStage := Some(stage);
    }
  }

  class Deployment {
    const component: string
    const slot: Slot
    const commit: string
    const branch: string
    const requestedBy: string
    const required: Option<seq<string>>
    var status: Status
    var currentStage: Option<string>
    var promotionBuild: Option<int>
    var startedAt: Option<int>
    var failedStage: Option<string>
    var errorCode: Option<ErrorCode>
    var pollErrorCode: Option<ErrorCode>
    var pollFailureCount: nat
    var events: seq<Event>

    /** Always created WAITING: a promotion starts as a state change, never as an assignment. */
    constructor (component: string, slot: Slot, commit: string, branch: string, requestedBy: string,
                 required: Option<seq<string>>)
      ensures Value() == NewRow(component, slot, commit, branch, requestedBy, required, [])
    {
      this.component, this.slot, this.commit, this.branch := component, slot, commit, branch;
      this.requestedBy, this.required := requestedBy, required;
      status, currentStage, promotionBuild, startedAt := Status.Waiting, None, None, None;
      failedStage, errorCode, pollErrorCode, pollFailureCount := None, None, None, 0;
      events := [];
    }

    function Value(): Row
      reads this
    {
      Row(component, slot, commit, branch, requestedBy, required, status, currentStage, promotionBuild, startedAt,
          failedStage, errorCode, pollErrorCode, pollFailureCount, events)
    }

    method Append(kind: EventKind, stage: string, status: EventStatus, code: Option<ErrorCode>)
      modifies this`events
      ensures Value() == Noted(old(Value()), Event(kind, stage, status, code))
    {
      events := events + [Event(kind, stage, status, code)];
    }

    /** The conditional UPDATE: it matches only a WAITING row. */
    method ClaimForPromotion(release: Release?, now: int) returns (won: bool)
      modifies this, release
      ensures won <==> old(status).Waiting?
      ensures Value() == if won then Claimed(old(Value()), now) else old(Value())
      ensures release != null ==>
                release.Value() == if won then Mirrored(old(release.Value()), BundleStatus.Promoting, PromoteStage(component))
                                   else old(release.Value())
    {
      if status != Status.Waiting {
        return false;
      }
      var stage := PromoteStage(component);
      status := Status.Promoting;
      currentStage := Some(stage);
      startedAt := Some(startedAt.GetOr(now));
      if release != null {
        release.Mirror(BundleStatus.Promoting, stage);
      }
      Append(StageStarted, stage, Of(status), None);
      return true;
    }

    method Promote(release: Release?, now: int, answer: PromoteAnswer)
      modifies this, release
      ensures Value() == if old(status).Waiting? then Settled(Claimed(old(Value()), now), answer) else old(Value())
      ensures old(status) == Status.Waiting ==> Promoted(old(Value()), Value(), now, answer)
      ensures release != null ==>
                release.Value() ==
                if old(status).Waiting?
                then BundleAfterPromote(Mirrored(old(release.Value()), BundleStatus.Promoting, PromoteStage(component)),
                                        old(Value()), answer)
                else old(release.Value())
    {
      if status == Status.Waiting {
        PromoteMeans(Value(), now, answer);
      }
      hide Promoted;
      var stage := PromoteStage(component);
      var won := ClaimForPromotion(release, now);
      if !won {
        return;
      }
      if !answer.ciAllowed {
        Fail(stage, CiDispatchRejected);
        return;
      }
      if !answer.planHolds {
        Fail(stage, ApprovedPlanChanged);
        return;
      }
      match answer.reply {
        case Raised(error) =>
          if error.Unconfirmed() {
            MarkPromotionUnconfirmed(stage, error);
          } else {
            Fail(stage, error.Code());
          }
        case Created(number) =>
          RecordPromotion(number, stage, release);
      }
    }

    method MarkPromotionUnconfirmed(stage: string, error: DroneError)
      modifies this
      ensures Value() == Unconfirmed(old(Value()), stage, error)
    {
      pollErrorCode := Some(PromoteUnconfirmed);
      pollFailureCount := pollFailureCount + 1;
      Append(PromotionUnconfirmed, stage, Of(status), Some(error.Code()));
    }

    method ReconcilePromotion(stage: string, release: Release?, listing: ListAnswer) returns (adopted: bool)
      requires promotionBuild == None
      modifies this, release
      ensures Value() == Reconciled(old(Value()), stage, listing)
      ensures adopted <==> promotionBuild.Some?
      ensures release != null ==> release.Value() == BundleAfterPoll(old(release.Value()), old(Value()), Value())
    {
      if listing.ListFailed? {
        RecordPollFailure(stage, listing.code);
        return false;
      }
      var promotion := FindPromotionBuild(listing.builds, slot.source, slot.target);
      if promotion == None {
        RecordPollFailure(stage, PromoteUnconfirmed);
        return false;
      }
      ClearPollFailure(stage);
      Append(PromotionReconciled, stage, Of(status), None);
      RecordPromotion(promotion.value.number, stage, release);
      return true;
    }

    /** An event only when the condition changes, or a five-second poll would bury the timeline. */
    method RecordPollFailure(stage: string, code: ErrorCode)
      modifies this
      ensures Value() == PollFailed(old(Value()), stage, code)
    {
      var firstOccurrence := pollErrorCode != Some(code);
      pollErrorCode := Some(code);
      pollFailureCount := pollFailureCount + 1;
      if firstOccurrence {
        Append(UpstreamUnavailable, stage, Of(status), Some(code));
      }
    }

    method ClearPollFailure(stage: string)
      modifies this
      ensures Value() == PollCleared(old(Value()), stage)
    {
      if pollErrorCode == None {
        return;
      }
      pollErrorCode := None;
      pollFailureCount := 0;
      Append(UpstreamRecovered, stage, Of(status), None);
    }

    method RecordPromotion(number: int, stage: string, release: Release?)
      modifies this, release
      ensures Value() == Recorded(old(Value()), number, stage)
      ensures release != null ==>
                release.Value() == Mirrored(old(release.Value()), BundleStatus.Deploying, WaitStage(component))
    {
      promotionBuild := Some(number);
      status := Status.Deploying;
      currentStage := Some(WaitStage(component));
      if release != null {
        release.Mirror(BundleStatus.Deploying, WaitStage(component));
      }
      Append(StageSucceeded, stage, Of(status), None);
      Append(PromotionCreated, stage, Of(status), None);
      Append(StageStarted, WaitStage(component), Of(status), None);
    }

    method Refresh(release: Release?, now: int, timeout: int, answer: Answer)
      modifies this, release
      ensures Value() == Refreshed(old(Value()), now, timeout, answer)
      ensures Polled(old(Value()), Value(), now, timeout, answer, true)
      ensures release != null ==> release.Value() == BundleAfterPoll(old(release.Value()), old(Value()), Value())
    {
      PollMeans(Value(), now, timeout, answer);
      hide Polled;
      if status.Terminal() {
        return;
      }
      var stage := currentStage.GetOr(WaitStage(component));
      if startedAt.Some? && now - startedAt.value > timeout {
        Fail(stage, WorkflowTimeout);
        return;
      }
      if promotionBuild == None {
        var _ := ReconcilePromotion(stage, release, answer.listing);
        return;
      }
      if answer.poll.Unreachable? {
        RecordPollFailure(stage, answer.poll.code);
        return;
      }
      var build := answer.poll.build;
      ClearPollFailure(stage);
      Append(DroneStatusChanged, stage, DroneText(build.status), None);
      if build.status in RUNNING {
        status := Status.Deploying;
      } else if build.status == "success" {
        if required.Some? && !(
             && build.IsPromotionOf(slot.source, slot.target)
             && build.commit == commit
             && StagesSucceeded(build, required.value, true))
        {
          Fail(stage, PromotionStagesRejected);
        } else {
          Succeed();
        }
      } else {
        Fail(stage, if build.status == "killed" then DroneBuildKilled else DroneBuildFailed);
      }
    }

    method Succeed()
      modifies this
      ensures Value() == Succeeded(old(Value()))
    {
      var stage := currentStage.GetOr(WaitStage(component));
      status := Status.Success;
      currentStage := None;
      Append(StageSucceeded, stage, Of(status), None);
    }

    method Fail(stage: string, code: ErrorCode)
      modifies this
      ensures Value() == FailedWith(old(Value()), stage, code)
    {
      status := Status.Failed;
      currentStage := None;
      failedStage := Some(stage);
      errorCode := Some(code);
      Append(StageFailed, stage, Of(status), Some(code));
    }

    method Cancel()
      modifies this
      ensures Value() == CancelledRow(old(Value()))
    {
      status := Status.Cancelled;
      currentStage := None;
      Append(DeploymentCancelled, PromoteStage(component), Of(status), None);
    }

    /** The row is reset, not replaced: the failed attempt survives in the event history. */
    method ResetForRetry()
      modifies this
      ensures Value() == Reset(old(Value()))
    {
      status := Status.Waiting;
      currentStage := None;
      promotionBuild := None;
      failedStage := None;
      errorCode := None;
      pollErrorCode := None;
      pollFailureCount := 0;
      startedAt := None;
      Append(DeploymentRetried, PromoteStage(component), Of(status), None);
    }
  }
}
