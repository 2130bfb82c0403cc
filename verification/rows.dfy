/** The `deployments` and `release_bundles` rows as values, every write the deployment
    service makes to them, and the way a session's write reaches the table.

    A write is a function from the row a session has loaded to the row it wants.  What is
    committed is the difference between the two (`Merge`), so a session holding an old copy
    overwrites exactly the columns it touched. */
module Rows {
  import opened Base
  import opened Drone

  datatype Status = Waiting | Promoting | Deploying | Success | Failed | Cancelled {
    /** The statuses that occupy a promotion slot. */
    predicate Active() {
      Waiting? || Promoting? || Deploying? || Success?
    }

    predicate InFlight() {
      Promoting? || Deploying?
    }

    predicate Terminal() {
      Success? || Failed? || Cancelled?
    }
  }

  datatype ErrorCode =
    | DroneTimeout
    | DroneUnavailable
    | DroneAuthFailed
    | BuildNotFound
    | DronePromoteFailed
    | PromoteUnconfirmed
    | WorkflowTimeout
    | CiDispatchRejected
    | ApprovedPlanChanged
    | PromotionStagesRejected
    | DroneBuildKilled
    | DroneBuildFailed

  /** The classified failures of a Drone call. */
  datatype DroneError = TimedOutCall | ConnectionLost | UnexpectedResponse | AuthRefused | NotFound | PromoteRefused {
    function Code(): ErrorCode {
      match this
      case TimedOutCall => DroneTimeout
      case ConnectionLost => DroneUnavailable
      case UnexpectedResponse => DroneUnavailable
      case AuthRefused => DroneAuthFailed
      case NotFound => BuildNotFound
      case PromoteRefused => DronePromoteFailed
    }

    /** The request may have reached Drone: no verdict about the promotion exists. */
    predicate Unconfirmed() {
      Code() in {DroneTimeout, DroneUnavailable}
    }
  }

  /** What one promotion occupies: a repository's real coordinates, a build and a target. */
  datatype Slot = Slot(connection: string, owner: string, repository: string, source: int, target: string)

  datatype EventKind =
    | StageStarted
    | StageSucceeded
    | StageFailed
    | DeploymentCancelled
    | PromotionCreated
    | DroneStatusChanged
    | UpstreamUnavailable
    | UpstreamRecovered
    | PromotionUnconfirmed
    | PromotionReconciled
    | DeploymentRetried
    | ReleaseCompleted
    | PublishActivity

  datatype EventStatus = NoStatus | Of(status: Status) | DroneText(text: string)

  datatype Event = Event(kind: EventKind, stage: string, status: EventStatus, code: Option<ErrorCode>)

  datatype Row = Row(
    component: string,
    slot: Slot,
    commit: string,
    branch: string,
    requestedBy: string,
    required: Option<seq<string>>,
    status: Status,
    stage: Option<string>,
    promotion: Option<int>,
    startedAt: Option<int>,
    failedStage: Option<string>,
    errorCode: Option<ErrorCode>,
    pollCode: Option<ErrorCode>,
    pollCount: nat,
    log: seq<Event>)

  datatype BundleStatus = Pending | Promoting | Deploying | Success | Failed | PartialFailure {
    predicate Terminal() {
      Success? || Failed? || PartialFailure?
    }
  }

  datatype Bundle = Bundle(
    status: BundleStatus,
    deploymentStatus: BundleStatus,
    stage: Option<string>,
    failedStage: Option<string>,
    errorCode: Option<ErrorCode>)

  /** The bundle row as it is created, and as a retry leaves it. */
  const NEW_BUNDLE := Bundle(BundleStatus.Pending, BundleStatus.Pending, Some("CREATE_RELEASE_BUNDLE"), None, None)

  // ---------------------------------------------------------------- stages

  function PromoteStage(component: string): string {
    if component == "frontend" then "PROMOTE_FRONTEND"
    else if component == "backend" then "PROMOTE_BACKEND"
    else "PROMOTE_COMPONENT"
  }

  function WaitStage(component: string): string {
    if component == "frontend" then "WAIT_FRONTEND_DEPLOYMENT"
    else if component == "backend" then "WAIT_BACKEND_DEPLOYMENT"
    else "WAIT_COMPONENT_DEPLOYMENT"
  }

  function ActiveStage(row: Row): string {
    row.stage.GetOr(WaitStage(row.component))
  }

  // ---------------------------------------------------------------- environment answers

  datatype PollAnswer = Unreachable(code: ErrorCode) | Found(build: Build)

  datatype ListAnswer = ListFailed(code: ErrorCode) | Listed(builds: seq<Build>)

  /** What Drone would answer during one poll of one row. */
  datatype Answer = Answer(poll: PollAnswer, listing: ListAnswer)

  /** The outcome of the promote call itself. */
  datatype Reply = Created(number: int) | Raised(error: DroneError)

  /** What a claimed row meets on its way to Drone: the CI guard, the plan guard, the call. */
  datatype PromoteAnswer = PromoteAnswer(ciAllowed: bool, planHolds: bool, reply: Reply)

  // ---------------------------------------------------------------- writes on one row

  function NewRow(component: string, slot: Slot, commit: string, branch: string, requestedBy: string,
                    required: Option<seq<string>>, log: seq<Event>): Row
  {
    Row(component, slot, commit, branch, requestedBy, required, Status.Waiting, None, None, None, None, None, None, 0, log)
  }

  function Claimed(row: Row, now: int): (r: Row)
    ensures Follows(row, r)
  {
    row.(status := Status.Promoting,
         stage := Some(PromoteStage(row.component)),
         startedAt := Some(row.startedAt.GetOr(now)),
         log := row.log + [Event(StageStarted, PromoteStage(row.component), Of(Status.Promoting), None)])
  }

  function Recorded(row: Row, number: int, at: string): (r: Row)
    ensures Follows(row, r)
  {
    row.(promotion := Some(number),
         status := Status.Deploying,
         stage := Some(WaitStage(row.component)),
         log := row.log + [Event(StageSucceeded, at, Of(Status.Deploying), None),
                           Event(PromotionCreated, at, Of(Status.Deploying), None),
                           Event(StageStarted, WaitStage(row.component), Of(Status.Deploying), None)])
  }

  function FailedWith(row: Row, at: string, code: ErrorCode): (r: Row)
    ensures Follows(row, r)
  {
    row.(status := Status.Failed,
         stage := None,
         failedStage := Some(at),
         errorCode := Some(code),
         log := row.log + [Event(StageFailed, at, Of(Status.Failed), Some(code))])
  }

  function Unconfirmed(row: Row, at: string, error: DroneError): (r: Row)
    ensures Follows(row, r)
  {
    row.(pollCode := Some(PromoteUnconfirmed),
         pollCount := row.pollCount + 1,
         log := row.log + [Event(PromotionUnconfirmed, at, Of(row.status), Some(error.Code()))])
  }

  function PollFailed(row: Row, at: string, code: ErrorCode): (r: Row)
    ensures Follows(row, r)
  {
    row.(pollCode := Some(code),
         pollCount := row.pollCount + 1,
         log := row.log + if row.pollCode != Some(code)
                          then [Event(UpstreamUnavailable, at, Of(row.status), Some(code))] else [])
  }

  function PollCleared(row: Row, at: string): (r: Row)
    ensures Follows(row, r)
  {
    if row.pollCode == None then row
    else row.(pollCode := None,
              pollCount := 0,
              log := row.log + [Event(UpstreamRecovered, at, Of(row.status), None)])
  }

  function Noted(row: Row, event: Event): (r: Row)
    ensures Follows(row, r)
  {
    row.(log := row.log + [event])
  }

  function Succeeded(row: Row): (r: Row)
    ensures Follows(row, r)
  {
    row.(status := Status.Success,
         stage := None,
         log := row.log + [Event(StageSucceeded, ActiveStage(row), Of(Status.Success), None)])
  }

  function CancelledRow(row: Row): (r: Row)
    ensures Follows(row, r)
  {
    row.(status := Status.Cancelled,
         stage := None,
         log := row.log + [Event(DeploymentCancelled, PromoteStage(row.component), Of(Status.Cancelled), None)])
  }

  function Reset(row: Row): (r: Row)
    ensures Follows(row, r)
  {
    row.(status := Status.Waiting,
         stage := None,
         promotion := None,
         failedStage := None,
         errorCode := None,
         pollCode := None,
         pollCount := 0,
         startedAt := None,
         log := row.log + [Event(DeploymentRetried, PromoteStage(row.component), Of(Status.Waiting), None)])
  }

  predicate TimedOut(row: Row, now: int, timeout: int) {
    row.startedAt.Some? && now - row.startedAt.value > timeout
  }

  /** Look for the promotion a lost request may have created; never send another. */
  function Reconciled(row: Row, at: string, listing: ListAnswer): (r: Row)
    ensures Follows(row, r)
  {
    match listing
    case ListFailed(code) => PollFailed(row, at, code)
    case Listed(builds) =>
      match FindPromotionBuild(builds, row.slot.source, row.slot.target)
      case None => PollFailed(row, at, PromoteUnconfirmed)
      case Some(build) =>
        var cleared := PollCleared(row, at);
        Recorded(Noted(cleared, Event(PromotionReconciled, at, Of(row.status), None)), build.number, at)
  }

  /** A success that must still show its required stages, on the right promotion and commit. */
  predicate VerifiedSuccess(row: Row, build: Build) {
    row.required.Some? ==>
      && build.IsPromotionOf(row.slot.source, row.slot.target)
      && build.commit == row.commit
      && StagesSucceeded(build, row.required.value, true)
  }

  const RUNNING: set<string> := {"pending", "running", "blocked"}

  function Judged(row: Row, at: string, build: Build): (r: Row)
    ensures Follows(row, r)
  {
    var noted := Noted(PollCleared(row, at), Event(DroneStatusChanged, at, DroneText(build.status), None));
    if build.status in RUNNING then noted.(status := Status.Deploying)
    else if build.status == "success" then
      if VerifiedSuccess(row, build) then Succeeded(noted) else FailedWith(noted, at, PromotionStagesRejected)
    else FailedWith(noted, at, if build.status == "killed" then DroneBuildKilled else DroneBuildFailed)
  }

  function Refreshed(row: Row, now: int, timeout: int, answer: Answer): (r: Row)
    ensures Follows(row, r)
  {
    if row.status.Terminal() then row
    else
      var at := ActiveStage(row);
      if TimedOut(row, now, timeout) then FailedWith(row, at, WorkflowTimeout)
      else if row.promotion == None then Reconciled(row, at, answer.listing)
      else
        match answer.poll
        case Unreachable(code) => PollFailed(row, at, code)
        case Found(build) => Judged(row, at, build)
  }

  /** What `promote` records on a claimed row once the guards and Drone have answered. */
  function Settled(row: Row, answer: PromoteAnswer): (r: Row)
    ensures Follows(row, r)
  {
    var at := PromoteStage(row.component);
    if !answer.ciAllowed then FailedWith(row, at, CiDispatchRejected)
    else if !answer.planHolds then FailedWith(row, at, ApprovedPlanChanged)
    else
      match answer.reply
      case Created(number) => Recorded(row, number, at)
      case Raised(error) =>
        if error.Unconfirmed() then Unconfirmed(row, at, error) else FailedWith(row, at, error.Code())
  }

  // ---------------------------------------------------------------- what the bundle mirrors

  function Mirrored(bundle: Bundle, status: BundleStatus, stage: string): Bundle {
    bundle.(status := status, deploymentStatus := status, stage := Some(stage))
  }

  /** Polling moves the bundle only when it adopts a promotion. */
  function BundleAfterPoll(bundle: Bundle, before: Row, after: Row): Bundle {
    if before.promotion != after.promotion then Mirrored(bundle, BundleStatus.Deploying, WaitStage(before.component))
    else bundle
  }

  function BundleAfterPromote(bundle: Bundle, row: Row, answer: PromoteAnswer): Bundle {
    if answer.ciAllowed && answer.planHolds && answer.reply.Created?
    then Mirrored(bundle, BundleStatus.Deploying, WaitStage(row.component))
    else bundle
  }

  // ---------------------------------------------------------------- how a write reaches the table

  predicate SameIdentity(a: Row, b: Row) {
    && a.component == b.component && a.slot == b.slot && a.commit == b.commit && a.branch == b.branch
    && a.requestedBy == b.requestedBy && a.required == b.required
  }

  /** `after` was computed from `seen`: same deployment, and events only appended. */
  predicate Follows(seen: Row, after: Row) {
    SameIdentity(seen, after) && seen.log <= after.log
  }

  function Column<T(==)>(current: T, seen: T, after: T): T {
    if after != seen then after else current
  }

  /** The committed row when a session that loaded `seen` flushes `after` over `row`. */
  function Merge(row: Row, seen: Row, after: Row): Row
    requires Follows(seen, after)
  {
    row.(status := Column(row.status, seen.status, after.status),
         stage := Column(row.stage, seen.stage, after.stage),
         promotion := Column(row.promotion, seen.promotion, after.promotion),
         startedAt := Column(row.startedAt, seen.startedAt, after.startedAt),
         failedStage := Column(row.failedStage, seen.failedStage, after.failedStage),
         errorCode := Column(row.errorCode, seen.errorCode, after.errorCode),
         pollCode := Column(row.pollCode, seen.pollCode, after.pollCode),
         pollCount := Column(row.pollCount, seen.pollCount, after.pollCount),
         log := row.log + after.log[|seen.log|..])
  }

  /** The committed bundle row when a session that loaded `seen` flushes `after` over `bundle`. */
  function MergeBundle(bundle: Bundle, seen: Bundle, after: Bundle): Bundle {
    Bundle(Column(bundle.status, seen.status, after.status),
           Column(bundle.deploymentStatus, seen.deploymentStatus, after.deploymentStatus),
           Column(bundle.stage, seen.stage, after.stage),
           Column(bundle.failedStage, seen.failedStage, after.failedStage),
           Column(bundle.errorCode, seen.errorCode, after.errorCode))
  }

  predicate ColumnFlushed<T(==)>(row: T, seen: T, after: T, merged: T) {
    (after != seen ==> merged == after) && (after == seen ==> merged == row)
  }

  /** A flush writes exactly the columns in which the session's row differs from the copy it loaded, whatever the table
      holds by now, and appends exactly the session's new events. */
  lemma FlushMeans(row: Row, seen: Row, after: Row)
    requires Follows(seen, after)
    ensures var merged := Merge(row, seen, after);
            && merged == row.(status := merged.status, stage := merged.stage, promotion := merged.promotion,
                              startedAt := merged.startedAt, failedStage := merged.failedStage, errorCode := merged.errorCode,
                              pollCode := merged.pollCode, pollCount := merged.pollCount, log := merged.log)
            && ColumnFlushed(row.status, seen.status, after.status, merged.status)
            && ColumnFlushed(row.stage, seen.stage, after.stage, merged.stage)
            && ColumnFlushed(row.promotion, seen.promotion, after.promotion, merged.promotion)
            && ColumnFlushed(row.startedAt, seen.startedAt, after.startedAt, merged.startedAt)
            && ColumnFlushed(row.failedStage, seen.failedStage, after.failedStage, merged.failedStage)
            && ColumnFlushed(row.errorCode, seen.errorCode, after.errorCode, merged.errorCode)
            && ColumnFlushed(row.pollCode, seen.pollCode, after.pollCode, merged.pollCode)
            && ColumnFlushed(row.pollCount, seen.pollCount, after.pollCount, merged.pollCount)
            && exists events :: after.log == seen.log + events && merged.log == row.log + events
  {
    var events := after.log[|seen.log|..];
    assert after.log == seen.log + events && Merge(row, seen, after).log == row.log + events;
  }

  /** With nothing committed in between, the flush is the write itself. */
  lemma MergeOfFreshCopy(seen: Row, after: Row)
    requires Follows(seen, after)
    ensures Merge(seen, seen, after) == after
  {
    assert after.log == seen.log + after.log[|seen.log|..];
  }

  /** Only a retry writes WAITING: no poll or promote outcome can put a row back in the queue. */
  lemma OnlyResetRequeues(row: Row, now: int, timeout: int, answer: Answer, promoted: PromoteAnswer)
    ensures Refreshed(row, now, timeout, answer).status.Waiting? ==> row.status.Waiting?
    ensures Settled(row, promoted).status.Waiting? ==> row.status.Waiting?
  {
  }
}
