/** A release bundle driven by any number of sessions.

    `Pass` is one walk of `_advance` up to its commit: polls, verdicts and at most one claim.  The
    reply to the claimed request is a later step of the same session, written from the copy it holds; and
    after a refusal the session commits its verdict on the bundle, later still, from the copies of all rows
    it has held since the claim.  In between any other session may act, and the session may die. */
module Bundles {
  import opened Base
  import opened Drone
  import opened Rows

  datatype PassResult = PassResult(rows: seq<Row>, bundle: Bundle, claimed: Option<nat>)

  // ---------------------------------------------------------------- verdicts

  function CancelWaiting(rows: seq<Row>): (after: seq<Row>)
    ensures |after| == |rows|
    ensures forall i :: 0 <= i < |rows| ==> after[i] == if rows[i].status.Waiting? then CancelledRow(rows[i]) else rows[i]
  {
    if rows == [] then []
    else [if rows[0].status.Waiting? then CancelledRow(rows[0]) else rows[0]] + CancelWaiting(rows[1..])
  }

  predicate AnySucceeded(rows: seq<Row>) {
    exists i :: 0 <= i < |rows| && rows[i].status.Success?
  }

  /** FAILED and PARTIAL_FAILURE differ by whether some component reached its target. */
  function Verdict(rows: seq<Row>, bundle: Bundle, failed: Row): Bundle {
    var status := if AnySucceeded(rows) then BundleStatus.PartialFailure else BundleStatus.Failed;
    bundle.(status := status, deploymentStatus := status, stage := None,
            failedStage := failed.failedStage, errorCode := failed.errorCode)
  }

  function FailBundle(rows: seq<Row>, bundle: Bundle, failed: Row): PassResult {
    PassResult(CancelWaiting(rows), Verdict(CancelWaiting(rows), bundle, failed), None)
  }

  function FinishSuccess(bundle: Bundle): Bundle {
    bundle.(status := BundleStatus.Success, deploymentStatus := BundleStatus.Success, stage := None)
  }

  // ---------------------------------------------------------------- one walk

  /** The walk from step `i` on, up to its first commit.  `answers[j]` is what Drone would say about step j. */
  function Pass(rows: seq<Row>, bundle: Bundle, i: nat, now: int, timeout: int, answers: seq<Answer>): (result: PassResult)
    requires i <= |rows| == |answers|
    ensures |result.rows| == |rows|
    ensures result.claimed.Some? ==> result.claimed.value < |rows|
    decreases |rows| - i
  {
    if i == |rows| then PassResult(rows, FinishSuccess(bundle), None)
    else
      match rows[i].status
      case Waiting =>
        PassResult(rows[i := Claimed(rows[i], now)],
                   Mirrored(bundle, BundleStatus.Promoting, PromoteStage(rows[i].component)), Some(i))
      case Success => Pass(rows, bundle, i + 1, now, timeout, answers)
      case Failed => FailBundle(rows, bundle, rows[i])
      case Cancelled => PassResult(rows, bundle, None)
      case _ =>
        var polled := Refreshed(rows[i], now, timeout, answers[i]);
        var rows' := rows[i := polled];
        var bundle' := BundleAfterPoll(bundle, rows[i], polled);
        if polled.status.Failed? then FailBundle(rows', bundle', polled)
        else if polled.status.Success? then Pass(rows', bundle', i + 1, now, timeout, answers)
        else PassResult(rows', bundle', None)
  }

  // ---------------------------------------------------------------- the world of one bundle

  /** A request on its way: which step it was claimed for, and the copies the session holds, of that row, of
      all rows and of the bundle. */
  datatype Call = Call(index: nat, seen: Row, copies: seq<Row>, bundle: Bundle)

  /** A session that has committed the refusal of its request and has yet to commit what follows for the bundle. */
  datatype Refusal = Refusal(call: Call, outcome: PromoteAnswer) {
    function Failed(): Row {
      Settled(call.seen, outcome)
    }

    /** The steps as the session holds them, its own refused one included. */
    function Held(): (rows: seq<Row>)
      requires call.index < |call.copies|
      ensures |rows| == |call.copies|
    {
      call.copies[call.index := Failed()]
    }
  }

  datatype World = World(rows: seq<Row>, bundle: Bundle, calls: map<nat, Call>, refusals: map<nat, Refusal>)

  datatype Step =
    | Advance(session: nat, now: int, timeout: int, answers: seq<Answer>)
    | Reply(session: nat, outcome: PromoteAnswer)
    | Conclude(session: nat)
    | Crash(session: nat)
    | Retry(published: bool)

  predicate Possible(w: World, step: Step) {
    match step
    case Advance(session, _, _, answers) => session !in w.calls && session !in w.refusals && |answers| == |w.rows|
    case Reply(session, _) => session in w.calls && w.calls[session].index < |w.rows|
    case Conclude(session) =>
      && session in w.refusals
      && w.refusals[session].call.index < |w.refusals[session].call.copies| == |w.rows|
    case Crash(_) => true
    case Retry(published) => RetryAllowed(w.rows, w.bundle, published)
  }

  predicate RetryAllowed(rows: seq<Row>, bundle: Bundle, published: bool) {
    && (bundle.deploymentStatus.Failed? || bundle.deploymentStatus.PartialFailure?)
    && !published
    && exists i :: 0 <= i < |rows| && !rows[i].status.Success?
  }

  function ResetUnfinished(rows: seq<Row>): (after: seq<Row>)
    ensures |after| == |rows|
    ensures forall i :: 0 <= i < |rows| ==> after[i] == if rows[i].status.Success? then rows[i] else Reset(rows[i])
  {
    if rows == [] then []
    else [if rows[0].status.Success? then rows[0] else Reset(rows[0])] + ResetUnfinished(rows[1..])
  }

  function Replied(w: World, call: Call, outcome: PromoteAnswer): World
    requires call.index < |w.rows|
  {
    var row := w.rows[call.index];
    w.(rows := w.rows[call.index := Merge(row, call.seen, Settled(call.seen, outcome))],
       bundle := BundleAfterPromote(w.bundle, row, outcome))
  }

  /** Every step the session holds as waiting is cancelled, whatever its row has become. */
  function CancelHeld(rows: seq<Row>, held: seq<Row>): (after: seq<Row>)
    requires |rows| == |held|
    ensures |after| == |rows|
    ensures forall j :: 0 <= j < |rows| ==>
              after[j] == if held[j].status.Waiting? then Merge(rows[j], held[j], CancelledRow(held[j])) else rows[j]
  {
    if rows == [] then []
    else [if held[0].status.Waiting? then Merge(rows[0], held[0], CancelledRow(held[0])) else rows[0]]
         + CancelHeld(rows[1..], held[1..])
  }

  /** `_fail_bundle` after a refused request: decided on the session's copies, flushed over the rows. */
  function Concluded(w: World, refusal: Refusal): World
    requires refusal.call.index < |refusal.call.copies| == |w.rows|
  {
    var verdict := Verdict(CancelWaiting(refusal.Held()), refusal.call.bundle, refusal.Failed());
    w.(rows := CancelHeld(w.rows, refusal.Held()), bundle := MergeBundle(w.bundle, refusal.call.bundle, verdict))
  }

  predicate ReplyCreates(outcome: PromoteAnswer) {
    outcome.ciAllowed && outcome.planHolds && outcome.reply.Created?
  }

  predicate ReplyUnknown(outcome: PromoteAnswer) {
    outcome.ciAllowed && outcome.planHolds && outcome.reply.Raised? && outcome.reply.error.Unconfirmed()
  }

  predicate ReplyRefuses(outcome: PromoteAnswer) {
    !ReplyCreates(outcome) && !ReplyUnknown(outcome)
  }

  function ClaimedCall(result: PassResult): Call
    requires result.claimed.Some? && result.claimed.value < |result.rows|
  {
    Call(result.claimed.value, result.rows[result.claimed.value], result.rows, result.bundle)
  }

  function Next(w: World, step: Step): (w': World)
    requires Possible(w, step)
    ensures |w'.rows| == |w.rows|
  {
    match step
    case Advance(session, now, timeout, answers) =>
      if w.bundle.status.Terminal() then w
      else
        var result := Pass(w.rows, w.bundle, 0, now, timeout, answers);
        World(result.rows, result.bundle,
              if result.claimed.Some? then w.calls[session := ClaimedCall(result)] else w.calls, w.refusals)
    case Reply(session, outcome) =>
      Replied(w, w.calls[session], outcome)
      .(calls := w.calls - {session},
        refusals := if ReplyRefuses(outcome) then w.refusals[session := Refusal(w.calls[session], outcome)] else w.refusals)
    case Conclude(session) => Concluded(w, w.refusals[session]).(refusals := w.refusals - {session})
    case Crash(session) => w.(calls := w.calls - {session}, refusals := w.refusals - {session})
    case Retry(_) =>
      w.(rows := ResetUnfinished(w.rows),
         bundle := NEW_BUNDLE)
  }

  // ---------------------------------------------------------------- the order

  function Front(rows: seq<Row>): (k: nat)
    ensures k <= |rows|
    ensures forall j :: 0 <= j < k ==> rows[j].status.Success?
    ensures k < |rows| ==> !rows[k].status.Success?
  {
    if rows == [] || !rows[0].status.Success? then 0
    else
      var k := Front(rows[1..]);
      assert forall j :: 0 < j <= k ==> rows[j] == rows[1..][j - 1];
      k + 1
  }

  predicate AllAfter(rows: seq<Row>, k: nat, status: Status) {
    forall j :: k < j < |rows| ==> rows[j].status == status
  }

  predicate AllBefore(rows: seq<Row>, k: nat) {
    forall j :: 0 <= j < k && j < |rows| ==> rows[j].status.Success?
  }

  function StoppedStatus(k: nat): BundleStatus {
    if k > 0 then BundleStatus.PartialFailure else BundleStatus.Failed
  }

  /** The bundle carries the verdict of a failure at step k. */
  predicate StoppedAt(bundle: Bundle, k: nat, failedStage: Option<string>, errorCode: Option<ErrorCode>) {
    && bundle.status == StoppedStatus(k)
    && bundle.stage == None && bundle.failedStage == failedStage && bundle.errorCode == errorCode
  }

  /** Succeeded steps, then at most one step at work or failed, then steps that have not started; once the
      bundle is over, the steps that never started are cancelled and the bundle carries the verdict. */
  predicate InOrderAt(rows: seq<Row>, bundle: Bundle, k: nat)
    requires k <= |rows|
  {
    && bundle.status == bundle.deploymentStatus
    && (k == |rows| ==> bundle.status.Success? || !bundle.status.Terminal())
    && (k < |rows| ==>
          match rows[k].status
          case Failed =>
            || (!bundle.status.Terminal() && AllAfter(rows, k, Status.Waiting))
            || (StoppedAt(bundle, k, rows[k].failedStage, rows[k].errorCode) && AllAfter(rows, k, Status.Cancelled))
          case Cancelled => false
          case _ => !bundle.status.Terminal() && AllAfter(rows, k, Status.Waiting))
  }

  predicate InOrder(w: World) {
    InOrderAt(w.rows, w.bundle, Front(w.rows))
  }

  lemma FrontIs(rows: seq<Row>, k: nat)
    requires k <= |rows| && AllBefore(rows, k) && (k < |rows| ==> !rows[k].status.Success?)
    ensures Front(rows) == k
  {
  }

  // ---------------------------------------------------------------- bookkeeping of sessions

  /** A row in the queue carries nothing of an earlier attempt's end. */
  predicate QueueFresh(rows: seq<Row>) {
    forall i :: 0 <= i < |rows| && rows[i].status.Waiting? ==>
      rows[i].promotion == None && rows[i].errorCode == None && rows[i].failedStage == None
  }

  /** Every outstanding request, and every refusal, holds the copy its claim produced. */
  predicate BooksFit(w: World) {
    && (forall s :: s in w.calls ==> CallFits(w.rows, w.calls[s]))
    && (forall s :: s in w.refusals ==> CallFits(w.rows, w.refusals[s].call) && ReplyRefuses(w.refusals[s].outcome))
  }

  predicate Wellformed(w: World) {
    QueueFresh(w.rows) && BooksFit(w)
  }

  predicate CallFits(rows: seq<Row>, call: Call) {
    && call.index < |rows| == |call.copies| && call.seen.component == rows[call.index].component
    && call.copies[call.index] == call.seen
    && call.seen.status == Status.Promoting && call.seen.promotion == None
    && call.seen.errorCode == None && call.seen.failedStage == None
  }

  /** A poll of a step at work never sends it back to the queue and never cancels it, and a poll that
      changes nothing about the verdict leaves the bundle running. */
  lemma PolledInFlight(row: Row, bundle: Bundle, now: int, timeout: int, answer: Answer)
    requires row.status.InFlight()
    ensures var polled := Refreshed(row, now, timeout, answer);
            && !polled.status.Waiting? && !polled.status.Cancelled? && polled.component == row.component
            && var b := BundleAfterPoll(bundle, row, polled);
               (b == bundle || (b.status == b.deploymentStatus == BundleStatus.Deploying))
  {
  }

  // ---------------------------------------------------------------- a walk keeps the order

  lemma PassFrom(rows: seq<Row>, bundle: Bundle, i: nat, k: nat, now: int, timeout: int, answers: seq<Answer>)
    requires i <= k <= |rows| == |answers| && AllBefore(rows, k)
    ensures Pass(rows, bundle, i, now, timeout, answers) == Pass(rows, bundle, k, now, timeout, answers)
    decreases k - i
  {
    if i < k {
      PassFrom(rows, bundle, i + 1, k, now, timeout, answers);
    }
  }

  lemma FailBundleInOrder(rows: seq<Row>, bundle: Bundle, k: nat)
    requires k < |rows| && AllBefore(rows, k) && rows[k].status.Failed?
    requires AllAfter(rows, k, Status.Waiting) || AllAfter(rows, k, Status.Cancelled)
    ensures var result := FailBundle(rows, bundle, rows[k]);
            InOrderAt(result.rows, result.bundle, k) && AllBefore(result.rows, k) && result.rows[k] == rows[k]
  {
    var after := CancelWaiting(rows);
    if k > 0 {
      assert after[0].status.Success?;
    }
    assert AnySucceeded(after) <==> k > 0;
  }

  /** After a step has just succeeded the walk finishes the bundle or claims the next step. */
  lemma NextStepInOrder(rows: seq<Row>, bundle: Bundle, k: nat, now: int, timeout: int, answers: seq<Answer>)
    requires k <= |rows| == |answers| && AllBefore(rows, k)
    requires forall j :: k <= j < |rows| ==> rows[j].status == Status.Waiting
    requires bundle.status == bundle.deploymentStatus && !bundle.status.Terminal()
    ensures var result := Pass(rows, bundle, k, now, timeout, answers);
            InOrderAt(result.rows, result.bundle, Front(result.rows))
  {
    var result := Pass(rows, bundle, k, now, timeout, answers);
    FrontIs(result.rows, k);
  }

  /** A walk that polls the front: it fails the bundle, goes on, or stops there. */
  lemma PolledStep(rows: seq<Row>, bundle: Bundle, k: nat, now: int, timeout: int, answers: seq<Answer>)
    requires k < |rows| == |answers| && rows[k].status.InFlight()
    ensures var polled := Refreshed(rows[k], now, timeout, answers[k]);
            var rows', bundle' := rows[k := polled], BundleAfterPoll(bundle, rows[k], polled);
            Pass(rows, bundle, k, now, timeout, answers) ==
            if polled.status.Failed? then FailBundle(rows', bundle', polled)
            else if polled.status.Success? then Pass(rows', bundle', k + 1, now, timeout, answers)
            else PassResult(rows', bundle', None)
  {
    hide Refreshed, BundleAfterPoll;
  }

  lemma StillAtWorkInOrder(rows: seq<Row>, bundle: Bundle, k: nat)
    requires k < |rows| && AllBefore(rows, k) && rows[k].status.InFlight() && AllAfter(rows, k, Status.Waiting)
    requires bundle.status == bundle.deploymentStatus && !bundle.status.Terminal()
    ensures InOrderAt(rows, bundle, Front(rows))
  {
    hide Front;
    FrontIs(rows, k);
  }

  lemma PolledStepInOrder(rows: seq<Row>, bundle: Bundle, k: nat, now: int, timeout: int, answers: seq<Answer>)
    requires k < |rows| == |answers| && AllBefore(rows, k) && rows[k].status.InFlight()
    requires InOrderAt(rows, bundle, k)
    ensures var result := Pass(rows, bundle, k, now, timeout, answers);
            InOrderAt(result.rows, result.bundle, Front(result.rows))
  {
    var polled := Refreshed(rows[k], now, timeout, answers[k]);
    var rows', bundle' := rows[k := polled], BundleAfterPoll(bundle, rows[k], polled);
    PolledInFlight(rows[k], bundle, now, timeout, answers[k]);
    PolledStep(rows, bundle, k, now, timeout, answers);
    hide Refreshed, BundleAfterPoll, Pass;
    hide CancelWaiting, Verdict;
    if polled.status.Failed? {
      FailBundleInOrder(rows', bundle', k);
      hide Front, InOrderAt;
      FrontIs(FailBundle(rows', bundle', polled).rows, k);
    } else if polled.status.Success? {
      hide Front;
      NextStepInOrder(rows', bundle', k + 1, now, timeout, answers);
    } else {
      StillAtWorkInOrder(rows', bundle', k);
    }
  }

  /** From a state in order whose front is k, one walk ends in order. */
  lemma PassAtFrontInOrder(rows: seq<Row>, bundle: Bundle, k: nat, now: int, timeout: int, answers: seq<Answer>)
    requires k <= |rows| == |answers|
    requires AllBefore(rows, k) && (k < |rows| ==> !rows[k].status.Success?)
    requires InOrderAt(rows, bundle, k) && !bundle.status.Terminal()
    ensures var result := Pass(rows, bundle, k, now, timeout, answers);
            InOrderAt(result.rows, result.bundle, Front(result.rows))
  {
    hide Refreshed, BundleAfterPoll, Front;
    if k < |rows| && rows[k].status.InFlight() {
      PolledStepInOrder(rows, bundle, k, now, timeout, answers);
    } else if k < |rows| && rows[k].status.Failed? {
      FailBundleInOrder(rows, bundle, k);
      FrontIs(CancelWaiting(rows), k);
    } else {
      FrontIs(Pass(rows, bundle, k, now, timeout, answers).rows, k);
    }
  }

  /** A step is claimed only in a commit in which every earlier step has succeeded, whatever other
      sessions have done to the bundle and however often it was retried. */
  lemma ClaimFollowsSuccess(rows: seq<Row>, bundle: Bundle, i: nat, now: int, timeout: int, answers: seq<Answer>)
    requires i <= |rows| == |answers| && AllBefore(rows, i)
    ensures var result := Pass(rows, bundle, i, now, timeout, answers);
            result.claimed.Some? ==>
              && AllBefore(result.rows, result.claimed.value)
              && result.rows[result.claimed.value].status == Status.Promoting
              && rows[result.claimed.value].status.Waiting?
    decreases |rows| - i
  {
    if i < |rows| && rows[i].status.Success? {
      ClaimFollowsSuccess(rows, bundle, i + 1, now, timeout, answers);
    } else if i < |rows| && rows[i].status.InFlight() {
      var polled := Refreshed(rows[i], now, timeout, answers[i]);
      if polled.status.Success? {
        ClaimFollowsSuccess(rows[i := polled], BundleAfterPoll(bundle, rows[i], polled), i + 1, now, timeout, answers);
      }
    }
  }

  // ---------------------------------------------------------------- a late reply

  function RefusalCode(outcome: PromoteAnswer): ErrorCode
    requires ReplyRefuses(outcome)
  {
    if !outcome.ciAllowed then CiDispatchRejected
    else if !outcome.planHolds then ApprovedPlanChanged
    else outcome.reply.error.Code()
  }

  /** A reply that reports a creation finds every earlier step succeeded and every later one in the queue; a
      refusal finds that in a bundle still open, or repeats the verdict the bundle already carries.  Whether
      the step itself is still at work is not asked: see `PromotingReplyIsInTurn` and `SuccessStaysIff`. */
  predicate ReplyInTurn(w: World, call: Call, outcome: PromoteAnswer)
    requires call.index < |w.rows|
  {
    var i := call.index;
    || ReplyUnknown(outcome)
    || (ReplyCreates(outcome) && AllBefore(w.rows, i) && AllAfter(w.rows, i, Status.Waiting))
    || (ReplyRefuses(outcome) && AllBefore(w.rows, i)
        && ((!w.bundle.status.Terminal() && AllAfter(w.rows, i, Status.Waiting))
            || (StoppedAt(w.bundle, i, Some(PromoteStage(call.seen.component)), Some(RefusalCode(outcome)))
                && AllAfter(w.rows, i, Status.Cancelled))))
  }

  /** A verdict from old copies finds its refusal standing: the first step that has not succeeded failed with
      just that stage and code, and nothing from there to the refused step is alive.  As a rule that first
      step is the refused one itself (`OwnRefusalStands`). */
  predicate RefusalStands(w: World, refusal: Refusal) {
    var i, k := refusal.call.index, Front(w.rows);
    && k <= i < |w.rows| && (k > 0 <==> i > 0)
    && w.rows[k].status.Failed?
    && w.rows[k].failedStage == refusal.Failed().failedStage && w.rows[k].errorCode == refusal.Failed().errorCode
    && forall j :: k < j <= i ==> w.rows[j].status.Cancelled?
  }

  predicate StepInTurn(w: World, step: Step)
    requires Possible(w, step)
  {
    match step
    case Reply(session, outcome) => ReplyInTurn(w, w.calls[session], outcome)
    case Conclude(session) => RefusalStands(w, w.refusals[session])
    case _ => true
  }

  lemma MergedReply(row: Row, seen: Row, outcome: PromoteAnswer)
    requires seen.status == Status.Promoting && seen.promotion == None && seen.errorCode == None && seen.failedStage == None
    ensures var merged := Merge(row, seen, Settled(seen, outcome));
            && merged.component == row.component
            && (ReplyCreates(outcome) ==> merged.status == Status.Deploying)
            && (ReplyUnknown(outcome) ==>
                  merged.status == row.status && merged.failedStage == row.failedStage && merged.errorCode == row.errorCode
                  && merged.promotion == row.promotion)
            && (!ReplyCreates(outcome) && !ReplyUnknown(outcome) ==>
                  merged.status == Status.Failed && merged.failedStage == Some(PromoteStage(seen.component))
                  && merged.errorCode == Some(RefusalCode(outcome)))
  {
  }

  /** A step that is neither queued nor cancelled nor succeeded must be the front of a state in order. */
  lemma AtWorkIsFront(rows: seq<Row>, bundle: Bundle, i: nat)
    requires i < |rows| && !rows[i].status.Waiting? && !rows[i].status.Cancelled? && !rows[i].status.Success?
    ensures InOrderAt(rows, bundle, Front(rows)) <==> AllBefore(rows, i) && InOrderAt(rows, bundle, i)
  {
    if Front(rows) < i {
      assert rows[i].status != Status.Waiting && rows[i].status != Status.Cancelled;
    } else if AllBefore(rows, i) {
      FrontIs(rows, i);
    }
  }

  lemma SameStatusesSameOrder(rows: seq<Row>, rows': seq<Row>, bundle: Bundle)
    requires |rows| == |rows'|
    requires forall j :: 0 <= j < |rows| ==>
               rows'[j].status == rows[j].status && rows'[j].failedStage == rows[j].failedStage && rows'[j].errorCode == rows[j].errorCode
    ensures InOrderAt(rows', bundle, Front(rows')) <==> InOrderAt(rows, bundle, Front(rows))
  {
    var k := Front(rows);
    hide Front;
    FrontIs(rows', k);
  }

  lemma UnknownReplyKeepsOrder(w: World, call: Call, outcome: PromoteAnswer)
    requires call.index < |w.rows| && ReplyUnknown(outcome)
    requires call.seen.status == Status.Promoting && call.seen.promotion == None
    requires call.seen.errorCode == None && call.seen.failedStage == None
    ensures InOrder(Replied(w, call, outcome)) <==> InOrder(w)
  {
    MergedReply(w.rows[call.index], call.seen, outcome);
    hide Merge, Settled, Front, InOrderAt;
    SameStatusesSameOrder(w.rows, Replied(w, call, outcome).rows, w.bundle);
  }

  lemma KnownReplyInOrderIff(w: World, call: Call, outcome: PromoteAnswer, merged: Row)
    requires call.index < |w.rows| && !ReplyUnknown(outcome) && w.bundle.status == w.bundle.deploymentStatus
    requires ReplyCreates(outcome) ==> merged.status == Status.Deploying
    requires !ReplyCreates(outcome) ==>
               merged.status == Status.Failed && merged.failedStage == Some(PromoteStage(call.seen.component))
               && merged.errorCode == Some(RefusalCode(outcome))
    ensures var rows, bundle := w.rows[call.index := merged], BundleAfterPromote(w.bundle, w.rows[call.index], outcome);
            InOrderAt(rows, bundle, Front(rows)) <==> ReplyInTurn(w, call, outcome)
  {
    hide Front, PromoteStage, WaitStage;
    var i := call.index;
    var rows := w.rows[i := merged];
    AtWorkIsFront(rows, BundleAfterPromote(w.bundle, w.rows[i], outcome), i);
    assert forall j :: 0 <= j < |rows| && j != i ==> rows[j] == w.rows[j];
    assert AllBefore(rows, i) <==> AllBefore(w.rows, i);
    assert forall status :: AllAfter(rows, i, status) <==> AllAfter(w.rows, i, status);
  }

  lemma ReplyInOrderIff(w: World, call: Call, outcome: PromoteAnswer)
    requires InOrder(w) && call.index < |w.rows|
    requires call.seen.status == Status.Promoting && call.seen.promotion == None
    requires call.seen.errorCode == None && call.seen.failedStage == None
    ensures InOrder(Replied(w, call, outcome)) <==> ReplyInTurn(w, call, outcome)
  {
    if ReplyUnknown(outcome) {
      UnknownReplyKeepsOrder(w, call, outcome);
    } else {
      MergedReply(w.rows[call.index], call.seen, outcome);
      KnownReplyInOrderIff(w, call, outcome, Merge(w.rows[call.index], call.seen, Settled(call.seen, outcome)));
    }
  }

  // ---------------------------------------------------------------- a late verdict

  /** Cancelling from a copy changes the status, and nothing else that matters to the order. */
  lemma CancelMerged(rows: seq<Row>, held: seq<Row>)
    requires |rows| == |held|
    ensures forall j :: 0 <= j < |rows| ==>
              var after := CancelHeld(rows, held)[j];
              && after.status == (if held[j].status.Waiting? then Status.Cancelled else rows[j].status)
              && after.component == rows[j].component && after.startedAt == rows[j].startedAt
              && after.failedStage == rows[j].failedStage && after.errorCode == rows[j].errorCode
              && (!held[j].status.Waiting? ==> after == rows[j])
  {
    hide CancelHeld;
  }

  /** What a session that claimed its step in an orderly bundle holds: the steps before it succeeded, those
      behind it waiting, the bundle PROMOTING and without a verdict. */
  predicate Shaped(call: Call) {
    && call.index < |call.copies| && call.copies[call.index] == call.seen
    && AllBefore(call.copies, call.index) && AllAfter(call.copies, call.index, Status.Waiting)
    && call.bundle.status == call.bundle.deploymentStatus == BundleStatus.Promoting
    && call.bundle.stage.Some? && call.bundle.failedStage == None && call.bundle.errorCode == None
  }

  /** The verdict such a session commits overwrites every bundle column it decides. */
  lemma ConcludedBundle(w: World, refusal: Refusal)
    requires Shaped(refusal.call) && |refusal.call.copies| == |w.rows| && ReplyRefuses(refusal.outcome)
    ensures var failed, bundle := refusal.Failed(), Concluded(w, refusal).bundle;
            && failed.failedStage == Some(PromoteStage(refusal.call.seen.component))
            && failed.errorCode == Some(RefusalCode(refusal.outcome))
            && StoppedAt(bundle, refusal.call.index, failed.failedStage, failed.errorCode)
            && bundle.deploymentStatus == bundle.status
  {
    var i, held := refusal.call.index, refusal.Held();
    var after := CancelWaiting(held);
    assert refusal.Failed().status.Failed?;
    hide Settled;
    if i > 0 {
      assert after[0].status.Success?;
    }
    assert AnySucceeded(after) <==> i > 0;
  }

  lemma ConcludeInOrderIff(w: World, refusal: Refusal)
    requires InOrder(w) && Shaped(refusal.call) && |refusal.call.copies| == |w.rows| && ReplyRefuses(refusal.outcome)
    ensures InOrder(Concluded(w, refusal)) <==> RefusalStands(w, refusal)
  {
    ConcludedBundle(w, refusal);
    CancelMerged(w.rows, refusal.Held());
    assert refusal.Failed().status.Failed?;
    hide CancelHeld, CancelWaiting, MergeBundle, Verdict, Settled, Front, StoppedAt, InOrderAt;
    var i, rows, bundle := refusal.call.index, Concluded(w, refusal).rows, Concluded(w, refusal).bundle;
    assert forall j :: 0 <= j <= i ==> rows[j] == w.rows[j];
    assert AllAfter(rows, i, Status.Cancelled);
    CancelledTailInOrderIff(w.rows, w.bundle, rows, bundle, i, refusal.Failed().failedStage, refusal.Failed().errorCode);
    hide Concluded;
  }

  /** A bundle whose steps behind i have just been cancelled under the verdict of a failure at i. */
  lemma CancelledTailInOrderIff(before: seq<Row>, open: Bundle, rows: seq<Row>, bundle: Bundle, i: nat,
                                failedStage: Option<string>, errorCode: Option<ErrorCode>)
    requires i < |rows| == |before| && (forall j :: 0 <= j <= i ==> rows[j] == before[j]) && AllAfter(rows, i, Status.Cancelled)
    requires InOrderAt(before, open, Front(before))
    requires StoppedAt(bundle, i, failedStage, errorCode) && bundle.deploymentStatus == bundle.status
    requires failedStage.Some? && errorCode.Some?
    ensures InOrderAt(rows, bundle, Front(rows)) <==>
            (var k := Front(before);
             && k <= i && (k > 0 <==> i > 0) && before[k].status.Failed?
             && before[k].failedStage == failedStage && before[k].errorCode == errorCode
             && forall j :: k < j <= i ==> before[j].status.Cancelled?)
  {
    var k := Front(before);
    hide Front;
    if k <= i {
      FrontIs(rows, k);
    } else if i + 1 < |rows| {
      FrontIs(rows, i + 1);
    } else {
      FrontIs(rows, |rows|);
    }
  }

  // ---------------------------------------------------------------- sessions keep their books

  /** The walk claims at most one queued step; every other queued step is left exactly as it was. */
  predicate QueueKept(rows: seq<Row>, result: PassResult, now: int)
    requires |result.rows| == |rows| && (result.claimed.Some? ==> result.claimed.value < |rows|)
  {
    && (forall j :: 0 <= j < |rows| ==> result.rows[j].component == rows[j].component)
    && (forall j :: 0 <= j < |rows| && result.rows[j].status.Waiting? ==> result.rows[j] == rows[j])
    && (result.claimed.Some? ==>
          var c := result.claimed.value; rows[c].status.Waiting? && result.rows[c] == Claimed(rows[c], now))
  }

  lemma PolledStepKeepsQueue(rows: seq<Row>, bundle: Bundle, i: nat, now: int, timeout: int, answers: seq<Answer>)
    requires i < |rows| == |answers| && rows[i].status.InFlight()
    requires var polled := Refreshed(rows[i], now, timeout, answers[i]);
             var rows', bundle' := rows[i := polled], BundleAfterPoll(bundle, rows[i], polled);
             polled.status.Success? ==> QueueKept(rows', Pass(rows', bundle', i + 1, now, timeout, answers), now)
    ensures QueueKept(rows, Pass(rows, bundle, i, now, timeout, answers), now)
  {
    PolledInFlight(rows[i], bundle, now, timeout, answers[i]);
    hide Refreshed, BundleAfterPoll, Verdict;
  }

  lemma PassKeepsQueue(rows: seq<Row>, bundle: Bundle, i: nat, now: int, timeout: int, answers: seq<Answer>)
    requires i <= |rows| == |answers|
    ensures QueueKept(rows, Pass(rows, bundle, i, now, timeout, answers), now)
    decreases |rows| - i
  {
    hide Refreshed, BundleAfterPoll, Verdict;
    if i < |rows| {
      if rows[i].status.Success? {
        PassKeepsQueue(rows, bundle, i + 1, now, timeout, answers);
      } else if rows[i].status.InFlight() {
        var polled := Refreshed(rows[i], now, timeout, answers[i]);
        if polled.status.Success? {
          PassKeepsQueue(rows[i := polled], BundleAfterPoll(bundle, rows[i], polled), i + 1, now, timeout, answers);
        }
        PolledStepKeepsQueue(rows, bundle, i, now, timeout, answers);
      }
    }
  }

  predicate SameComponents(rows: seq<Row>, after: seq<Row>) {
    |rows| == |after| && forall j :: 0 <= j < |rows| ==> after[j].component == rows[j].component
  }

  lemma FitsStill(rows: seq<Row>, after: seq<Row>, call: Call)
    requires SameComponents(rows, after) && CallFits(rows, call)
    ensures CallFits(after, call)
  {
  }

  /** Books are kept when the components stay in place and every entry is an old one or fits the old rows. */
  lemma BooksStillFit(w: World, w': World)
    requires BooksFit(w) && SameComponents(w.rows, w'.rows)
    requires forall s :: s in w'.calls ==> (s in w.calls && w'.calls[s] == w.calls[s]) || CallFits(w.rows, w'.calls[s])
    requires forall s :: s in w'.refusals ==>
               || (s in w.refusals && w'.refusals[s] == w.refusals[s])
               || (CallFits(w.rows, w'.refusals[s].call) && ReplyRefuses(w'.refusals[s].outcome))
    ensures BooksFit(w')
  {
    hide CallFits, SameComponents, ReplyRefuses;
    forall s | s in w'.calls
      ensures CallFits(w'.rows, w'.calls[s])
    {
      FitsStill(w.rows, w'.rows, w'.calls[s]);
    }
    forall s | s in w'.refusals
      ensures CallFits(w'.rows, w'.refusals[s].call) && ReplyRefuses(w'.refusals[s].outcome)
    {
      FitsStill(w.rows, w'.rows, w'.refusals[s].call);
    }
  }

  lemma ReplyKeepsRows(w: World, call: Call, outcome: PromoteAnswer)
    requires QueueFresh(w.rows) && CallFits(w.rows, call)
    ensures var w' := Replied(w, call, outcome);
            && SameComponents(w.rows, w'.rows) && QueueFresh(w'.rows) && w'.calls == w.calls && w'.refusals == w.refusals
  {
    MergedReply(w.rows[call.index], call.seen, outcome);
    hide Merge, Settled, BundleAfterPromote;
  }

  lemma ReplyWellformed(w: World, session: nat, outcome: PromoteAnswer)
    requires Wellformed(w) && Possible(w, Reply(session, outcome))
    ensures Wellformed(Next(w, Reply(session, outcome)))
  {
    assert CallFits(w.rows, w.calls[session]);
    ReplyKeepsRows(w, w.calls[session], outcome);
    hide Replied, QueueFresh, SameComponents, CallFits, ReplyRefuses;
    BooksStillFit(w, Next(w, Reply(session, outcome)));
    hide BooksFit;
  }

  lemma AdvanceKeepsRows(w: World, result: PassResult, now: int)
    requires QueueFresh(w.rows) && |result.rows| == |w.rows|
    requires (result.claimed.Some? ==> result.claimed.value < |w.rows|) && QueueKept(w.rows, result, now)
    ensures SameComponents(w.rows, result.rows) && QueueFresh(result.rows)
    ensures result.claimed.Some? ==> CallFits(w.rows, ClaimedCall(result))
  {
  }

  lemma AdvanceWellformed(w: World, session: nat, now: int, timeout: int, answers: seq<Answer>)
    requires Wellformed(w) && Possible(w, Advance(session, now, timeout, answers))
    ensures Wellformed(Next(w, Advance(session, now, timeout, answers)))
  {
    if !w.bundle.status.Terminal() {
      PassKeepsQueue(w.rows, w.bundle, 0, now, timeout, answers);
      AdvanceKeepsRows(w, Pass(w.rows, w.bundle, 0, now, timeout, answers), now);
      hide Pass, QueueKept, QueueFresh, SameComponents, CallFits, ClaimedCall;
      BooksStillFit(w, Next(w, Advance(session, now, timeout, answers)));
      hide BooksFit;
    }
  }

  lemma ConcludeKeepsRows(w: World, refusal: Refusal)
    requires QueueFresh(w.rows) && refusal.call.index < |refusal.call.copies| == |w.rows|
    ensures var w' := Concluded(w, refusal);
            && SameComponents(w.rows, w'.rows) && QueueFresh(w'.rows) && w'.calls == w.calls && w'.refusals == w.refusals
  {
    CancelMerged(w.rows, refusal.Held());
    hide CancelHeld, CancelWaiting, Verdict, MergeBundle;
  }

  lemma ConcludeWellformed(w: World, session: nat)
    requires Wellformed(w) && Possible(w, Conclude(session))
    ensures Wellformed(Next(w, Conclude(session)))
  {
    ConcludeKeepsRows(w, w.refusals[session]);
    hide Concluded, QueueFresh, SameComponents, CallFits, ReplyRefuses;
    BooksStillFit(w, Next(w, Conclude(session)));
    hide BooksFit;
  }

  lemma RetryWellformed(w: World, published: bool)
    requires Wellformed(w) && Possible(w, Retry(published))
    ensures Wellformed(Next(w, Retry(published)))
  {
    var w' := Next(w, Retry(published));
    assert SameComponents(w.rows, w'.rows) && QueueFresh(w'.rows);
    hide QueueFresh, SameComponents, ResetUnfinished, CallFits, ReplyRefuses;
    BooksStillFit(w, w');
    hide BooksFit;
  }

  lemma NextWellformed(w: World, step: Step)
    requires Wellformed(w) && Possible(w, step)
    ensures Wellformed(Next(w, step))
  {
    match step
    case Advance(session, now, timeout, answers) =>
      AdvanceWellformed(w, session, now, timeout, answers);
    case Reply(session, outcome) =>
      ReplyWellformed(w, session, outcome);
    case Conclude(session) =>
      ConcludeWellformed(w, session);
    case Crash(session) =>
      hide QueueFresh, CallFits;
    case Retry(published) =>
      RetryWellformed(w, published);
  }

  // ---------------------------------------------------------------- whole runs

  lemma RetryInOrder(w: World, published: bool)
    requires InOrder(w) && RetryAllowed(w.rows, w.bundle, published)
    ensures InOrder(Next(w, Retry(published)))
  {
    var rows := ResetUnfinished(w.rows);
    var k := Front(w.rows);
    hide Front;
    FrontIs(rows, k);
  }

  lemma UnfinishedStepsAreOver(rows: seq<Row>, bundle: Bundle, i: nat)
    requires InOrderAt(rows, bundle, Front(rows)) && bundle.status.Terminal()
    requires i < |rows| && !rows[i].status.Success?
    ensures rows[i].status.Failed? || rows[i].status.Cancelled?
  {
    var k := Front(rows);
    hide Front;
    assert k <= i;
  }

  /** Retrying an orderly bundle resets only failed and cancelled steps. */
  lemma RetryTouchesOnlyFinished(w: World, published: bool, i: nat)
    requires InOrder(w) && RetryAllowed(w.rows, w.bundle, published)
    requires i < |w.rows| && ResetUnfinished(w.rows)[i] != w.rows[i]
    ensures Next(w, Retry(published)).rows == ResetUnfinished(w.rows)
    ensures w.rows[i].status.Failed? || w.rows[i].status.Cancelled?
  {
    hide ResetUnfinished, Reset, Front;
    UnfinishedStepsAreOver(w.rows, w.bundle, i);
  }

  /** Requests and refusals are held as claims in order left them, and an open bundle with steps still in the
      queue carries no verdict. */
  predicate Tidy(w: World) {
    && (forall s :: s in w.calls ==> Shaped(w.calls[s]))
    && (forall s :: s in w.refusals ==> Shaped(w.refusals[s].call))
    && VerdictFree(w.rows, w.bundle)
  }

  predicate VerdictFree(rows: seq<Row>, bundle: Bundle) {
    !bundle.status.Terminal() && (exists i :: 0 <= i < |rows| && rows[i].status.Waiting?) ==>
      bundle.failedStage == None && bundle.errorCode == None
  }

  /** A walk that leaves the bundle open leaves its verdict columns alone; a claim leaves it PROMOTING. */
  lemma {:induction false} PassKeepsVerdictColumns(rows: seq<Row>, bundle: Bundle, i: nat, now: int, timeout: int, answers: seq<Answer>)
    requires i <= |rows| == |answers|
    ensures var result := Pass(rows, bundle, i, now, timeout, answers);
            && (!result.bundle.status.Terminal() ==>
                  result.bundle.failedStage == bundle.failedStage && result.bundle.errorCode == bundle.errorCode)
            && (result.claimed.Some? ==>
                  result.bundle.status == result.bundle.deploymentStatus == BundleStatus.Promoting && result.bundle.stage.Some?)
    decreases |rows| - i
  {
    if i < |rows| {
      if rows[i].status.Success? {
        PassKeepsVerdictColumns(rows, bundle, i + 1, now, timeout, answers);
      } else if rows[i].status.InFlight() {
        var polled := Refreshed(rows[i], now, timeout, answers[i]);
        hide Refreshed, PromoteStage, WaitStage;
        if polled.status.Success? {
          PassKeepsVerdictColumns(rows[i := polled], BundleAfterPoll(bundle, rows[i], polled), i + 1, now, timeout, answers);
        }
      }
    }
  }

  lemma ClaimIsShaped(w: World, result: PassResult, now: int)
    requires |result.rows| == |w.rows| && result.claimed.Some? && result.claimed.value < |w.rows|
    requires QueueKept(w.rows, result, now) && VerdictFree(w.rows, w.bundle) && !w.bundle.status.Terminal()
    requires AllBefore(result.rows, result.claimed.value)
    requires InOrderAt(result.rows, result.bundle, Front(result.rows))
    requires result.bundle.status == result.bundle.deploymentStatus == BundleStatus.Promoting && result.bundle.stage.Some?
    requires result.bundle.failedStage == w.bundle.failedStage && result.bundle.errorCode == w.bundle.errorCode
    ensures Shaped(ClaimedCall(result))
  {
    hide Front;
    assert w.rows[result.claimed.value].status.Waiting?;
    FrontIs(result.rows, result.claimed.value);
  }

  lemma PassTidy(w: World, now: int, timeout: int, answers: seq<Answer>)
    requires InOrder(w) && VerdictFree(w.rows, w.bundle) && |answers| == |w.rows| && !w.bundle.status.Terminal()
    requires var result := Pass(w.rows, w.bundle, 0, now, timeout, answers);
             InOrderAt(result.rows, result.bundle, Front(result.rows))
    ensures var result := Pass(w.rows, w.bundle, 0, now, timeout, answers);
            && VerdictFree(result.rows, result.bundle)
            && (result.claimed.Some? ==> Shaped(ClaimedCall(result)))
  {
    var result := Pass(w.rows, w.bundle, 0, now, timeout, answers);
    PassKeepsVerdictColumns(w.rows, w.bundle, 0, now, timeout, answers);
    PassKeepsQueue(w.rows, w.bundle, 0, now, timeout, answers);
    ClaimFollowsSuccess(w.rows, w.bundle, 0, now, timeout, answers);
    hide Pass, Front, InOrderAt, AllBefore, QueueKept, Shaped;
    if result.claimed.Some? {
      ClaimIsShaped(w, result, now);
    }
    WaitingBefore(w.rows, result, now);
  }

  lemma AdvanceTidy(w: World, step: Step)
    requires InOrder(w) && Tidy(w) && Possible(w, step) && step.Advance?
    requires InOrder(Next(w, step))
    ensures Tidy(Next(w, step))
  {
    if !w.bundle.status.Terminal() {
      PassTidy(w, step.now, step.timeout, step.answers);
      hide Pass, Front, InOrderAt, Shaped, VerdictFree, ClaimedCall;
    }
  }

  lemma WaitingBefore(rows: seq<Row>, result: PassResult, now: int)
    requires |result.rows| == |rows| && (result.claimed.Some? ==> result.claimed.value < |rows|)
    requires QueueKept(rows, result, now)
    ensures (exists i :: 0 <= i < |rows| && result.rows[i].status.Waiting?) ==> exists i :: 0 <= i < |rows| && rows[i].status.Waiting?
  {
  }

  /** A reply queues no step, keeps the verdict columns, and opens no bundle that has steps in the queue. */
  lemma ReplyKeepsVerdictFree(w: World, call: Call, outcome: PromoteAnswer)
    requires InOrder(w) && VerdictFree(w.rows, w.bundle) && CallFits(w.rows, call)
    ensures VerdictFree(Replied(w, call, outcome).rows, Replied(w, call, outcome).bundle)
  {
    var w' := Replied(w, call, outcome);
    MergedReply(w.rows[call.index], call.seen, outcome);
    assert w'.bundle.failedStage == w.bundle.failedStage && w'.bundle.errorCode == w.bundle.errorCode;
    hide Merge, Settled, BundleAfterPromote, Front;
    if i :| 0 <= i < |w'.rows| && w'.rows[i].status.Waiting? {
      assert w.rows[i].status.Waiting?;
      assert !w.bundle.status.Terminal();
    }
  }

  /** Books stay tidy when every entry is an old one or shaped, and the bundle is free of a verdict. */
  lemma BooksStayTidy(w: World, w': World)
    requires Tidy(w) && VerdictFree(w'.rows, w'.bundle)
    requires forall s :: s in w'.calls ==> (s in w.calls && w'.calls[s] == w.calls[s]) || Shaped(w'.calls[s])
    requires forall s :: s in w'.refusals ==>
               (s in w.refusals && w'.refusals[s] == w.refusals[s]) || Shaped(w'.refusals[s].call)
    ensures Tidy(w')
  {
    hide Shaped, VerdictFree;
  }

  lemma ReplyTidy(w: World, session: nat, outcome: PromoteAnswer)
    requires Wellformed(w) && InOrder(w) && Tidy(w) && Possible(w, Reply(session, outcome))
    ensures Tidy(Next(w, Reply(session, outcome)))
  {
    assert CallFits(w.rows, w.calls[session]) && Shaped(w.calls[session]);
    ReplyKeepsVerdictFree(w, w.calls[session], outcome);
    ReplyKeepsRows(w, w.calls[session], outcome);
    hide Replied, InOrder, Wellformed, Tidy, Shaped, VerdictFree, CallFits, SameComponents, QueueFresh, ReplyRefuses;
    BooksStayTidy(w, Next(w, Reply(session, outcome)));
  }

  lemma ConcludedIsVerdictFree(w: World, refusal: Refusal)
    requires Shaped(refusal.call) && |refusal.call.copies| == |w.rows| && ReplyRefuses(refusal.outcome)
    ensures VerdictFree(Concluded(w, refusal).rows, Concluded(w, refusal).bundle)
  {
    ConcludedBundle(w, refusal);
    hide Concluded, Shaped, ReplyRefuses;
  }

  lemma ConcludeTidy(w: World, session: nat)
    requires Wellformed(w) && Tidy(w) && Possible(w, Conclude(session))
    ensures Tidy(Next(w, Conclude(session)))
  {
    var refusal := w.refusals[session];
    assert CallFits(w.rows, refusal.call) && ReplyRefuses(refusal.outcome) && Shaped(refusal.call);
    ConcludedIsVerdictFree(w, refusal);
    ConcludeKeepsRows(w, refusal);
    hide Concluded, Shaped, VerdictFree, Wellformed, Tidy, SameComponents, QueueFresh, CallFits, ReplyRefuses;
    BooksStayTidy(w, Next(w, Conclude(session)));
  }

  lemma CrashTidy(w: World, session: nat)
    requires Tidy(w)
    ensures Tidy(Next(w, Crash(session)))
  {
    hide Shaped, VerdictFree;
  }

  lemma RetryTidy(w: World, published: bool)
    requires Tidy(w) && Possible(w, Retry(published))
    ensures Tidy(Next(w, Retry(published)))
  {
    hide Shaped;
  }

  /** An orderly step leaves the books tidy. */
  lemma StepTidy(w: World, step: Step)
    requires Wellformed(w) && InOrder(w) && Tidy(w) && Possible(w, step)
    requires InOrder(Next(w, step))
    ensures Tidy(Next(w, step))
  {
    hide Tidy, Wellformed, InOrder, Next, Possible;
    match step
    case Advance(_, _, _, _) =>
      AdvanceTidy(w, step);
    case Reply(session, outcome) =>
      ReplyTidy(w, session, outcome);
    case Conclude(session) =>
      ConcludeTidy(w, session);
    case Crash(session) =>
      CrashTidy(w, session);
    case Retry(published) =>
      RetryTidy(w, published);
  }

  lemma StepInOrderIff(w: World, step: Step)
    requires Wellformed(w) && Tidy(w) && InOrder(w) && Possible(w, step)
    ensures InOrder(Next(w, step)) <==> StepInTurn(w, step)
  {
    match step
    case Advance(session, now, timeout, answers) =>
      if !w.bundle.status.Terminal() {
        var k := Front(w.rows);
        PassFrom(w.rows, w.bundle, 0, k, now, timeout, answers);
        PassAtFrontInOrder(w.rows, w.bundle, k, now, timeout, answers);
      }
    case Reply(session, outcome) =>
      ReplyInOrderIff(w, w.calls[session], outcome);
    case Conclude(session) =>
      ConcludeInOrderIff(w, w.refusals[session]);
    case Crash(_) =>
    case Retry(published) =>
      RetryInOrder(w, published);
  }

  /** What a step in turn leaves. */
  lemma StepInTurnKeeps(w: World, step: Step)
    requires Wellformed(w) && Tidy(w) && InOrder(w) && Possible(w, step) && StepInTurn(w, step)
    ensures Wellformed(Next(w, step)) && Tidy(Next(w, step)) && InOrder(Next(w, step))
  {
    hide Wellformed, Tidy, InOrder, Next, Possible, StepInTurn;
    StepInOrderIff(w, step);
    NextWellformed(w, step);
    StepTidy(w, step);
  }

  predicate PossibleRun(w: World, steps: seq<Step>)
    decreases |steps|
  {
    steps == [] || (Possible(w, steps[0]) && PossibleRun(Next(w, steps[0]), steps[1..]))
  }

  function RunTo(w: World, steps: seq<Step>): World
    requires PossibleRun(w, steps)
    decreases |steps|
  {
    if steps == [] then w else RunTo(Next(w, steps[0]), steps[1..])
  }

  predicate AlwaysInOrder(w: World, steps: seq<Step>)
    requires PossibleRun(w, steps)
    decreases |steps|
  {
    InOrder(w) && (steps == [] || AlwaysInOrder(Next(w, steps[0]), steps[1..]))
  }

  predicate AlwaysInTurn(w: World, steps: seq<Step>)
    requires PossibleRun(w, steps)
    decreases |steps|
  {
    steps == [] || (StepInTurn(w, steps[0]) && AlwaysInTurn(Next(w, steps[0]), steps[1..]))
  }

  /** In every committed state of a run, crashes and retries included, the bundle is in order if and only
      if every reply in the run came in turn and every verdict from old copies found its refusal standing. */
  lemma {:induction false} OrderedReleaseIff(w: World, steps: seq<Step>)
    requires Wellformed(w) && Tidy(w) && InOrder(w) && PossibleRun(w, steps)
    ensures AlwaysInOrder(w, steps) <==> AlwaysInTurn(w, steps)
    decreases |steps|
  {
    if steps != [] {
      hide Next, StepInTurn, InOrder, Wellformed, Tidy;
      StepInOrderIff(w, steps[0]);
      NextWellformed(w, steps[0]);
      if InOrder(Next(w, steps[0])) {
        StepTidy(w, steps[0]);
        OrderedReleaseIff(Next(w, steps[0]), steps[1..]);
      }
    }
  }

  // ---------------------------------------------------------------- what a caller could check

  /** A reply that still finds its row PROMOTING comes in turn in every orderly state. */
  lemma PromotingReplyIsInTurn(w: World, session: nat, outcome: PromoteAnswer)
    requires InOrder(w) && Possible(w, Reply(session, outcome))
    requires w.rows[w.calls[session].index].status == Status.Promoting
    ensures StepInTurn(w, Reply(session, outcome))
  {
    AtWorkIsFront(w.rows, w.bundle, w.calls[session].index);
    hide Front;
  }

  /** A verdict whose own step still shows the refusal, behind steps that all succeeded, stands. */
  lemma OwnRefusalStands(w: World, session: nat)
    requires Wellformed(w) && Possible(w, Conclude(session))
    requires var refusal := w.refusals[session];
             var i := refusal.call.index;
             && AllBefore(w.rows, i) && w.rows[i].status.Failed?
             && w.rows[i].failedStage == refusal.Failed().failedStage && w.rows[i].errorCode == refusal.Failed().errorCode
    ensures StepInTurn(w, Conclude(session))
  {
    FrontIs(w.rows, w.refusals[session].call.index);
  }

  /** The guards the code could have: write a reply only over a row that is still PROMOTING, and a verdict
      only while the refused step still shows the refusal behind steps that all succeeded. */
  predicate Guarded(w: World, step: Step)
    requires Possible(w, step)
  {
    match step
    case Reply(session, _) =>
      w.calls[session].index < |w.rows| && w.rows[w.calls[session].index].status == Status.Promoting
    case Conclude(session) =>
      var refusal := w.refusals[session];
      var i := refusal.call.index;
      && i < |w.rows| && AllBefore(w.rows, i) && w.rows[i].status.Failed?
      && w.rows[i].failedStage == refusal.Failed().failedStage && w.rows[i].errorCode == refusal.Failed().errorCode
    case _ => true
  }

  predicate AlwaysGuarded(w: World, steps: seq<Step>)
    requires PossibleRun(w, steps)
    decreases |steps|
  {
    steps == [] || (Guarded(w, steps[0]) && AlwaysGuarded(Next(w, steps[0]), steps[1..]))
  }

  /** With those guards every run is in order throughout. */
  lemma {:induction false} GuardedReleaseIsOrdered(w: World, steps: seq<Step>)
    requires Wellformed(w) && Tidy(w) && InOrder(w) && PossibleRun(w, steps) && AlwaysGuarded(w, steps)
    ensures AlwaysInOrder(w, steps)
    decreases |steps|
  {
    if steps != [] {
      if steps[0].Reply? {
        PromotingReplyIsInTurn(w, steps[0].session, steps[0].outcome);
      } else if steps[0].Conclude? {
        OwnRefusalStands(w, steps[0].session);
      }
      hide Next, InOrder, Wellformed, Tidy, Guarded, ReplyInTurn, RefusalStands;
      StepInOrderIff(w, steps[0]);
      NextWellformed(w, steps[0]);
      StepTidy(w, steps[0]);
      GuardedReleaseIsOrdered(Next(w, steps[0]), steps[1..]);
    }
  }

  lemma {:induction false} PassKeepsSuccess(rows: seq<Row>, bundle: Bundle, i: nat, j: nat, now: int, timeout: int, answers: seq<Answer>)
    requires i <= |rows| == |answers| && j < |rows| && rows[j].status.Success?
    ensures Pass(rows, bundle, i, now, timeout, answers).rows[j] == rows[j]
    decreases |rows| - i
  {
    if i < |rows| {
      if rows[i].status.Success? {
        PassKeepsSuccess(rows, bundle, i + 1, j, now, timeout, answers);
      } else if rows[i].status.InFlight() {
        var polled := Refreshed(rows[i], now, timeout, answers[i]);
        hide Refreshed, BundleAfterPoll, Verdict;
        if polled.status.Success? {
          PassKeepsSuccess(rows[i := polled], BundleAfterPoll(bundle, rows[i], polled), i + 1, j, now, timeout, answers);
        }
      } else {
        hide Verdict, Claimed;
      }
    }
  }

  /** Exactly what takes a step out of SUCCESS, in any state: a known reply to a request for it, or a verdict
      from copies that still hold it as waiting. */
  lemma SuccessStaysIff(w: World, step: Step, j: nat)
    requires Wellformed(w) && Possible(w, step) && j < |w.rows| && w.rows[j].status.Success?
    ensures Next(w, step).rows[j].status.Success? <==>
            match step
            case Reply(session, outcome) => w.calls[session].index != j || ReplyUnknown(outcome)
            case Conclude(session) => !w.refusals[session].Held()[j].status.Waiting?
            case _ => true
  {
    match step
    case Advance(session, now, timeout, answers) =>
      PassKeepsSuccess(w.rows, w.bundle, 0, j, now, timeout, answers);
      hide Pass;
    case Reply(session, outcome) =>
      MergedReply(w.rows[w.calls[session].index], w.calls[session].seen, outcome);
      hide Merge, Settled;
    case Conclude(session) =>
      CancelMerged(w.rows, w.refusals[session].Held());
      hide Merge, Settled, CancelHeld, CancelWaiting, Verdict, MergeBundle;
    case Crash(_) =>
    case Retry(_) =>
  }

  /** Exactly what reopens or overturns an orderly finished success: a reply that reports a creation, or a
      verdict from old copies. */
  lemma FinishedSuccessStaysIff(w: World, step: Step)
    requires Wellformed(w) && Tidy(w) && InOrder(w) && Possible(w, step) && w.bundle.status.Success?
    ensures Next(w, step).bundle.status.Success? <==>
            match step
            case Reply(_, outcome) => !ReplyCreates(outcome)
            case Conclude(_) => false
            case _ => true
  {
    hide Pass, Front, Merge;
    if step.Conclude? {
      ConcludedBundle(w, w.refusals[step.session]);
      hide Concluded;
    }
  }

  /** A bundle as `create_bundle` commits it. */
  predicate JustCreated(w: World) {
    && w.bundle == NEW_BUNDLE
    && w.calls == map[] && w.refusals == map[]
    && w.rows != []
    && forall i :: 0 <= i < |w.rows| ==>
         && w.rows[i].status.Waiting? && w.rows[i].promotion == None
         && w.rows[i].errorCode == None && w.rows[i].failedStage == None
  }

  lemma CreatedInOrder(w: World)
    requires JustCreated(w)
    ensures Wellformed(w) && Tidy(w) && InOrder(w)
  {
    FrontIs(w.rows, 0);
  }

  // ---------------------------------------------------------------- what a finished bundle says

  /** When an orderly bundle is over its status is decided by its steps, nothing is left in the queue, and
      stage and error are those of its only failed step. */
  lemma FinishedBundleMeans(w: World)
    requires InOrder(w) && w.bundle.status.Terminal()
    ensures w.bundle.deploymentStatus == w.bundle.status
    ensures w.bundle.status.Success? <==> forall i :: 0 <= i < |w.rows| ==> w.rows[i].status.Success?
    ensures w.bundle.status.PartialFailure? <==>
              && (exists i :: 0 <= i < |w.rows| && w.rows[i].status.Failed?)
              && (exists i :: 0 <= i < |w.rows| && w.rows[i].status.Success?)
    ensures w.bundle.status.Failed? <==>
              && (exists i :: 0 <= i < |w.rows| && w.rows[i].status.Failed?)
              && (forall i :: 0 <= i < |w.rows| ==> !w.rows[i].status.Success?)
    ensures forall i :: 0 <= i < |w.rows| ==> !w.rows[i].status.Waiting? && !w.rows[i].status.InFlight()
    ensures forall i, j :: 0 <= i < j < |w.rows| ==> !(w.rows[i].status.Failed? && w.rows[j].status.Failed?)
    ensures forall i :: 0 <= i < |w.rows| && w.rows[i].status.Failed? ==>
              w.bundle.failedStage == w.rows[i].failedStage && w.bundle.errorCode == w.rows[i].errorCode
  {
    var k := Front(w.rows);
    if k < |w.rows| {
      assert w.rows[k].status.Failed?;
      assert forall i :: 0 <= i < |w.rows| && i != k ==> w.rows[i].status.Success? || w.rows[i].status.Cancelled?;
      if k > 0 {
        assert w.rows[0].status.Success?;
      }
    }
  }
}
