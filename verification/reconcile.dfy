/** A promote request whose reply never came back, and the polls that resolve it. */
module Reconciliation {
  import opened Base
  import opened Drone
  import opened Rows

  /** How a session loses the reply of a request that is on its way to Drone. */
  datatype Loss = ReplyLost(error: DroneError) | ProcessDied

  datatype Visit = Visit(now: int, answer: Answer)

  /** A row just claimed for a fresh attempt. */
  predicate FreshlyClaimed(row: Row) {
    && row.status == Status.Promoting
    && row.stage == Some(PromoteStage(row.component))
    && row.promotion == None && row.pollCode == None && row.pollCount == 0
    && row.startedAt.Some?
  }

  /** Every claim, of a new row or of a retried one, starts an attempt in that state. */
  lemma EveryAttemptStartsFresh(row: Row, component: string, slot: Slot, commit: string, branch: string, requestedBy: string,
                                required: Option<seq<string>>, log: seq<Event>, now: int)
    ensures FreshlyClaimed(Claimed(NewRow(component, slot, commit, branch, requestedBy, required, log), now))
    ensures FreshlyClaimed(Claimed(Reset(row), now))
  {
  }

  function Lost(row: Row, loss: Loss): Row {
    match loss
    case ReplyLost(error) => Unconfirmed(row, PromoteStage(row.component), error)
    case ProcessDied => row
  }

  /** A poll inside the timeout that does not see any promotion of this build. */
  predicate Blind(row: Row, visit: Visit, timeout: int) {
    && !TimedOut(row, visit.now, timeout)
    && (visit.answer.listing.Listed? ==>
          FindPromotionBuild(visit.answer.listing.builds, row.slot.source, row.slot.target) == None)
  }

  /** A poll inside the timeout that lists the attempt's own build, newest of its kind: numbers grow,
      and nobody else promotes this build to this target. */
  predicate Sees(row: Row, visit: Visit, timeout: int, own: Build) {
    && !TimedOut(row, visit.now, timeout)
    && visit.answer.listing.Listed?
    && own in visit.answer.listing.builds
    && own.IsPromotionOf(row.slot.source, row.slot.target)
    && forall b :: b in visit.answer.listing.builds && b.IsPromotionOf(row.slot.source, row.slot.target) && b != own
                   ==> b.number < own.number
  }

  function Visited(row: Row, visits: seq<Visit>, timeout: int): Row
    decreases |visits|
  {
    if visits == [] then row
    else Visited(Refreshed(row, visits[0].now, timeout, visits[0].answer), visits[1..], timeout)
  }

  function WithoutLog(row: Row): Row {
    row.(log := [])
  }

  /** Everything a blind poll may touch: the poll bookkeeping and the log. */
  predicate SameAttempt(a: Row, b: Row) {
    WithoutLog(a).(pollCode := None, pollCount := 0) == WithoutLog(b).(pollCode := None, pollCount := 0)
  }

  /** No error is pending exactly when no failure is counted. */
  predicate PollBooksBalance(row: Row) {
    row.pollCode == None ==> row.pollCount == 0
  }

  lemma {:induction false} BlindPollsChangeNothing(row: Row, claimed: Row, visits: seq<Visit>, timeout: int)
    requires FreshlyClaimed(claimed) && SameAttempt(row, claimed) && PollBooksBalance(row)
    requires forall v :: v in visits ==> Blind(claimed, v, timeout)
    ensures SameAttempt(Visited(row, visits, timeout), claimed)
    ensures PollBooksBalance(Visited(row, visits, timeout))
    decreases |visits|
  {
    if visits != [] {
      var next := Refreshed(row, visits[0].now, timeout, visits[0].answer);
      assert Blind(claimed, visits[0], timeout);
      assert SameAttempt(next, claimed);
      BlindPollsChangeNothing(next, claimed, visits[1..], timeout);
    }
  }

  /** If the request reached Drone and only its reply was lost, then after any number of polls that
      see nothing, the first poll that sees the build leaves the row, poll bookkeeping included, and the
      bundle exactly as the reply would have. */
  lemma LostReplyIsHarmless(claimed: Row, bundle: Bundle, loss: Loss, visits: seq<Visit>, last: Visit, timeout: int, own: Build)
    requires FreshlyClaimed(claimed)
    requires loss.ReplyLost? ==> loss.error.Unconfirmed()
    requires forall v :: v in visits ==> Blind(claimed, v, timeout)
    requires Sees(claimed, last, timeout, own)
    ensures var before := Visited(Lost(claimed, loss), visits, timeout);
            var after := Refreshed(before, last.now, timeout, last.answer);
            var replied := PromoteAnswer(true, true, Created(own.number));
            && WithoutLog(after) == WithoutLog(Settled(claimed, replied))
            && BundleAfterPoll(bundle, before, after) == BundleAfterPromote(bundle, claimed, replied)
  {
    var before := Visited(Lost(claimed, loss), visits, timeout);
    BlindPollsChangeNothing(Lost(claimed, loss), claimed, visits, timeout);
    OwnBuildIsFound(claimed, last, timeout, own);
    assert ActiveStage(before) == PromoteStage(claimed.component);
    assert Refreshed(before, last.now, timeout, last.answer) == Reconciled(before, ActiveStage(before), last.answer.listing);
  }

  lemma OwnBuildIsFound(row: Row, visit: Visit, timeout: int, own: Build)
    requires Sees(row, visit, timeout, own)
    ensures FindPromotionBuild(visit.answer.listing.builds, row.slot.source, row.slot.target) == Some(own)
  {
    var found := FindPromotionBuild(visit.answer.listing.builds, row.slot.source, row.slot.target);
    assert found.Some?;
  }

  /** What one poll of an unconfirmed promotion can conclude, exactly: it is adopted if and only if the
      timeout has not passed and a promotion of this build to this target is listed, and then the newest
      listed one is adopted, whichever attempt created it. */
  lemma PollResolvesTo(row: Row, now: int, timeout: int, answer: Answer)
    requires row.status == Status.Promoting && row.promotion == None
    ensures var after := Refreshed(row, now, timeout, answer);
            && (after.promotion.Some? <==>
                  && !TimedOut(row, now, timeout)
                  && answer.listing.Listed?
                  && exists b :: b in answer.listing.builds && b.IsPromotionOf(row.slot.source, row.slot.target))
            && (after.promotion.Some? ==>
                  && after.status == Status.Deploying
                  && (exists b :: b in answer.listing.builds && b.IsPromotionOf(row.slot.source, row.slot.target)
                                  && after.promotion == Some(b.number))
                  && (forall b :: b in answer.listing.builds && b.IsPromotionOf(row.slot.source, row.slot.target)
                                  ==> b.number <= after.promotion.value))
  {
  }

  /** The premise that the request reached Drone is needed: a retried attempt whose request was lost on
      the way adopts the build of the failed attempt before it. */
  lemma UnsentRequestAdoptsOlderBuild(claimed: Row, now: int, timeout: int, older: Build)
    requires FreshlyClaimed(claimed) && !TimedOut(claimed, now, timeout)
    requires older.IsPromotionOf(claimed.slot.source, claimed.slot.target)
    ensures Refreshed(Lost(claimed, ProcessDied), now, timeout, Answer(Unreachable(DroneUnavailable), Listed([older]))).promotion
            == Some(older.number)
  {
    var found := FindPromotionBuild([older], claimed.slot.source, claimed.slot.target);
    assert older in [older] && found.Some?;
  }

  /** A refused promotion gives its slot back, an unconfirmed one keeps it; the division is by error code alone. */
  lemma SlotKeptIffUnconfirmed(claimed: Row, error: DroneError)
    requires claimed.status == Status.Promoting
    ensures Settled(claimed, PromoteAnswer(true, true, Raised(error))).status.Active() <==> error.Unconfirmed()
    ensures error.Unconfirmed() <==> error.TimedOutCall? || error.ConnectionLost? || error.UnexpectedResponse?
  {
  }
}
