/** One uninterrupted walk of a bundle, as the orchestrator makes it and as the rescanning use case does.

    Both are given as functions; `Orchestrator` proves the two loops against them. */
module Walks {
  import opened Base
  import opened Drone
  import opened Rows
  import opened Bundles

  /** Everything outside the database that a walk may consult: the clock, and for each step what polling
      it or promoting it would answer. */
  datatype Surroundings = Surroundings(now: int, timeout: int, polls: seq<Answer>, promotes: seq<PromoteAnswer>) {
    predicate Covers(rows: seq<Row>) {
      |polls| == |rows| == |promotes|
    }
  }

  datatype WalkResult = WalkResult(rows: seq<Row>, bundle: Bundle)

  function Stopped(rows: seq<Row>, bundle: Bundle, failed: Row): WalkResult {
    WalkResult(CancelWaiting(rows), Verdict(CancelWaiting(rows), bundle, failed))
  }

  /** The single walk of `_advance`, from step i on. */
  function Walk(rows: seq<Row>, bundle: Bundle, i: nat, env: Surroundings): (result: WalkResult)
    requires i <= |rows| && env.Covers(rows)
    ensures |result.rows| == |rows|
    decreases |rows| - i
  {
    if i == |rows| then WalkResult(rows, FinishSuccess(bundle))
    else
      match rows[i].status
      case Success => Walk(rows, bundle, i + 1, env)
      case Failed => Stopped(rows, bundle, rows[i])
      case Cancelled => WalkResult(rows, bundle)
      case Waiting =>
        var claimed := Claimed(rows[i], env.now);
        var promoted := Settled(claimed, env.promotes[i]);
        var bundle' := BundleAfterPromote(Mirrored(bundle, BundleStatus.Promoting, PromoteStage(rows[i].component)),
                                          rows[i], env.promotes[i]);
        if promoted.status.Failed? then Stopped(rows[i := promoted], bundle', promoted)
        else WalkResult(rows[i := promoted], bundle')
      case _ =>
        var polled := Refreshed(rows[i], env.now, env.timeout, env.polls[i]);
        var bundle' := BundleAfterPoll(bundle, rows[i], polled);
        if polled.status.Failed? then Stopped(rows[i := polled], bundle', polled)
        else if polled.status.Success? then Walk(rows[i := polled], bundle', i + 1, env)
        else WalkResult(rows[i := polled], bundle')
  }

  /** An uninterrupted walk is a pass followed by the outcome of the request it claimed. */
  lemma {:induction false} WalkIsPassThenReply(rows: seq<Row>, bundle: Bundle, i: nat, env: Surroundings)
    requires i <= |rows| && env.Covers(rows)
    ensures var pass := Pass(rows, bundle, i, env.now, env.timeout, env.polls);
            Walk(rows, bundle, i, env) ==
            if pass.claimed == None then WalkResult(pass.rows, pass.bundle)
            else
              var c := pass.claimed.value;
              var settled := Settled(pass.rows[c], env.promotes[c]);
              var after := BundleAfterPromote(pass.bundle, pass.rows[c], env.promotes[c]);
              if settled.status.Failed? then Stopped(pass.rows[c := settled], after, settled)
              else WalkResult(pass.rows[c := settled], after)
    decreases |rows| - i
  {
    if i < |rows| {
      if rows[i].status.Success? {
        WalkIsPassThenReply(rows, bundle, i + 1, env);
      } else if rows[i].status.InFlight() {
        var polled := Refreshed(rows[i], env.now, env.timeout, env.polls[i]);
        if polled.status.Success? {
          WalkIsPassThenReply(rows[i := polled], BundleAfterPoll(bundle, rows[i], polled), i + 1, env);
        }
        hide Refreshed, Settled;
      } else if rows[i].status.Waiting? {
        hide Refreshed, Settled, Claimed, Stopped;
        var claimed, settled := Claimed(rows[i], env.now), Settled(Claimed(rows[i], env.now), env.promotes[i]);
        assert Pass(rows, bundle, i, env.now, env.timeout, env.polls).rows == rows[i := claimed];
        assert rows[i := claimed][i := settled] == rows[i := settled];
      } else {
        hide Refreshed, Settled;
      }
    }
  }

  /** With nobody else at work the verdict a session commits after a refusal, from its own copies, is the one
      the uninterrupted walk ends with. */
  lemma UndisturbedConclusion(w: World, refusal: Refusal)
    requires refusal.call.index < |refusal.call.copies| && w.rows == refusal.Held() && w.bundle == refusal.call.bundle
    ensures WalkResult(Concluded(w, refusal).rows, Concluded(w, refusal).bundle) == Stopped(w.rows, w.bundle, refusal.Failed())
  {
    forall j | 0 <= j < |w.rows| && w.rows[j].status.Waiting?
      ensures CancelHeld(w.rows, w.rows)[j] == CancelledRow(w.rows[j])
    {
      MergeOfFreshCopy(w.rows[j], CancelledRow(w.rows[j]));
    }
    hide Merge, CancelledRow, Settled;
    assert CancelHeld(w.rows, w.rows) == CancelWaiting(w.rows);
  }

  // ---------------------------------------------------------------- the rescanning use case

  /** Its poll takes Drone's word for success: no required stages are looked at. */
  function RescanJudged(row: Row, at: string, build: Build): (r: Row)
    ensures Follows(row, r)
  {
    var noted := Noted(PollCleared(row, at), Event(DroneStatusChanged, at, DroneText(build.status), None));
    if build.status in RUNNING then noted.(status := Status.Deploying)
    else if build.status == "success" then Succeeded(noted)
    else FailedWith(noted, at, if build.status == "killed" then DroneBuildKilled else DroneBuildFailed)
  }

  function RescanRefreshed(row: Row, now: int, timeout: int, answer: Answer): (r: Row)
    ensures Follows(row, r)
  {
    if row.status.Terminal() then row
    else
      var at := ActiveStage(row);
      if TimedOut(row, now, timeout) then FailedWith(row, at, WorkflowTimeout)
      else if row.promotion == None then Reconciled(row, at, answer.listing)
      else
        match answer.poll
        case Unreachable(code) => PollFailed(row, at, code)
        case Found(build) => RescanJudged(row, at, build)
  }

  /** Its promote asks neither the CI guard nor the plan guard. */
  function RescanSettled(row: Row, reply: Reply): (r: Row)
    ensures Follows(row, r)
  {
    Settled(row, PromoteAnswer(true, true, reply))
  }

  function RescanWalk(rows: seq<Row>, bundle: Bundle, i: nat, env: Surroundings): (result: WalkResult)
    requires i <= |rows| && env.Covers(rows)
    ensures |result.rows| == |rows|
    decreases |rows| - i
  {
    if i == |rows| then WalkResult(rows, FinishSuccess(bundle))
    else
      match rows[i].status
      case Success => RescanWalk(rows, bundle, i + 1, env)
      case Failed => Stopped(rows, bundle, rows[i])
      case Cancelled => WalkResult(rows, bundle)
      case Waiting =>
        var promoted := RescanSettled(Claimed(rows[i], env.now), env.promotes[i].reply);
        var bundle' := BundleAfterPromote(Mirrored(bundle, BundleStatus.Promoting, PromoteStage(rows[i].component)),
                                          rows[i], PromoteAnswer(true, true, env.promotes[i].reply));
        if promoted.status.Failed? then Stopped(rows[i := promoted], bundle', promoted)
        else WalkResult(rows[i := promoted], bundle')
      case _ =>
        var polled := RescanRefreshed(rows[i], env.now, env.timeout, env.polls[i]);
        var bundle' := BundleAfterPoll(bundle, rows[i], polled);
        if polled.status.Failed? then Stopped(rows[i := polled], bundle', polled)
        else if polled.status.Success? then RescanWalk(rows[i := polled], bundle', i + 1, env)
        else WalkResult(rows[i := polled], bundle')
  }

  // ---------------------------------------------------------------- when the two agree

  /** Drone reports this step's promotion as successful, and the poll gets as far as hearing it. */
  predicate ReportedSuccess(row: Row, env: Surroundings, answer: Answer) {
    && row.status.InFlight() && !TimedOut(row, env.now, env.timeout) && row.promotion.Some?
    && answer.poll.Found? && answer.poll.build.status == "success"
  }

  /** Along the steps this walk actually reaches: whatever is promoted passes both guards, and whatever
      Drone reports as successful shows the stages it was required to. */
  predicate NoGuardBites(rows: seq<Row>, bundle: Bundle, i: nat, env: Surroundings)
    requires i <= |rows| && env.Covers(rows)
    decreases |rows| - i
  {
    i < |rows| ==>
      match rows[i].status
      case Success => NoGuardBites(rows, bundle, i + 1, env)
      case Failed => true
      case Cancelled => true
      case Waiting => env.promotes[i].ciAllowed && env.promotes[i].planHolds
      case _ =>
        && (ReportedSuccess(rows[i], env, env.polls[i]) ==> VerifiedSuccess(rows[i], env.polls[i].poll.build))
        && var polled := Refreshed(rows[i], env.now, env.timeout, env.polls[i]);
           (polled.status.Success? ==> NoGuardBites(rows[i := polled], BundleAfterPoll(bundle, rows[i], polled), i + 1, env))
  }

  lemma PollsAgreeIff(row: Row, env: Surroundings, answer: Answer)
    requires row.status.InFlight()
    ensures var single, rescan := Refreshed(row, env.now, env.timeout, answer), RescanRefreshed(row, env.now, env.timeout, answer);
            var verified := ReportedSuccess(row, env, answer) ==> VerifiedSuccess(row, answer.poll.build);
            && (verified ==> single == rescan)
            && (!verified ==> single.status.Failed? && rescan.status.Success?)
            && !rescan.status.Waiting?
  {
  }

  lemma PromotesAgreeIff(claimed: Row, answer: PromoteAnswer)
    requires claimed.status == Status.Promoting
    ensures var single, rescan := Settled(claimed, answer), RescanSettled(claimed, answer.reply);
            && ((answer.ciAllowed && answer.planHolds) <==> single == rescan)
            && (!(answer.ciAllowed && answer.planHolds) ==>
                  single.status.Failed? && single.errorCode.Some?
                  && (rescan.status != single.status || rescan.errorCode != single.errorCode))
            && !single.status.Waiting? && !rescan.status.Waiting?
  {
  }

  /** Walking on leaves the steps already passed alone. */
  lemma {:induction false} RescanKeepsPassedSteps(rows: seq<Row>, bundle: Bundle, i: nat, j: nat, env: Surroundings)
    requires j < i <= |rows| && env.Covers(rows) && !rows[j].status.Waiting?
    ensures RescanWalk(rows, bundle, i, env).rows[j] == rows[j]
    decreases |rows| - i
  {
    if i < |rows| {
      if rows[i].status.Success? {
        RescanKeepsPassedSteps(rows, bundle, i + 1, j, env);
      } else if rows[i].status.InFlight() {
        var polled := RescanRefreshed(rows[i], env.now, env.timeout, env.polls[i]);
        hide RescanRefreshed, BundleAfterPoll;
        if polled.status.Success? {
          RescanKeepsPassedSteps(rows[i := polled], BundleAfterPoll(bundle, rows[i], polled), i + 1, j, env);
        }
      } else {
        hide RescanSettled, BundleAfterPromote;
      }
    }
  }

  /** The rescanning walk refines the single walk exactly when no guard that it lacks would have bitten:
      same rows, same events, same bundle verdict for all answers of Drone, and otherwise different. */
  lemma {:induction false} RescanRefinesIff(rows: seq<Row>, bundle: Bundle, i: nat, env: Surroundings)
    requires i <= |rows| && env.Covers(rows)
    ensures Walk(rows, bundle, i, env) == RescanWalk(rows, bundle, i, env) <==> NoGuardBites(rows, bundle, i, env)
    decreases |rows| - i
  {
    if i < |rows| {
      if rows[i].status.Success? {
        RescanRefinesIff(rows, bundle, i + 1, env);
      } else if rows[i].status.Waiting? {
        PromoteRefinesIff(rows, bundle, i, env);
      } else if rows[i].status.InFlight() {
        var polled := Refreshed(rows[i], env.now, env.timeout, env.polls[i]);
        if polled.status.Success? {
          RescanRefinesIff(rows[i := polled], BundleAfterPoll(bundle, rows[i], polled), i + 1, env);
        }
        PollRefinesIff(rows, bundle, i, env);
      }
    }
  }

  lemma PromoteRefinesIff(rows: seq<Row>, bundle: Bundle, i: nat, env: Surroundings)
    requires i < |rows| && env.Covers(rows) && rows[i].status.Waiting?
    ensures Walk(rows, bundle, i, env) == RescanWalk(rows, bundle, i, env) <==> NoGuardBites(rows, bundle, i, env)
  {
    var single := Settled(Claimed(rows[i], env.now), env.promotes[i]);
    var rescan := RescanSettled(Claimed(rows[i], env.now), env.promotes[i].reply);
    PromotesAgreeIff(Claimed(rows[i], env.now), env.promotes[i]);
    hide Settled, RescanSettled, Claimed;
    assert Walk(rows, bundle, i, env).rows[i] == single;
    assert RescanWalk(rows, bundle, i, env).rows[i] == rescan;
  }

  lemma PollRefinesIff(rows: seq<Row>, bundle: Bundle, i: nat, env: Surroundings)
    requires i < |rows| && env.Covers(rows) && rows[i].status.InFlight()
    requires var polled := Refreshed(rows[i], env.now, env.timeout, env.polls[i]);
             var rows', bundle' := rows[i := polled], BundleAfterPoll(bundle, rows[i], polled);
             polled.status.Success? ==>
               (Walk(rows', bundle', i + 1, env) == RescanWalk(rows', bundle', i + 1, env) <==> NoGuardBites(rows', bundle', i + 1, env))
    ensures Walk(rows, bundle, i, env) == RescanWalk(rows, bundle, i, env) <==> NoGuardBites(rows, bundle, i, env)
  {
    var single := Refreshed(rows[i], env.now, env.timeout, env.polls[i]);
    var rescan := RescanRefreshed(rows[i], env.now, env.timeout, env.polls[i]);
    PollsAgreeIff(rows[i], env, env.polls[i]);
    if rescan.status.Success? {
      RescanKeepsPassedSteps(rows[i := rescan], BundleAfterPoll(bundle, rows[i], rescan), i + 1, i, env);
    }
    hide Refreshed, RescanRefreshed, BundleAfterPoll, ReportedSuccess, VerifiedSuccess;
    if single != rescan {
      assert Walk(rows, bundle, i, env).rows[i] == single;
      assert RescanWalk(rows, bundle, i, env).rows[i] == rescan;
    }
  }
}
