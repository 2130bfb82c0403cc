/** Runs of a two-step bundle, from its creation, in which a reply or a verdict comes too late; and what a
    retry then does to the promotion slot. */
module Races {
  import opened Base
  import opened Drone
  import opened Rows
  import opened Bundles
  import S = StaleWalks
  import T = PromotionTable

  /** A step as it is created. */
  predicate Queued(row: Row) {
    && row.status.Waiting? && row.promotion == None && row.startedAt == None && row.required == None
    && row.errorCode == None && row.failedStage == None
  }

  function Opened(first: Row, second: Row): World {
    World([first, second], NEW_BUNDLE, map[], map[])
  }

  lemma CreatedIsJustCreated(first: Row, second: Row)
    requires Queued(first) && Queued(second)
    ensures JustCreated(Opened(first, second)) && Wellformed(Opened(first, second)) && Tidy(Opened(first, second))
    ensures InOrder(Opened(first, second))
  {
    CreatedInOrder(Opened(first, second));
  }

  lemma NoMore(w: World)
    ensures PossibleRun(w, []) && RunTo(w, []) == w && AlwaysInTurn(w, [])
    ensures AlwaysInOrder(w, []) <==> InOrder(w)
  {
  }

  lemma RunOf(w: World, step: Step, rest: seq<Step>)
    requires Possible(w, step) && PossibleRun(Next(w, step), rest)
    ensures PossibleRun(w, [step] + rest) && RunTo(w, [step] + rest) == RunTo(Next(w, step), rest)
    ensures AlwaysInOrder(w, [step] + rest) <==> InOrder(w) && AlwaysInOrder(Next(w, step), rest)
    ensures AlwaysInTurn(w, [step] + rest) <==> StepInTurn(w, step) && AlwaysInTurn(Next(w, step), rest)
  {
    hide Next, InOrder, StepInTurn;
    assert ([step] + rest)[1..] == rest;
  }

  const REFUSED := PromoteAnswer(true, true, Raised(AuthRefused))

  // ---------------------------------------------------------------- single steps

  /** A session claims the first step. */
  lemma FirstClaimed(w: World, session: nat, answers: seq<Answer>)
    requires |w.rows| == 2 == |answers| && w.rows[0].status.Waiting? && !w.bundle.status.Terminal()
    requires session !in w.calls && session !in w.refusals
    ensures var step := Advance(session, 0, 1800, answers);
            && Possible(w, step) && var w' := Next(w, step);
            && w'.rows == [Claimed(w.rows[0], 0), w.rows[1]] && w'.refusals == w.refusals
            && w'.bundle == Mirrored(w.bundle, BundleStatus.Promoting, PromoteStage(w.rows[0].component))
            && w'.calls == w.calls[session := Call(0, Claimed(w.rows[0], 0), w'.rows, w'.bundle)]
  {
    hide Claimed, PromoteStage;
    assert w.rows[0 := Claimed(w.rows[0], 0)] == [Claimed(w.rows[0], 0), w.rows[1]];
  }

  /** A session polls the first step, and that is all it does. */
  lemma FirstPolled(w: World, session: nat, now: int, answers: seq<Answer>)
    requires |w.rows| == 2 == |answers| && w.rows[0].status.InFlight() && !w.bundle.status.Terminal()
    requires session !in w.calls && session !in w.refusals
    requires Refreshed(w.rows[0], now, 1800, answers[0]).status.InFlight()
    ensures var step := Advance(session, now, 1800, answers);
            && Possible(w, step) && var w' := Next(w, step);
            && w'.rows == [Refreshed(w.rows[0], now, 1800, answers[0]), w.rows[1]]
            && w'.calls == w.calls && w'.refusals == w.refusals && !w'.bundle.status.Terminal()
            && w'.bundle == BundleAfterPoll(w.bundle, w.rows[0], Refreshed(w.rows[0], now, 1800, answers[0]))
  {
    hide Refreshed;
  }

  /** A session polls the first step to its success and goes on to the second. */
  lemma FirstSucceeds(w: World, session: nat, now: int, answers: seq<Answer>)
    requires |w.rows| == 2 == |answers| && w.rows[0].status.InFlight() && !w.bundle.status.Terminal()
    requires session !in w.calls && session !in w.refusals
    requires Refreshed(w.rows[0], now, 1800, answers[0]).status.Success?
    requires w.rows[1].status.Waiting? || w.rows[1].status.Cancelled?
    ensures var step := Advance(session, now, 1800, answers);
            && Possible(w, step) && var w' := Next(w, step);
            && |w'.rows| == 2 && w'.rows[0].status.Success?
            && (w.rows[1].status.Waiting? ==>
                  w'.rows[1].status == Status.Promoting && w'.calls.Keys == w.calls.Keys + {session} && w'.refusals == w.refusals)
            && (w.rows[1].status.Cancelled? ==> w'.rows[1] == w.rows[1] && w'.calls == w.calls && w'.refusals == w.refusals)
            && (forall s :: s in w.calls ==> s in w'.calls && w'.calls[s] == w.calls[s])
            && !w'.bundle.status.Terminal()
            && (w.bundle.status == w.bundle.deploymentStatus ==> w'.bundle.status == w'.bundle.deploymentStatus)
  {
    var polled := Refreshed(w.rows[0], now, 1800, answers[0]);
    PolledStep(w.rows, w.bundle, 0, now, 1800, answers);
    hide Refreshed;
    assert w.rows[0 := polled] == [polled, w.rows[1]];
  }

  /** A session finds the first step failed, or polls it to its failure, and ends the bundle. */
  lemma FirstFails(w: World, session: nat, now: int, answers: seq<Answer>)
    requires |w.rows| == 2 == |answers| && !w.bundle.status.Terminal() && w.rows[1].status.Waiting?
    requires session !in w.calls && session !in w.refusals
    requires w.rows[0].status.Failed? || (w.rows[0].status.InFlight() && Refreshed(w.rows[0], now, 1800, answers[0]).status.Failed?)
    ensures var step := Advance(session, now, 1800, answers);
            && Possible(w, step) && var w' := Next(w, step);
            && |w'.rows| == 2 && w'.rows[0].status.Failed? && w'.rows[1] == CancelledRow(w.rows[1])
            && w'.rows[0] == (if w.rows[0].status.Failed? then w.rows[0] else Refreshed(w.rows[0], now, 1800, answers[0]))
            && w'.calls == w.calls && w'.refusals == w.refusals
            && w'.bundle.status == w'.bundle.deploymentStatus == BundleStatus.Failed
  {
    if w.rows[0].status.InFlight() {
      PolledStep(w.rows, w.bundle, 0, now, 1800, answers);
    }
    hide Refreshed, CancelledRow;
  }

  // ---------------------------------------------------------------- a reply behind an adoption

  /** The attempt as it is claimed, adopted by another session, and as a poll of the adopted build sees it. */
  lemma AdoptedAttempt(first: Row, own: Build) returns (adopted: Row, adopting: Answer)
    requires Queued(first) && own.IsPromotionOf(first.slot.source, first.slot.target)
    ensures adopted == Refreshed(Claimed(first, 0), 5, 1800, adopting)
    ensures adopted.status == Status.Deploying && adopted.promotion.Some? && adopted.required == None && adopted.startedAt == Some(0)
    ensures adopted.failedStage == None && adopted.errorCode == None
    ensures Claimed(first, 0).status == Status.Promoting && Claimed(first, 0).promotion == None
  {
    adopting := Answer(Unreachable(DroneUnavailable), Listed([own]));
    adopted := Refreshed(Claimed(first, 0), 5, 1800, adopting);
    assert own in [own];
  }

  lemma PolledAs(row: Row, now: int, build: Build)
    requires row.status == Status.Deploying && row.promotion.Some? && row.required == None && row.startedAt == Some(0) && now <= 1800
    ensures build.status == "success" ==> Refreshed(row, now, 1800, Answer(Found(build), Listed([]))).status.Success?
    ensures build.status == "failure" ==> Refreshed(row, now, 1800, Answer(Found(build), Listed([]))).status.Failed?
    ensures Refreshed(row, now, 1800, Answer(Found(build), Listed([]))).startedAt == Some(0)
    ensures Refreshed(row, now, 1800, Answer(Found(build), Listed([]))).required == None
  {
  }

  /** A session claims the first step and posts; before the reply is recorded another session adopts its build. */
  lemma AdoptedMeanwhile(first: Row, second: Row, own: Build, quiet: Answer)
      returns (s1: Step, s2: Step, w1: World, w2: World, adopting: Answer)
    requires Queued(first) && Queued(second)
    requires own.IsPromotionOf(first.slot.source, first.slot.target)
    ensures s1 == Advance(1, 0, 1800, [quiet, quiet]) && s2 == Advance(2, 5, 1800, [adopting, quiet])
    ensures Possible(Opened(first, second), s1) && w1 == Next(Opened(first, second), s1)
    ensures Possible(w1, s2) && w2 == Next(w1, s2)
    ensures w1.rows == [Claimed(first, 0), second] && Adopts(Claimed(first, 0), adopting) && !w1.bundle.status.Terminal()
    ensures w1.calls.Keys == {1} && w1.refusals == map[]
    ensures w2.calls.Keys == {1} && w2.calls[1].index == 0 && w2.calls[1].seen == Claimed(first, 0) && w2.refusals == map[]
    ensures |w2.rows| == 2 && w2.rows[0].status == Status.Deploying && w2.rows[0].promotion.Some?
    ensures w2.rows[0].required == None && w2.rows[0].startedAt == Some(0) && w2.rows[1] == second
    ensures w2.rows[0].failedStage == None && w2.rows[0].errorCode == None
    ensures w2.bundle.status == w2.bundle.deploymentStatus == BundleStatus.Deploying
    ensures w2.bundle.stage.Some? && w2.bundle.failedStage == None && w2.bundle.errorCode == None
  {
    var w0 := Opened(first, second);
    FirstClaimed(w0, 1, [quiet, quiet]);
    s1 := Advance(1, 0, 1800, [quiet, quiet]);
    w1 := Next(w0, s1);
    var adopted;
    adopted, adopting := AdoptedAttempt(first, own);
    hide Claimed, Refreshed;
    FirstPolled(w1, 2, 5, [adopting, quiet]);
    s2 := Advance(2, 5, 1800, [adopting, quiet]);
    w2 := Next(w1, s2);
  }

  /** The attempt is waiting for its outcome, and the answer shows its promotion. */
  predicate Adopts(row: Row, answer: Answer) {
    row.status == Status.Promoting && row.promotion == None && Refreshed(row, 5, 1800, answer).status == Status.Deploying
  }

  /** And then sees it succeed, and claims the second step. */
  lemma SucceededMeanwhile(first: Row, second: Row, own: Build, quiet: Answer)
      returns (s1: Step, s2: Step, s3: Step, w1: World, w2: World, w3: World, adopting: Answer)
    requires Queued(first) && Queued(second)
    requires own.IsPromotionOf(first.slot.source, first.slot.target) && own.status == "success"
    ensures s1.Advance? && s1.session == 1 && s2.Advance? && s2.session == 2 && s3.Advance? && s3.session == 2
    ensures Possible(Opened(first, second), s1) && w1 == Next(Opened(first, second), s1)
    ensures Possible(w1, s2) && w2 == Next(w1, s2) && Possible(w2, s3) && w3 == Next(w2, s3)
    ensures w1.rows == [Claimed(first, 0), second] && Adopts(Claimed(first, 0), adopting) && !w1.bundle.status.Terminal()
    ensures AtWork(S.Copy(w2.rows, w2.bundle))
    ensures |w3.rows| == 2 && w3.rows[0].status.Success? && w3.rows[1].status == Status.Promoting
    ensures w3.bundle.status == w3.bundle.deploymentStatus && w3.calls.Keys == {1, 2} && w3.refusals == map[]
    ensures w3.calls[1].index == 0 && w3.calls[1].seen == Claimed(first, 0)
  {
    s1, s2, w1, w2, adopting := AdoptedMeanwhile(first, second, own, quiet);
    PolledAs(w2.rows[0], 9, own);
    hide Claimed, Refreshed, Adopts, Opened;
    FirstSucceeds(w2, 2, 9, [Answer(Found(own), Listed([])), quiet]);
    s3 := Advance(2, 9, 1800, [Answer(Found(own), Listed([])), quiet]);
    w3 := Next(w2, s3);
  }

  /** What a session holds that loads the bundle in between. */
  predicate AtWork(copy: S.Copy) {
    && |copy.rows| == 2 && copy.rows[1].status.Waiting?
    && copy.rows[0].status == Status.Deploying && copy.rows[0].promotion.Some? && copy.rows[0].startedAt == Some(0)
    && copy.rows[0].failedStage == None && copy.rows[0].errorCode == None
    && copy.bundle.status == copy.bundle.deploymentStatus == BundleStatus.Deploying
    && copy.bundle.stage.Some? && copy.bundle.failedStage == None && copy.bundle.errorCode == None
  }

  /** A reply slower than the deployment itself: the first step goes back to DEPLOYING under a second step
      that is already being promoted. */
  lemma LateReplyBreaksOrder(first: Row, second: Row, own: Build, quiet: Answer) returns (steps: seq<Step>)
    requires Queued(first) && Queued(second)
    requires own.IsPromotionOf(first.slot.source, first.slot.target) && own.status == "success"
    ensures JustCreated(Opened(first, second)) && PossibleRun(Opened(first, second), steps)
    ensures !AlwaysInOrder(Opened(first, second), steps)
  {
    var w0 := Opened(first, second);
    CreatedIsJustCreated(first, second);
    var s1, s2, s3, w1, w2, w3, _ := SucceededMeanwhile(first, second, own, quiet);
    hide Claimed, Refreshed, Mirrored;
    var late := Reply(1, PromoteAnswer(true, true, Created(own.number)));
    OvertakenReplyBreaksOrder(w3, first, own.number);
    hide Next, Possible, InOrder, JustCreated;
    NoMore(Next(w3, late));
    RunOf(w3, late, []);
    RunOf(w2, s3, [late] + []);
    RunOf(w1, s2, [s3] + ([late] + []));
    RunOf(w0, s1, [s2] + ([s3] + ([late] + [])));
    steps := [s1] + ([s2] + ([s3] + ([late] + [])));
  }

  lemma OvertakenReplyBreaksOrder(w: World, first: Row, number: int)
    requires Queued(first) && 1 in w.calls && w.calls[1].index == 0 && w.calls[1].seen == Claimed(first, 0)
    requires |w.rows| == 2 && w.rows[1].status == Status.Promoting
    ensures var late := Reply(1, PromoteAnswer(true, true, Created(number)));
            Possible(w, late) && !InOrder(Next(w, late))
  {
    var late := Reply(1, PromoteAnswer(true, true, Created(number)));
    MergedReply(w.rows[0], Claimed(first, 0), late.outcome);
    hide Merge, Settled, Front;
    var w' := Next(w, late);
    AtWorkIsFront(w'.rows, w'.bundle, 0);
    assert w'.rows[1] == w.rows[1];
  }

  // ---------------------------------------------------------------- a verdict behind a retry

  /** The first session's request is refused and the refusal committed; another session ends the bundle, a
      retry opens it again, and the first step is claimed once more. */
  lemma RetriedUnderOldVerdict(first: Row, second: Row, quiet: Answer)
      returns (steps: seq<Step>, w: World, claimed: Row)
    requires Queued(first) && Queued(second)
    ensures PossibleRun(Opened(first, second), steps) && RunTo(Opened(first, second), steps) == w
    ensures AlwaysInTurn(Opened(first, second), steps)
    ensures claimed == Claimed(first, 0) && 1 in w.refusals && w.refusals[1].outcome == REFUSED
    ensures w.refusals[1].call.index == 0 && w.refusals[1].call.seen == claimed
    ensures w.refusals[1].call.copies == [claimed, second]
    ensures w.refusals[1].call.bundle == Mirrored(NEW_BUNDLE, BundleStatus.Promoting, PromoteStage(first.component))
    ensures |w.rows| == 2 && w.rows[0].status == Status.Promoting && w.rows[1].status.Waiting?
    ensures !w.bundle.status.Terminal()
  {
    var w0 := Opened(first, second);
    claimed := Claimed(first, 0);
    FirstClaimed(w0, 1, [quiet, quiet]);
    var s1 := Advance(1, 0, 1800, [quiet, quiet]);
    var w1 := Next(w0, s1);
    var s2 := Reply(1, REFUSED);
    RefusalCommitted(w1, claimed);
    var w2 := Next(w1, s2);
    hide Claimed, Mirrored;
    var s3 := Advance(2, 5, 1800, [quiet, quiet]);
    FirstFails(w2, 2, 5, [quiet, quiet]);
    var w3 := Next(w2, s3);
    var s4 := Retry(false);
    RetriedPair(w3);
    var w4 := Next(w3, s4);
    FirstClaimed(w4, 2, [quiet, quiet]);
    var s5 := Advance(2, 0, 1800, [quiet, quiet]);
    w := Next(w4, s5);
    ClaimedIsPromoting(w4.rows[0]);
    hide Next, Possible, StepInTurn;
    NoMore(w);
    RunOf(w4, s5, []);
    RunOf(w3, s4, [s5] + []);
    RunOf(w2, s3, [s4] + ([s5] + []));
    RunOf(w1, s2, [s3] + ([s4] + ([s5] + [])));
    RunOf(w0, s1, [s2] + ([s3] + ([s4] + ([s5] + []))));
    steps := [s1] + ([s2] + ([s3] + ([s4] + ([s5] + []))));
    assert StepInTurn(w0, s1) && StepInTurn(w2, s3) && StepInTurn(w3, s4) && StepInTurn(w4, s5);
  }

  lemma ClaimedIsPromoting(row: Row)
    ensures Claimed(row, 0).status == Status.Promoting
  {
  }

  lemma RefusalCommitted(w: World, claimed: Row)
    requires |w.rows| == 2 && w.rows[0] == claimed && w.rows[1].status.Waiting? && 1 in w.calls
    requires w.calls[1].index == 0 && w.calls[1].seen == claimed && claimed.status == Status.Promoting
    requires !w.bundle.status.Terminal()
    ensures Possible(w, Reply(1, REFUSED)) && StepInTurn(w, Reply(1, REFUSED))
    ensures var w' := Next(w, Reply(1, REFUSED));
            && |w'.rows| == 2 && w'.rows[0].status.Failed? && w'.rows[1] == w.rows[1] && w'.bundle == w.bundle
            && w'.calls == w.calls - {1} && w'.refusals == w.refusals[1 := Refusal(w.calls[1], REFUSED)]
  {
  }

  lemma RetriedPair(w: World)
    requires |w.rows| == 2 && w.rows[0].status.Failed? && w.rows[1].status.Cancelled? && w.bundle.deploymentStatus.Failed?
    ensures Possible(w, Retry(false))
    ensures var w' := Next(w, Retry(false));
            && |w'.rows| == 2 && w'.rows[0].status.Waiting? && w'.rows[1].status.Waiting?
            && w'.bundle == NEW_BUNDLE && w'.calls == w.calls && w'.refusals == w.refusals
  {
  }

  /** The first session's verdict, when it comes, cancels the second step of the new attempt and ends the
      bundle over a first step at work.  Every reply came in turn, and no refresh looks at the bundle again. */
  lemma StaleVerdictBreaksOrder(first: Row, second: Row, quiet: Answer) returns (steps: seq<Step>, w: World)
    requires Queued(first) && Queued(second)
    ensures JustCreated(Opened(first, second)) && PossibleRun(Opened(first, second), steps)
    ensures PossibleRun(Opened(first, second), steps + [Conclude(1)])
    ensures AlwaysInTurn(Opened(first, second), steps) && RunTo(Opened(first, second), steps + [Conclude(1)]) == w
    ensures !InOrder(w) && |w.rows| == 2 && w.rows[0].status == Status.Promoting && w.rows[1].status.Cancelled?
    ensures w.bundle.status == w.bundle.deploymentStatus == BundleStatus.Failed
    ensures forall step: Step :: step.Advance? && Possible(w, step) ==> Next(w, step) == w
  {
    CreatedIsJustCreated(first, second);
    var before, claimed;
    steps, before, claimed := RetriedUnderOldVerdict(first, second, quiet);
    OldVerdictCommitted(before, claimed, second);
    w := Next(before, Conclude(1));
    hide Possible, JustCreated;
    RunThen(Opened(first, second), steps, Conclude(1));
    hide RunTo, PossibleRun, AlwaysInTurn;
  }

  lemma OldVerdictCommitted(w: World, claimed: Row, second: Row)
    requires 1 in w.refusals && w.refusals[1].outcome == REFUSED && w.refusals[1].call.index == 0
    requires w.refusals[1].call.seen == claimed && w.refusals[1].call.copies == [claimed, second]
    requires second.status.Waiting? && claimed.status == Status.Promoting
    requires w.refusals[1].call.bundle.status == w.refusals[1].call.bundle.deploymentStatus == BundleStatus.Promoting
    requires |w.rows| == 2 && w.rows[0].status == Status.Promoting && w.rows[1].status.Waiting?
    ensures Possible(w, Conclude(1))
    ensures var w' := Next(w, Conclude(1));
            && |w'.rows| == 2 && w'.rows[0] == w.rows[0] && w'.rows[1].status.Cancelled?
            && w'.bundle.status == w'.bundle.deploymentStatus == BundleStatus.Failed && !InOrder(w')
  {
    var held := w.refusals[1].Held();
    assert held == [Settled(claimed, REFUSED), second];
    assert Settled(claimed, REFUSED).status.Failed?;
    hide Settled;
    CancelMerged(w.rows, held);
    assert !AnySucceeded(CancelWaiting(held));
    hide CancelHeld, CancelWaiting, AnySucceeded;
    FrontIs(Next(w, Conclude(1)).rows, 0);
  }

  lemma {:induction false} RunThen(w: World, steps: seq<Step>, last: Step)
    requires PossibleRun(w, steps) && Possible(RunTo(w, steps), last)
    ensures PossibleRun(w, steps + [last]) && RunTo(w, steps + [last]) == Next(RunTo(w, steps), last)
    decreases |steps|
  {
    hide Next, Possible;
    if steps == [] {
      assert steps + [last] == [last] && [last][1..] == [];
      NoMore(Next(w, last));
    } else {
      assert (steps + [last])[1..] == steps[1..] + [last];
      RunThen(Next(w, steps[0]), steps[1..], last);
    }
  }

  // ---------------------------------------------------------------- a bundle that never ends

  /** An open bundle whose first unfinished step is cancelled, with nobody at work on it, stays as it is: no
      refresh moves it, and only a finished bundle can be retried. */
  lemma CancelledFrontIsStuck(w: World, k: nat, step: Step)
    requires k < |w.rows| && AllBefore(w.rows, k) && w.rows[k].status.Cancelled?
    requires !w.bundle.status.Terminal() && w.bundle.deploymentStatus == w.bundle.status
    requires w.calls == map[] && w.refusals == map[] && Possible(w, step)
    ensures Next(w, step) == w
  {
    if step.Advance? {
      PassFrom(w.rows, w.bundle, 0, k, step.now, step.timeout, step.answers);
    }
  }

  lemma {:induction false} CancelledFrontStaysStuck(w: World, k: nat, steps: seq<Step>)
    requires k < |w.rows| && AllBefore(w.rows, k) && w.rows[k].status.Cancelled?
    requires !w.bundle.status.Terminal() && w.bundle.deploymentStatus == w.bundle.status
    requires w.calls == map[] && w.refusals == map[] && PossibleRun(w, steps)
    ensures RunTo(w, steps) == w
    decreases |steps|
  {
    if steps != [] {
      hide Next, Possible;
      CancelledFrontIsStuck(w, k, steps[0]);
      CancelledFrontStaysStuck(w, k, steps[1..]);
    }
  }

  /** The second session adopts the first one's build, sees it fail, and ends the bundle. */
  lemma AdoptedAndFailed(first: Row, second: Row, own: Build, quiet: Answer)
      returns (s1: Step, s2: Step, s3: Step, w1: World, w2: World, w3: World)
    requires Queued(first) && Queued(second)
    requires own.IsPromotionOf(first.slot.source, first.slot.target)
    ensures Possible(Opened(first, second), s1) && w1 == Next(Opened(first, second), s1)
    ensures Possible(w1, s2) && w2 == Next(w1, s2)
    ensures Possible(w2, s3) && w3 == Next(w2, s3)
    ensures 1 in w3.calls && w3.calls[1].index == 0 && w3.calls[1].seen == Claimed(first, 0)
    ensures w3.calls.Keys == {1} && w3.refusals == map[]
    ensures |w3.rows| == 2 && w3.rows[0].startedAt == Some(0) && w3.rows[0].required == None && w3.rows[1].status.Cancelled?
  {
    var failure := own.(status := "failure");
    var adopting;
    s1, s2, w1, w2, adopting := AdoptedMeanwhile(first, second, own, quiet);
    PolledAs(w2.rows[0], 9, failure);
    hide Claimed, Refreshed, Mirrored, Next, Possible;
    FirstFails(w2, 2, 9, [Answer(Found(failure), Listed([])), quiet]);
    s3 := Advance(2, 9, 1800, [Answer(Found(failure), Listed([])), quiet]);
    w3 := Next(w2, s3);
  }

  /** The reply of its request reopens the failed step, which then succeeds. */
  lemma ReopenedAndSucceeded(w3: World, first: Row, own: Build, quiet: Answer)
      returns (s4: Step, s5: Step, w4: World, w: World)
    requires Queued(first) && 1 in w3.calls && w3.calls[1].index == 0 && w3.calls[1].seen == Claimed(first, 0)
    requires w3.calls.Keys == {1} && w3.refusals == map[]
    requires |w3.rows| == 2 && w3.rows[0].startedAt == Some(0) && w3.rows[0].required == None && w3.rows[1].status.Cancelled?
    ensures Possible(w3, s4) && w4 == Next(w3, s4)
    ensures Possible(w4, s5) && w == Next(w4, s5)
    ensures |w.rows| == 2 && w.rows[0].status.Success? && w.rows[1].status.Cancelled?
    ensures !w.bundle.status.Terminal() && w.bundle.status == w.bundle.deploymentStatus
    ensures w.calls == map[] && w.refusals == map[]
  {
    var success := own.(status := "success");
    s4 := Reply(1, PromoteAnswer(true, true, Created(own.number)));
    ReplyReopens(w3, first, own.number);
    w4 := Next(w3, s4);
    hide Refreshed, Claimed;
    PolledAs(w4.rows[0], 12, success);
    FirstSucceeds(w4, 3, 12, [Answer(Found(success), Listed([])), quiet]);
    s5 := Advance(3, 12, 1800, [Answer(Found(success), Listed([])), quiet]);
    w := Next(w4, s5);
  }

  /** Why the time bound supposes replies in turn: the adopted build fails and ends the bundle, the reply of
      its request reopens the step, and when that succeeds the walk stops for good at the cancelled second
      step.  Every reply came inside its timeout. */
  lemma LateReplyNeverEnds(first: Row, second: Row, own: Build, quiet: Answer) returns (steps: seq<Step>, w: World)
    requires Queued(first) && Queued(second)
    requires own.IsPromotionOf(first.slot.source, first.slot.target)
    ensures JustCreated(Opened(first, second)) && PossibleRun(Opened(first, second), steps) && RunTo(Opened(first, second), steps) == w
    ensures !w.bundle.status.Terminal()
    ensures forall more: seq<Step> :: PossibleRun(w, more) ==> RunTo(w, more) == w
  {
    CreatedIsJustCreated(first, second);
    var s1, s2, s3, w1, w2, w3 := AdoptedAndFailed(first, second, own, quiet);
    var s4, s5, w4;
    s4, s5, w4, w := ReopenedAndSucceeded(w3, first, own, quiet);
    forall more: seq<Step> | PossibleRun(w, more)
      ensures RunTo(w, more) == w
    {
      CancelledFrontStaysStuck(w, 1, more);
    }
    hide *;
    NoMore(w);
    RunOf(w4, s5, []);
    RunOf(w3, s4, [s5] + []);
    RunOf(w2, s3, [s4] + ([s5] + []));
    RunOf(w1, s2, [s3] + ([s4] + ([s5] + [])));
    RunOf(Opened(first, second), s1, [s2] + ([s3] + ([s4] + ([s5] + []))));
    steps := [s1] + ([s2] + ([s3] + ([s4] + ([s5] + []))));
  }

  lemma ReplyReopens(w: World, first: Row, number: int)
    requires Queued(first) && 1 in w.calls && w.calls[1].index == 0 && w.calls[1].seen == Claimed(first, 0)
    requires |w.rows| == 2 && w.rows[0].startedAt == Some(0) && w.rows[0].required == None
    ensures var step := Reply(1, PromoteAnswer(true, true, Created(number)));
            && Possible(w, step) && var w' := Next(w, step);
            && |w'.rows| == 2 && w'.rows[1] == w.rows[1] && w'.refusals == w.refusals && w'.calls == w.calls - {1}
            && w'.rows[0].status == Status.Deploying && w'.rows[0].promotion.Some? && w'.rows[0].required == None
            && w'.rows[0].startedAt == Some(0)
            && w'.bundle.status == w'.bundle.deploymentStatus == BundleStatus.Deploying
  {
  }

  // ---------------------------------------------------------------- a walk from an old copy

  predicate Leads(w: S.State, step: S.Step, w': S.State) {
    S.Possible(w, step) && S.Next(w, step) == w'
  }

  predicate Reaches(w: S.State, steps: seq<S.Step>, end: S.State) {
    S.PossibleRun(w, steps) && S.RunTo(w, steps) == end
  }

  lemma Before(w: S.State, step: S.Step, w': S.State, rest: seq<S.Step>, end: S.State)
    requires Leads(w, step, w') && Reaches(w', rest, end)
    ensures Reaches(w, [step] + rest, end)
  {
    hide S.Next, S.Possible;
    assert ([step] + rest)[1..] == rest;
  }

  /** A walk from a copy taken just before, as two steps. */
  lemma BeforeFresh(w: S.State, step: Step, w': S.State, rest: seq<S.Step>, end: S.State) returns (steps: seq<S.Step>)
    requires step.Advance? && Possible(w.now, step) && step.session !in w.copies
    requires w' == S.State(Next(w.now, step), w.copies) && Reaches(w', rest, end)
    ensures Reaches(w, steps, end)
  {
    var load, walk := S.Load(step.session), S.Walk(step.session, step.now, step.timeout, step.answers);
    S.FreshWalkIsAdvance(w, step.session, step.now, step.timeout, step.answers);
    var loaded := S.Next(w, load);
    assert loaded.copies - {step.session} == w.copies;
    assert S.Next(loaded, walk).copies == w.copies;
    hide S.Next, Next, Reaches;
    Before(loaded, walk, w', rest, end);
    Before(w, load, loaded, [walk] + rest, end);
    steps := [load] + ([walk] + rest);
  }

  /** A walk whose copy still waits for the outcome adopts the promotion, however far the bundle has come. */
  lemma OldAdoption(w: S.State, session: nat, copy: S.Copy, adopting: Answer, quiet: Answer)
    requires session in w.copies && w.copies[session] == copy && S.Idle(w, session)
    requires |copy.rows| == 2 == |w.now.rows| && Adopts(copy.rows[0], adopting) && !copy.bundle.status.Terminal()
    ensures var walk := S.Walk(session, 5, 1800, [adopting, quiet]);
            && S.Possible(w, walk) && var w' := S.Next(w, walk);
            |w'.now.rows| == 2 && w'.now.rows[0].status == Status.Deploying && w'.now.rows[1] == w.now.rows[1]
  {
    S.WalkPolls(w.now.rows, w.now.bundle, copy.rows, S.View(copy.bundle, copy.bundle), 0, 5, 1800, [adopting, quiet]);
    S.MergedPoll(w.now.rows[0], copy.rows[0], 5, 1800, adopting);
    hide Refreshed, Merge, S.WalkFrom, S.Fails;
  }

  /** A session that loaded the bundle before the promotion was adopted, and saw it listed, commits its adoption
      last: the first step goes back to DEPLOYING under a second step being promoted. */
  lemma OldAdoptionBreaksOrder(first: Row, second: Row, own: Build, quiet: Answer) returns (steps: seq<S.Step>, end: S.State)
    requires Queued(first) && Queued(second)
    requires own.IsPromotionOf(first.slot.source, first.slot.target) && own.status == "success"
    ensures JustCreated(Opened(first, second)) && Reaches(S.State(Opened(first, second), map[]), steps, end)
    ensures !InOrder(end.now)
  {
    CreatedIsJustCreated(first, second);
    var s1, s2, s3, w1, w2, w3, adopting := SucceededMeanwhile(first, second, own, quiet);
    hide Claimed, Refreshed, Next, Possible, Adopts, AtWork, JustCreated, Opened;
    var copy := S.Copy(w1.rows, w1.bundle);
    var copies := map[7 := copy];
    var a, b, c, d := S.State(w1, map[]), S.State(w1, copies), S.State(w2, copies), S.State(w3, copies);
    var walk := S.Walk(7, 5, 1800, [adopting, quiet]);
    assert S.Idle(d, 7);
    OldAdoption(d, 7, copy, adopting, quiet);
    end := S.Next(d, walk);
    BackUnderWork(end.now);
    assert Leads(a, S.Load(7), b) && Leads(d, walk, end) && Reaches(end, [], end);
    hide Leads, Reaches, InOrder;
    Before(d, walk, end, [], end);
    var late := BeforeFresh(c, s3, d, [walk] + [], end);
    var mid := BeforeFresh(b, s2, c, late, end);
    Before(a, S.Load(7), b, mid, end);
    steps := BeforeFresh(S.State(Opened(first, second), map[]), s1, a, [S.Load(7)] + mid, end);
  }

  lemma BackUnderWork(w: World)
    requires |w.rows| == 2 && w.rows[0].status == Status.Deploying && w.rows[1].status == Status.Promoting
    ensures !InOrder(w)
  {
    hide Front;
    AtWorkIsFront(w.rows, w.bundle, 0);
  }

  lemma TimedOutFrom(copy: S.Copy, row: Row, quiet: Answer)
    requires AtWork(copy)
    ensures var polled := Refreshed(copy.rows[0], 2000, 1800, quiet);
            && polled.status.Failed? && polled.failedStage.Some? && polled.errorCode.Some? && polled.promotion == copy.rows[0].promotion
            && var merged := Merge(row, copy.rows[0], polled);
               merged.status.Failed? && merged.failedStage == polled.failedStage && merged.errorCode == polled.errorCode
  {
  }

  lemma TimeOutVerdict(rows: seq<Row>, bundle: Bundle, held: seq<Row>, seen: Bundle, failed: Row)
    requires |rows| == 2 == |held| && failed.status.Failed? && failed.failedStage.Some? && failed.errorCode.Some?
    requires rows[0].status.Failed? && rows[0].failedStage == failed.failedStage && rows[0].errorCode == failed.errorCode
    requires seen.stage.Some? && seen.failedStage == None && seen.errorCode == None
    ensures S.FailureFits(rows, 0, bundle, seen, failed)
  {
    FrontIs(rows, 0);
    hide Front, CancelHeld, CancelWaiting, AnySucceeded;
  }

  lemma FirstStops(rows: seq<Row>, bundle: Bundle, held: seq<Row>, seen: Bundle, failed: Row)
    requires |rows| == 2 == |held| && held[0] == failed && failed.status.Failed? && held[1].status.Waiting?
    requires failed.failedStage.Some? && failed.errorCode.Some?
    requires rows[0].status.Failed? && rows[0].failedStage == failed.failedStage && rows[0].errorCode == failed.errorCode
    requires seen.stage.Some? && seen.failedStage == None && seen.errorCode == None
    requires bundle.status == bundle.deploymentStatus && seen.status == seen.deploymentStatus == BundleStatus.Deploying
    ensures var commit := S.Fails(rows, bundle, held, S.View(seen, seen), failed);
            && |commit.rows| == 2 && commit.rows[0].status.Failed? && commit.rows[1].status.Cancelled? && commit.call == None
            && InOrderAt(commit.rows, commit.bundle, Front(commit.rows))
  {
    S.FailsTouches(rows, bundle, held, S.View(seen, seen), failed);
    TimeOutVerdict(rows, bundle, held, seen, failed);
    assert S.Fails(rows, bundle, held, S.View(seen, seen), failed).call == None;
    hide Front, InOrderAt, S.Fails, S.FailureFits;
    S.FailsInOrderIff(rows, bundle, held, S.View(seen, seen), 0, failed);
  }

  lemma TimeOutCommit(rows: seq<Row>, bundle: Bundle, copy: S.Copy, quiet: Answer)
    requires |rows| == 2 && bundle.status == bundle.deploymentStatus && AtWork(copy)
    ensures var commit := S.WalkFrom(rows, bundle, copy.rows, S.View(copy.bundle, copy.bundle), 0, 2000, 1800, [quiet, quiet]);
            && commit.rows[0].status.Failed? && commit.rows[1].status.Cancelled? && commit.call == None
            && InOrderAt(commit.rows, commit.bundle, Front(commit.rows))
  {
    S.WalkPolls(rows, bundle, copy.rows, S.View(copy.bundle, copy.bundle), 0, 2000, 1800, [quiet, quiet]);
    TimedOutFrom(copy, rows[0], quiet);
    var polled := Refreshed(copy.rows[0], 2000, 1800, quiet);
    hide Refreshed, Merge, S.WalkFrom, S.Fails, Front, InOrderAt;
    FirstStops(rows[0 := Merge(rows[0], copy.rows[0], polled)], bundle, copy.rows[0 := polled], copy.bundle, polled);
  }

  /** The time-out it records is written over whatever the two steps have become. */
  lemma OldTimeOut(w: S.State, session: nat, copy: S.Copy, quiet: Answer)
    requires session in w.copies && w.copies[session] == copy && S.Idle(w, session) && AtWork(copy)
    requires |w.now.rows| == 2 && w.now.bundle.status == w.now.bundle.deploymentStatus
    ensures var walk := S.Walk(session, 2000, 1800, [quiet, quiet]);
            && S.Possible(w, walk) && var w' := S.Next(w, walk);
            && |w'.now.rows| == 2 && w'.now.rows[0].status.Failed? && w'.now.rows[1].status.Cancelled?
            && InOrder(w'.now) && w'.now.calls == w.now.calls
  {
    TimeOutCommit(w.now.rows, w.now.bundle, copy, quiet);
    hide S.WalkFrom, InOrderAt, Front;
  }

  /** The order says nothing of work that is called off.  A session that loaded the bundle with its first step at
      work records a time-out after another has seen that step succeed and claimed the second: the success is
      overwritten, the step whose request is on its way is cancelled, and the bundle is in order. */
  lemma OldTimeOutCancelsWork(first: Row, second: Row, own: Build, quiet: Answer)
      returns (steps: seq<S.Step>, before: S.State, late: S.Step, end: S.State)
    requires Queued(first) && Queued(second)
    requires own.IsPromotionOf(first.slot.source, first.slot.target) && own.status == "success"
    ensures JustCreated(Opened(first, second)) && Reaches(S.State(Opened(first, second), map[]), steps, before)
    ensures |before.now.rows| == 2 && before.now.rows[0].status.Success? && before.now.rows[1].status == Status.Promoting
    ensures Leads(before, late, end) && InOrder(end.now) && end.now.calls == before.now.calls
    ensures |end.now.rows| == 2 && end.now.rows[0].status.Failed? && end.now.rows[1].status.Cancelled?
  {
    CreatedIsJustCreated(first, second);
    var s1, s2, s3, w1, w2, w3, _ := SucceededMeanwhile(first, second, own, quiet);
    var copy := S.Copy(w2.rows, w2.bundle);
    hide Claimed, Refreshed, Next, Possible, Adopts, AtWork, JustCreated, Opened;
    var copies := map[7 := copy];
    var a, b, c := S.State(w1, map[]), S.State(w2, map[]), S.State(w2, copies);
    before := S.State(w3, copies);
    late := S.Walk(7, 2000, 1800, [quiet, quiet]);
    assert S.Idle(before, 7);
    OldTimeOut(before, 7, copy, quiet);
    end := S.Next(before, late);
    assert Leads(b, S.Load(7), c) && Leads(before, late, end) && Reaches(before, [], before);
    hide Leads, Reaches, InOrder;
    var last := BeforeFresh(c, s3, before, [], before);
    Before(b, S.Load(7), c, last, before);
    var mid := BeforeFresh(a, s2, b, [S.Load(7)] + last, before);
    steps := BeforeFresh(S.State(Opened(first, second), map[]), s1, a, mid, before);
  }

  // ---------------------------------------------------------------- what a retry does to the slot

  /** While a bundle is in order its retries revive nothing: in the table of all deployments each of them finds
      its row failed or cancelled. */
  lemma OrderlyRetryIsQuiet(w: World, published: bool, i: nat, t: T.Table, id: nat)
    requires InOrder(w) && RetryAllowed(w.rows, w.bundle, published)
    requires i < |w.rows| && !w.rows[i].status.Success? && id < |t| && t[id].row == w.rows[i]
    ensures T.RetryIsAtomic(t, T.Retry(id, w.rows[i])) && T.RetryIsQuiet(t, T.Retry(id, w.rows[i]))
  {
    hide Front;
    UnfinishedStepsAreOver(w.rows, w.bundle, i);
  }

  /** Out of order it does: a retry after the stale verdict resets a step whose request is with Drone. */
  lemma RetryRevivesAfterStaleVerdict(first: Row, second: Row, quiet: Answer) returns (steps: seq<Step>, w: World)
    requires Queued(first) && Queued(second)
    ensures JustCreated(Opened(first, second)) && PossibleRun(Opened(first, second), steps) && RunTo(Opened(first, second), steps) == w
    ensures Possible(w, Retry(false)) && |w.rows| == 2 && T.Revives(w.rows[0], w.rows[0])
    ensures Next(w, Retry(false)).rows[0].status.Waiting?
  {
    var before;
    before, w := StaleVerdictBreaksOrder(first, second, quiet);
    steps := before + [Conclude(1)];
    hide PossibleRun, RunTo, JustCreated, AlwaysInTurn;
    ResetUnfinishedFirst(w.rows);
  }

  lemma ResetUnfinishedFirst(rows: seq<Row>)
    requires rows != [] && !rows[0].status.Success?
    ensures ResetUnfinished(rows)[0].status.Waiting?
  {
  }
}
