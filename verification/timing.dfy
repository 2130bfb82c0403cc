/** How long an orderly bundle can stay open when something refreshes it often enough. */
module TimeBound {
  import opened Base
  import opened Drone
  import opened Rows
  import opened Bundles

  /** The periods involved: the workflow timeout, and the longest gap between two refreshes. */
  datatype Pace = Pace(timeout: nat, gap: nat)

  /** A bundle with the time of its creation or last retry, the time its last refresh judged at, and the current
      time. */
  datatype Clocked = Clocked(w: World, since: int, lastPass: int, clock: int)

  datatype Tick = Tick(at: int, step: Step)

  /** Time moves forward and, a retry apart, never gets further than one gap past the last refresh; a refresh
      judges with the configured timeout at a time after the last one, and commits within a gap; replies and verdicts come
      in turn, and a reply comes inside the timeout of its own claim; a retry finds no request and no verdict outstanding. */
  predicate Allowed(c: Clocked, tick: Tick, pace: Pace) {
    && c.clock <= tick.at && (tick.at <= c.lastPass + pace.gap || tick.step.Retry?)
    && Possible(c.w, tick.step)
    && match tick.step
       case Advance(_, now, timeout, _) => c.lastPass <= now <= tick.at <= now + pace.gap && timeout == pace.timeout
       case Reply(session, _) =>
         && StepInTurn(c.w, tick.step)
         && c.w.calls[session].seen.startedAt.Some?
         && tick.at <= c.w.calls[session].seen.startedAt.value + pace.timeout
       case Conclude(_) => StepInTurn(c.w, tick.step)
       case Crash(_) => true
       case Retry(_) => c.w.calls == map[] && c.w.refusals == map[]
  }

  function Ticked(c: Clocked, tick: Tick): Clocked
    requires Possible(c.w, tick.step)
  {
    Clocked(Next(c.w, tick.step), if tick.step.Retry? then tick.at else c.since,
            if tick.step.Advance? then tick.step.now else if tick.step.Retry? then tick.at else c.lastPass, tick.at)
  }

  predicate AllowedRun(c: Clocked, ticks: seq<Tick>, pace: Pace)
    decreases |ticks|
  {
    ticks == [] || (Allowed(c, ticks[0], pace) && AllowedRun(Ticked(c, ticks[0]), ticks[1..], pace))
  }

  function RunTo(c: Clocked, ticks: seq<Tick>, pace: Pace): Clocked
    requires AllowedRun(c, ticks, pace)
    decreases |ticks|
  {
    if ticks == [] then c else RunTo(Ticked(c, ticks[0]), ticks[1..], pace)
  }

  /** One timeout and one gap for each of m steps. */
  function Budget(m: nat, pace: Pace): (b: nat)
    ensures m > 0 ==> b >= pace.timeout + pace.gap
  {
    if m == 0 then 0 else pace.timeout + pace.gap + Budget(m - 1, pace)
  }

  lemma {:induction false} BudgetIsProduct(m: nat, pace: Pace)
    ensures Budget(m, pace) == m * (pace.timeout + pace.gap)
  {
    if m > 0 {
      BudgetIsProduct(m - 1, pace);
    }
  }

  // ---------------------------------------------------------------- the invariant

  predicate ClocksKept(w: World) {
    && (forall i :: 0 <= i < |w.rows| ==>
          && (w.rows[i].status.Waiting? ==> w.rows[i].startedAt == None)
          && (w.rows[i].status.InFlight() ==> w.rows[i].startedAt.Some?))
    && (forall s :: s in w.calls ==>
          var call := w.calls[s];
          call.index < |w.rows| && call.seen.startedAt.Some? && w.rows[call.index].startedAt == call.seen.startedAt)
  }

  /** Every started step leaves enough time for itself and the steps behind it. */
  predicate StartsInTime(rows: seq<Row>, deadline: int, pace: Pace) {
    forall i :: 0 <= i < |rows| && rows[i].startedAt.Some? ==>
      rows[i].startedAt.value + Budget(|rows| - i, pace) <= deadline
  }

  /** What is still to come fits before the deadline. */
  predicate FrontInTime(w: World, lastPass: int, deadline: int, pace: Pace) {
    var k := Front(w.rows);
    !w.bundle.status.Terminal() ==>
      && k < |w.rows|
      && match w.rows[k].status
         case Waiting => lastPass + pace.gap + Budget(|w.rows| - k, pace) <= deadline
         case Failed => lastPass + pace.gap <= deadline
         case _ => w.rows[k].startedAt.Some? && lastPass <= w.rows[k].startedAt.value + pace.timeout
  }

  predicate InTime(w: World, lastPass: int, deadline: int, pace: Pace) {
    ClocksKept(w) && StartsInTime(w.rows, deadline, pace) && FrontInTime(w, lastPass, deadline, pace)
  }

  /** One gap and the budget of all steps, from the creation or the last retry on. */
  function Deadline(c: Clocked, pace: Pace): int {
    c.since + pace.gap + Budget(|c.w.rows|, pace)
  }

  predicate OnSchedule(c: Clocked, pace: Pace) {
    && Wellformed(c.w) && Tidy(c.w) && InOrder(c.w)
    && c.since <= c.lastPass <= c.clock <= c.lastPass + pace.gap
    && InTime(c.w, c.lastPass, Deadline(c, pace), pace)
  }

  lemma OpenMeansBeforeDeadline(c: Clocked, pace: Pace)
    requires OnSchedule(c, pace) && !c.w.bundle.status.Terminal()
    ensures c.clock <= Deadline(c, pace)
  {
    var k := Front(c.w.rows);
    assert Budget(|c.w.rows| - k, pace) >= pace.timeout + pace.gap;
  }

  // ---------------------------------------------------------------- one refresh

  lemma PollKeepsStart(row: Row, now: int, timeout: int, answer: Answer)
    requires row.status.InFlight()
    ensures var polled := Refreshed(row, now, timeout, answer);
            polled.startedAt == row.startedAt && (TimedOut(row, now, timeout) ==> polled.status.Failed?)
  {
  }

  /** One refresh of an open, orderly bundle ends it, leaves its front at work inside the timeout, or
      starts the next step now. */
  predicate RefreshOutcome(rows: seq<Row>, k: nat, result: PassResult, now: int, timeout: int)
    requires k < |rows| == |result.rows|
  {
    || (&& result.bundle.status.Terminal() && result.claimed == None
        && forall j :: 0 <= j < |rows| ==> result.rows[j].startedAt == rows[j].startedAt)
    || (&& result.claimed == None && !result.bundle.status.Terminal()
        && rows[k].status.InFlight() && !TimedOut(rows[k], now, timeout)
        && AllBefore(result.rows, k) && result.rows[k].status.InFlight()
        && forall j :: 0 <= j < |rows| ==> result.rows[j].startedAt == rows[j].startedAt)
    || (&& result.claimed.Some? && !result.bundle.status.Terminal()
        && var c := result.claimed.value;
           && c < |rows| && (c == k || (c == k + 1 && rows[k].status.InFlight() && !TimedOut(rows[k], now, timeout)))
           && rows[c].status.Waiting?
           && AllBefore(result.rows, c) && result.rows[c] == Claimed(rows[c], now)
           && forall j :: 0 <= j < |rows| && j != c ==> result.rows[j].startedAt == rows[j].startedAt)
  }

  lemma RefreshHasOutcome(rows: seq<Row>, bundle: Bundle, k: nat, now: int, timeout: int, answers: seq<Answer>)
    requires k < |rows| == |answers| && AllBefore(rows, k) && !rows[k].status.Success?
    requires InOrderAt(rows, bundle, k) && !bundle.status.Terminal()
    ensures RefreshOutcome(rows, k, Pass(rows, bundle, k, now, timeout, answers), now, timeout)
  {
    hide Refreshed, BundleAfterPoll;
    if rows[k].status.InFlight() {
      PolledRefreshHasOutcome(rows, bundle, k, now, timeout, answers);
    }
  }

  lemma AfterSuccess(rows: seq<Row>, bundle: Bundle, i: nat, now: int, timeout: int, answers: seq<Answer>)
    requires i <= |rows| == |answers| && (i < |rows| ==> rows[i].status.Waiting?)
    ensures Pass(rows, bundle, i, now, timeout, answers) ==
            if i == |rows| then PassResult(rows, FinishSuccess(bundle), None)
            else PassResult(rows[i := Claimed(rows[i], now)],
                            Mirrored(bundle, BundleStatus.Promoting, PromoteStage(rows[i].component)), Some(i))
  {
  }

  lemma SucceededRefreshHasOutcome(rows: seq<Row>, bundle: Bundle, k: nat, now: int, timeout: int, answers: seq<Answer>)
    requires k < |rows| == |answers| && AllBefore(rows, k) && rows[k].status.InFlight() && InOrderAt(rows, bundle, k)
    requires !TimedOut(rows[k], now, timeout)
    requires Refreshed(rows[k], now, timeout, answers[k]).status.Success?
    ensures RefreshOutcome(rows, k, Pass(rows, bundle, k, now, timeout, answers), now, timeout)
  {
    var polled := Refreshed(rows[k], now, timeout, answers[k]);
    var rows', bundle' := rows[k := polled], BundleAfterPoll(bundle, rows[k], polled);
    PollKeepsStart(rows[k], now, timeout, answers[k]);
    PolledInFlight(rows[k], bundle, now, timeout, answers[k]);
    PolledStep(rows, bundle, k, now, timeout, answers);
    assert k + 1 < |rows| ==> rows'[k + 1] == rows[k + 1];
    AfterSuccess(rows', bundle', k + 1, now, timeout, answers);
    hide Refreshed, BundleAfterPoll, TimedOut, PromoteStage, Pass;
  }

  lemma FailedRefreshHasOutcome(rows: seq<Row>, bundle: Bundle, k: nat, now: int, timeout: int, answers: seq<Answer>)
    requires k < |rows| == |answers| && rows[k].status.InFlight()
    requires Refreshed(rows[k], now, timeout, answers[k]).status.Failed?
    ensures RefreshOutcome(rows, k, Pass(rows, bundle, k, now, timeout, answers), now, timeout)
  {
    var polled := Refreshed(rows[k], now, timeout, answers[k]);
    PollKeepsStart(rows[k], now, timeout, answers[k]);
    hide Refreshed, BundleAfterPoll, TimedOut;
    assert Pass(rows, bundle, k, now, timeout, answers) ==
           FailBundle(rows[k := polled], BundleAfterPoll(bundle, rows[k], polled), polled);
  }

  lemma PolledRefreshHasOutcome(rows: seq<Row>, bundle: Bundle, k: nat, now: int, timeout: int, answers: seq<Answer>)
    requires k < |rows| == |answers| && AllBefore(rows, k) && rows[k].status.InFlight()
    requires InOrderAt(rows, bundle, k)
    ensures RefreshOutcome(rows, k, Pass(rows, bundle, k, now, timeout, answers), now, timeout)
  {
    var polled := Refreshed(rows[k], now, timeout, answers[k]);
    PollKeepsStart(rows[k], now, timeout, answers[k]);
    PolledInFlight(rows[k], bundle, now, timeout, answers[k]);
    hide Refreshed, TimedOut, RefreshOutcome;
    if polled.status.Success? {
      SucceededRefreshHasOutcome(rows, bundle, k, now, timeout, answers);
    } else if polled.status.Failed? {
      FailedRefreshHasOutcome(rows, bundle, k, now, timeout, answers);
    } else {
      WorkingRefreshHasOutcome(rows, bundle, k, now, timeout, answers);
    }
  }

  lemma WorkingRefreshHasOutcome(rows: seq<Row>, bundle: Bundle, k: nat, now: int, timeout: int, answers: seq<Answer>)
    requires k < |rows| == |answers| && AllBefore(rows, k) && rows[k].status.InFlight() && InOrderAt(rows, bundle, k)
    requires Refreshed(rows[k], now, timeout, answers[k]).status.InFlight()
    ensures RefreshOutcome(rows, k, Pass(rows, bundle, k, now, timeout, answers), now, timeout)
  {
    var polled := Refreshed(rows[k], now, timeout, answers[k]);
    PollKeepsStart(rows[k], now, timeout, answers[k]);
    PolledInFlight(rows[k], bundle, now, timeout, answers[k]);
    hide Refreshed, BundleAfterPoll, TimedOut;
    assert Pass(rows, bundle, k, now, timeout, answers) ==
           PassResult(rows[k := polled], BundleAfterPoll(bundle, rows[k], polled), None);
  }

  /** In a state in order only the front can be at work. */
  lemma AtWorkMeansFront(rows: seq<Row>, bundle: Bundle, j: nat)
    requires InOrderAt(rows, bundle, Front(rows)) && j < |rows| && rows[j].status.InFlight()
    ensures j == Front(rows) && !bundle.status.Terminal()
  {
  }

  lemma AdvanceKeepsClocks(w: World, k: nat, result: PassResult, session: nat, now: int, timeout: int)
    requires ClocksKept(w) && k < |w.rows| == |result.rows|
    requires RefreshOutcome(w.rows, k, result, now, timeout) && QueueKept(w.rows, result, now)
    requires InOrderAt(result.rows, result.bundle, Front(result.rows))
    ensures ClocksKept(World(result.rows, result.bundle,
                             if result.claimed.Some? then w.calls[session := ClaimedCall(result)] else w.calls, w.refusals))
  {
    forall j | 0 <= j < |w.rows| && result.rows[j].status.InFlight()
      ensures result.rows[j].startedAt.Some?
    {
      AtWorkMeansFront(result.rows, result.bundle, j);
      if result.claimed.Some? {
        FrontIs(result.rows, result.claimed.value);
      } else {
        FrontIs(result.rows, k);
      }
    }
  }

  lemma AdvanceStartsInTime(rows: seq<Row>, k: nat, result: PassResult, lastPass: int, now: int, deadline: int, pace: Pace)
    requires k < |rows| == |result.rows| && RefreshOutcome(rows, k, result, now, pace.timeout)
    requires StartsInTime(rows, deadline, pace) && now <= lastPass + pace.gap
    requires rows[k].status.Waiting? ==> lastPass + pace.gap + Budget(|rows| - k, pace) <= deadline
    requires rows[k].status.InFlight() ==> rows[k].startedAt.Some?
    requires forall j :: 0 <= j < |rows| && rows[j].status.Waiting? ==> rows[j].startedAt == None
    ensures StartsInTime(result.rows, deadline, pace)
  {
    if result.claimed.Some? && result.claimed.value == k + 1 {
      assert Budget(|rows| - k, pace) == pace.timeout + pace.gap + Budget(|rows| - k - 1, pace);
    }
  }

  lemma AdvanceFrontInTime(w': World, rows: seq<Row>, k: nat, result: PassResult, now: int, deadline: int, pace: Pace)
    requires k < |rows| == |result.rows| && RefreshOutcome(rows, k, result, now, pace.timeout)
    requires w'.rows == result.rows && w'.bundle == result.bundle
    requires rows[k].status.InFlight() ==> rows[k].startedAt.Some?
    requires result.claimed.Some? ==> rows[result.claimed.value].startedAt == None
    ensures FrontInTime(w', now, deadline, pace)
  {
    if result.claimed.Some? {
      FrontIs(result.rows, result.claimed.value);
    } else if !result.bundle.status.Terminal() {
      FrontIs(result.rows, k);
    }
  }

  lemma PassInTime(w: World, k: nat, result: PassResult, step: Step, lastPass: int, deadline: int, pace: Pace)
    requires InTime(w, lastPass, deadline, pace) && !w.bundle.status.Terminal() && k == Front(w.rows) < |w.rows| == |result.rows|
    requires step.Advance? && step.timeout == pace.timeout && step.now <= lastPass + pace.gap
    requires RefreshOutcome(w.rows, k, result, step.now, step.timeout) && QueueKept(w.rows, result, step.now)
    requires InOrderAt(result.rows, result.bundle, Front(result.rows))
    ensures InTime(World(result.rows, result.bundle,
                         if result.claimed.Some? then w.calls[step.session := ClaimedCall(result)] else w.calls, w.refusals),
                   step.now, deadline, pace)
  {
    var w' := World(result.rows, result.bundle,
                    if result.claimed.Some? then w.calls[step.session := ClaimedCall(result)] else w.calls, w.refusals);
    hide InOrderAt, Budget;
    AdvanceKeepsClocks(w, k, result, step.session, step.now, step.timeout);
    AdvanceStartsInTime(w.rows, k, result, lastPass, step.now, deadline, pace);
    AdvanceFrontInTime(w', w.rows, k, result, step.now, deadline, pace);
    hide Front, RefreshOutcome, QueueKept, ClocksKept, StartsInTime, FrontInTime;
  }

  lemma AdvanceInTime(w: World, step: Step, lastPass: int, deadline: int, pace: Pace)
    requires InOrder(w) && InTime(w, lastPass, deadline, pace) && Possible(w, step) && step.Advance?
    requires step.timeout == pace.timeout && step.now <= lastPass + pace.gap
    requires InOrder(Next(w, step))
    ensures InTime(Next(w, step), step.now, deadline, pace)
  {
    if !w.bundle.status.Terminal() {
      var k := Front(w.rows);
      PassFrom(w.rows, w.bundle, 0, k, step.now, step.timeout, step.answers);
      RefreshHasOutcome(w.rows, w.bundle, k, step.now, step.timeout, step.answers);
      PassKeepsQueue(w.rows, w.bundle, 0, step.now, step.timeout, step.answers);
      hide Pass, RefreshOutcome, QueueKept, ClocksKept, StartsInTime, Budget, InOrderAt, Front;
      PassInTime(w, k, Pass(w.rows, w.bundle, 0, step.now, step.timeout, step.answers), step, lastPass, deadline, pace);
      hide InTime;
    } else {
      hide ClocksKept, StartsInTime, Front, InOrderAt;
    }
  }

  // ---------------------------------------------------------------- one reply

  /** What the reply does to its row, as far as clocks and order are concerned. */
  predicate ReplyEffect(row: Row, merged: Row, outcome: PromoteAnswer) {
    && merged.startedAt == row.startedAt
    && (ReplyUnknown(outcome) ==> merged.status == row.status)
    && (!ReplyUnknown(outcome) ==> merged.status == if ReplyCreates(outcome) then Status.Deploying else Status.Failed)
  }

  lemma ReplyHasEffect(row: Row, seen: Row, outcome: PromoteAnswer)
    requires seen.status == Status.Promoting && seen.promotion == None && seen.errorCode == None && seen.failedStage == None
    ensures ReplyEffect(row, Merge(row, seen, Settled(seen, outcome)), outcome)
  {
    MergedReply(row, seen, outcome);
  }

  lemma ReplyKeepsClocks(w: World, session: nat, merged: Row, w': World, outcome: PromoteAnswer)
    requires ClocksKept(w) && session in w.calls
    requires var call := w.calls[session]; call.index < |w.rows| && ReplyEffect(w.rows[call.index], merged, outcome)
    requires w'.rows == w.rows[w.calls[session].index := merged] && w'.calls == w.calls - {session}
    ensures ClocksKept(w')
  {
  }

  lemma ReplyFrontInTime(w: World, call: Call, merged: Row, outcome: PromoteAnswer, w': World,
                         lastPass: int, deadline: int, pace: Pace)
    requires call.index < |w.rows| && ReplyInTurn(w, call, outcome) && ReplyEffect(w.rows[call.index], merged, outcome)
    requires w.rows[call.index].startedAt.Some? && lastPass <= w.rows[call.index].startedAt.value + pace.timeout
    requires StartsInTime(w.rows, deadline, pace) && FrontInTime(w, lastPass, deadline, pace)
    requires w'.rows == w.rows[call.index := merged] && w'.bundle == BundleAfterPromote(w.bundle, w.rows[call.index], outcome)
    ensures FrontInTime(w', lastPass, deadline, pace)
  {
    hide Front;
    var i := call.index;
    var rows := w.rows[i := merged];
    assert forall j :: 0 <= j < |rows| && j != i ==> rows[j] == w.rows[j];
    if ReplyUnknown(outcome) {
      FrontIs(rows, Front(w.rows));
    } else {
      FrontIs(rows, i);
      assert Budget(|w.rows| - i, pace) >= pace.timeout + pace.gap;
    }
  }

  lemma ReplyInTime(w: World, step: Step, lastPass: int, deadline: int, pace: Pace)
    requires Wellformed(w) && InTime(w, lastPass, deadline, pace) && Possible(w, step) && step.Reply? && StepInTurn(w, step)
    requires var seen := w.calls[step.session].seen; seen.startedAt.Some? && lastPass <= seen.startedAt.value + pace.timeout
    ensures InTime(Next(w, step), lastPass, deadline, pace)
  {
    var call, w' := w.calls[step.session], Next(w, step);
    assert CallFits(w.rows, call);
    var row := w.rows[call.index];
    var merged := Merge(row, call.seen, Settled(call.seen, step.outcome));
    ReplyHasEffect(row, call.seen, step.outcome);
    hide Merge, Settled, BundleAfterPromote, Front, Budget, BooksFit, QueueFresh;
    ReplyKeepsClocks(w, step.session, merged, w', step.outcome);
    ReplyFrontInTime(w, call, merged, step.outcome, w', lastPass, deadline, pace);
    assert StartsInTime(w'.rows, deadline, pace);
    hide FrontInTime, ClocksKept, StartsInTime, ReplyInTurn;
  }

  // ---------------------------------------------------------------- one verdict from old copies

  lemma ConcludeKeepsStarts(w: World, refusal: Refusal, deadline: int, pace: Pace)
    requires refusal.call.index < |refusal.call.copies| == |w.rows|
    requires ClocksKept(w) && StartsInTime(w.rows, deadline, pace)
    ensures ClocksKept(Concluded(w, refusal)) && StartsInTime(Concluded(w, refusal).rows, deadline, pace)
  {
    CancelMerged(w.rows, refusal.Held());
    hide CancelHeld, CancelWaiting, MergeBundle, Verdict, Budget;
  }

  lemma ConcludedInTime(w: World, refusal: Refusal, lastPass: int, deadline: int, pace: Pace)
    requires Shaped(refusal.call) && |refusal.call.copies| == |w.rows| && ReplyRefuses(refusal.outcome)
    requires InTime(w, lastPass, deadline, pace)
    ensures InTime(Concluded(w, refusal), lastPass, deadline, pace)
  {
    ConcludeKeepsStarts(w, refusal, deadline, pace);
    ConcludedBundle(w, refusal);
    hide Concluded, StartsInTime, ClocksKept, Front, Shaped, ReplyRefuses;
  }

  lemma RefusalsDoNotCount(w: World, refusals: map<nat, Refusal>, lastPass: int, deadline: int, pace: Pace)
    requires InTime(w, lastPass, deadline, pace)
    ensures InTime(w.(refusals := refusals), lastPass, deadline, pace)
  {
    hide StartsInTime, Front, Budget;
  }

  lemma ConcludeInTime(w: World, session: nat, lastPass: int, deadline: int, pace: Pace)
    requires Wellformed(w) && Tidy(w) && InTime(w, lastPass, deadline, pace) && Possible(w, Conclude(session))
    ensures InTime(Next(w, Conclude(session)), lastPass, deadline, pace)
  {
    var refusal := w.refusals[session];
    assert Shaped(refusal.call) && ReplyRefuses(refusal.outcome) && CallFits(w.rows, refusal.call);
    hide Tidy, Wellformed, InTime, Shaped, ReplyRefuses;
    ConcludedInTime(w, refusal, lastPass, deadline, pace);
    RefusalsDoNotCount(Concluded(w, refusal), w.refusals - {session}, lastPass, deadline, pace);
    hide Concluded, CallFits;
  }

  lemma CrashInTime(w: World, session: nat, lastPass: int, deadline: int, pace: Pace)
    requires InTime(w, lastPass, deadline, pace)
    ensures InTime(Next(w, Crash(session)), lastPass, deadline, pace)
  {
    var w' := Next(w, Crash(session));
    assert w'.rows == w.rows && w'.bundle == w.bundle && w'.calls == w.calls - {session};
    hide Next, StartsInTime, Front, Budget;
    assert ClocksKept(w');
    assert FrontInTime(w', lastPass, deadline, pace);
  }

  // ---------------------------------------------------------------- whole runs

  lemma {:induction false} BudgetGrows(m: nat, n: nat, pace: Pace)
    requires m <= n
    ensures Budget(m, pace) <= Budget(n, pace)
  {
    if m < n {
      BudgetGrows(m, n - 1, pace);
    }
  }

  /** Rows that wait with nothing started, behind successes, have all of the budget before them. */
  lemma FreshInTime(w: World, now: int, pace: Pace)
    requires w.calls == map[] && Front(w.rows) < |w.rows|
    requires forall i :: 0 <= i < |w.rows| ==> w.rows[i].status.Success? || (w.rows[i].status.Waiting? && w.rows[i].startedAt == None)
    requires StartsInTime(w.rows, now + pace.gap + Budget(|w.rows|, pace), pace)
    ensures InTime(w, now, now + pace.gap + Budget(|w.rows|, pace), pace)
  {
    BudgetGrows(|w.rows| - Front(w.rows), |w.rows|, pace);
    hide Front;
    assert ClocksKept(w);
    assert FrontInTime(w, now, now + pace.gap + Budget(|w.rows|, pace), pace);
  }

  lemma RetriedRows(w: World, published: bool)
    requires Possible(w, Retry(published))
    ensures var rows := Next(w, Retry(published)).rows;
            && |rows| == |w.rows| && Front(rows) < |rows|
            && (forall i :: 0 <= i < |rows| ==> rows[i].status.Success? || (rows[i].status.Waiting? && rows[i].startedAt == None))
            && (forall i :: 0 <= i < |rows| && rows[i].startedAt.Some? ==> rows[i] == w.rows[i])
  {
    var rows := Next(w, Retry(published)).rows;
    var i :| 0 <= i < |w.rows| && !w.rows[i].status.Success?;
    assert !rows[i].status.Success?;
    hide Front;
    assert Front(rows) <= i;
  }

  lemma RetriedInTime(w: World, published: bool, lastPass: int, before: int, now: int, pace: Pace)
    requires InTime(w, lastPass, before, pace) && Possible(w, Retry(published)) && w.calls == map[]
    requires before <= now + pace.gap + Budget(|w.rows|, pace)
    ensures InTime(Next(w, Retry(published)), now, now + pace.gap + Budget(|w.rows|, pace), pace)
  {
    assert StartsInTime(w.rows, before, pace);
    var w' := Next(w, Retry(published));
    RetriedRows(w, published);
    assert w'.calls == map[];
    hide Next, Front, InTime, Budget;
    FreshInTime(w', now, pace);
  }

  /** A retry that finds nothing outstanding starts a new schedule. */
  lemma RetryOnSchedule(c: Clocked, tick: Tick, pace: Pace)
    requires OnSchedule(c, pace) && Allowed(c, tick, pace) && tick.step.Retry?
    ensures OnSchedule(Ticked(c, tick), pace)
  {
    hide Wellformed, Tidy, InOrder, InTime, Next, Possible;
    assert StepInTurn(c.w, tick.step);
    StepInTurnKeeps(c.w, tick.step);
    StepKeepsLength(c.w, tick.step);
    RetriedInTime(c.w, tick.step.published, c.lastPass, Deadline(c, pace), tick.at, pace);
  }

  /** Every allowed step keeps the schedule. */
  lemma TickOnSchedule(c: Clocked, tick: Tick, pace: Pace)
    requires OnSchedule(c, pace) && Allowed(c, tick, pace)
    ensures OnSchedule(Ticked(c, tick), pace)
  {
    hide Wellformed, Tidy, InOrder, InTime, StepInTurn, Next, Possible;
    if tick.step.Retry? {
      RetryOnSchedule(c, tick, pace);
      return;
    }
    assert StepInTurn(c.w, tick.step) by {
      TimedStepsAreInTurn(c, tick, pace);
    }
    StepInTurnKeeps(c.w, tick.step);
    StepKeepsLength(c.w, tick.step);
    var deadline := Deadline(c, pace);
    match tick.step
    case Advance(_, _, _, _) =>
      AdvanceInTime(c.w, tick.step, c.lastPass, deadline, pace);
    case Reply(_, _) =>
      ReplyInTime(c.w, tick.step, c.lastPass, deadline, pace);
    case Conclude(session) =>
      ConcludeInTime(c.w, session, c.lastPass, deadline, pace);
    case Crash(session) =>
      CrashInTime(c.w, session, c.lastPass, deadline, pace);
  }

  lemma StepKeepsLength(w: World, step: Step)
    requires Possible(w, step)
    ensures |Next(w, step).rows| == |w.rows|
  {
  }

  lemma TimedStepsAreInTurn(c: Clocked, tick: Tick, pace: Pace)
    requires Allowed(c, tick, pace)
    ensures StepInTurn(c.w, tick.step)
  {
    hide ReplyInTurn, RefusalStands;
  }

  lemma {:induction false} StaysOnSchedule(c: Clocked, ticks: seq<Tick>, pace: Pace)
    requires OnSchedule(c, pace) && AllowedRun(c, ticks, pace)
    ensures OnSchedule(RunTo(c, ticks, pace), pace) && |RunTo(c, ticks, pace).w.rows| == |c.w.rows|
    decreases |ticks|
  {
    if ticks != [] {
      hide OnSchedule, Next, Possible;
      TickOnSchedule(c, ticks[0], pace);
      StepKeepsLength(c.w, ticks[0].step);
      StaysOnSchedule(Ticked(c, ticks[0]), ticks[1..], pace);
    }
  }

  /** A bundle nobody has begun to work on since its creation or its last retry, at the latest just now. */
  predicate Fresh(w: World, now: int) {
    && Wellformed(w) && Tidy(w) && InOrder(w) && w.calls == map[] && Front(w.rows) < |w.rows|
    && (forall i :: 0 <= i < |w.rows| ==> w.rows[i].status.Success? || (w.rows[i].status.Waiting? && w.rows[i].startedAt == None))
    && (forall i :: 0 <= i < |w.rows| && w.rows[i].startedAt.Some? ==> w.rows[i].startedAt.value <= now)
  }

  lemma FreshOnSchedule(w: World, created: int, pace: Pace)
    requires Fresh(w, created)
    ensures OnSchedule(Clocked(w, created, created, created), pace)
  {
    var deadline := created + pace.gap + Budget(|w.rows|, pace);
    forall m: nat | m <= |w.rows|
      ensures Budget(m, pace) <= Budget(|w.rows|, pace)
    {
      BudgetGrows(m, |w.rows|, pace);
    }
    assert StartsInTime(w.rows, deadline, pace);
    FreshInTime(w, created, pace);
  }

  /** Refreshed at least once per gap, a bundle of n components is over once a gap and n times (timeout
      plus gap) have passed since it was created or last retried, whatever Drone answers or fails to answer,
      whoever crashes, and however often it is retried. */
  lemma OverInTime(w: World, created: int, ticks: seq<Tick>, pace: Pace)
    requires Fresh(w, created)
    requires AllowedRun(Clocked(w, created, created, created), ticks, pace)
    ensures var c := RunTo(Clocked(w, created, created, created), ticks, pace);
            c.clock > c.since + pace.gap + |w.rows| * (pace.timeout + pace.gap) ==> c.w.bundle.status.Terminal()
  {
    BudgetIsProduct(|w.rows|, pace);
    FreshOnSchedule(w, created, pace);
    StaysOnSchedule(Clocked(w, created, created, created), ticks, pace);
    hide OnSchedule, AllowedRun, RunTo, Budget, Fresh;
    var c := RunTo(Clocked(w, created, created, created), ticks, pace);
    if !c.w.bundle.status.Terminal() {
      OpenMeansBeforeDeadline(c, pace);
    }
  }

  /** The premise that a retry finds no request outstanding is needed: a reply to an attempt
      that has since been reset puts the row at work without a start time, and such a row never times out. */
  lemma ReplyToResetRowNeverTimesOut(row: Row, seen: Row, number: int, now: int, timeout: int)
    requires row.status.Waiting? && row.startedAt == None
    requires seen.status == Status.Promoting && seen.promotion == None && seen.errorCode == None && seen.failedStage == None
    ensures var merged := Merge(row, seen, Settled(seen, PromoteAnswer(true, true, Created(number))));
            merged.status == Status.Deploying && !TimedOut(merged, now, timeout)
  {
    ReplyHasEffect(row, seen, PromoteAnswer(true, true, Created(number)));
  }
}

/** The same bound for sessions that walk from copies, when a walk commits only over the rows and the bundle it loaded. */
module GuardedTime {
  import opened Base
  import opened Rows
  import B = Bundles
  import S = StaleWalks
  import T = TimeBound

  /** What a version column on each row would tell the session before it commits. */
  predicate AsLoaded(now: B.World, copy: S.Copy) {
    now.rows == copy.rows && now.bundle == copy.bundle
  }

  /** However long ago the copy was taken, such a walk is one that reads the rows in the step that commits. */
  lemma GuardedWalkIsAdvance(w: S.State, step: S.Step)
    requires S.Possible(w, step) && step.Walk? && AsLoaded(w.now, w.copies[step.session])
    ensures B.Possible(w.now, B.Advance(step.session, step.at, step.timeout, step.answers))
    ensures S.Next(w, step).now == B.Next(w.now, B.Advance(step.session, step.at, step.timeout, step.answers))
  {
    S.FreshWalkFrom(w.now.rows, w.now.bundle, S.View(w.now.bundle, w.now.bundle), 0, step.at, step.timeout, step.answers);
    hide S.WalkFrom, B.Pass;
  }

  datatype Clocked = Clocked(s: S.State, since: int, lastPass: int, clock: int) {
    function Live(): T.Clocked {
      T.Clocked(s.now, since, lastPass, clock)
    }
  }

  datatype Tick = Tick(at: int, step: S.Step) {
    /** The tick as the live rows see it: taking a copy is nothing to them. */
    function Live(): T.Tick
      requires !step.Load?
    {
      match step
      case Walk(session, now, timeout, answers) => T.Tick(at, B.Advance(session, now, timeout, answers))
      case Other(other) => T.Tick(at, other)
    }
  }

  predicate Allowed(c: Clocked, tick: Tick, pace: T.Pace) {
    && S.Possible(c.s, tick.step)
    && (tick.step.Walk? ==> AsLoaded(c.s.now, c.s.copies[tick.step.session]))
    && (!tick.step.Load? ==> T.Allowed(c.Live(), tick.Live(), pace))
  }

  function Ticked(c: Clocked, tick: Tick, pace: T.Pace): Clocked
    requires Allowed(c, tick, pace)
  {
    if tick.step.Load? then c.(s := S.Next(c.s, tick.step))
    else
      var t := T.Ticked(c.Live(), tick.Live());
      Clocked(S.Next(c.s, tick.step), t.since, t.lastPass, t.clock)
  }

  predicate AllowedRun(c: Clocked, ticks: seq<Tick>, pace: T.Pace)
    decreases |ticks|
  {
    ticks == [] || (Allowed(c, ticks[0], pace) && AllowedRun(Ticked(c, ticks[0], pace), ticks[1..], pace))
  }

  function RunTo(c: Clocked, ticks: seq<Tick>, pace: T.Pace): Clocked
    requires AllowedRun(c, ticks, pace)
    decreases |ticks|
  {
    if ticks == [] then c else RunTo(Ticked(c, ticks[0], pace), ticks[1..], pace)
  }

  lemma TickIsLive(c: Clocked, tick: Tick, pace: T.Pace)
    requires Allowed(c, tick, pace)
    ensures Ticked(c, tick, pace).Live() == if tick.step.Load? then c.Live() else T.Ticked(c.Live(), tick.Live())
  {
    hide T.Allowed, B.Next, AsLoaded;
    if tick.step.Walk? {
      GuardedWalkIsAdvance(c.s, tick.step);
      hide S.Next;
    }
  }

  /** Every such run is, for the live rows, one without copies. */
  lemma {:induction false} RunIsLive(c: Clocked, ticks: seq<Tick>, pace: T.Pace) returns (live: seq<T.Tick>)
    requires AllowedRun(c, ticks, pace)
    ensures T.AllowedRun(c.Live(), live, pace) && T.RunTo(c.Live(), live, pace) == RunTo(c, ticks, pace).Live()
    decreases |ticks|
  {
    if ticks == [] {
      return [];
    }
    TickIsLive(c, ticks[0], pace);
    live := RunIsLive(Ticked(c, ticks[0], pace), ticks[1..], pace);
    if !ticks[0].step.Load? {
      var first, rest := ticks[0].Live(), live;
      hide T.Allowed, T.Ticked, Ticked;
      live := [first] + rest;
      assert live[1..] == rest;
    }
  }

  lemma OverInTime(w: S.State, created: int, ticks: seq<Tick>, pace: T.Pace)
    requires T.Fresh(w.now, created)
    requires AllowedRun(Clocked(w, created, created, created), ticks, pace)
    ensures var c := RunTo(Clocked(w, created, created, created), ticks, pace);
            c.clock > c.since + pace.gap + |w.now.rows| * (pace.timeout + pace.gap) ==> c.s.now.bundle.status.Terminal()
  {
    var live := RunIsLive(Clocked(w, created, created, created), ticks, pace);
    T.OverInTime(w.now, created, live, pace);
    hide T.Fresh, AllowedRun, RunTo, T.AllowedRun, T.RunTo;
  }
}
