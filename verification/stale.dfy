/** Walks from copies of any age: a session loads the bundle and its steps, asks Drone, and commits later.

    What it polled is flushed column by column over rows that may have moved on; a claim is won or lost on the
    row as it is, and a lost claim shows the winner's row.  Everything else is as in `Bundles`, whose walk is the
    case of a copy taken in the same step. */
module StaleWalks {
  import opened Base
  import opened Drone
  import opened Rows
  import opened B = Bundles

  datatype Copy = Copy(rows: seq<Row>, bundle: Bundle)

  datatype State = State(now: B.World, copies: map<nat, Copy>)

  datatype Step =
    | Load(session: nat)
    | Walk(session: nat, at: int, timeout: int, answers: seq<Answer>)
    | Other(step: B.Step)

  predicate Idle(w: State, session: nat) {
    session !in w.now.calls && session !in w.now.refusals
  }

  predicate Possible(w: State, step: Step) {
    match step
    case Load(session) => Idle(w, session)
    case Walk(session, _, _, answers) =>
      && session in w.copies && Idle(w, session)
      && |answers| == |w.now.rows| == |w.copies[session].rows|
    case Other(step) => !step.Advance? && B.Possible(w.now, step)
  }

  // ---------------------------------------------------------------- one walk from a copy

  /** What the walk commits, and the request it then makes. */
  datatype Commit = Commit(rows: seq<Row>, bundle: Bundle, call: Option<Call>)

  /** The session's own view of the bundle while it walks: as loaded, and as it wants it. */
  datatype View = View(seen: Bundle, wanted: Bundle)

  function Committed(rows: seq<Row>, bundle: Bundle, view: View): Commit {
    Commit(rows, MergeBundle(bundle, view.seen, view.wanted), None)
  }

  function Fails(rows: seq<Row>, bundle: Bundle, held: seq<Row>, view: View, failed: Row): Commit
    requires |rows| == |held|
  {
    Committed(CancelHeld(rows, held), bundle, view.(wanted := Verdict(CancelWaiting(held), view.wanted, failed)))
  }

  function Claims(rows: seq<Row>, bundle: Bundle, held: seq<Row>, view: View, i: nat, at: int): Commit
    requires i < |rows| == |held|
  {
    var claimed, wanted := Claimed(rows[i], at), Mirrored(view.wanted, BundleStatus.Promoting, PromoteStage(held[i].component));
    Committed(rows[i := claimed], bundle, view.(wanted := wanted)).(call := Some(Call(i, claimed, held[i := claimed], wanted)))
  }

  function WalkFrom(rows: seq<Row>, bundle: Bundle, held: seq<Row>, view: View, i: nat,
                    at: int, timeout: int, answers: seq<Answer>): (commit: Commit)
    requires i <= |rows| == |held| == |answers|
    ensures |commit.rows| == |rows|
    decreases |rows| - i
  {
    if i == |rows| then Committed(rows, bundle, view.(wanted := FinishSuccess(view.wanted)))
    else
      match held[i].status
      case Success => WalkFrom(rows, bundle, held, view, i + 1, at, timeout, answers)
      case Failed => Fails(rows, bundle, held, view, held[i])
      case Cancelled => Committed(rows, bundle, view)
      case Waiting =>
        if rows[i].status.Waiting? then Claims(rows, bundle, held, view, i, at)
        else if rows[i].status.Failed? then Fails(rows, bundle, held[i := rows[i]], view, rows[i])
        else if rows[i].status.Success? then WalkFrom(rows, bundle, held[i := rows[i]], view, i + 1, at, timeout, answers)
        else Committed(rows, bundle, view)
      case _ =>
        var polled := Refreshed(held[i], at, timeout, answers[i]);
        var rows', held' := rows[i := Merge(rows[i], held[i], polled)], held[i := polled];
        var view' := view.(wanted := BundleAfterPoll(view.wanted, held[i], polled));
        if polled.status.Failed? then Fails(rows', bundle, held', view', polled)
        else if polled.status.Success? then WalkFrom(rows', bundle, held', view', i + 1, at, timeout, answers)
        else Committed(rows', bundle, view')
  }

  function WalkOf(w: State, step: Step): Commit
    requires step.Walk? && Possible(w, step)
  {
    var copy := w.copies[step.session];
    if copy.bundle.status.Terminal() then Commit(w.now.rows, w.now.bundle, None)
    else WalkFrom(w.now.rows, w.now.bundle, copy.rows, View(copy.bundle, copy.bundle), 0, step.at, step.timeout, step.answers)
  }

  function Next(w: State, step: Step): State
    requires Possible(w, step)
  {
    match step
    case Load(session) => w.(copies := w.copies[session := Copy(w.now.rows, w.now.bundle)])
    case Walk(session, _, _, _) =>
      var commit := WalkOf(w, step);
      State(B.World(commit.rows, commit.bundle,
                    if commit.call.Some? then w.now.calls[session := commit.call.value] else w.now.calls, w.now.refusals),
            w.copies - {session})
    case Other(step) => State(B.Next(w.now, step), if step.Crash? then w.copies - {step.session} else w.copies)
  }

  /** What a walk does when it polls step i. */
  lemma WalkPolls(rows: seq<Row>, bundle: Bundle, held: seq<Row>, view: View, i: nat, at: int, timeout: int, answers: seq<Answer>)
    requires i < |rows| == |held| == |answers| && held[i].status.InFlight()
    ensures var polled := Refreshed(held[i], at, timeout, answers[i]);
            var rows', held' := rows[i := Merge(rows[i], held[i], polled)], held[i := polled];
            var view' := view.(wanted := BundleAfterPoll(view.wanted, held[i], polled));
            WalkFrom(rows, bundle, held, view, i, at, timeout, answers) ==
            if polled.status.Failed? then Fails(rows', bundle, held', view', polled)
            else if polled.status.Success? then WalkFrom(rows', bundle, held', view', i + 1, at, timeout, answers)
            else Committed(rows', bundle, view')
  {
    hide Refreshed, BundleAfterPoll, Merge, Committed, Fails;
  }

  /** And when it does not. */
  lemma WalkTurns(rows: seq<Row>, bundle: Bundle, held: seq<Row>, view: View, i: nat, at: int, timeout: int, answers: seq<Answer>)
    requires i < |rows| == |held| == |answers| && !held[i].status.InFlight()
    ensures WalkFrom(rows, bundle, held, view, i, at, timeout, answers) ==
            if held[i].status.Success? then WalkFrom(rows, bundle, held, view, i + 1, at, timeout, answers)
            else if held[i].status.Failed? then Fails(rows, bundle, held, view, held[i])
            else if held[i].status.Cancelled? then Committed(rows, bundle, view)
            else if rows[i].status.Waiting? then Claims(rows, bundle, held, view, i, at)
            else if rows[i].status.Failed? then Fails(rows, bundle, held[i := rows[i]], view, rows[i])
            else if rows[i].status.Success? then WalkFrom(rows, bundle, held[i := rows[i]], view, i + 1, at, timeout, answers)
            else Committed(rows, bundle, view)
  {
    hide Committed, Fails, Claims, Refreshed, Merge;
  }

  lemma FreshCancel(rows: seq<Row>)
    ensures CancelHeld(rows, rows) == CancelWaiting(rows)
  {
    forall j | 0 <= j < |rows| && rows[j].status.Waiting?
      ensures CancelHeld(rows, rows)[j] == CancelledRow(rows[j])
    {
      MergeOfFreshCopy(rows[j], CancelledRow(rows[j]));
    }
    hide Merge, CancelledRow;
    assert CancelHeld(rows, rows) == CancelWaiting(rows);
  }

  predicate SameCommit(commit: Commit, result: PassResult)
    requires result.claimed.Some? ==> result.claimed.value < |result.rows|
  {
    && commit.rows == result.rows && commit.bundle == result.bundle
    && commit.call == if result.claimed.Some? then Some(ClaimedCall(result)) else None
  }

  lemma FreshFails(rows: seq<Row>, bundle: Bundle, view: View, failed: Row)
    requires view.seen == bundle
    ensures SameCommit(Fails(rows, bundle, rows, view, failed), FailBundle(rows, view.wanted, failed))
  {
    FreshCancel(rows);
    hide CancelHeld, CancelWaiting;
  }

  /** A walk from a copy taken just before is the walk of `Bundles`. */
  lemma {:induction false} FreshWalkFrom(rows: seq<Row>, bundle: Bundle, view: View, i: nat, at: int, timeout: int, answers: seq<Answer>)
    requires i <= |rows| == |answers| && view.seen == bundle
    ensures SameCommit(WalkFrom(rows, bundle, rows, view, i, at, timeout, answers), Pass(rows, view.wanted, i, at, timeout, answers))
    decreases |rows| - i
  {
    if i == |rows| {
    } else if rows[i].status.Success? {
      FreshWalkFrom(rows, bundle, view, i + 1, at, timeout, answers);
    } else if rows[i].status.InFlight() {
      var polled := Refreshed(rows[i], at, timeout, answers[i]);
      var rows', view' := rows[i := polled], view.(wanted := BundleAfterPoll(view.wanted, rows[i], polled));
      PolledInFlight(rows[i], view.wanted, at, timeout, answers[i]);
      MergeOfFreshCopy(rows[i], polled);
      WalkPolls(rows, bundle, rows, view, i, at, timeout, answers);
      PolledStep(rows, view.wanted, i, at, timeout, answers);
      if polled.status.Failed? {
        FreshFails(rows', bundle, view', polled);
        hide *;
      } else if polled.status.Success? {
        FreshWalkFrom(rows', bundle, view', i + 1, at, timeout, answers);
        hide *;
      } else {
        hide WalkFrom, Pass, Refreshed, Merge, BundleAfterPoll;
      }
    } else if rows[i].status.Failed? {
      FreshFails(rows, bundle, view, rows[i]);
      hide FailBundle, Fails, Refreshed, Merge;
    } else {
      hide Refreshed, Merge, Claimed;
    }
  }

  lemma FreshWalkIsAdvance(w: State, session: nat, at: int, timeout: int, answers: seq<Answer>)
    requires Possible(w, Load(session)) && |answers| == |w.now.rows|
    ensures Possible(Next(w, Load(session)), Walk(session, at, timeout, answers))
    ensures B.Possible(w.now, Advance(session, at, timeout, answers))
    ensures Next(Next(w, Load(session)), Walk(session, at, timeout, answers)).now ==
            B.Next(w.now, Advance(session, at, timeout, answers))
  {
    FreshWalkFrom(w.now.rows, w.now.bundle, View(w.now.bundle, w.now.bundle), 0, at, timeout, answers);
    hide WalkFrom, Pass;
  }

  // ---------------------------------------------------------------- catching up with the rows

  /** The first step from i on whose row has not succeeded. */
  function Unfinished(rows: seq<Row>, i: nat): (m: nat)
    requires i <= |rows|
    ensures i <= m <= |rows| && (forall j :: i <= j < m ==> rows[j].status.Success?)
    ensures m < |rows| ==> !rows[m].status.Success?
    decreases |rows| - i
  {
    if i == |rows| || !rows[i].status.Success? then i else Unfinished(rows, i + 1)
  }

  /** The copies after steps i to m have been looked at again. */
  function Shown(held: seq<Row>, rows: seq<Row>, i: nat, m: nat): (shown: seq<Row>)
    requires i <= m <= |rows| == |held|
    ensures |shown| == |held|
  {
    held[..i] + rows[i..m] + held[m..]
  }

  function Decided(rows: seq<Row>, bundle: Bundle, shown: seq<Row>, view: View, m: nat, at: int): Commit
    requires m <= |rows| == |shown|
  {
    if m == |rows| then Committed(rows, bundle, view.(wanted := FinishSuccess(view.wanted)))
    else if rows[m].status.Waiting? then Claims(rows, bundle, shown, view, m, at)
    else if rows[m].status.Failed? then Fails(rows, bundle, shown[m := rows[m]], view, rows[m])
    else Committed(rows, bundle, view)
  }

  /** Where a walk ends that finds only queued steps in its copies: every claim of a step that has succeeded
      meanwhile is lost and moves it on. */
  function CaughtUp(rows: seq<Row>, bundle: Bundle, held: seq<Row>, view: View, i: nat, at: int): Commit
    requires i <= |rows| == |held|
  {
    var m := Unfinished(rows, i);
    Decided(rows, bundle, Shown(held, rows, i, m), view, m, at)
  }

  lemma {:induction false} WalkCatchesUp(rows: seq<Row>, bundle: Bundle, held: seq<Row>, view: View, i: nat,
                                         at: int, timeout: int, answers: seq<Answer>)
    requires i <= |rows| == |held| == |answers|
    requires forall j :: i <= j < |held| ==> held[j].status.Waiting?
    ensures WalkFrom(rows, bundle, held, view, i, at, timeout, answers) == CaughtUp(rows, bundle, held, view, i, at)
    decreases |rows| - i
  {
    hide Fails, Claims, Committed, FinishSuccess, Refreshed, Merge;
    if i == |rows| {
    } else if rows[i].status.Success? {
      var held' := held[i := rows[i]];
      WalkCatchesUp(rows, bundle, held', view, i + 1, at, timeout, answers);
      var m := Unfinished(rows, i);
      assert Shown(held', rows, i + 1, m) == Shown(held, rows, i, m);
    } else {
      assert Shown(held, rows, i, i) == held;
    }
  }

  lemma WalkFromFront(rows: seq<Row>, bundle: Bundle, held: seq<Row>, view: View, i: nat, k: nat,
                      at: int, timeout: int, answers: seq<Answer>)
    requires i <= k <= |rows| == |held| == |answers| && AllBefore(held, k)
    ensures WalkFrom(rows, bundle, held, view, i, at, timeout, answers) == WalkFrom(rows, bundle, held, view, k, at, timeout, answers)
    decreases k - i
  {
    hide Fails, Claims, Committed, FinishSuccess, Refreshed, Merge;
    if i < k {
      WalkFromFront(rows, bundle, held, view, i + 1, k, at, timeout, answers);
    }
  }

  // ---------------------------------------------------------------- when a commit is in order

  predicate Steady(bundle: Bundle) {
    bundle.status == bundle.deploymentStatus
  }

  lemma MergedStatus(bundle: Bundle, view: View)
    requires Steady(bundle) && Steady(view.seen) && Steady(view.wanted)
    ensures var merged := MergeBundle(bundle, view.seen, view.wanted);
            Steady(merged) && merged.status == if view.wanted.status == view.seen.status then bundle.status else view.wanted.status
  {
  }

  lemma FinishInOrderIff(rows: seq<Row>, bundle: Bundle)
    requires Steady(bundle) && bundle.status.Success?
    ensures InOrderAt(rows, bundle, Front(rows)) <==> AllBefore(rows, |rows|)
  {
    if AllBefore(rows, |rows|) {
      FrontIs(rows, |rows|);
    }
  }

  /** The row carries the failure that the session records in the bundle: stage and code, and where its copy of
      the bundle has one of them already and so leaves it unwritten, what the bundle has. */
  predicate Carries(row: Row, now: Bundle, seen: Bundle, failed: Row) {
    && (seen.stage.Some? || now.stage == None)
    && row.failedStage == (if failed.failedStage != seen.failedStage then failed.failedStage else now.failedStage)
    && row.errorCode == (if failed.errorCode != seen.errorCode then failed.errorCode else now.errorCode)
  }

  /** As a rule the copy carries no verdict. */
  lemma CarriesPlainly(row: Row, now: Bundle, seen: Bundle, failed: Row)
    requires seen.stage.Some? && seen.failedStage == None && seen.errorCode == None
    requires failed.failedStage.Some? && failed.errorCode.Some?
    ensures Carries(row, now, seen, failed) <==> row.failedStage == failed.failedStage && row.errorCode == failed.errorCode
  {
  }

  /** The first step that has not succeeded has failed with what the session records, and nothing from there to
      step i is alive. */
  predicate FailureFits(rows: seq<Row>, i: nat, now: Bundle, seen: Bundle, failed: Row) {
    var k := Front(rows);
    && k <= i < |rows| && (k > 0 <==> i > 0)
    && rows[k].status.Failed? && Carries(rows[k], now, seen, failed)
    && forall j :: k < j <= i ==> rows[j].status.Cancelled?
  }

  /** When step i has failed itself, it is that step. */
  lemma FailedItself(rows: seq<Row>, i: nat, now: Bundle, seen: Bundle, failed: Row)
    requires i < |rows| && rows[i].status.Failed?
    ensures FailureFits(rows, i, now, seen, failed) <==> AllBefore(rows, i) && Carries(rows[i], now, seen, failed)
  {
    if AllBefore(rows, i) {
      FrontIs(rows, i);
    }
  }

  /** The bundle's verdict is that of the first step that has not succeeded. */
  predicate VerdictFits(rows: seq<Row>, i: nat, bundle: Bundle) {
    var k := Front(rows);
    && k <= i < |rows| && (k > 0 <==> i > 0)
    && rows[k].status.Failed? && bundle.stage == None
    && bundle.failedStage == rows[k].failedStage && bundle.errorCode == rows[k].errorCode
    && forall j :: k < j <= i ==> rows[j].status.Cancelled?
  }

  lemma CancelledBehindIff(before: seq<Row>, rows: seq<Row>, i: nat, bundle: Bundle)
    requires i < |rows| == |before| && (forall j :: 0 <= j <= i ==> rows[j] == before[j]) && AllAfter(rows, i, Status.Cancelled)
    requires Steady(bundle) && bundle.status == StoppedStatus(i)
    ensures InOrderAt(rows, bundle, Front(rows)) <==> VerdictFits(before, i, bundle)
  {
    var k := Front(before);
    hide Front;
    if k <= i {
      FrontIs(rows, k);
    } else if i + 1 < |rows| {
      FrontIs(rows, i + 1);
    } else {
      FrontIs(rows, |rows|);
    }
  }

  lemma FailedStatus(bundle: Bundle, held: seq<Row>, view: View, i: nat, failed: Row)
    requires i < |held| && held[i] == failed && failed.status.Failed? && AllBefore(held, i) && AllAfter(held, i, Status.Waiting)
    requires Steady(bundle) && Steady(view.seen) && !view.seen.status.Terminal()
    ensures var left := MergeBundle(bundle, view.seen, Verdict(CancelWaiting(held), view.wanted, failed));
            Steady(left) && left.status == StoppedStatus(i)
  {
    var after := CancelWaiting(held);
    if i > 0 {
      assert after[0].status.Success?;
    }
    assert AnySucceeded(after) <==> i > 0;
    hide CancelWaiting, AnySucceeded;
    MergedStatus(bundle, view.(wanted := Verdict(after, view.wanted, failed)));
  }

  lemma FailedRows(rows: seq<Row>, held: seq<Row>, i: nat)
    requires i < |rows| == |held| && held[i].status.Failed? && AllBefore(held, i) && AllAfter(held, i, Status.Waiting)
    ensures var after := CancelHeld(rows, held);
            (forall j :: 0 <= j <= i ==> after[j] == rows[j]) && AllAfter(after, i, Status.Cancelled)
  {
    CancelMerged(rows, held);
    hide CancelHeld;
  }

  lemma RecordedVerdict(rows: seq<Row>, bundle: Bundle, held: seq<Row>, view: View, i: nat, failed: Row)
    ensures VerdictFits(rows, i, MergeBundle(bundle, view.seen, Verdict(CancelWaiting(held), view.wanted, failed))) <==>
            FailureFits(rows, i, bundle, view.seen, failed)
  {
    hide CancelWaiting, AnySucceeded, Front;
  }

  lemma FailsInOrderIff(rows: seq<Row>, bundle: Bundle, held: seq<Row>, view: View, i: nat, failed: Row)
    requires i < |rows| == |held| && held[i] == failed && failed.status.Failed?
    requires AllBefore(held, i) && AllAfter(held, i, Status.Waiting)
    requires Steady(bundle) && Steady(view.seen) && !view.seen.status.Terminal()
    ensures var commit := Fails(rows, bundle, held, view, failed);
            && Steady(commit.bundle) && commit.bundle.status == StoppedStatus(i)
            && (InOrderAt(commit.rows, commit.bundle, Front(commit.rows)) <==> FailureFits(rows, i, bundle, view.seen, failed))
  {
    RecordedVerdict(rows, bundle, held, view, i, failed);
    FailedRows(rows, held, i);
    FailedStatus(bundle, held, view, i, failed);
    var commit := Fails(rows, bundle, held, view, failed);
    assert commit.rows == CancelHeld(rows, held);
    assert commit.bundle == MergeBundle(bundle, view.seen, Verdict(CancelWaiting(held), view.wanted, failed));
    hide CancelHeld, CancelWaiting, VerdictFits, FailureFits, InOrderAt, Front, Fails, Verdict, MergeBundle, Steady, AllAfter;
    CancelledBehindIff(rows, commit.rows, i, commit.bundle);
  }

  /** Catching up from step i on keeps the order: a claim, a finish and a failure met on the way find every step
      before i succeeded, and such a failure is what the session then records. */
  predicate CatchesUp(rows: seq<Row>, i: nat, now: Bundle, seen: Bundle)
    requires i <= |rows|
  {
    var m := Unfinished(rows, i);
    && (m == |rows| || rows[m].status.Waiting? || rows[m].status.Failed? ==> AllBefore(rows, i))
    && (m < |rows| && rows[m].status.Failed? ==> Carries(rows[m], now, seen, rows[m]))
  }

  /** A claim at m over rows whose steps behind m wait, in an open bundle, exactly keeps the order when the
      steps before m have succeeded. */
  lemma ClaimInOrderIff(rows: seq<Row>, bundle: Bundle, held: seq<Row>, view: View, m: nat, at: int)
    requires m < |rows| == |held| && Steady(bundle) && Steady(view.seen)
    requires AllBefore(rows, m) ==> !bundle.status.Terminal() && AllAfter(rows, m, Status.Waiting)
    ensures var commit := Claims(rows, bundle, held, view, m, at);
            InOrderAt(commit.rows, commit.bundle, Front(commit.rows)) <==> AllBefore(rows, m)
  {
    var commit := Claims(rows, bundle, held, view, m, at);
    var wanted := Mirrored(view.wanted, BundleStatus.Promoting, PromoteStage(held[m].component));
    MergedStatus(bundle, view.(wanted := wanted));
    assert commit.rows[m].status == Status.Promoting;
    hide Claimed, Front, MergeBundle, Mirrored;
    AtWorkIsFront(commit.rows, commit.bundle, m);
    assert forall j :: 0 <= j < |rows| && j != m ==> commit.rows[j] == rows[j];
    assert AllBefore(commit.rows, m) <==> AllBefore(rows, m);
    assert AllAfter(commit.rows, m, Status.Waiting) <==> AllAfter(rows, m, Status.Waiting);
  }

  lemma WaitingMeansOpen(rows: seq<Row>, bundle: Bundle, m: nat)
    requires InOrderAt(rows, bundle, Front(rows)) && m < |rows| && rows[m].status.Waiting?
    ensures !bundle.status.Terminal() && AllAfter(rows, Front(rows), Status.Waiting) && Front(rows) <= m
  {
    var k := Front(rows);
    hide Front;
    assert k <= m;
  }

  lemma FinishedInOrderIff(rows: seq<Row>, bundle: Bundle, view: View)
    requires Steady(bundle) && Steady(view.seen) && !view.seen.status.Terminal()
    ensures var commit := Committed(rows, bundle, view.(wanted := FinishSuccess(view.wanted)));
            InOrderAt(commit.rows, commit.bundle, Front(commit.rows)) <==> AllBefore(rows, |rows|)
  {
    MergedStatus(bundle, view.(wanted := FinishSuccess(view.wanted)));
    FinishInOrderIff(rows, Committed(rows, bundle, view.(wanted := FinishSuccess(view.wanted))).bundle);
  }

  lemma ShownHolds(held: seq<Row>, rows: seq<Row>, i: nat)
    requires i <= |rows| == |held| && AllBefore(held, i) && forall j :: i <= j < |held| ==> held[j].status.Waiting?
    ensures var m := Unfinished(rows, i);
            var shown := Shown(held, rows, i, m);
            AllBefore(shown, m) && forall j :: m <= j < |held| ==> shown[j].status.Waiting?
  {
    var m := Unfinished(rows, i);
    var shown := Shown(held, rows, i, m);
    forall j | 0 <= j < |held|
      ensures shown[j] == if i <= j < m then rows[j] else held[j]
    {
    }
    hide Shown, Unfinished;
  }

  lemma DecidedInOrderIff(rows: seq<Row>, bundle: Bundle, shown: seq<Row>, view: View, m: nat, at: int)
    requires m <= |rows| == |shown| && AllBefore(shown, m) && forall j :: m <= j < |shown| ==> shown[j].status.Waiting?
    requires Steady(bundle) && Steady(view.seen) && !view.seen.status.Terminal() && view.wanted == view.seen
    requires m < |rows| && rows[m].status.Waiting? && AllBefore(rows, m) ==> !bundle.status.Terminal() && AllAfter(rows, m, Status.Waiting)
    ensures var commit := Decided(rows, bundle, shown, view, m, at);
            InOrderAt(commit.rows, commit.bundle, Front(commit.rows)) <==>
            if m == |rows| || rows[m].status.Waiting? then AllBefore(rows, m)
            else if rows[m].status.Failed? then AllBefore(rows, m) && Carries(rows[m], bundle, view.seen, rows[m])
            else InOrderAt(rows, bundle, Front(rows))
  {
    NothingMerged(bundle, view);
    hide Fails, Claims, FailureFits, Carries, FinishSuccess, InOrderAt, Front, MergeBundle;
    if m == |rows| {
      FinishedInOrderIff(rows, bundle, view);
    } else if rows[m].status.Waiting? {
      ClaimInOrderIff(rows, bundle, shown, view, m, at);
    } else if rows[m].status.Failed? {
      FailsInOrderIff(rows, bundle, shown[m := rows[m]], view, m, rows[m]);
      FailedItself(rows, m, bundle, view.seen, rows[m]);
    }
  }

  lemma CaughtUpInOrderIff(rows: seq<Row>, bundle: Bundle, held: seq<Row>, view: View, i: nat, at: int)
    requires i <= |rows| == |held| && InOrderAt(rows, bundle, Front(rows))
    requires AllBefore(held, i) && (forall j :: i <= j < |held| ==> held[j].status.Waiting?)
    requires Steady(view.seen) && !view.seen.status.Terminal() && view.wanted == view.seen
    ensures var commit := CaughtUp(rows, bundle, held, view, i, at);
            InOrderAt(commit.rows, commit.bundle, Front(commit.rows)) <==> CatchesUp(rows, i, bundle, view.seen)
  {
    var m := Unfinished(rows, i);
    ShownHolds(held, rows, i);
    if m < |rows| && rows[m].status.Waiting? {
      WaitingMeansOpen(rows, bundle, m);
    }
    hide Shown, Decided, Carries, InOrderAt, Front;
    assert Steady(bundle) by {
      OrderIsSteady(rows, bundle);
    }
    DecidedInOrderIff(rows, bundle, Shown(held, rows, i, m), view, m, at);
    assert AllBefore(rows, m) <==> AllBefore(rows, i);
  }

  lemma OrderIsSteady(rows: seq<Row>, bundle: Bundle)
    requires InOrderAt(rows, bundle, Front(rows))
    ensures Steady(bundle)
  {
  }

  /** Catching up behind step i, whose success the session has just written over its row.  A step cancelled
      meanwhile lies behind a failure, which that success overwrites. */
  predicate CatchesUpBehind(rows: seq<Row>, i: nat, now: Bundle, seen: Bundle)
    requires i < |rows|
  {
    var m := Unfinished(rows, i + 1);
    && (m == |rows| || rows[m].status.Waiting? || rows[m].status.Failed? ==> AllBefore(rows, i))
    && (m < |rows| && rows[m].status.Failed? ==> Carries(rows[m], now, seen, rows[m]))
    && (m < |rows| ==> !rows[m].status.Cancelled?)
  }

  lemma {:induction false} UnfinishedBehind(before: seq<Row>, rows: seq<Row>, i: nat, j: nat)
    requires i < j <= |rows| == |before| && forall k :: 0 <= k < |rows| && k != i ==> rows[k] == before[k]
    ensures Unfinished(before, j) == Unfinished(rows, j)
    decreases |rows| - j
  {
    if j < |rows| {
      UnfinishedBehind(before, rows, i, j + 1);
    }
  }

  lemma BehindFront(before: seq<Row>, bundle: Bundle, rows: seq<Row>, i: nat, m: nat)
    requires i < m < |rows| == |before| && rows[i].status.Success? && !rows[m].status.Success?
    requires forall j :: 0 <= j < |rows| && j != i ==> rows[j] == before[j]
    requires forall j :: i < j < m ==> rows[j].status.Success?
    requires InOrderAt(before, bundle, Front(before))
    ensures rows[m].status.Waiting? ==> AllBefore(rows, m) ==> !bundle.status.Terminal() && AllAfter(rows, m, Status.Waiting)
    ensures rows[m].status.InFlight() ==> before[i].status.Success? && Front(before) == m == Front(rows)
    ensures rows[m].status.Cancelled? ==> !AllBefore(before, i) || !before[i].status.Success?
    ensures rows[m].status.Cancelled? ==> !InOrderAt(rows, bundle, Front(rows))
  {
    var k := Front(before);
    hide Front;
    assert k <= m;
    if rows[m].status.InFlight() {
      assert k == m;
      FrontIs(rows, m);
    } else if rows[m].status.Waiting? {
      assert k <= m;
    } else if rows[m].status.Cancelled? {
      if AllBefore(before, i) {
        FrontIs(rows, m);
      } else {
        assert k < i;
        FrontIs(rows, k);
        assert before[k].status.Failed? && AllAfter(before, k, Status.Cancelled);
      }
    }
  }

  lemma AllBeforeBehind(before: seq<Row>, rows: seq<Row>, i: nat, m: nat)
    requires i < m <= |rows| == |before| && rows[i].status.Success?
    requires (forall j :: 0 <= j < |rows| && j != i ==> rows[j] == before[j]) && forall j :: i < j < m ==> rows[j].status.Success?
    ensures AllBefore(rows, m) <==> AllBefore(before, i)
  {
    assert AllBefore(rows, m) ==> forall j :: 0 <= j < i ==> rows[j] == before[j];
  }

  /** The condition behind a success, read off the rows as they are with that success written. */
  lemma BehindMeans(before: seq<Row>, bundle: Bundle, rows: seq<Row>, i: nat, seen: Bundle)
    requires i < |rows| == |before| && InOrderAt(before, bundle, Front(before))
    requires rows[i].status.Success? && forall j :: 0 <= j < |rows| && j != i ==> rows[j] == before[j]
    ensures var m := Unfinished(rows, i + 1);
            && (m < |rows| && rows[m].status.Waiting? && AllBefore(rows, m) ==>
                  !bundle.status.Terminal() && AllAfter(rows, m, Status.Waiting))
            && (CatchesUpBehind(before, i, bundle, seen) <==>
                if m == |rows| || rows[m].status.Waiting? then AllBefore(rows, m)
                else if rows[m].status.Failed? then AllBefore(rows, m) && Carries(rows[m], bundle, seen, rows[m])
                else InOrderAt(rows, bundle, Front(rows)))
  {
    hide InOrderAt, Front, Unfinished, Carries, AllBefore;
    var m := Unfinished(rows, i + 1);
    UnfinishedBehind(before, rows, i, i + 1);
    AllBeforeBehind(before, rows, i, m);
    if m < |rows| {
      BehindFront(before, bundle, rows, i, m);
      if rows[m].status.InFlight() {
        InFlightFrontStays(before, rows, bundle, m);
      }
    }
  }

  lemma CaughtUpBehindInOrderIff(before: seq<Row>, bundle: Bundle, rows: seq<Row>, held: seq<Row>, view: View, i: nat, at: int)
    requires i < |rows| == |held| == |before| && InOrderAt(before, bundle, Front(before))
    requires rows[i].status.Success? && forall j :: 0 <= j < |rows| && j != i ==> rows[j] == before[j]
    requires AllBefore(held, i + 1) && (forall j :: i < j < |held| ==> held[j].status.Waiting?)
    requires Steady(view.seen) && !view.seen.status.Terminal() && view.wanted == view.seen
    ensures var commit := CaughtUp(rows, bundle, held, view, i + 1, at);
            InOrderAt(commit.rows, commit.bundle, Front(commit.rows)) <==> CatchesUpBehind(before, i, bundle, view.seen)
  {
    ShownHolds(held, rows, i + 1);
    OrderIsSteady(before, bundle);
    BehindMeans(before, bundle, rows, i, view.seen);
    hide InOrderAt, Front, Unfinished, Shown, Decided, Carries, AllBefore, CatchesUpBehind;
    var m := Unfinished(rows, i + 1);
    DecidedInOrderIff(rows, bundle, Shown(held, rows, i + 1, m), view, m, at);
  }

  lemma NothingMerged(bundle: Bundle, view: View)
    requires view.wanted == view.seen
    ensures MergeBundle(bundle, view.seen, view.wanted) == bundle
  {
  }

  lemma InFlightFrontStays(before: seq<Row>, rows: seq<Row>, bundle: Bundle, m: nat)
    requires m < |rows| == |before| && Front(before) == m == Front(rows) && rows[m] == before[m] && rows[m].status.InFlight()
    requires forall j :: m < j < |rows| ==> rows[j] == before[j]
    ensures InOrderAt(before, bundle, m) <==> InOrderAt(rows, bundle, m)
  {
    hide Front;
  }

  // ---------------------------------------------------------------- a walk that polls

  /** A row at work knows its promotion exactly once it is DEPLOYING. */
  predicate Knows(row: Row) {
    && (row.status == Status.Promoting ==> row.promotion == None)
    && (row.status == Status.Deploying ==> row.promotion.Some?)
  }

  predicate RowsKnow(rows: seq<Row>) {
    forall i :: 0 <= i < |rows| ==> Knows(rows[i])
  }

  predicate PolledFrom(row: Row, polled: Row) {
    && polled.component == row.component
    && (polled.status.Success? || polled.status.Failed? || polled.status.InFlight())
    && (!polled.status.InFlight() ==> polled.promotion == row.promotion)
    && (polled.status.InFlight() ==>
          && polled.failedStage == row.failedStage && polled.errorCode == row.errorCode
          && (polled.status == row.status ==> polled.promotion == row.promotion)
          && (polled.status != row.status ==>
                row.status == Status.Promoting && polled.status == Status.Deploying && polled.promotion.Some?))
  }

  lemma ReconciledHow(row: Row, at: string, listing: ListAnswer)
    requires row.status == Status.Promoting && row.promotion == None
    ensures PolledFrom(row, Reconciled(row, at, listing))
  {
  }

  lemma JudgedHow(row: Row, at: string, build: Build)
    requires row.status == Status.Deploying
    ensures PolledFrom(row, Judged(row, at, build))
  {
  }

  /** A poll ends the step, adopts its promotion, or leaves what matters to the order as it was. */
  lemma PolledHow(row: Row, at: int, timeout: int, answer: Answer)
    requires row.status.InFlight() && Knows(row)
    ensures PolledFrom(row, Refreshed(row, at, timeout, answer))
  {
    var stage := ActiveStage(row);
    hide Reconciled, Judged;
    if row.promotion == None {
      ReconciledHow(row, stage, answer.listing);
    } else if answer.poll.Found? {
      JudgedHow(row, stage, answer.poll.build);
    }
  }

  /** What the order sees of a poll flushed over a row. */
  lemma MergedPoll(row: Row, seen: Row, at: int, timeout: int, answer: Answer)
    requires seen.status.InFlight() && Knows(seen)
    ensures var polled := Refreshed(seen, at, timeout, answer);
            var merged := Merge(row, seen, polled);
            && merged.component == row.component
            && merged.status == (if polled.status == seen.status then row.status else polled.status)
            && merged.promotion == (if polled.promotion == seen.promotion then row.promotion else polled.promotion)
            && (polled.status.InFlight() ==> merged.failedStage == row.failedStage && merged.errorCode == row.errorCode)
  {
    PolledHow(seen, at, timeout, answer);
    hide Refreshed;
  }

  lemma PolledOnInOrderIff(rows: seq<Row>, bundle: Bundle, seen: Row, view: View, i: nat, at: int, timeout: int, answer: Answer)
    requires i < |rows| && InOrderAt(rows, bundle, Front(rows)) && seen.status.InFlight() && Knows(seen)
    requires Steady(view.seen) && view.wanted == view.seen
    requires Refreshed(seen, at, timeout, answer).status.InFlight()
    ensures var polled := Refreshed(seen, at, timeout, answer);
            var commit := Committed(rows[i := Merge(rows[i], seen, polled)], bundle,
                                    view.(wanted := BundleAfterPoll(view.wanted, seen, polled)));
            InOrderAt(commit.rows, commit.bundle, Front(commit.rows)) <==>
            (polled.status == seen.status
             || (AllBefore(rows, i) && AllAfter(rows, i, Status.Waiting)
                 && (!view.seen.status.Deploying? || !bundle.status.Terminal())))
  {
    var polled := Refreshed(seen, at, timeout, answer);
    PolledHow(seen, at, timeout, answer);
    MergedPoll(rows[i], seen, at, timeout, answer);
    OrderIsSteady(rows, bundle);
    var rows' := rows[i := Merge(rows[i], seen, polled)];
    hide Refreshed, Merge, Front;
    if polled.status == seen.status {
      NothingMerged(bundle, view);
      hide MergeBundle, InOrderAt;
      SameStatusesSameOrder(rows, rows', bundle);
    } else {
      var wanted := Mirrored(view.wanted, BundleStatus.Deploying, WaitStage(seen.component));
      MergedStatus(bundle, view.(wanted := wanted));
      hide MergeBundle;
      AtWorkIsFront(rows', MergeBundle(bundle, view.seen, wanted), i);
      assert forall j :: 0 <= j < |rows| && j != i ==> rows'[j] == rows[j];
      assert AllBefore(rows', i) <==> AllBefore(rows, i);
      assert AllAfter(rows', i, Status.Waiting) <==> AllAfter(rows, i, Status.Waiting);
    }
  }

  // ---------------------------------------------------------------- what the invariant is

  /** A copy as a session loads it from an orderly bundle. */
  predicate CopyFits(rows: seq<Row>, copy: Copy) {
    && SameComponents(rows, copy.rows) && RowsKnow(copy.rows)
    && InOrderAt(copy.rows, copy.bundle, Front(copy.rows)) && VerdictFree(copy.rows, copy.bundle)
  }

  predicate Sound(w: State) {
    && Wellformed(w.now) && Tidy(w.now) && RowsKnow(w.now.rows)
    && forall s :: s in w.copies ==> CopyFits(w.now.rows, w.copies[s])
  }

  /** The part of `WalkInTurn` about a poll: a failure finds every earlier step succeeded and is recorded alike in
      row and bundle; an adoption finds every earlier step succeeded and every later one in the queue, and opens
      the bundle or finds it open. */
  predicate PollInTurn(rows: seq<Row>, i: nat, now: Bundle, seen: Bundle, held: Row, polled: Row)
    requires i < |rows| && Follows(held, polled)
  {
    if polled.status.Failed? then AllBefore(rows, i) && Carries(Merge(rows[i], held, polled), now, seen, polled)
    else if polled.status.Success? then CatchesUpBehind(rows, i, now, seen)
    else
      polled.status == held.status
      || (AllBefore(rows, i) && AllAfter(rows, i, Status.Waiting) && (!seen.status.Deploying? || !now.status.Terminal()))
  }

  /** Exactly which walks from old copies keep the order, by what the session finds: the rows and the bundle as
      they are, its copy, and what it polled. */
  predicate WalkInTurn(rows: seq<Row>, now: Bundle, copy: Copy, at: int, timeout: int, answers: seq<Answer>)
    requires |rows| == |copy.rows| == |answers|
  {
    var i := Front(copy.rows);
    || copy.bundle.status.Terminal()
    || if i == |rows| then AllBefore(rows, i)
       else
         var held := copy.rows[i];
         if held.status.Failed? then FailureFits(rows, i, now, copy.bundle, held)
         else if held.status.Waiting? then CatchesUp(rows, i, now, copy.bundle)
         else PollInTurn(rows, i, now, copy.bundle, held, Refreshed(held, at, timeout, answers[i]))
  }

  /** An open copy in order: succeeded steps, the front, and behind it only queued ones. */
  lemma OpenCopy(copy: Copy)
    requires InOrderAt(copy.rows, copy.bundle, Front(copy.rows)) && !copy.bundle.status.Terminal()
    ensures var i := Front(copy.rows);
            && Steady(copy.bundle)
            && (i < |copy.rows| ==>
                  AllAfter(copy.rows, i, Status.Waiting) && !copy.rows[i].status.Cancelled? && !copy.rows[i].status.Success?)
  {
    hide Front;
  }

  lemma FailedPollInOrderIff(rows: seq<Row>, bundle: Bundle, held: seq<Row>, view: View, i: nat, polled: Row)
    requires i < |rows| == |held| && InOrderAt(rows, bundle, Front(rows))
    requires AllBefore(held, i) && AllAfter(held, i, Status.Waiting) && Steady(view.seen) && !view.seen.status.Terminal()
    requires Follows(held[i], polled) && polled.status.Failed? && Merge(rows[i], held[i], polled).status.Failed?
    ensures var merged := Merge(rows[i], held[i], polled);
            var commit := Fails(rows[i := merged], bundle, held[i := polled], view, polled);
            InOrderAt(commit.rows, commit.bundle, Front(commit.rows)) <==> AllBefore(rows, i) && Carries(merged, bundle, view.seen, polled)
  {
    var rows' := rows[i := Merge(rows[i], held[i], polled)];
    OrderIsSteady(rows, bundle);
    assert AllBefore(rows', i) <==> AllBefore(rows, i) by {
      assert forall j :: 0 <= j < i ==> rows'[j] == rows[j];
    }
    hide Merge, Front, Fails, FailureFits, Carries, InOrderAt;
    FailsInOrderIff(rows', bundle, held[i := polled], view, i, polled);
    FailedItself(rows', i, bundle, view.seen, polled);
  }

  lemma SucceededPollInOrderIff(rows: seq<Row>, bundle: Bundle, held: seq<Row>, view: View, i: nat, polled: Row,
                                at: int, timeout: int, answers: seq<Answer>)
    requires i < |rows| == |held| == |answers| && InOrderAt(rows, bundle, Front(rows))
    requires AllBefore(held, i) && AllAfter(held, i, Status.Waiting)
    requires Steady(view.seen) && !view.seen.status.Terminal() && view.wanted == view.seen
    requires Follows(held[i], polled) && polled.status.Success? && Merge(rows[i], held[i], polled).status.Success?
    ensures var commit := WalkFrom(rows[i := Merge(rows[i], held[i], polled)], bundle, held[i := polled], view, i + 1, at, timeout, answers);
            InOrderAt(commit.rows, commit.bundle, Front(commit.rows)) <==> CatchesUpBehind(rows, i, bundle, view.seen)
  {
    var rows', held' := rows[i := Merge(rows[i], held[i], polled)], held[i := polled];
    hide Merge, WalkFrom, Front, CatchesUpBehind, InOrderAt, CaughtUp;
    WalkCatchesUp(rows', bundle, held', view, i + 1, at, timeout, answers);
    CaughtUpBehindInOrderIff(rows, bundle, rows', held', view, i, at);
  }

  lemma PolledWalkInOrderIff(rows: seq<Row>, bundle: Bundle, copy: Copy, at: int, timeout: int, answers: seq<Answer>)
    requires |rows| == |copy.rows| == |answers| && InOrderAt(rows, bundle, Front(rows)) && RowsKnow(copy.rows)
    requires InOrderAt(copy.rows, copy.bundle, Front(copy.rows)) && !copy.bundle.status.Terminal()
    requires Front(copy.rows) < |rows| && copy.rows[Front(copy.rows)].status.InFlight()
    ensures var i := Front(copy.rows);
            var commit := WalkFrom(rows, bundle, copy.rows, View(copy.bundle, copy.bundle), i, at, timeout, answers);
            InOrderAt(commit.rows, commit.bundle, Front(commit.rows)) <==>
            PollInTurn(rows, i, bundle, copy.bundle, copy.rows[i], Refreshed(copy.rows[i], at, timeout, answers[i]))
  {
    var i, view := Front(copy.rows), View(copy.bundle, copy.bundle);
    var seen := copy.rows[i];
    OpenCopy(copy);
    WalkPolls(rows, bundle, copy.rows, view, i, at, timeout, answers);
    PolledHow(seen, at, timeout, answers[i]);
    MergedPoll(rows[i], seen, at, timeout, answers[i]);
    var polled := Refreshed(seen, at, timeout, answers[i]);
    hide Refreshed, Merge, WalkFrom, Front, Fails, InOrderAt, Carries, CatchesUpBehind;
    if polled.status.InFlight() {
      PolledOnInOrderIff(rows, bundle, seen, view, i, at, timeout, answers[i]);
    } else {
      assert BundleAfterPoll(view.wanted, seen, polled) == view.wanted;
      hide Committed, BundleAfterPoll;
      if polled.status.Failed? {
        FailedPollInOrderIff(rows, bundle, copy.rows, view, i, polled);
      } else {
        SucceededPollInOrderIff(rows, bundle, copy.rows, view, i, polled, at, timeout, answers);
      }
    }
  }

  lemma WalkInOrderIff(rows: seq<Row>, bundle: Bundle, copy: Copy, at: int, timeout: int, answers: seq<Answer>)
    requires |rows| == |copy.rows| == |answers| && InOrderAt(rows, bundle, Front(rows)) && RowsKnow(copy.rows)
    requires InOrderAt(copy.rows, copy.bundle, Front(copy.rows)) && !copy.bundle.status.Terminal()
    ensures var commit := WalkFrom(rows, bundle, copy.rows, View(copy.bundle, copy.bundle), 0, at, timeout, answers);
            InOrderAt(commit.rows, commit.bundle, Front(commit.rows)) <==> WalkInTurn(rows, bundle, copy, at, timeout, answers)
  {
    var i, view := Front(copy.rows), View(copy.bundle, copy.bundle);
    WalkFromFront(rows, bundle, copy.rows, view, 0, i, at, timeout, answers);
    OpenCopy(copy);
    OrderIsSteady(rows, bundle);
    if i < |rows| && copy.rows[i].status.InFlight() {
      hide WalkFrom, PollInTurn, Front, InOrderAt, Refreshed;
      PolledWalkInOrderIff(rows, bundle, copy, at, timeout, answers);
    } else if i < |rows| && copy.rows[i].status.Waiting? {
      hide Front, InOrderAt, Refreshed, Merge, WalkFrom, CatchesUp;
      WalkCatchesUp(rows, bundle, copy.rows, view, i, at, timeout, answers);
      CaughtUpInOrderIff(rows, bundle, copy.rows, view, i, at);
    } else if i < |rows| {
      hide Front, InOrderAt, Refreshed, Merge, Fails, FailureFits;
      FailsInOrderIff(rows, bundle, copy.rows, view, i, copy.rows[i]);
    } else {
      hide Front, InOrderAt, Refreshed, Merge, FinishSuccess, MergeBundle;
      FinishedInOrderIff(rows, bundle, view);
    }
  }

  // ---------------------------------------------------------------- what a walk keeps

  predicate RowsHold(rows: seq<Row>) {
    QueueFresh(rows) && RowsKnow(rows)
  }

  /** Rows, in step with the old ones, none of them sent back to the queue. */
  predicate Carried(rows: seq<Row>, after: seq<Row>) {
    && SameComponents(rows, after) && RowsHold(after)
    && forall j :: 0 <= j < |rows| && after[j].status.Waiting? ==> rows[j].status.Waiting?
  }

  lemma CancelCarries(rows: seq<Row>, held: seq<Row>)
    requires |rows| == |held| && RowsHold(rows)
    ensures Carried(rows, CancelHeld(rows, held))
  {
    CancelMerged(rows, held);
    hide CancelHeld;
  }

  lemma PollCarries(rows: seq<Row>, held: seq<Row>, i: nat, at: int, timeout: int, answer: Answer)
    requires i < |rows| == |held| && RowsHold(rows) && held[i].status.InFlight() && Knows(held[i])
    ensures Carried(rows, rows[i := Merge(rows[i], held[i], Refreshed(held[i], at, timeout, answer))])
  {
    PolledHow(held[i], at, timeout, answer);
    MergedPoll(rows[i], held[i], at, timeout, answer);
    hide Refreshed, Merge;
  }

  lemma ClaimCarries(rows: seq<Row>, bundle: Bundle, held: seq<Row>, view: View, i: nat, at: int)
    requires i < |rows| == |held| && RowsHold(rows) && rows[i].status.Waiting?
    ensures var commit := Claims(rows, bundle, held, view, i, at);
            Carried(rows, commit.rows) && commit.call.Some? && CallFits(rows, commit.call.value)
  {
  }

  lemma CarriedOn(rows: seq<Row>, rows': seq<Row>, rows'': seq<Row>)
    requires Carried(rows, rows') && Carried(rows', rows'')
    ensures Carried(rows, rows'')
  {
    hide RowsHold;
  }

  predicate WellCommitted(rows: seq<Row>, commit: Commit) {
    Carried(rows, commit.rows) && (commit.call.Some? ==> CallFits(rows, commit.call.value))
  }

  lemma FailsCarries(rows: seq<Row>, bundle: Bundle, held: seq<Row>, view: View, failed: Row)
    requires |rows| == |held| && RowsHold(rows)
    ensures WellCommitted(rows, Fails(rows, bundle, held, view, failed))
  {
    CancelCarries(rows, held);
    hide CancelHeld, CancelWaiting, Carried;
  }

  lemma CommittedCarries(rows: seq<Row>, bundle: Bundle, view: View)
    requires RowsHold(rows)
    ensures WellCommitted(rows, Committed(rows, bundle, view))
  {
  }

  lemma WalkCarriedOn(rows: seq<Row>, rows': seq<Row>, commit: Commit)
    requires Carried(rows, rows') && WellCommitted(rows', commit)
    ensures WellCommitted(rows, commit)
  {
    CarriedOn(rows, rows', commit.rows);
    hide RowsHold;
  }

  lemma PollWellCommitted(rows: seq<Row>, bundle: Bundle, held: seq<Row>, view: View, i: nat,
                          at: int, timeout: int, answers: seq<Answer>)
    requires i < |rows| == |held| == |answers| && RowsHold(rows) && held[i].status.InFlight() && Knows(held[i])
    requires var polled := Refreshed(held[i], at, timeout, answers[i]);
             var rows', held' := rows[i := Merge(rows[i], held[i], polled)], held[i := polled];
             var view' := view.(wanted := BundleAfterPoll(view.wanted, held[i], polled));
             polled.status.Success? ==> WellCommitted(rows', WalkFrom(rows', bundle, held', view', i + 1, at, timeout, answers))
    ensures WellCommitted(rows, WalkFrom(rows, bundle, held, view, i, at, timeout, answers))
  {
    WalkPolls(rows, bundle, held, view, i, at, timeout, answers);
    hide WalkFrom;
    var polled := Refreshed(held[i], at, timeout, answers[i]);
    var rows', held' := rows[i := Merge(rows[i], held[i], polled)], held[i := polled];
    var view' := view.(wanted := BundleAfterPoll(view.wanted, held[i], polled));
    PollCarries(rows, held, i, at, timeout, answers[i]);
    assert RowsHold(rows');
    hide Refreshed, Merge, BundleAfterPoll, RowsHold, Carried, WellCommitted, Fails, Committed;
    FailsCarries(rows', bundle, held', view', polled);
    CommittedCarries(rows', bundle, view');
    WalkCarriedOn(rows, rows', WalkFrom(rows, bundle, held, view, i, at, timeout, answers));
  }

  lemma TurnWellCommitted(rows: seq<Row>, bundle: Bundle, held: seq<Row>, view: View, i: nat,
                          at: int, timeout: int, answers: seq<Answer>)
    requires i < |rows| == |held| == |answers| && RowsHold(rows) && !held[i].status.InFlight()
    requires held[i].status.Success? ==> WellCommitted(rows, WalkFrom(rows, bundle, held, view, i + 1, at, timeout, answers))
    requires rows[i].status.Success? ==> WellCommitted(rows, WalkFrom(rows, bundle, held[i := rows[i]], view, i + 1, at, timeout, answers))
    ensures WellCommitted(rows, WalkFrom(rows, bundle, held, view, i, at, timeout, answers))
  {
    WalkTurns(rows, bundle, held, view, i, at, timeout, answers);
    hide WalkFrom;
    if rows[i].status.Waiting? {
      ClaimCarries(rows, bundle, held, view, i, at);
    }
    hide RowsHold, Carried, Fails, Claims, Committed, CallFits;
    FailsCarries(rows, bundle, held, view, held[i]);
    FailsCarries(rows, bundle, held[i := rows[i]], view, rows[i]);
    CommittedCarries(rows, bundle, view);
  }

  lemma WalkEnds(rows: seq<Row>, bundle: Bundle, held: seq<Row>, view: View, at: int, timeout: int, answers: seq<Answer>)
    requires |rows| == |held| == |answers| && RowsHold(rows)
    ensures WellCommitted(rows, WalkFrom(rows, bundle, held, view, |rows|, at, timeout, answers))
  {
    CommittedCarries(rows, bundle, view.(wanted := FinishSuccess(view.wanted)));
    hide WellCommitted, Committed, RowsHold;
  }

  lemma PollHolds(rows: seq<Row>, held: seq<Row>, i: nat, at: int, timeout: int, answer: Answer)
    requires i < |rows| == |held| && RowsHold(rows) && RowsKnow(held) && held[i].status.InFlight()
    ensures var polled := Refreshed(held[i], at, timeout, answer);
            && RowsHold(rows[i := Merge(rows[i], held[i], polled)])
            && (polled.status.Success? ==> RowsKnow(held[i := polled]))
  {
    PollCarries(rows, held, i, at, timeout, answer);
    hide Refreshed, Merge, RowsHold;
  }

  /** Whatever its copies hold, a walk keeps the rows in step and its request holds the claimed row. */
  lemma {:induction false} WalkCarries(rows: seq<Row>, bundle: Bundle, held: seq<Row>, view: View, i: nat,
                                       at: int, timeout: int, answers: seq<Answer>)
    requires i <= |rows| == |held| == |answers| && RowsHold(rows) && RowsKnow(held)
    ensures WellCommitted(rows, WalkFrom(rows, bundle, held, view, i, at, timeout, answers))
    decreases |rows| - i
  {
    hide WalkFrom, WellCommitted, Refreshed, Merge, BundleAfterPoll;
    if i == |rows| {
      WalkEnds(rows, bundle, held, view, at, timeout, answers);
    } else if held[i].status.InFlight() {
      var polled := Refreshed(held[i], at, timeout, answers[i]);
      PollHolds(rows, held, i, at, timeout, answers[i]);
      assert Knows(held[i]);
      hide RowsHold, RowsKnow;
      if polled.status.Success? {
        WalkCarries(rows[i := Merge(rows[i], held[i], polled)], bundle, held[i := polled],
                    view.(wanted := BundleAfterPoll(view.wanted, held[i], polled)), i + 1, at, timeout, answers);
      }
      PollWellCommitted(rows, bundle, held, view, i, at, timeout, answers);
    } else {
      assert RowsKnow(held[i := rows[i]]);
      hide RowsHold, RowsKnow;
      if held[i].status.Success? {
        WalkCarries(rows, bundle, held, view, i + 1, at, timeout, answers);
      }
      if rows[i].status.Success? {
        WalkCarries(rows, bundle, held[i := rows[i]], view, i + 1, at, timeout, answers);
      }
      TurnWellCommitted(rows, bundle, held, view, i, at, timeout, answers);
    }
  }

  /** A commit that leaves the bundle open leaves its verdict columns; its request holds the bundle PROMOTING. */
  predicate VerdictColumnsKept(bundle: Bundle, seen: Bundle, commit: Commit) {
    && (!commit.bundle.status.Terminal() ==>
          commit.bundle.failedStage == bundle.failedStage && commit.bundle.errorCode == bundle.errorCode)
    && (commit.call.Some? ==>
          var asked := commit.call.value.bundle;
          && asked.status == asked.deploymentStatus == BundleStatus.Promoting && asked.stage.Some?
          && asked.failedStage == seen.failedStage && asked.errorCode == seen.errorCode)
  }

  predicate NoVerdictWanted(view: View) {
    && !view.seen.status.Terminal()
    && view.wanted.failedStage == view.seen.failedStage && view.wanted.errorCode == view.seen.errorCode
  }

  lemma FailsEndsBundle(rows: seq<Row>, bundle: Bundle, held: seq<Row>, view: View, failed: Row)
    requires |rows| == |held| && NoVerdictWanted(view)
    ensures VerdictColumnsKept(bundle, view.seen, Fails(rows, bundle, held, view, failed))
  {
    hide CancelHeld, CancelWaiting, AnySucceeded;
  }

  lemma {:induction false} WalkKeepsVerdictColumns(rows: seq<Row>, bundle: Bundle, held: seq<Row>, view: View, i: nat,
                                                   at: int, timeout: int, answers: seq<Answer>)
    requires i <= |rows| == |held| == |answers| && NoVerdictWanted(view)
    ensures VerdictColumnsKept(bundle, view.seen, WalkFrom(rows, bundle, held, view, i, at, timeout, answers))
    decreases |rows| - i
  {
    if i == |rows| {
    } else if held[i].status.InFlight() {
      WalkPolls(rows, bundle, held, view, i, at, timeout, answers);
      hide WalkFrom, Refreshed, Merge, Fails;
      var polled := Refreshed(held[i], at, timeout, answers[i]);
      var rows', held' := rows[i := Merge(rows[i], held[i], polled)], held[i := polled];
      var view' := view.(wanted := BundleAfterPoll(view.wanted, held[i], polled));
      assert NoVerdictWanted(view') && view'.seen == view.seen;
      FailsEndsBundle(rows', bundle, held', view', polled);
      if polled.status.Success? {
        WalkKeepsVerdictColumns(rows', bundle, held', view', i + 1, at, timeout, answers);
      }
    } else {
      WalkTurns(rows, bundle, held, view, i, at, timeout, answers);
      var held' := held[i := rows[i]];
      hide WalkFrom, Fails, Claimed, PromoteStage;
      FailsEndsBundle(rows, bundle, held, view, held[i]);
      FailsEndsBundle(rows, bundle, held', view, rows[i]);
      if held[i].status.Success? {
        WalkKeepsVerdictColumns(rows, bundle, held, view, i + 1, at, timeout, answers);
      } else if held[i].status.Waiting? && rows[i].status.Success? {
        WalkKeepsVerdictColumns(rows, bundle, held', view, i + 1, at, timeout, answers);
      }
    }
  }

  /** A request made after catching up holds successes before its step and queued steps behind it. */
  lemma CaughtUpCall(rows: seq<Row>, bundle: Bundle, held: seq<Row>, view: View, i: nat, at: int)
    requires i <= |rows| == |held| && AllBefore(held, i) && forall j :: i <= j < |held| ==> held[j].status.Waiting?
    ensures var commit := CaughtUp(rows, bundle, held, view, i, at);
            commit.call.Some? ==>
              var call := commit.call.value;
              && i <= call.index < |call.copies| == |held| && call.copies[call.index] == call.seen
              && AllBefore(call.copies, call.index) && AllAfter(call.copies, call.index, Status.Waiting)
  {
    ShownHolds(held, rows, i);
    hide Shown, Unfinished, Fails, Committed, FinishSuccess, Claimed, MergeBundle, Mirrored;
  }

  lemma WalkCallIsShaped(rows: seq<Row>, bundle: Bundle, copy: Copy, at: int, timeout: int, answers: seq<Answer>)
    requires |rows| == |copy.rows| == |answers| && RowsKnow(copy.rows)
    requires InOrderAt(copy.rows, copy.bundle, Front(copy.rows)) && VerdictFree(copy.rows, copy.bundle) && !copy.bundle.status.Terminal()
    ensures var commit := WalkFrom(rows, bundle, copy.rows, View(copy.bundle, copy.bundle), 0, at, timeout, answers);
            commit.call.Some? ==> Shaped(commit.call.value)
  {
    var i, view := Front(copy.rows), View(copy.bundle, copy.bundle);
    WalkFromFront(rows, bundle, copy.rows, view, 0, i, at, timeout, answers);
    WalkKeepsVerdictColumns(rows, bundle, copy.rows, view, 0, at, timeout, answers);
    OpenCopy(copy);
    hide Front, InOrderAt;
    var commit := WalkFrom(rows, bundle, copy.rows, view, i, at, timeout, answers);
    if i < |rows| && copy.rows[i].status.InFlight() {
      WalkPolls(rows, bundle, copy.rows, view, i, at, timeout, answers);
      var polled := Refreshed(copy.rows[i], at, timeout, answers[i]);
      hide WalkFrom, Refreshed, Merge, CaughtUp;
      if polled.status.Success? {
        var rows', held' := rows[i := Merge(rows[i], copy.rows[i], polled)], copy.rows[i := polled];
        var view' := view.(wanted := BundleAfterPoll(view.wanted, copy.rows[i], polled));
        WalkCatchesUp(rows', bundle, held', view', i + 1, at, timeout, answers);
        CaughtUpCall(rows', bundle, held', view', i + 1, at);
      }
    } else if i < |rows| && copy.rows[i].status.Waiting? {
      hide WalkFrom, CaughtUp;
      WalkCatchesUp(rows, bundle, copy.rows, view, i, at, timeout, answers);
      CaughtUpCall(rows, bundle, copy.rows, view, i, at);
    }
    if commit.call.Some? {
      assert copy.rows[commit.call.value.index].status.Waiting?;
    }
  }

  lemma WalkIsVerdictFree(rows: seq<Row>, bundle: Bundle, commit: Commit, seen: Bundle)
    requires InOrderAt(rows, bundle, Front(rows)) && VerdictFree(rows, bundle)
    requires Carried(rows, commit.rows) && VerdictColumnsKept(bundle, seen, commit)
    ensures VerdictFree(commit.rows, commit.bundle)
  {
    hide RowsHold;
    if j :| 0 <= j < |commit.rows| && commit.rows[j].status.Waiting? {
      assert rows[j].status.Waiting?;
      WaitingMeansOpen(rows, bundle, j);
    }
  }

  // ---------------------------------------------------------------- every step

  lemma ReplyKeepsKnowledge(row: Row, seen: Row, outcome: PromoteAnswer)
    requires Knows(row) && seen.status == Status.Promoting && seen.promotion == None
    ensures Knows(Merge(row, seen, Settled(seen, outcome)))
  {
  }

  lemma ReplyKeepsRowsKnown(w: B.World, call: Call, outcome: PromoteAnswer)
    requires QueueFresh(w.rows) && RowsKnow(w.rows) && CallFits(w.rows, call)
    ensures SameComponents(w.rows, Replied(w, call, outcome).rows) && RowsKnow(Replied(w, call, outcome).rows)
  {
    ReplyKeepsRows(w, call, outcome);
    ReplyKeepsKnowledge(w.rows[call.index], call.seen, outcome);
    hide Merge, Settled, SameComponents, Knows, BundleAfterPromote, QueueFresh;
  }

  lemma ConcludeKeepsRowsKnown(w: B.World, refusal: Refusal)
    requires QueueFresh(w.rows) && RowsKnow(w.rows) && refusal.call.index < |refusal.call.copies| == |w.rows|
    ensures SameComponents(w.rows, Concluded(w, refusal).rows) && RowsKnow(Concluded(w, refusal).rows)
  {
    ConcludeKeepsRows(w, refusal);
    CancelMerged(w.rows, refusal.Held());
    hide CancelHeld, SameComponents, Verdict, MergeBundle;
  }

  lemma OthersKeepRows(w: B.World, step: B.Step)
    requires Wellformed(w) && RowsKnow(w.rows) && B.Possible(w, step) && !step.Advance?
    ensures SameComponents(w.rows, B.Next(w, step).rows) && RowsKnow(B.Next(w, step).rows)
  {
    match step
    case Reply(session, outcome) =>
      assert CallFits(w.rows, w.calls[session]);
      ReplyKeepsRowsKnown(w, w.calls[session], outcome);
      hide Replied, SameComponents, RowsKnow;
    case Conclude(session) =>
      ConcludeKeepsRowsKnown(w, w.refusals[session]);
      hide Concluded, SameComponents, RowsKnow;
    case Crash(_) =>
    case Retry(_) =>
      hide CallFits;
  }

  lemma CopyStillFits(rows: seq<Row>, after: seq<Row>, copy: Copy)
    requires CopyFits(rows, copy) && SameComponents(rows, after)
    ensures CopyFits(after, copy)
  {
    hide InOrderAt, Front, VerdictFree, RowsKnow;
  }

  lemma CopiesStillFit(w: State, w': State)
    requires Sound(w) && SameComponents(w.now.rows, w'.now.rows)
    requires forall s :: s in w'.copies ==> s in w.copies && w'.copies[s] == w.copies[s]
    ensures forall s :: s in w'.copies ==> CopyFits(w'.now.rows, w'.copies[s])
  {
    hide CopyFits, SameComponents, Wellformed, Tidy, RowsKnow;
    forall s | s in w'.copies
      ensures CopyFits(w'.now.rows, w'.copies[s])
    {
      CopyStillFits(w.now.rows, w'.now.rows, w.copies[s]);
    }
  }

  lemma WalkCommitHolds(w: State, step: Step)
    requires Sound(w) && InOrder(w.now) && Possible(w, step) && step.Walk?
    ensures var commit := WalkOf(w, step);
            && SameComponents(w.now.rows, commit.rows) && RowsHold(commit.rows) && VerdictFree(commit.rows, commit.bundle)
            && (commit.call.Some? ==> CallFits(w.now.rows, commit.call.value) && Shaped(commit.call.value))
  {
    var copy := w.copies[step.session];
    assert CopyFits(w.now.rows, copy);
    var view := View(copy.bundle, copy.bundle);
    assert RowsHold(w.now.rows) && VerdictFree(w.now.rows, w.now.bundle) && SameComponents(w.now.rows, w.now.rows);
    if !copy.bundle.status.Terminal() {
      WalkCarries(w.now.rows, w.now.bundle, copy.rows, view, 0, step.at, step.timeout, step.answers);
      WalkKeepsVerdictColumns(w.now.rows, w.now.bundle, copy.rows, view, 0, step.at, step.timeout, step.answers);
      WalkCallIsShaped(w.now.rows, w.now.bundle, copy, step.at, step.timeout, step.answers);
      hide WalkFrom, RowsHold, VerdictFree, CallFits, Shaped, Front, InOrderAt, SameComponents, VerdictColumnsKept;
      WalkIsVerdictFree(w.now.rows, w.now.bundle, WalkOf(w, step), copy.bundle);
    }
  }

  lemma WalkKeepsSound(w: State, step: Step)
    requires Sound(w) && InOrder(w.now) && Possible(w, step) && step.Walk?
    ensures Sound(Next(w, step))
  {
    WalkCommitHolds(w, step);
    var w' := Next(w, step);
    var commit := WalkOf(w, step);
    assert w'.now.rows == commit.rows && w'.now.bundle == commit.bundle && w'.now.refusals == w.now.refusals;
    assert forall s :: s in w'.now.calls ==>
             (s in w.now.calls && w'.now.calls[s] == w.now.calls[s]) || commit.call == Some(w'.now.calls[s]);
    hide WalkOf, Next, CopyFits, CallFits, Shaped, VerdictFree, SameComponents, QueueFresh, RowsKnow, InOrder, ReplyRefuses;
    BooksStillFit(w.now, w'.now);
    BooksStayTidy(w.now, w'.now);
    CopiesStillFit(w, w');
  }

  predicate StepInTurn(w: State, step: Step)
    requires Possible(w, step)
  {
    match step
    case Load(_) => true
    case Walk(session, at, timeout, answers) =>
      WalkInTurn(w.now.rows, w.now.bundle, w.copies[session], at, timeout, answers)
    case Other(step) => B.StepInTurn(w.now, step)
  }

  /** One step, a walk from copies of any age included, keeps the order exactly when it is in turn. */
  lemma StepInOrderIff(w: State, step: Step)
    requires Sound(w) && InOrder(w.now) && Possible(w, step)
    ensures InOrder(Next(w, step).now) <==> StepInTurn(w, step)
  {
    match step
    case Load(_) =>
    case Walk(session, at, timeout, answers) =>
      var copy := w.copies[session];
      assert CopyFits(w.now.rows, copy);
      hide WalkFrom, WalkInTurn, Front, InOrderAt;
      if !copy.bundle.status.Terminal() {
        WalkInOrderIff(w.now.rows, w.now.bundle, copy, at, timeout, answers);
      } else {
        OverIsInTurn(w.now.rows, w.now.bundle, copy, at, timeout, answers);
      }
    case Other(other) =>
      B.StepInOrderIff(w.now, other);
  }

  lemma OverIsInTurn(rows: seq<Row>, now: Bundle, copy: Copy, at: int, timeout: int, answers: seq<Answer>)
    requires |rows| == |copy.rows| == |answers| && copy.bundle.status.Terminal()
    ensures WalkInTurn(rows, now, copy, at, timeout, answers)
  {
  }

  lemma OtherKeepsSound(w: State, step: Step)
    requires Sound(w) && InOrder(w.now) && Possible(w, step) && step.Other? && InOrder(Next(w, step).now)
    ensures Sound(Next(w, step))
  {
    OthersKeepRows(w.now, step.step);
    hide InOrder, Wellformed, Tidy, RowsKnow, CopyFits, SameComponents;
    NextWellformed(w.now, step.step);
    StepTidy(w.now, step.step);
    CopiesStillFit(w, Next(w, step));
  }

  lemma LoadKeepsSound(w: State, session: nat)
    requires Sound(w) && InOrder(w.now) && Possible(w, Load(session))
    ensures Sound(Next(w, Load(session)))
  {
    assert CopyFits(w.now.rows, Copy(w.now.rows, w.now.bundle));
    hide CopyFits, Wellformed, Tidy, RowsKnow, InOrder;
  }

  lemma StepKeepsSound(w: State, step: Step)
    requires Sound(w) && InOrder(w.now) && Possible(w, step) && InOrder(Next(w, step).now)
    ensures Sound(Next(w, step))
  {
    hide Sound, InOrder, Next, Possible;
    match step
    case Load(session) => LoadKeepsSound(w, session);
    case Walk(_, _, _, _) => WalkKeepsSound(w, step);
    case Other(_) => OtherKeepsSound(w, step);
  }

  // ---------------------------------------------------------------- whole runs

  predicate PossibleRun(w: State, steps: seq<Step>)
    decreases |steps|
  {
    steps == [] || (Possible(w, steps[0]) && PossibleRun(Next(w, steps[0]), steps[1..]))
  }

  function RunTo(w: State, steps: seq<Step>): State
    requires PossibleRun(w, steps)
    decreases |steps|
  {
    if steps == [] then w else RunTo(Next(w, steps[0]), steps[1..])
  }

  predicate AlwaysInOrder(w: State, steps: seq<Step>)
    requires PossibleRun(w, steps)
    decreases |steps|
  {
    InOrder(w.now) && (steps == [] || AlwaysInOrder(Next(w, steps[0]), steps[1..]))
  }

  predicate AlwaysInTurn(w: State, steps: seq<Step>)
    requires PossibleRun(w, steps)
    decreases |steps|
  {
    steps == [] || (StepInTurn(w, steps[0]) && AlwaysInTurn(Next(w, steps[0]), steps[1..]))
  }

  /** With copies of any age, in every committed state of a run: the bundle is in order if and only if every walk,
      every reply and every verdict after a refusal was in turn. */
  lemma {:induction false} OrderedReleaseIff(w: State, steps: seq<Step>)
    requires Sound(w) && InOrder(w.now) && PossibleRun(w, steps)
    ensures AlwaysInOrder(w, steps) <==> AlwaysInTurn(w, steps)
    decreases |steps|
  {
    if steps != [] {
      hide Next, Possible, StepInTurn, InOrder, Sound;
      StepInOrderIff(w, steps[0]);
      if InOrder(Next(w, steps[0]).now) {
        StepKeepsSound(w, steps[0]);
        OrderedReleaseIff(Next(w, steps[0]), steps[1..]);
      }
    }
  }

  /** A bundle as it is created, with no session at work. */
  lemma CreatedIsSound(w: State)
    requires JustCreated(w.now) && w.copies == map[]
    ensures Sound(w) && InOrder(w.now)
  {
    CreatedInOrder(w.now);
  }

  // ---------------------------------------------------------------- what an old copy can overwrite

  /** A status changes by the poll of a step the copy has at work, by a claim that the row itself allows, or by
      the cancellation of a step the copy has in the queue, whatever its row has become. */
  predicate TouchedHow(row: Row, held: Row, at: int, timeout: int, answer: Answer, after: Row) {
    after.status != row.status ==>
      || (held.status.InFlight() && after.status == Refreshed(held, at, timeout, answer).status)
      || (row.status.Waiting? && held.status.Waiting? && after.status == Status.Promoting)
      || (held.status.Waiting? && after.status == Status.Cancelled)
  }

  lemma FailsTouches(rows: seq<Row>, bundle: Bundle, held: seq<Row>, view: View, failed: Row)
    requires |rows| == |held|
    ensures var after := Fails(rows, bundle, held, view, failed).rows;
            forall j :: 0 <= j < |rows| ==>
              after[j].status == if held[j].status.Waiting? then Status.Cancelled else rows[j].status
  {
    CancelMerged(rows, held);
    hide CancelHeld;
  }

  lemma PollTouches(rows: seq<Row>, bundle: Bundle, held: seq<Row>, view: View, i: nat,
                    at: int, timeout: int, answers: seq<Answer>, j: nat)
    requires i < |rows| == |held| == |answers| && j < |rows| && held[i].status.InFlight() && Knows(held[i])
    requires var polled := Refreshed(held[i], at, timeout, answers[i]);
             var rows', held' := rows[i := Merge(rows[i], held[i], polled)], held[i := polled];
             var view' := view.(wanted := BundleAfterPoll(view.wanted, held[i], polled));
             polled.status.Success? ==>
               TouchedHow(rows'[j], held'[j], at, timeout, answers[j],
                          WalkFrom(rows', bundle, held', view', i + 1, at, timeout, answers).rows[j])
    ensures TouchedHow(rows[j], held[j], at, timeout, answers[j], WalkFrom(rows, bundle, held, view, i, at, timeout, answers).rows[j])
  {
    WalkPolls(rows, bundle, held, view, i, at, timeout, answers);
    PolledHow(held[i], at, timeout, answers[i]);
    MergedPoll(rows[i], held[i], at, timeout, answers[i]);
    hide Refreshed, Merge, MergeBundle, WalkFrom, Fails;
    var polled := Refreshed(held[i], at, timeout, answers[i]);
    var rows', held' := rows[i := Merge(rows[i], held[i], polled)], held[i := polled];
    FailsTouches(rows', bundle, held', view.(wanted := BundleAfterPoll(view.wanted, held[i], polled)), polled);
  }

  lemma TurnTouches(rows: seq<Row>, bundle: Bundle, held: seq<Row>, view: View, i: nat,
                    at: int, timeout: int, answers: seq<Answer>, j: nat, rest: Commit, again: Commit)
    requires i < |rows| == |held| == |answers| && j < |rows| && !held[i].status.InFlight()
    requires rest == WalkFrom(rows, bundle, held, view, i + 1, at, timeout, answers)
    requires again == WalkFrom(rows, bundle, held[i := rows[i]], view, i + 1, at, timeout, answers)
    requires held[i].status.Success? ==> TouchedHow(rows[j], held[j], at, timeout, answers[j], rest.rows[j])
    requires rows[i].status.Success? ==> TouchedHow(rows[j], held[i := rows[i]][j], at, timeout, answers[j], again.rows[j])
    ensures TouchedHow(rows[j], held[j], at, timeout, answers[j], WalkFrom(rows, bundle, held, view, i, at, timeout, answers).rows[j])
  {
    WalkTurns(rows, bundle, held, view, i, at, timeout, answers);
    ClaimedStatus(rows[i], at);
    hide WalkFrom, Fails, Refreshed, MergeBundle, Claimed, Mirrored;
    FailsTouches(rows, bundle, held, view, held[i]);
    FailsTouches(rows, bundle, held[i := rows[i]], view, rows[i]);
  }

  lemma {:induction false} WalkTouches(rows: seq<Row>, bundle: Bundle, held: seq<Row>, view: View, i: nat,
                                       at: int, timeout: int, answers: seq<Answer>, j: nat)
    requires i <= |rows| == |held| == |answers| && j < |rows| && RowsKnow(held)
    ensures TouchedHow(rows[j], held[j], at, timeout, answers[j], WalkFrom(rows, bundle, held, view, i, at, timeout, answers).rows[j])
    decreases |rows| - i
  {
    hide Refreshed, Merge, MergeBundle, Claimed, BundleAfterPoll;
    if i == |rows| {
    } else if held[i].status.InFlight() {
      PolledHow(held[i], at, timeout, answers[i]);
      hide WalkFrom, TouchedHow;
      var polled := Refreshed(held[i], at, timeout, answers[i]);
      if polled.status.Success? {
        var rows', held' := rows[i := Merge(rows[i], held[i], polled)], held[i := polled];
        var view' := view.(wanted := BundleAfterPoll(view.wanted, held[i], polled));
        WalkTouches(rows', bundle, held', view', i + 1, at, timeout, answers, j);
      }
      PollTouches(rows, bundle, held, view, i, at, timeout, answers, j);
    } else {
      hide WalkFrom, TouchedHow;
      if held[i].status.Success? {
        WalkTouches(rows, bundle, held, view, i + 1, at, timeout, answers, j);
      }
      if rows[i].status.Success? {
        WalkTouches(rows, bundle, held[i := rows[i]], view, i + 1, at, timeout, answers, j);
      }
      TurnTouches(rows, bundle, held, view, i, at, timeout, answers, j,
                  WalkFrom(rows, bundle, held, view, i + 1, at, timeout, answers),
                  WalkFrom(rows, bundle, held[i := rows[i]], view, i + 1, at, timeout, answers));
    }
  }

  lemma ClaimedStatus(row: Row, at: int)
    ensures Claimed(row, at).status == Status.Promoting
  {
  }

  /** In every state, in order or not: what a walk from an old copy can do to a step. */
  lemma WalkOverwrites(w: State, step: Step, j: nat)
    requires Possible(w, step) && step.Walk? && RowsKnow(w.copies[step.session].rows) && j < |w.now.rows|
    ensures TouchedHow(w.now.rows[j], w.copies[step.session].rows[j], step.at, step.timeout, step.answers[j], Next(w, step).now.rows[j])
  {
    var copy := w.copies[step.session];
    if !copy.bundle.status.Terminal() {
      WalkTouches(w.now.rows, w.now.bundle, copy.rows, View(copy.bundle, copy.bundle), 0, step.at, step.timeout, step.answers, j);
    }
    hide WalkFrom, Refreshed;
  }

  // ---------------------------------------------------------------- guards that would be enough

  /** The steps the walk looked at in its copy, up to the first it acts on, and the bundle are as it loaded them. */
  predicate Unchanged(now: B.World, copy: Copy) {
    && now.bundle == copy.bundle && |now.rows| == |copy.rows|
    && forall j :: 0 <= j <= Front(copy.rows) && j < |now.rows| ==> now.rows[j] == copy.rows[j]
  }

  lemma UnchangedPollIsInTurn(now: B.World, copy: Copy, at: int, timeout: int, answers: seq<Answer>)
    requires InOrder(now) && Unchanged(now, copy) && RowsKnow(copy.rows) && |answers| == |now.rows| && !copy.bundle.status.Terminal()
    requires Front(copy.rows) < |now.rows| && copy.rows[Front(copy.rows)].status.InFlight()
    ensures WalkInTurn(now.rows, now.bundle, copy, at, timeout, answers)
  {
    var i, rows := Front(copy.rows), now.rows;
    FrontIs(rows, i);
    var polled := Refreshed(rows[i], at, timeout, answers[i]);
    MergeOfFreshCopy(rows[i], polled);
    PolledHow(rows[i], at, timeout, answers[i]);
    hide Front, Refreshed, Merge;
    if polled.status.Success? {
      assert forall j :: i < j < |rows| ==> rows[j].status.Waiting?;
    }
  }

  /** A walk that finds what it looked at unchanged is in turn. */
  lemma UnchangedWalkIsInTurn(w: State, step: Step)
    requires Sound(w) && InOrder(w.now) && Possible(w, step) && step.Walk? && Unchanged(w.now, w.copies[step.session])
    ensures StepInTurn(w, step)
  {
    var copy, rows := w.copies[step.session], w.now.rows;
    assert CopyFits(rows, copy);
    var i := Front(copy.rows);
    if !copy.bundle.status.Terminal() {
      OpenCopy(copy);
      if i < |rows| && copy.rows[i].status.InFlight() {
        hide WalkInTurn, Front, InOrderAt, Refreshed, Merge;
        UnchangedPollIsInTurn(w.now, copy, step.at, step.timeout, step.answers);
      } else {
        hide Refreshed, Merge, Wellformed, Tidy, VerdictFree;
        if i < |rows| && copy.rows[i].status.Failed? {
          FailedItself(rows, i, w.now.bundle, copy.bundle, copy.rows[i]);
        }
      }
    } else {
      hide Front;
      OverIsInTurn(rows, w.now.bundle, copy, step.at, step.timeout, step.answers);
    }
  }

  lemma FrontStands(now: B.World, copy: Copy, j: nat)
    requires InOrder(now) && Unchanged(now, copy) && !copy.bundle.status.Terminal()
    requires InOrderAt(copy.rows, copy.bundle, Front(copy.rows)) && j < |now.rows|
    ensures copy.rows[j].status.InFlight() || copy.rows[j].status.Waiting? ==> now.rows[j].status == copy.rows[j].status
    ensures copy.rows[j].status.InFlight() ==> now.rows[j] == copy.rows[j]
  {
    OpenCopy(copy);
    var i := Front(copy.rows);
    hide Front;
    if i < |now.rows| {
      FrontIs(now.rows, i);
    }
  }

  /** And it calls off nothing: it cancels only what is still in the queue, and no success is overwritten. */
  lemma UnchangedCallsOffNothing(w: State, step: Step, j: nat)
    requires Sound(w) && InOrder(w.now) && Possible(w, step) && step.Walk? && Unchanged(w.now, w.copies[step.session])
    requires j < |w.now.rows|
    ensures var before, after := w.now.rows[j].status, Next(w, step).now.rows[j].status;
            && (after.Cancelled? ==> before.Cancelled? || before.Waiting?)
            && (before.Success? ==> after.Success?)
  {
    var copy := w.copies[step.session];
    assert CopyFits(w.now.rows, copy) && RowsKnow(copy.rows);
    hide WalkFrom, Refreshed, Front, InOrderAt, Unchanged, Wellformed, Tidy;
    if !copy.bundle.status.Terminal() {
      hide Next;
      WalkOverwrites(w, step, j);
      FrontStands(w.now, copy, j);
      if copy.rows[j].status.InFlight() {
        PolledHow(copy.rows[j], step.at, step.timeout, step.answers[j]);
      }
    }
  }

  /** What the code could look at before it commits. */
  predicate Guarded(w: State, step: Step)
    requires Possible(w, step)
  {
    match step
    case Load(_) => true
    case Walk(session, _, _, _) => Unchanged(w.now, w.copies[session])
    case Other(step) => B.Guarded(w.now, step)
  }

  predicate AlwaysGuarded(w: State, steps: seq<Step>)
    requires PossibleRun(w, steps)
    decreases |steps|
  {
    steps == [] || (Guarded(w, steps[0]) && AlwaysGuarded(Next(w, steps[0]), steps[1..]))
  }

  lemma GuardedStepIsInTurn(w: State, step: Step)
    requires Sound(w) && InOrder(w.now) && Possible(w, step) && Guarded(w, step)
    ensures StepInTurn(w, step)
  {
    hide InOrder, Sound, Unchanged, WalkInTurn, Front;
    match step
    case Load(_) =>
    case Walk(_, _, _, _) =>
      UnchangedWalkIsInTurn(w, step);
    case Other(other) =>
      OtherGuardedIsInTurn(w, other);
  }

  lemma OtherGuardedIsInTurn(w: State, step: B.Step)
    requires Sound(w) && InOrder(w.now) && B.Possible(w.now, step) && B.Guarded(w.now, step)
    ensures B.StepInTurn(w.now, step)
  {
    hide InOrder, Front;
    if step.Reply? {
      PromotingReplyIsInTurn(w.now, step.session, step.outcome);
    } else if step.Conclude? {
      OwnRefusalStands(w.now, step.session);
    }
  }

  /** With these checks every run is in order throughout, however old the copies. */
  lemma {:induction false} GuardedReleaseIsOrdered(w: State, steps: seq<Step>)
    requires Sound(w) && InOrder(w.now) && PossibleRun(w, steps) && AlwaysGuarded(w, steps)
    ensures AlwaysInOrder(w, steps)
    decreases |steps|
  {
    if steps != [] {
      hide Next, Possible, StepInTurn, InOrder, Sound, Guarded;
      GuardedStepIsInTurn(w, steps[0]);
      StepInOrderIff(w, steps[0]);
      StepKeepsSound(w, steps[0]);
      GuardedReleaseIsOrdered(Next(w, steps[0]), steps[1..]);
    }
  }
}
