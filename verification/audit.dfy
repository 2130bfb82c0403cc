/** The append-only event log, read back: what the events of one deployment determine. */
module AuditTrail {
  import opened Base
  import opened Drone
  import opened Rows
  import opened Reconciliation

  /** What a reader of the log knows: the deployment's status and the pending poll error. */
  datatype Reading = Reading(status: Status, poll: Option<ErrorCode>)

  function ReadEvent(r: Reading, e: Event): Reading {
    var status := if e.status.Of? && e.kind != PublishActivity then e.status.status else r.status;
    var poll :=
      match e.kind
      case UpstreamUnavailable => e.code
      case UpstreamRecovered => None
      case DeploymentRetried => None
      case PromotionUnconfirmed => Some(PromoteUnconfirmed)
      case _ => r.poll;
    Reading(status, poll)
  }

  function ReadLog(log: seq<Event>): Reading {
    if log == [] then Reading(Status.Waiting, None)
    else ReadEvent(ReadLog(log[..|log| - 1]), log[|log| - 1])
  }

  /** The commits on one row.  A claim is a conditional update of the row as it is; everything else is written
      from the copy the session loaded, however old. */
  datatype Write =
    | Claim(now: int)
    | Poll(seen: Row, now: int, timeout: int, answer: Answer)
    | Settle(seen: Row, outcome: PromoteAnswer)
    | Cancel(seen: Row)
    | Retry(seen: Row)
    | Announce(seen: Row, kind: EventKind, stage: string)
    | Publish(at: string)

  /** All the code looks at in its copy before it writes; nothing else is asked of a copy. */
  predicate Proper(w: Write) {
    match w
    case Poll(seen, _, _, _) => seen.status.InFlight()
    case Settle(seen, _) => seen.status == Status.Promoting
    case Cancel(seen) => seen.status.Waiting?
    case Retry(seen) => !seen.status.Success?
    case Announce(seen, kind, _) => seen.status.Success? && kind in {ReleaseCompleted, StageStarted}
    case _ => true
  }

  function Next(row: Row, w: Write): Row {
    match w
    case Claim(now) => if row.status.Waiting? then Claimed(row, now) else row
    case Poll(seen, now, timeout, answer) => Merge(row, seen, Refreshed(seen, now, timeout, answer))
    case Settle(seen, outcome) => Merge(row, seen, Settled(seen, outcome))
    case Cancel(seen) => Merge(row, seen, CancelledRow(seen))
    case Retry(seen) => Merge(row, seen, Reset(seen))
    case Announce(seen, kind, stage) => Merge(row, seen, Noted(seen, Event(kind, stage, Of(seen.status), None)))
    case Publish(stage) => Noted(row, Event(PublishActivity, stage, NoStatus, None))
  }

  predicate StatusAgrees(row: Row) {
    ReadLog(row.log).status == row.status
  }

  predicate PollAgrees(row: Row) {
    ReadLog(row.log).poll == row.pollCode
  }

  /** The write that records an unknown outcome. */
  predicate RecordsUnknown(w: Write) {
    && w.Settle? && w.outcome.ciAllowed && w.outcome.planHolds
    && w.outcome.reply.Raised? && w.outcome.reply.error.Unconfirmed()
  }

  /** The write stamps the log with the status of its copy and does not write it: an unknown outcome; an outage,
      a recovery or an adoption on a step that its copy leaves in the same status; a reset of a step that its copy
      has in the queue; an announcement. */
  predicate StampsOldStatus(w: Write) {
    match w
    case Poll(seen, now, timeout, answer) =>
      var after := Refreshed(seen, now, timeout, answer);
      after.status == seen.status && (after.pollCode != seen.pollCode || after.promotion != seen.promotion)
    case Settle(_, _) => RecordsUnknown(w)
    case Retry(seen) => seen.status.Waiting?
    case Announce(_, _, _) => true
    case _ => false
  }

  /** The write moves the status without stamping it: a build already known is found running by a session whose
      copy is still PROMOTING. */
  predicate MovesUnstamped(w: Write) {
    && w.Poll?
    && var after := Refreshed(w.seen, w.now, w.timeout, w.answer);
       after.status == Status.Deploying && w.seen.status == Status.Promoting && after.promotion == w.seen.promotion
  }

  /** A status stamped and not written is the row's; one written and not stamped is the row's already, and no
      recovery stamps the old one meanwhile. */
  predicate Timely(row: Row, w: Write) {
    && (StampsOldStatus(w) ==> row.status == w.seen.status)
    && (MovesUnstamped(w) ==> row.status == Status.Deploying && w.seen.pollCode == None)
  }

  /** A reset whose copy has no poll error pending finds none pending, and an unknown outcome whose copy has that
      error pending finds it pending. */
  predicate PendingKnown(row: Row, w: Write) {
    && (w.Retry? && w.seen.pollCode == None ==> row.pollCode == None)
    && (RecordsUnknown(w) && w.seen.pollCode == Some(PromoteUnconfirmed) ==> row.pollCode == Some(PromoteUnconfirmed))
  }

  /** An outage event is written only when the log does not already say so. */
  predicate OutagesAreNews(log: seq<Event>) {
    forall j :: 0 <= j < |log| && log[j].kind == UpstreamUnavailable ==> ReadLog(log[..j]).poll != log[j].code
  }

  /** The poll records an outage that its copy does not have pending. */
  predicate RecordsOutage(w: Write) {
    && w.Poll?
    && var after := Refreshed(w.seen, w.now, w.timeout, w.answer);
       after.pollCode.Some? && after.pollCode != w.seen.pollCode
  }

  /** An outage is recorded only while the row does not have it pending. */
  predicate News(row: Row, w: Write) {
    RecordsOutage(w) ==> row.pollCode != Refreshed(w.seen, w.now, w.timeout, w.answer).pollCode
  }

  // ---------------------------------------------------------------- one write

  function ReadAll(r: Reading, events: seq<Event>): Reading
    decreases |events|
  {
    if events == [] then r else ReadAll(ReadEvent(r, events[0]), events[1..])
  }

  lemma Extend(log: seq<Event>, e: Event)
    ensures ReadLog(log + [e]) == ReadEvent(ReadLog(log), e)
    ensures (OutagesAreNews(log) && (e.kind == UpstreamUnavailable ==> ReadLog(log).poll != e.code)) ==>
              OutagesAreNews(log + [e])
  {
    var longer := log + [e];
    assert longer[..|log|] == log;
    assert forall j :: 0 <= j < |log| ==> longer[j] == log[j] && longer[..j] == log[..j];
  }

  lemma {:induction false} ReadAppended(log: seq<Event>, events: seq<Event>)
    ensures ReadLog(log + events) == ReadAll(ReadLog(log), events)
    ensures OutagesAreNews(log) && (forall e :: e in events ==> e.kind != UpstreamUnavailable) ==> OutagesAreNews(log + events)
    decreases |events|
  {
    if events == [] {
      assert log + events == log;
    } else {
      Extend(log, events[0]);
      assert log + events == (log + [events[0]]) + events[1..];
      ReadAppended(log + [events[0]], events[1..]);
    }
  }

  /** What a write appends. */
  function Added(seen: Row, after: Row): seq<Event>
    requires Follows(seen, after)
  {
    after.log[|seen.log|..]
  }

  lemma {:induction false} ReadJoined(r: Reading, a: seq<Event>, b: seq<Event>)
    ensures ReadAll(r, a + b) == ReadAll(ReadAll(r, a), b)
    decreases |a|
  {
    if a == [] {
      assert a + b == b;
    } else {
      assert (a + b)[1..] == a[1..] + b;
      ReadJoined(ReadEvent(r, a[0]), a[1..], b);
    }
  }

  lemma ReadOne(r: Reading, e: Event)
    ensures ReadAll(r, [e]) == ReadEvent(r, e)
  {
    assert [e][1..] == [];
  }

  lemma AddedJoins(a: Row, b: Row, c: Row)
    requires Follows(a, b) && Follows(b, c)
    ensures Follows(a, c) && Added(a, c) == Added(a, b) + Added(b, c)
  {
    assert b.log == a.log + Added(a, b) && c.log == b.log + Added(b, c);
    assert c.log == a.log + (Added(a, b) + Added(b, c));
  }

  lemma AddedOne(seen: Row, after: Row, e: Event)
    requires Follows(seen, after) && after.log == seen.log + [e]
    ensures Added(seen, after) == [e]
  {
  }

  /** What the log says after a write: the status it stamped, if any, and the poll error it wrote. */
  predicate Reads(seen: Row, after: Row, stamp: Option<Status>, r: Reading)
    requires Follows(seen, after)
  {
    ReadAll(r, Added(seen, after)) == Reading(stamp.GetOr(r.status), Column(r.poll, seen.pollCode, after.pollCode))
  }

  lemma PollFailedReads(seen: Row, at: string, code: ErrorCode, r: Reading)
    ensures Reads(seen, PollFailed(seen, at, code), if seen.pollCode != Some(code) then Some(seen.status) else None, r)
  {
    if seen.pollCode == Some(code) {
      assert Added(seen, PollFailed(seen, at, code)) == [];
    } else {
      var e := Event(UpstreamUnavailable, at, Of(seen.status), Some(code));
      AddedOne(seen, PollFailed(seen, at, code), e);
      ReadOne(r, e);
    }
  }

  lemma PollClearedReads(seen: Row, at: string, r: Reading)
    ensures Reads(seen, PollCleared(seen, at), if seen.pollCode.Some? then Some(seen.status) else None, r)
  {
    if seen.pollCode == None {
      assert Added(seen, seen) == [];
    } else {
      var e := Event(UpstreamRecovered, at, Of(seen.status), None);
      AddedOne(seen, PollCleared(seen, at), e);
      ReadOne(r, e);
    }
  }

  function StampOf(e: Event): Option<Status> {
    if e.status.Of? && e.kind != PublishActivity then Some(e.status.status) else None
  }

  /** A write that adds one event, which says nothing about polling. */
  lemma OneEventReads(seen: Row, e: Event, after: Row, r: Reading)
    requires e.kind !in {UpstreamUnavailable, UpstreamRecovered, DeploymentRetried, PromotionUnconfirmed}
    requires Follows(seen, after) && after.log == seen.log + [e] && after.pollCode == seen.pollCode
    ensures Reads(seen, after, StampOf(e), r)
  {
    AddedOne(seen, after, e);
    ReadOne(r, e);
  }

  lemma RecordedReads(seen: Row, number: int, at: string, r: Reading)
    ensures Reads(seen, Recorded(seen, number, at), Some(Status.Deploying), r)
  {
    var a := Event(StageSucceeded, at, Of(Status.Deploying), None);
    var b := Event(PromotionCreated, at, Of(Status.Deploying), None);
    var c := Event(StageStarted, WaitStage(seen.component), Of(Status.Deploying), None);
    assert Added(seen, Recorded(seen, number, at)) == [a] + ([b] + [c]);
    ReadJoined(r, [a], [b] + [c]);
    ReadOne(r, a);
    ReadJoined(ReadEvent(r, a), [b], [c]);
    ReadOne(ReadEvent(r, a), b);
    ReadOne(ReadEvent(ReadEvent(r, a), b), c);
  }

  /** One write after another: the later stamp counts, if there is one. */
  lemma ReadsOn(a: Row, b: Row, c: Row, first: Option<Status>, second: Option<Status>, r: Reading)
    requires Follows(a, b) && Follows(b, c) && b.pollCode == c.pollCode
    requires Reads(a, b, first, r) && Reads(b, c, second, ReadAll(r, Added(a, b)))
    ensures Follows(a, c) && Reads(a, c, if second.Some? then second else first, r)
  {
    AddedJoins(a, b, c);
    ReadJoined(r, Added(a, b), Added(b, c));
  }

  /** The status a poll stamps last: the end of the step, the adoption of its build, or, on an outage or a
      recovery, that of the copy. */
  function PollStamp(seen: Row, after: Row): Option<Status> {
    if after.status.Terminal() then Some(after.status)
    else if after.promotion != seen.promotion then Some(Status.Deploying)
    else if after.pollCode != seen.pollCode then Some(seen.status)
    else None
  }

  lemma AdoptedReads(seen: Row, at: string, number: int, r: Reading)
    ensures var noted := Noted(PollCleared(seen, at), Event(PromotionReconciled, at, Of(seen.status), None));
            Follows(seen, Recorded(noted, number, at)) && Reads(seen, Recorded(noted, number, at), Some(Status.Deploying), r)
  {
    var cleared, e := PollCleared(seen, at), Event(PromotionReconciled, at, Of(seen.status), None);
    var noted := Noted(cleared, e);
    PollClearedReads(seen, at, r);
    OneEventReads(cleared, e, noted, ReadAll(r, Added(seen, cleared)));
    ReadsOn(seen, cleared, noted, if seen.pollCode.Some? then Some(seen.status) else None, Some(seen.status), r);
    RecordedReads(noted, number, at, ReadAll(r, Added(seen, noted)));
    ReadsOn(seen, noted, Recorded(noted, number, at), Some(seen.status), Some(Status.Deploying), r);
  }

  lemma ReconciledReads(seen: Row, at: string, listing: ListAnswer, r: Reading)
    requires seen.status.InFlight() && seen.promotion == None
    ensures var after := Reconciled(seen, at, listing);
            Reads(seen, after, PollStamp(seen, after), r)
  {
    hide Reads;
    if listing.ListFailed? {
      PollFailedReads(seen, at, listing.code, r);
    } else {
      var found := FindPromotionBuild(listing.builds, seen.slot.source, seen.slot.target);
      if found == None {
        PollFailedReads(seen, at, PromoteUnconfirmed, r);
      } else {
        AdoptedReads(seen, at, found.value.number, r);
      }
    }
  }

  lemma JudgedReads(seen: Row, at: string, build: Build, r: Reading)
    requires seen.status.InFlight()
    ensures var after := Judged(seen, at, build);
            Reads(seen, after, PollStamp(seen, after), r)
  {
    var cleared := PollCleared(seen, at);
    var e := Event(DroneStatusChanged, at, DroneText(build.status), None);
    var noted := Noted(cleared, e);
    var after := Judged(seen, at, build);
    var pending := if seen.pollCode.Some? then Some(seen.status) else None;
    PollClearedReads(seen, at, r);
    OneEventReads(cleared, e, noted, ReadAll(r, Added(seen, cleared)));
    ReadsOn(seen, cleared, noted, pending, None, r);
    if build.status in RUNNING {
      assert Added(seen, after) == Added(seen, noted);
    } else if build.status == "success" && VerifiedSuccess(seen, build) {
      OneEventReads(noted, Event(StageSucceeded, ActiveStage(noted), Of(Status.Success), None), after, ReadAll(r, Added(seen, noted)));
      ReadsOn(seen, noted, after, pending, Some(Status.Success), r);
    } else {
      var code := if build.status == "success" then PromotionStagesRejected
                  else if build.status == "killed" then DroneBuildKilled else DroneBuildFailed;
      OneEventReads(noted, Event(StageFailed, at, Of(Status.Failed), Some(code)), after, ReadAll(r, Added(seen, noted)));
      ReadsOn(seen, noted, after, pending, Some(Status.Failed), r);
    }
  }

  lemma PollReads(seen: Row, now: int, timeout: int, answer: Answer, r: Reading)
    requires seen.status.InFlight()
    ensures var after := Refreshed(seen, now, timeout, answer);
            Reads(seen, after, PollStamp(seen, after), r)
  {
    var at := ActiveStage(seen);
    if TimedOut(seen, now, timeout) {
      OneEventReads(seen, Event(StageFailed, at, Of(Status.Failed), Some(WorkflowTimeout)), FailedWith(seen, at, WorkflowTimeout), r);
    } else if seen.promotion == None {
      ReconciledReads(seen, at, answer.listing, r);
    } else if answer.poll.Unreachable? {
      PollFailedReads(seen, at, answer.poll.code, r);
    } else {
      JudgedReads(seen, at, answer.poll.build, r);
    }
  }

  lemma SettleReads(seen: Row, outcome: PromoteAnswer, r: Reading)
    requires Proper(Settle(seen, outcome))
    ensures ReadAll(r, Added(seen, Settled(seen, outcome))) ==
            Reading(Settled(seen, outcome).status, if RecordsUnknown(Settle(seen, outcome)) then Some(PromoteUnconfirmed) else r.poll)
  {
    var at := PromoteStage(seen.component);
    if outcome.ciAllowed && outcome.planHolds && outcome.reply.Created? {
      RecordedReads(seen, outcome.reply.number, at, r);
    } else if RecordsUnknown(Settle(seen, outcome)) {
      var e := Event(PromotionUnconfirmed, at, Of(seen.status), Some(outcome.reply.error.Code()));
      AddedOne(seen, Settled(seen, outcome), e);
      ReadOne(r, e);
    } else {
      var code := if !outcome.ciAllowed then CiDispatchRejected
                  else if !outcome.planHolds then ApprovedPlanChanged else outcome.reply.error.Code();
      OneEventReads(seen, Event(StageFailed, at, Of(Status.Failed), Some(code)), Settled(seen, outcome), r);
    }
  }

  /** A reset is read as WAITING with nothing pending. */
  lemma ResetReads(seen: Row, r: Reading)
    ensures ReadAll(r, Added(seen, Reset(seen))) == Reading(Status.Waiting, None)
  {
    var e := Event(DeploymentRetried, PromoteStage(seen.component), Of(Status.Waiting), None);
    AddedOne(seen, Reset(seen), e);
    ReadOne(r, e);
  }

  // ---------------------------------------------------------------- one write, flushed over the row as it is

  predicate FlushedFrom(w: Write) {
    w.Poll? || w.Settle? || w.Cancel? || w.Retry? || w.Announce?
  }

  function Wanted(w: Write): (after: Row)
    requires FlushedFrom(w)
    ensures Follows(w.seen, after)
  {
    match w
    case Poll(seen, now, timeout, answer) => Refreshed(seen, now, timeout, answer)
    case Settle(seen, outcome) => Settled(seen, outcome)
    case Cancel(seen) => CancelledRow(seen)
    case Retry(seen) => Reset(seen)
    case Announce(seen, kind, stage) => Noted(seen, Event(kind, stage, Of(seen.status), None))
  }

  lemma NextReads(row: Row, w: Write)
    requires FlushedFrom(w)
    ensures ReadLog(Next(row, w).log) == ReadAll(ReadLog(row.log), Added(w.seen, Wanted(w)))
    ensures Next(row, w).status == Column(row.status, w.seen.status, Wanted(w).status)
    ensures Next(row, w).pollCode == Column(row.pollCode, w.seen.pollCode, Wanted(w).pollCode)
  {
    ReadAppended(row.log, Added(w.seen, Wanted(w)));
    hide Refreshed, Settled, CancelledRow, Reset;
  }

  /** The status a write stamps last. */
  function Stamp(w: Write): Option<Status>
    requires FlushedFrom(w)
  {
    if w.Poll? then PollStamp(w.seen, Wanted(w)) else Some(Wanted(w).status)
  }

  /** What a write does to the reading, whatever the log said before. */
  lemma WriteReads(w: Write, r: Reading)
    requires Proper(w) && FlushedFrom(w)
    ensures ReadAll(r, Added(w.seen, Wanted(w))) ==
            Reading(Stamp(w).GetOr(r.status),
                    if RecordsUnknown(w) then Some(PromoteUnconfirmed) else if w.Retry? then None
                    else Column(r.poll, w.seen.pollCode, Wanted(w).pollCode))
  {
    if w.Poll? {
      PollReads(w.seen, w.now, w.timeout, w.answer, r);
      hide Refreshed, PollStamp;
    } else if w.Settle? {
      SettleReads(w.seen, w.outcome, r);
      hide ReadAll;
    } else if w.Retry? {
      ResetReads(w.seen, r);
      hide ReadAll;
    } else if w.Cancel? {
      OneEventReads(w.seen, Event(DeploymentCancelled, PromoteStage(w.seen.component), Of(Status.Cancelled), None), Wanted(w), r);
      hide ReadAll;
    } else {
      OneEventReads(w.seen, Event(w.kind, w.stage, Of(w.seen.status), None), Wanted(w), r);
      hide ReadAll;
    }
  }

  /** A stamp is right over the row as it will be exactly when the write is timely. */
  lemma StampIsRightIff(row: Row, w: Write)
    requires Proper(w) && FlushedFrom(w)
    ensures Stamp(w).GetOr(row.status) == Column(row.status, w.seen.status, Wanted(w).status) <==> Timely(row, w)
  {
    if w.Poll? {
      PolledOutcome(w.seen, w.now, w.timeout, w.answer);
      hide Refreshed;
    }
  }

  /** What becomes of a step at work under a poll: it ends, adopts a build, or is found running. */
  lemma PolledOutcome(seen: Row, now: int, timeout: int, answer: Answer)
    requires seen.status.InFlight()
    ensures var after := Refreshed(seen, now, timeout, answer);
            && (after.status.Terminal() ==> after.promotion == seen.promotion)
            && (after.status.Terminal() || after.status == seen.status || after.status == Status.Deploying)
            && (after.promotion != seen.promotion ==> after.status == Status.Deploying)
            && (after.status != seen.status && after.status == Status.Deploying && after.promotion == seen.promotion ==>
                  after.pollCode == None)
  {
  }

  lemma PendingIsRightIff(row: Row, w: Write)
    requires Proper(w) && FlushedFrom(w)
    ensures var written := Column(row.pollCode, w.seen.pollCode, Wanted(w).pollCode);
            (written == if RecordsUnknown(w) then Some(PromoteUnconfirmed) else if w.Retry? then None else written) <==>
            PendingKnown(row, w)
  {
    hide Refreshed;
  }

  lemma FlushAgreesIff(row: Row, w: Write)
    requires Proper(w) && FlushedFrom(w)
    ensures StatusAgrees(row) ==> (StatusAgrees(Next(row, w)) <==> Timely(row, w))
    ensures PollAgrees(row) ==> (PollAgrees(Next(row, w)) <==> PendingKnown(row, w))
  {
    NextReads(row, w);
    WriteReads(w, ReadLog(row.log));
    StampIsRightIff(row, w);
    PendingIsRightIff(row, w);
    hide Next, ReadLog, ReadAll, Wanted, Timely, PendingKnown, Stamp, RecordsUnknown;
  }

  /** A write keeps the log right about the status exactly when a status it stamps or moves is the row's, and right
      about the pending error exactly when what it leaves unwritten there is the row's. */
  lemma WriteAgreesIff(row: Row, w: Write)
    requires Proper(w)
    ensures StatusAgrees(row) ==> (StatusAgrees(Next(row, w)) <==> Timely(row, w))
    ensures PollAgrees(row) ==> (PollAgrees(Next(row, w)) <==> PendingKnown(row, w))
  {
    if FlushedFrom(w) {
      hide Next, Timely, PendingKnown;
      FlushAgreesIff(row, w);
    } else {
      match w
      case Claim(now) =>
        Extend(row.log, Event(StageStarted, PromoteStage(row.component), Of(Status.Promoting), None));
      case Publish(stage) =>
        Extend(row.log, Event(PublishActivity, stage, NoStatus, None));
      case _ => assert false;
    }
  }

  // ---------------------------------------------------------------- outages

  predicate NoOutage(seen: Row, after: Row)
    requires Follows(seen, after)
  {
    forall e :: e in Added(seen, after) ==> e.kind != UpstreamUnavailable
  }

  lemma NoOutageJoins(a: Row, b: Row, c: Row)
    requires Follows(a, b) && Follows(b, c) && NoOutage(a, b) && NoOutage(b, c)
    ensures Follows(a, c) && NoOutage(a, c)
  {
    AddedJoins(a, b, c);
  }

  lemma SimpleWritesAddNone(seen: Row, number: int, at: string, e: Event, code: ErrorCode)
    requires e.kind != UpstreamUnavailable
    ensures NoOutage(seen, PollCleared(seen, at)) && NoOutage(seen, Noted(seen, e)) && NoOutage(seen, Recorded(seen, number, at))
    ensures NoOutage(seen, FailedWith(seen, at, code)) && NoOutage(seen, Succeeded(seen))
  {
  }

  predicate OutageOnly(seen: Row, after: Row)
    requires Follows(seen, after)
  {
    |Added(seen, after)| == 1 && Added(seen, after)[0].kind == UpstreamUnavailable && Added(seen, after)[0].code == after.pollCode
  }

  lemma PollFailedAdds(seen: Row, at: string, code: ErrorCode)
    ensures var after := PollFailed(seen, at, code);
            && (seen.pollCode != Some(code) ==> OutageOnly(seen, after)) && (seen.pollCode == Some(code) ==> NoOutage(seen, after))
  {
  }

  lemma AdoptionAddsNone(seen: Row, at: string, number: int)
    ensures var noted := Noted(PollCleared(seen, at), Event(PromotionReconciled, at, Of(seen.status), None));
            Follows(seen, Recorded(noted, number, at)) && NoOutage(seen, Recorded(noted, number, at))
  {
    var cleared, e := PollCleared(seen, at), Event(PromotionReconciled, at, Of(seen.status), None);
    SimpleWritesAddNone(seen, number, at, e, WorkflowTimeout);
    SimpleWritesAddNone(cleared, number, at, e, WorkflowTimeout);
    SimpleWritesAddNone(Noted(cleared, e), number, at, e, WorkflowTimeout);
    hide NoOutage, PollCleared, Noted, Recorded, FailedWith, Succeeded;
    NoOutageJoins(seen, cleared, Noted(cleared, e));
    NoOutageJoins(seen, Noted(cleared, e), Recorded(Noted(cleared, e), number, at));
  }

  lemma JudgementAddsNone(seen: Row, at: string, build: Build)
    ensures NoOutage(seen, Judged(seen, at, build))
  {
    var cleared, e := PollCleared(seen, at), Event(DroneStatusChanged, at, DroneText(build.status), None);
    var noted := Noted(cleared, e);
    var code := if build.status == "success" then PromotionStagesRejected
                else if build.status == "killed" then DroneBuildKilled else DroneBuildFailed;
    SimpleWritesAddNone(seen, 0, at, e, code);
    SimpleWritesAddNone(cleared, 0, at, e, code);
    SimpleWritesAddNone(noted, 0, at, e, code);
    var after := Judged(seen, at, build);
    assert after.log == noted.log || after == Succeeded(noted) || after == FailedWith(noted, at, code);
    hide NoOutage, PollCleared, Noted, Recorded, FailedWith, Succeeded, Judged;
    NoOutageJoins(seen, cleared, noted);
    if after.log == noted.log {
      SameLogSameOutages(seen, noted, after);
    } else {
      NoOutageJoins(seen, noted, after);
    }
  }

  lemma SameLogSameOutages(seen: Row, a: Row, b: Row)
    requires Follows(seen, a) && Follows(seen, b) && a.log == b.log
    ensures NoOutage(seen, a) <==> NoOutage(seen, b)
  {
  }

  /** A poll adds an outage event exactly when it records one that its copy does not have, and then nothing else. */
  lemma PollAddsOutage(seen: Row, now: int, timeout: int, answer: Answer)
    requires seen.status.InFlight()
    ensures var after := Refreshed(seen, now, timeout, answer);
            if RecordsOutage(Poll(seen, now, timeout, answer)) then OutageOnly(seen, after) else NoOutage(seen, after)
  {
    var at := ActiveStage(seen);
    hide NoOutage, OutageOnly;
    if TimedOut(seen, now, timeout) {
      SimpleWritesAddNone(seen, 0, at, Event(StageFailed, at, NoStatus, None), WorkflowTimeout);
    } else if seen.promotion == None {
      ReconciliationAdds(seen, at, answer.listing);
    } else if answer.poll.Unreachable? {
      PollFailedAdds(seen, at, answer.poll.code);
    } else {
      JudgementAddsNone(seen, at, answer.poll.build);
      JudgementClears(seen, at, answer.poll.build);
      hide Judged;
    }
  }

  lemma ReconciliationAdds(seen: Row, at: string, listing: ListAnswer)
    ensures var after := Reconciled(seen, at, listing);
            if after.pollCode.Some? && after.pollCode != seen.pollCode
            then OutageOnly(seen, after) else NoOutage(seen, after)
  {
    hide NoOutage, OutageOnly;
    if listing.ListFailed? {
      PollFailedAdds(seen, at, listing.code);
    } else {
      var found := FindPromotionBuild(listing.builds, seen.slot.source, seen.slot.target);
      if found == None {
        PollFailedAdds(seen, at, PromoteUnconfirmed);
      } else {
        AdoptionAddsNone(seen, at, found.value.number);
      }
    }
  }

  lemma JudgementClears(seen: Row, at: string, build: Build)
    ensures Judged(seen, at, build).pollCode == None
  {
  }

  predicate ReplyGiven(outcome: PromoteAnswer) {
    outcome.ciAllowed && outcome.planHolds && outcome.reply.Created?
  }

  lemma OthersAddNoOutage(w: Write)
    requires Proper(w) && FlushedFrom(w) && !w.Poll?
    ensures NoOutage(w.seen, Wanted(w))
  {
    if w.Announce? {
      assert Added(w.seen, Wanted(w)) == [Event(w.kind, w.stage, Of(w.seen.status), None)];
    } else if w.Settle? {
      var at := PromoteStage(w.seen.component);
      if ReplyGiven(w.outcome) {
        SimpleWritesAddNone(w.seen, w.outcome.reply.number, at, Event(StageFailed, at, NoStatus, None), WorkflowTimeout);
        hide Recorded, NoOutage;
      }
    } else {
      hide Settled;
    }
  }

  lemma ExtendNewsIff(log: seq<Event>, e: Event)
    requires OutagesAreNews(log) && e.kind == UpstreamUnavailable
    ensures OutagesAreNews(log + [e]) <==> ReadLog(log).poll != e.code
  {
    Extend(log, e);
    assert (log + [e])[|log|] == e && (log + [e])[..|log|] == log;
  }

  /** A write leaves every outage event in the log news exactly when the outage it records is. */
  lemma WriteNewsIff(row: Row, w: Write)
    requires Proper(w) && PollAgrees(row) && OutagesAreNews(row.log)
    ensures OutagesAreNews(Next(row, w).log) <==> News(row, w)
  {
    if w.Poll? {
      var after := Wanted(w);
      PollAddsOutage(w.seen, w.now, w.timeout, w.answer);
      assert Next(row, w).log == row.log + Added(w.seen, after);
      hide Refreshed, Merge, Next, OutagesAreNews, ReadLog;
      if RecordsOutage(w) {
        assert Added(w.seen, after) == [Added(w.seen, after)[0]];
        ExtendNewsIff(row.log, Added(w.seen, after)[0]);
      } else {
        ReadAppended(row.log, Added(w.seen, after));
      }
    } else if FlushedFrom(w) {
      OthersAddNoOutage(w);
      assert Next(row, w).log == row.log + Added(w.seen, Wanted(w));
      hide Settled, CancelledRow, Reset, Merge, Next, OutagesAreNews;
      ReadAppended(row.log, Added(w.seen, Wanted(w)));
    } else {
      match w
      case Claim(now) =>
        Extend(row.log, Event(StageStarted, PromoteStage(row.component), Of(Status.Promoting), None));
      case Publish(stage) =>
        Extend(row.log, Event(PublishActivity, stage, NoStatus, None));
      case _ => assert false;
    }
  }

  /** Exactly which commits take a deployment out of SUCCESS: a known reply, a cancellation, a reset from a copy
      that is not in the queue, and a poll that ends or adopts what its copy has at work, other than to succeed. */
  lemma SuccessIsLeftIff(row: Row, w: Write)
    requires row.status.Success? && Proper(w)
    ensures !Next(row, w).status.Success? <==>
            match w
            case Poll(seen, now, timeout, answer) =>
              var after := Refreshed(seen, now, timeout, answer).status; after != seen.status && !after.Success?
            case Settle(_, _) => !RecordsUnknown(w)
            case Cancel(_) => true
            case Retry(seen) => !seen.status.Waiting?
            case _ => false
  {
    if w.Poll? {
      hide Refreshed;
    }
  }

  // ---------------------------------------------------------------- whole runs

  predicate ProperRun(writes: seq<Write>) {
    forall w :: w in writes ==> Proper(w)
  }

  function RowAfter(row: Row, writes: seq<Write>): Row
    decreases |writes|
  {
    if writes == [] then row else RowAfter(Next(row, writes[0]), writes[1..])
  }

  /** The status read back from the log is right in every committed state of the run. */
  predicate AlwaysAgrees(row: Row, writes: seq<Write>)
    decreases |writes|
  {
    StatusAgrees(row) && (writes == [] || AlwaysAgrees(Next(row, writes[0]), writes[1..]))
  }

  predicate AlwaysTimely(row: Row, writes: seq<Write>)
    decreases |writes|
  {
    writes == [] || (Timely(row, writes[0]) && AlwaysTimely(Next(row, writes[0]), writes[1..]))
  }

  /** So is the pending poll error. */
  predicate PollAlwaysAgrees(row: Row, writes: seq<Write>)
    decreases |writes|
  {
    PollAgrees(row) && (writes == [] || PollAlwaysAgrees(Next(row, writes[0]), writes[1..]))
  }

  predicate PendingAlwaysKnown(row: Row, writes: seq<Write>)
    decreases |writes|
  {
    writes == [] || (PendingKnown(row, writes[0]) && PendingAlwaysKnown(Next(row, writes[0]), writes[1..]))
  }

  predicate AlwaysNews(row: Row, writes: seq<Write>)
    decreases |writes|
  {
    writes == [] || (News(row, writes[0]) && AlwaysNews(Next(row, writes[0]), writes[1..]))
  }

  /** The event log determines the status in every committed state of a run, sessions with old copies included,
      if and only if every status a session stamped without writing it was the row's. */
  lemma {:induction false} LogDeterminesStatus(row: Row, writes: seq<Write>)
    requires StatusAgrees(row) && ProperRun(writes)
    ensures AlwaysAgrees(row, writes) <==> AlwaysTimely(row, writes)
    decreases |writes|
  {
    if writes != [] {
      hide Next, Timely, StatusAgrees;
      WriteAgreesIff(row, writes[0]);
      if StatusAgrees(Next(row, writes[0])) {
        LogDeterminesStatus(Next(row, writes[0]), writes[1..]);
      }
    }
  }

  /** It determines the pending poll error if and only if no reset from a copy without one found one pending, and no
      unknown outcome from a copy with that error found it gone. */
  lemma {:induction false} LogDeterminesPollError(row: Row, writes: seq<Write>)
    requires PollAgrees(row) && ProperRun(writes)
    ensures PollAlwaysAgrees(row, writes) <==> PendingAlwaysKnown(row, writes)
    decreases |writes|
  {
    if writes != [] {
      hide Next, PendingKnown, PollAgrees;
      WriteAgreesIff(row, writes[0]);
      if PollAgrees(Next(row, writes[0])) {
        LogDeterminesPollError(Next(row, writes[0]), writes[1..]);
      }
    }
  }

  lemma {:induction false} LogOnlyGrows(row: Row, writes: seq<Write>)
    ensures row.log <= RowAfter(row, writes).log
    decreases |writes|
  {
    if writes != [] {
      assert row.log <= Next(row, writes[0]).log by {
        NextGrows(row, writes[0]);
      }
      hide Next;
      LogOnlyGrows(Next(row, writes[0]), writes[1..]);
    }
  }

  lemma NextGrows(row: Row, w: Write)
    ensures row.log <= Next(row, w).log
  {
    hide Refreshed, Settled, CancelledRow, Reset;
  }

  lemma OldNewsStays(log: seq<Event>, longer: seq<Event>)
    requires log <= longer && OutagesAreNews(longer)
    ensures OutagesAreNews(log)
  {
    forall j | 0 <= j < |log| && log[j].kind == UpstreamUnavailable
      ensures ReadLog(log[..j]).poll != log[j].code
    {
      assert log[j] == longer[j] && log[..j] == longer[..j];
    }
  }

  /** While the log says what is pending: every outage event of a run says something the log did not say yet, if
      and only if every outage was recorded while the row did not have it pending. */
  lemma {:induction false} OutagesAreNewsIff(row: Row, writes: seq<Write>)
    requires PollAgrees(row) && OutagesAreNews(row.log) && ProperRun(writes) && PendingAlwaysKnown(row, writes)
    ensures OutagesAreNews(RowAfter(row, writes).log) <==> AlwaysNews(row, writes)
    decreases |writes|
  {
    if writes != [] {
      hide Next, News, PendingKnown, PollAgrees, OutagesAreNews;
      WriteAgreesIff(row, writes[0]);
      WriteNewsIff(row, writes[0]);
      var row' := Next(row, writes[0]);
      if OutagesAreNews(row'.log) {
        OutagesAreNewsIff(row', writes[1..]);
      } else if OutagesAreNews(RowAfter(row, writes).log) {
        LogOnlyGrows(row', writes[1..]);
        OldNewsStays(row'.log, RowAfter(row, writes).log);
      }
    }
  }

  /** What a deployment's log is when it is created: nothing yet, or stage events that do not stamp
      anything but WAITING. */
  predicate FreshLog(log: seq<Event>) {
    forall e :: e in log ==> e.kind in {StageStarted, StageSucceeded} && e.status in {NoStatus, Of(Status.Waiting)}
  }

  lemma {:induction false} FreshLogReads(log: seq<Event>)
    requires FreshLog(log)
    ensures ReadLog(log) == Reading(Status.Waiting, None) && OutagesAreNews(log)
  {
    if log != [] {
      var shorter, e := log[..|log| - 1], log[|log| - 1];
      FreshLogReads(shorter);
      Extend(shorter, e);
      assert log == shorter + [e];
    }
  }

  /** Something between two outages says the first one is over, or that another problem took its place. */
  predicate Separates(e: Event, code: Option<ErrorCode>) {
    || e.kind in {UpstreamRecovered, DeploymentRetried}
    || (e.kind == UpstreamUnavailable && e.code != code)
    || (e.kind == PromotionUnconfirmed && code != Some(PromoteUnconfirmed))
  }

  lemma {:induction false} UnseparatedOutageStaysPending(log: seq<Event>, i: nat, j: nat)
    requires i < j <= |log| && log[i].kind == UpstreamUnavailable
    requires forall k :: i < k < j ==> !Separates(log[k], log[i].code)
    ensures ReadLog(log[..j]).poll == log[i].code
  {
    assert log[..j] == log[..j - 1] + [log[j - 1]];
    Extend(log[..j - 1], log[j - 1]);
    if j > i + 1 {
      UnseparatedOutageStaysPending(log, i, j - 1);
    }
  }

  /** A timeline is not buried in identical outages: over every run of a deployment whose sessions record an
      outage only while the row does not have it pending, two outages with one code always have a recovery, a
      retry or a different problem between them. */
  lemma OutagesAreNeverRepeated(component: string, slot: Slot, commit: string, branch: string, requestedBy: string,
                                required: Option<seq<string>>, created: seq<Event>, writes: seq<Write>, i: nat, j: nat)
    requires FreshLog(created)
    requires var row := NewRow(component, slot, commit, branch, requestedBy, required, created);
             && ProperRun(writes) && PendingAlwaysKnown(row, writes) && AlwaysNews(row, writes)
             && var log := RowAfter(row, writes).log;
                && i < j < |log|
                && log[i].kind == UpstreamUnavailable == log[j].kind && log[i].code == log[j].code
    ensures var log := RowAfter(NewRow(component, slot, commit, branch, requestedBy, required, created), writes).log;
            exists k :: i < k < j && Separates(log[k], log[i].code)
  {
    var row := NewRow(component, slot, commit, branch, requestedBy, required, created);
    FreshLogReads(created);
    OutagesAreNewsIff(row, writes);
    var log := RowAfter(row, writes).log;
    hide RowAfter, AlwaysNews, PendingAlwaysKnown;
    if forall k :: i < k < j ==> !Separates(log[k], log[i].code) {
      UnseparatedOutageStaysPending(log, i, j);
    }
  }

  // ---------------------------------------------------------------- why the premises are needed

  lemma TwoWrites(row: Row, a: Write, b: Write)
    ensures RowAfter(row, [a, b]) == Next(Next(row, a), b)
  {
    hide Next;
    assert [a, b][1..] == [b] && [b][1..] == [];
    assert RowAfter(Next(row, a), [b]) == RowAfter(Next(Next(row, a), b), []);
  }

  lemma LateTimeOutStamps(row: Row, claimed: Row)
    requires FreshlyClaimed(claimed)
    ensures var after := Next(row, Settle(claimed, PromoteAnswer(true, true, Raised(TimedOutCall))));
            after.status == row.status && ReadLog(after.log).status == Status.Promoting
  {
    var e := Event(PromotionUnconfirmed, PromoteStage(claimed.component), Of(Status.Promoting), Some(DroneTimeout));
    assert Next(row, Settle(claimed, PromoteAnswer(true, true, Raised(TimedOutCall)))).log == row.log + [e];
    Extend(row.log, e);
  }

  lemma AdoptionDeploys(claimed: Row, own: Build)
    requires FreshlyClaimed(claimed) && own.IsPromotionOf(claimed.slot.source, claimed.slot.target)
    ensures var adoption := Poll(claimed, claimed.startedAt.value, 1800, Answer(Unreachable(DroneUnavailable), Listed([own])));
            Proper(adoption) && Next(claimed, adoption).status == Status.Deploying
  {
    var adoption := Poll(claimed, claimed.startedAt.value, 1800, Answer(Unreachable(DroneUnavailable), Listed([own])));
    assert own in [own];
    PollResolvesTo(claimed, claimed.startedAt.value, 1800, adoption.answer);
    NextReads(claimed, adoption);
    hide Refreshed, Merge, Next;
  }

  /** Another session adopts the promotion while the request is still out; the request then times out, and the
      log's last word is PROMOTING for a row that is DEPLOYING. */
  lemma LateUnknownOutcomeMisleads(claimed: Row, own: Build)
    requires FreshlyClaimed(claimed) && claimed.errorCode == None && claimed.failedStage == None
    requires StatusAgrees(claimed) && own.IsPromotionOf(claimed.slot.source, claimed.slot.target)
    ensures var adoption := Poll(claimed, claimed.startedAt.value, 1800, Answer(Unreachable(DroneUnavailable), Listed([own])));
            var late := Settle(claimed, PromoteAnswer(true, true, Raised(TimedOutCall)));
            && Proper(adoption) && Proper(late) && var after := RowAfter(claimed, [adoption, late]);
            after.status == Status.Deploying && ReadLog(after.log).status == Status.Promoting
  {
    var adoption := Poll(claimed, claimed.startedAt.value, 1800, Answer(Unreachable(DroneUnavailable), Listed([own])));
    var late := Settle(claimed, PromoteAnswer(true, true, Raised(TimedOutCall)));
    AdoptionDeploys(claimed, own);
    hide Next, RowAfter, ReadLog;
    LateTimeOutStamps(Next(claimed, adoption), claimed);
    TwoWrites(claimed, adoption, late);
  }

  /** Two sessions poll from one copy and neither reaches Drone: the timeline says so twice in a row. */
  lemma OverlappingPollsRepeatOutage(row: Row, now: int, listing: ListAnswer)
    requires row.status == Status.Deploying && row.promotion.Some? && row.pollCode == None && !TimedOut(row, now, 1800)
    ensures var poll := Poll(row, now, 1800, Answer(Unreachable(DroneUnavailable), listing));
            && Proper(poll) && var log := RowAfter(row, [poll, poll]).log;
            var e := Event(UpstreamUnavailable, ActiveStage(row), Of(row.status), Some(DroneUnavailable));
            log == row.log + [e, e]
  {
    var poll := Poll(row, now, 1800, Answer(Unreachable(DroneUnavailable), listing));
    var e := Event(UpstreamUnavailable, ActiveStage(row), Of(row.status), Some(DroneUnavailable));
    TwoWrites(row, poll, poll);
    assert Refreshed(row, now, 1800, poll.answer).log[|row.log|..] == [e];
  }

  /** A reset from a copy loaded before the outage leaves the row with an error pending that the log has cleared. */
  lemma OldResetKeepsOutage(row: Row, now: int, listing: ListAnswer)
    requires row.status == Status.Deploying && row.promotion.Some? && row.pollCode == None && !TimedOut(row, now, 1800)
    ensures var poll, reset := Poll(row, now, 1800, Answer(Unreachable(DroneUnavailable), listing)), Retry(row);
            && Proper(poll) && Proper(reset) && var after := RowAfter(row, [poll, reset]);
            after.status.Waiting? && after.pollCode == Some(DroneUnavailable) && ReadLog(after.log).poll == None
  {
    var poll, reset := Poll(row, now, 1800, Answer(Unreachable(DroneUnavailable), listing)), Retry(row);
    NextReads(row, poll);
    var out := Next(row, poll);
    NextReads(out, reset);
    ResetReads(row, ReadLog(out.log));
    assert Refreshed(row, now, 1800, poll.answer).pollCode == Some(DroneUnavailable);
    hide RowAfter, ReadLog, Refreshed, Merge;
    TwoWrites(row, poll, reset);
  }

  lemma {:induction false} Grown(row: Row, writes: seq<Write>, w: Write)
    ensures RowAfter(row, writes + [w]) == Next(RowAfter(row, writes), w)
    decreases |writes|
  {
    hide Next;
    if writes == [] {
      assert [] + [w] == [w] && [w][1..] == [];
    } else {
      assert (writes + [w])[1..] == writes[1..] + [w];
      Grown(Next(row, writes[0]), writes[1..], w);
    }
  }

  /** Every copy is the row as some earlier commit of the run left it. */
  ghost predicate CopiesAreReal(row: Row, writes: seq<Write>) {
    forall i :: 0 <= i < |writes| && FlushedFrom(writes[i]) ==>
      exists k :: 0 <= k <= i && writes[i].seen == RowAfter(row, writes[..k])
  }

  /** One more write from the row as one of the earlier commits left it. */
  lemma RealStill(row: Row, writes: seq<Write>, w: Write, k: nat)
    requires CopiesAreReal(row, writes) && k <= |writes| && (FlushedFrom(w) ==> w.seen == RowAfter(row, writes[..k]))
    ensures CopiesAreReal(row, writes + [w])
  {
    hide RowAfter;
    var longer := writes + [w];
    forall i | 0 <= i < |longer| && FlushedFrom(longer[i])
      ensures exists j :: 0 <= j <= i && longer[i].seen == RowAfter(row, longer[..j])
    {
      if i < |writes| {
        var j :| 0 <= j <= i && writes[i].seen == RowAfter(row, writes[..j]);
        assert longer[..j] == writes[..j];
      } else {
        assert longer[..k] == writes[..k];
      }
    }
  }

  /** One more write from the row as the first k writes left it. */
  lemma Push(row: Row, writes: seq<Write>, w: Write, k: nat) returns (longer: seq<Write>)
    requires CopiesAreReal(row, writes) && ProperRun(writes) && Proper(w)
    requires k <= |writes| && (FlushedFrom(w) ==> w.seen == RowAfter(row, writes[..k]))
    ensures CopiesAreReal(row, longer) && ProperRun(longer) && RowAfter(row, longer) == Next(RowAfter(row, writes), w)
    ensures |longer| == |writes| + 1 && longer[..|longer|] == longer && forall j :: 0 <= j <= |writes| ==> longer[..j] == writes[..j]
  {
    longer := writes + [w];
    Grown(row, writes, w);
    RealStill(row, writes, w, k);
  }

  /** A row in the queue with nothing of an attempt on it, and a log that says so. */
  predicate Unstarted(row: Row) {
    row.status.Waiting? && row.promotion == None && row.pollCode == None && row.startedAt == None && StatusAgrees(row) && PollAgrees(row)
  }

  lemma Claims(row: Row)
    requires row.status.Waiting?
    ensures Next(row, Claim(0)) == Claimed(row, 0) && StatusAgrees(Claimed(row, 0)) && (PollAgrees(row) ==> PollAgrees(Claimed(row, 0)))
  {
    Extend(row.log, Event(StageStarted, PromoteStage(row.component), Of(Status.Promoting), None));
  }

  /** The first claim of a run. */
  lemma Started(row: Row) returns (writes: seq<Write>, claimed: Row)
    requires Unstarted(row)
    ensures |writes| == 1 && CopiesAreReal(row, writes) && ProperRun(writes) && writes[..1] == writes
    ensures RowAfter(row, writes) == claimed == Claimed(row, 0) && StatusAgrees(claimed) && PollAgrees(claimed)
    ensures claimed.status == Status.Promoting && claimed.promotion == None && claimed.pollCode == None && claimed.startedAt == Some(0)
    ensures claimed.slot == row.slot && claimed.required == row.required
  {
    claimed := Claimed(row, 0);
    Claims(row);
    writes := Push(row, [], Claim(0), 0);
    assert writes[..1] == writes;
  }

  const CREATED := PromoteAnswer(true, true, Created(7))
  const UNANSWERED := PromoteAnswer(true, true, Raised(TimedOutCall))

  lemma NumberStays(row: Row, claimed: Row)
    requires claimed.status == Status.Promoting && claimed.promotion == None && claimed.pollCode == None && claimed.startedAt == Some(0)
    requires row == claimed
    ensures var after := Next(Next(row, Settle(claimed, CREATED)), Retry(claimed));
            after.status.Waiting? && after.promotion == Some(7) && after.startedAt == None && after.pollCode == None
  {
  }

  /** A claim, its reply, and a reset from the copy before the reply leave the row waiting with a build number on
      it.  The next claim keeps that number, and a poll that finds the build running moves the row to DEPLOYING
      without a word: the log still says PROMOTING. */
  lemma OldNumberMovesUnstamped(row: Row, earlier: Build) returns (writes: seq<Write>)
    requires Unstarted(row) && earlier.status == "running"
    ensures ProperRun(writes) && CopiesAreReal(row, writes)
    ensures var after := RowAfter(row, writes);
            after.status == Status.Deploying && ReadLog(after.log).status == Status.Promoting
  {
    var a, claimed := Started(row);
    var b := Push(row, a, Settle(claimed, CREATED), 1);
    var c := Push(row, b, Retry(claimed), 1);
    NumberStays(claimed, claimed);
    var waiting := RowAfter(row, c);
    Claims(waiting);
    var d := Push(row, c, Claim(0), 0);
    var again := Claimed(waiting, 0);
    assert again.status == Status.Promoting && again.promotion == Some(7) && again.pollCode == None && again.startedAt == Some(0);
    hide RowAfter, CopiesAreReal, Claimed, Next, ProperRun, StatusAgrees, PollAgrees;
    writes := Push(row, d, Poll(again, 0, 1800, Answer(Found(earlier), Listed([]))), |d|);
    UnstampedMove(again, earlier);
  }

  lemma UnstampedMove(row: Row, earlier: Build)
    requires row.status == Status.Promoting && row.promotion.Some? && row.pollCode == None && row.startedAt == Some(0)
    requires StatusAgrees(row) && earlier.status == "running"
    ensures var after := Next(row, Poll(row, 0, 1800, Answer(Found(earlier), Listed([]))));
            after.status == Status.Deploying && ReadLog(after.log).status == Status.Promoting
  {
    var e := Event(DroneStatusChanged, ActiveStage(row), DroneText(earlier.status), None);
    var after := Refreshed(row, 0, 1800, Answer(Found(earlier), Listed([])));
    assert after.log[|row.log|..] == [e];
    Extend(row.log, e);
  }

  /** A poll of a claimed row that lists its build. */
  lemma Adopts(claimed: Row, own: Build)
    requires claimed.status == Status.Promoting && claimed.promotion == None && claimed.startedAt == Some(0)
    requires own.IsPromotionOf(claimed.slot.source, claimed.slot.target)
    ensures var after := Refreshed(claimed, 0, 1800, Answer(Unreachable(DroneUnavailable), Listed([own])));
            after.status == Status.Deploying && after.promotion.Some? && after.pollCode == None && after.startedAt == Some(0)
            && after.required == claimed.required
  {
    assert own in [own];
  }

  lemma Succeeds(row: Row, own: Build)
    requires row.status == Status.Deploying && row.promotion.Some? && row.startedAt == Some(0) && row.required == None
    requires own.status == "success"
    ensures Refreshed(row, 0, 1800, Answer(Found(own), Listed([]))).status.Success?
  {
  }

  lemma AnnouncedSuccess(row: Row, claimed: Row, succeeded: Row)
    requires claimed.status == Status.Promoting && succeeded.status.Success?
    ensures var late := Next(row, Settle(claimed, CREATED));
            var after := Next(late, Announce(succeeded, ReleaseCompleted, "COMPLETE_DEPLOYMENT"));
            after.status == Status.Deploying && ReadLog(after.log).status.Success?
  {
    var late := Next(row, Settle(claimed, CREATED));
    var e := Event(ReleaseCompleted, "COMPLETE_DEPLOYMENT", Of(Status.Success), None);
    assert Next(late, Announce(succeeded, ReleaseCompleted, "COMPLETE_DEPLOYMENT")).log == late.log + [e];
    Extend(late.log, e);
    hide ReadLog;
  }

  /** A session sees the deployment succeed and announces it after the reply of its request has put it back to
      DEPLOYING: the log says SUCCESS. */
  lemma LateAnnouncementMisleads(row: Row, own: Build) returns (writes: seq<Write>)
    requires Unstarted(row) && row.required == None
    requires own.IsPromotionOf(row.slot.source, row.slot.target) && own.status == "success"
    ensures ProperRun(writes) && CopiesAreReal(row, writes)
    ensures var after := RowAfter(row, writes);
            after.status == Status.Deploying && ReadLog(after.log).status.Success?
  {
    var a, claimed := Started(row);
    hide RowAfter, CopiesAreReal, Claimed, ProperRun, Unstarted, StatusAgrees, PollAgrees, Refreshed, Merge, ReadLog;
    Adopts(claimed, own);
    var adoption := Poll(claimed, 0, 1800, Answer(Unreachable(DroneUnavailable), Listed([own])));
    MergeOfFreshCopy(claimed, Wanted(adoption));
    var b := Push(row, a, adoption, 1);
    var deployed := Next(claimed, adoption);
    Succeeds(deployed, own);
    var success := Poll(deployed, 0, 1800, Answer(Found(own), Listed([])));
    MergeOfFreshCopy(deployed, Wanted(success));
    var c := Push(row, b, success, 2);
    var succeeded := Next(deployed, success);
    hide Next;
    var d := Push(row, c, Settle(claimed, CREATED), 1);
    writes := Push(row, d, Announce(succeeded, ReleaseCompleted, "COMPLETE_DEPLOYMENT"), 3);
    AnnouncedSuccess(succeeded, claimed, succeeded);
  }

  /** A row in the queue, reset from the copy of its claim, on which a poll from that copy still records that the
      promotion is unconfirmed. */
  lemma UnconfirmedWhileQueued(claimed: Row)
    requires claimed.status == Status.Promoting && claimed.promotion == None && claimed.pollCode == None && claimed.startedAt == Some(0)
    ensures var poll := Poll(claimed, 0, 1800, Answer(Unreachable(DroneUnavailable), Listed([])));
            var after := Next(Next(claimed, Retry(claimed)), poll);
            after.status.Waiting? && after.pollCode == Some(PromoteUnconfirmed) && after.promotion == None && after.startedAt == None
            && after.slot == claimed.slot
  {
  }

  lemma RepeatedUnknown(row: Row, claimed: Row)
    requires row.pollCode == None && claimed.status == Status.Promoting && claimed.pollCode == Some(PromoteUnconfirmed)
    ensures var after := Next(row, Settle(claimed, UNANSWERED));
            after.pollCode == None && ReadLog(after.log).poll == Some(PromoteUnconfirmed)
  {
    var e := Event(PromotionUnconfirmed, PromoteStage(claimed.component), Of(claimed.status), Some(DroneTimeout));
    assert Next(row, Settle(claimed, UNANSWERED)).log == row.log + [e];
    Extend(row.log, e);
    hide ReadLog;
  }

  /** The next attempt is claimed with that error pending.  Another session adopts its build and clears the error;
      the attempt's own unknown outcome is then logged, but not written, because its copy already has it. */
  lemma RepeatedUnknownOutcomeMisleads(row: Row, own: Build) returns (writes: seq<Write>)
    requires Unstarted(row) && own.IsPromotionOf(row.slot.source, row.slot.target)
    ensures ProperRun(writes) && CopiesAreReal(row, writes)
    ensures var after := RowAfter(row, writes);
            after.pollCode == None && ReadLog(after.log).poll == Some(PromoteUnconfirmed)
  {
    var a, claimed := Started(row);
    hide RowAfter, CopiesAreReal, ProperRun, Unstarted, StatusAgrees, PollAgrees, Refreshed, Merge, ReadLog;
    UnconfirmedWhileQueued(claimed);
    var b := Push(row, a, Retry(claimed), 1);
    var c := Push(row, b, Poll(claimed, 0, 1800, Answer(Unreachable(DroneUnavailable), Listed([]))), 1);
    var waiting := RowAfter(row, c);
    Claims(waiting);
    var d := Push(row, c, Claim(0), 0);
    var again := Claimed(waiting, 0);
    Adopts(again, own);
    var adoption := Poll(again, 0, 1800, Answer(Unreachable(DroneUnavailable), Listed([own])));
    MergeOfFreshCopy(again, Wanted(adoption));
    var e := Push(row, d, adoption, 4);
    var adopted := Next(again, adoption);
    assert adopted.pollCode == None && again.pollCode == Some(PromoteUnconfirmed) && again.status == Status.Promoting;
    hide Next, Claimed;
    writes := Push(row, e, Settle(again, UNANSWERED), 4);
    RepeatedUnknown(adopted, again);
  }
}
