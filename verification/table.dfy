/** The deployments table under any number of overlapping sessions.

    Each step is one commit, one HTTP request, or the death of a session that held a claim.
    A session may hold any old copy of a row; what it writes back is merged column by column.
    A commit that would break the partial unique index is rolled back. */
module PromotionTable {
  import opened Base
  import opened Drone
  import opened Rows

  /** A row with its history: `hits` lists the coordinates every promote request of this row went to, and
      `revived` counts the resets that found the row claimed, in flight or succeeded. */
  datatype Entry = Entry(row: Row, claims: nat, resets: nat, exits: nat, pending: nat, hits: seq<Slot>, revived: nat)

  type Table = seq<Entry>

  /** The write-backs a session may hold: the end of a poll, the outcome of a promote, a cancellation. */
  datatype Work =
    | Poll(now: int, timeout: int, answer: Answer)
    | Settle(outcome: PromoteAnswer)
    | Cancel
  {
    function Apply(seen: Row): (after: Row)
      ensures Follows(seen, after)
      ensures after.status.Waiting? ==> seen.status.Waiting?
    {
      match this
      case Poll(now, timeout, answer) => Refreshed(seen, now, timeout, answer)
      case Settle(outcome) => Settled(seen, outcome)
      case Cancel => CancelledRow(seen)
    }
  }

  datatype Step =
    | Create(component: string, slot: Slot, commit: string, branch: string, requestedBy: string, required: Option<seq<string>>)
    | Claim(id: nat, now: int)
    | Post(id: nat, live: Slot)
    | Drop(id: nat)
    | Flush(id: nat, seen: Row, work: Work)
    | Retry(id: nat, seen: Row)

  predicate SlotFree(t: Table, slot: Slot) {
    forall i :: 0 <= i < |t| && t[i].row.slot == slot ==> !t[i].row.status.Active()
  }

  /** uq_deployments_active_promotion */
  predicate UniqueActive(t: Table) {
    forall i, j :: 0 <= i < j < |t| && t[i].row.status.Active() && t[j].row.status.Active() ==> t[i].row.slot != t[j].row.slot
  }

  function One(b: bool): nat {
    if b then 1 else 0
  }

  function Written(e: Entry, row: Row): Entry {
    e.(row := row, exits := e.exits + if e.row.status.Active() && !row.status.Active() then 1 else 0)
  }

  /** The reset puts a row back in the queue that an attempt has already left it for, and holds. */
  predicate Revives(row: Row, seen: Row) {
    !seen.status.Waiting? && (row.status.InFlight() || row.status.Success?)
  }

  /** `retry_bundle` resets its copy of whatever has not succeeded and flushes the copy. */
  function Retried(e: Entry, seen: Row): Entry {
    Written(e, Merge(e.row, seen, Reset(seen))).(resets := e.resets + 1, revived := e.revived + One(Revives(e.row, seen)))
  }

  /** The table the step asks for, before the index is consulted. */
  function Wanted(t: Table, step: Step): Table {
    match step
    case Create(component, slot, commit, branch, requestedBy, required) =>
      t + [Entry(NewRow(component, slot, commit, branch, requestedBy, required, []), 0, 0, 0, 0, [], 0)]
    case Claim(id, now) =>
      if id < |t| && t[id].row.status.Waiting? then
        t[id := t[id].(row := Claimed(t[id].row, now), claims := t[id].claims + 1, pending := t[id].pending + 1)]
      else t
    case Post(id, live) =>
      if id < |t| && t[id].pending > 0 then
        t[id := t[id].(pending := t[id].pending - 1, hits := t[id].hits + [live])]
      else t
    case Drop(id) =>
      if id < |t| && t[id].pending > 0 then t[id := t[id].(pending := t[id].pending - 1)] else t
    case Flush(id, seen, work) =>
      if id < |t| then t[id := Written(t[id], Merge(t[id].row, seen, work.Apply(seen)))] else t
    case Retry(id, seen) =>
      if id < |t| then t[id := Retried(t[id], seen)] else t
  }

  function Exec(t: Table, step: Step): (t': Table)
    ensures UniqueActive(t) ==> UniqueActive(t')
  {
    if UniqueActive(Wanted(t, step)) then Wanted(t, step) else t
  }

  function After(steps: seq<Step>): (t: Table)
    ensures UniqueActive(t)
  {
    if steps == [] then [] else Exec(After(steps[..|steps| - 1]), steps[|steps| - 1])
  }

  // ---------------------------------------------------------------- per deployment, no atomicity at all

  predicate AttemptBound(e: Entry) {
    && |e.hits| + e.pending <= e.claims
    && e.claims + One(e.row.status.Waiting?) <= 1 + e.resets
  }

  /** However stale and however many the sessions, a deployment is promoted at most once
      for its creation and once for each reset. */
  lemma {:induction false} RequestsPerAttempt(steps: seq<Step>)
    ensures forall i :: 0 <= i < |After(steps)| ==>
              var e := After(steps)[i]; |e.hits| <= e.claims <= 1 + e.resets
  {
    AttemptBoundHolds(steps);
  }

  /** However stale the copy, a write-back keeps the slot and never puts a row back in the queue. */
  lemma FlushNeverRequeues(row: Row, seen: Row, work: Work)
    ensures var merged := Merge(row, seen, work.Apply(seen));
            merged.slot == row.slot && (merged.status.Waiting? ==> row.status.Waiting?)
  {
  }

  lemma {:induction false} AttemptBoundHolds(steps: seq<Step>)
    ensures forall i :: 0 <= i < |After(steps)| ==> AttemptBound(After(steps)[i])
  {
    if steps != [] {
      AttemptBoundHolds(steps[..|steps| - 1]);
      StepKeepsAttemptBound(After(steps[..|steps| - 1]), steps[|steps| - 1]);
    }
  }

  lemma StepKeepsAttemptBound(t: Table, step: Step)
    requires forall i :: 0 <= i < |t| ==> AttemptBound(t[i])
    ensures forall i :: 0 <= i < |Exec(t, step)| ==> AttemptBound(Exec(t, step)[i])
  {
    hide Refreshed, Settled, Merge, Reset, UniqueActive;
    if step.Flush? && step.id < |t| {
      FlushNeverRequeues(t[step.id].row, step.seen, step.work);
    }
  }

  // ---------------------------------------------------------------- per slot

  predicate SlotBound(e: Entry) {
    e.claims + One(e.row.status.Waiting?) <= e.exits + One(e.row.status.Active()) + e.revived
  }

  /** However stale the copy a retry resets, it keeps the slot and leaves the row in the queue, unless the
      copy was in the queue already. */
  lemma ResetMerged(row: Row, seen: Row)
    ensures var merged := Merge(row, seen, Reset(seen));
            merged.slot == row.slot && merged.status == if seen.status.Waiting? then row.status else Status.Waiting
  {
  }

  /** In every run, whatever the sessions hold: claims and being in the queue are covered by exits, being
      active, and revivals. */
  lemma {:induction false} SlotBoundHolds(steps: seq<Step>)
    ensures forall i :: 0 <= i < |After(steps)| ==> SlotBound(After(steps)[i])
  {
    if steps != [] {
      SlotBoundHolds(steps[..|steps| - 1]);
      StepKeepsSlotBound(After(steps[..|steps| - 1]), steps[|steps| - 1]);
    }
  }

  lemma StepKeepsSlotBound(t: Table, step: Step)
    requires forall i :: 0 <= i < |t| ==> SlotBound(t[i])
    ensures forall i :: 0 <= i < |Exec(t, step)| ==> SlotBound(Exec(t, step)[i])
  {
    hide Refreshed, Settled, Merge, Reset, UniqueActive;
    if step.Retry? && step.id < |t| {
      ResetMerged(t[step.id].row, step.seen);
    } else if step.Flush? && step.id < |t| {
      FlushNeverRequeues(t[step.id].row, step.seen, step.work);
    }
  }

  function CountSlot(hits: seq<Slot>, slot: Slot): (n: nat)
    ensures n <= |hits|
  {
    if hits == [] then 0 else One(hits[0] == slot) + CountSlot(hits[1..], slot)
  }

  lemma {:induction false} CountSlotUniform(hits: seq<Slot>, at: Slot, slot: Slot)
    requires forall k :: 0 <= k < |hits| ==> hits[k] == at
    ensures CountSlot(hits, slot) == if at == slot then |hits| else 0
  {
    if hits != [] {
      CountSlotUniform(hits[1..], at, slot);
    }
  }

  /** Promote requests that reached the slot's coordinates, whichever row sent them. */
  function Requests(t: Table, slot: Slot): nat {
    if t == [] then 0 else CountSlot(t[0].hits, slot) + Requests(t[1..], slot)
  }

  /** Of those, the ones sent for a row recorded under other coordinates: its component was
      re-pointed between the row's creation and the request. */
  function Strays(t: Table, slot: Slot): nat {
    if t == [] then 0 else (if t[0].row.slot == slot then 0 else CountSlot(t[0].hits, slot)) + Strays(t[1..], slot)
  }

  /** How often a deployment of the slot left the active statuses. */
  function Exits(t: Table, slot: Slot): nat {
    if t == [] then 0 else (if t[0].row.slot == slot then t[0].exits else 0) + Exits(t[1..], slot)
  }

  /** How often a retry put a deployment of the slot back in the queue while an attempt of it was alive. */
  function Revivals(t: Table, slot: Slot): nat {
    if t == [] then 0 else (if t[0].row.slot == slot then t[0].revived else 0) + Revivals(t[1..], slot)
  }

  function ActiveRows(t: Table, slot: Slot): nat {
    Count(t, (e: Entry) => e.row.slot == slot && e.row.status.Active())
  }

  lemma {:induction false} AtMostOneActive(t: Table, slot: Slot)
    requires UniqueActive(t)
    ensures ActiveRows(t, slot) <= 1
  {
    if t != [] {
      AtMostOneActive(t[1..], slot);
      if t[0].row.slot == slot && t[0].row.status.Active() {
        CountZero(t[1..], (e: Entry) => e.row.slot == slot && e.row.status.Active());
        assert forall i :: 0 <= i < |t[1..]| ==> t[1..][i] == t[i + 1];
      }
    }
  }

  lemma {:induction false} SummedBound(t: Table, slot: Slot)
    requires forall i :: 0 <= i < |t| ==> AttemptBound(t[i]) && SlotBound(t[i])
    ensures Requests(t, slot) <= Exits(t, slot) + ActiveRows(t, slot) + Strays(t, slot) + Revivals(t, slot)
  {
    if t != [] {
      SummedBound(t[1..], slot);
    }
  }

  /** Over every interleaving and every crash, and with copies of any age, the requests that reach one slot
      number at most one, plus the times a deployment of that slot left the active statuses, plus the
      strays, plus the retries that found an attempt alive. */
  lemma SlotExclusivity(steps: seq<Step>, slot: Slot)
    ensures Requests(After(steps), slot) <=
            1 + Exits(After(steps), slot) + Strays(After(steps), slot) + Revivals(After(steps), slot)
  {
    AttemptBoundHolds(steps);
    SlotBoundHolds(steps);
    SummedBound(After(steps), slot);
    AtMostOneActive(After(steps), slot);
  }

  /** Every request went to the coordinates its row was created under. */
  predicate RoutesKept(t: Table) {
    forall i, k :: 0 <= i < |t| && 0 <= k < |t[i].hits| ==> t[i].hits[k] == t[i].row.slot
  }

  lemma {:induction false} NoStrays(t: Table, slot: Slot)
    requires RoutesKept(t)
    ensures Strays(t, slot) == 0
  {
    if t != [] {
      CountSlotUniform(t[0].hits, t[0].row.slot, slot);
      assert forall i :: 0 <= i < |t[1..]| ==> t[1..][i] == t[i + 1];
      NoStrays(t[1..], slot);
    }
  }

  /** The duplicate-protection slot does what it is for: while no deployment of a slot has failed, been
      cancelled or been retried under a living attempt, Drone receives at most one promote request for it. */
  lemma NoDoublePromotion(steps: seq<Step>, slot: Slot)
    requires RoutesKept(After(steps))
    requires Exits(After(steps), slot) == 0 && Revivals(After(steps), slot) == 0
    ensures Requests(After(steps), slot) <= 1
  {
    SlotExclusivity(steps, slot);
    NoStrays(After(steps), slot);
  }

  // ---------------------------------------------------------------- who holds a slot

  /** Queued, promoting, deploying or deployed. */
  predicate Holding(row: Row) {
    row.status == Status.Waiting || row.status == Status.Promoting || row.status == Status.Deploying || row.status == Status.Success
  }

  lemma HoldingIsActive(row: Row)
    ensures row.status.Active() <==> Holding(row)
    ensures !Holding(row) <==> row.status == Status.Failed || row.status == Status.Cancelled
  {
  }

  /** Over every run: of two deployments of one slot at most one is queued, promoting, deploying or deployed. */
  lemma OneHolderPerSlot(steps: seq<Step>, i: nat, j: nat)
    requires i < j < |After(steps)| && After(steps)[i].row.slot == After(steps)[j].row.slot
    ensures !Holding(After(steps)[i].row) || !Holding(After(steps)[j].row)
  {
    HoldingIsActive(After(steps)[i].row);
    HoldingIsActive(After(steps)[j].row);
  }

  predicate HeldByOther(t: Table, slot: Slot, id: nat) {
    exists i :: 0 <= i < |t| && i != id && t[i].row.slot == slot && Holding(t[i].row)
  }

  /** A deployment can be created exactly when none of its slot is queued, promoting, deploying or deployed; it is
      created waiting and has asked for nothing. */
  lemma CreatedIff(t: Table, step: Step)
    requires UniqueActive(t) && step.Create?
    ensures var t' := Exec(t, step);
            if HeldByOther(t, step.slot, |t|) then t' == t
            else
              && |t'| == |t| + 1 && t'[..|t|] == t
              && t'[|t|].hits == [] && t'[|t|].claims == 0 && t'[|t|].row.log == []
              && t'[|t|].row == Row(step.component, step.slot, step.commit, step.branch, step.requestedBy, step.required,
                                    Status.Waiting, None, None, None, None, None, None, 0, [])
  {
    var t' := Wanted(t, step);
    assert t'[|t|].row.slot == step.slot && forall i :: 0 <= i < |t| ==> t'[i] == t[i];
    if i :| 0 <= i < |t| && t[i].row.slot == step.slot && Holding(t[i].row) {
      assert !UniqueActive(t') by {
        assert t'[i].row.status.Active() && t'[|t|].row.status.Active();
      }
    }
  }

  /** A retry is refused exactly when it would put a row back in the queue whose slot another deployment holds. */
  lemma RetriedIff(t: Table, step: Step)
    requires UniqueActive(t) && step.Retry? && step.id < |t|
    ensures var t' := Exec(t, step);
            if step.seen.status != Status.Waiting && HeldByOther(t, t[step.id].row.slot, step.id) then t' == t
            else
              && |t'| == |t| && (forall i :: 0 <= i < |t| && i != step.id ==> t'[i] == t[i])
              && t'[step.id].resets == t[step.id].resets + 1
              && (step.seen.status != Status.Waiting ==> t'[step.id].row.status == Status.Waiting)
              && (step.seen.status == Status.Waiting ==> t'[step.id].row.status == t[step.id].row.status)
  {
    var t', id := Wanted(t, step), step.id;
    ResetMerged(t[id].row, step.seen);
    assert forall i :: 0 <= i < |t| && i != id ==> t'[i] == t[i];
    hide Merge, Reset;
    if step.seen.status != Status.Waiting {
      assert t'[id].row.status.Active();
      if i :| 0 <= i < |t| && i != id && t[i].row.slot == t[id].row.slot && Holding(t[i].row) {
        assert t'[i].row.status.Active() && t'[i].row.slot == t'[id].row.slot;
        assert !UniqueActive(t');
      }
    }
  }

  /** An exit is counted exactly when a queued, promoting, deploying or deployed row becomes FAILED or CANCELLED. */
  lemma ExitCountedIff(t: Table, step: Step, i: nat)
    requires i < |t|
    ensures i < |Exec(t, step)|
    ensures var before, after := t[i], Exec(t, step)[i];
            after.exits == before.exits + (if Holding(before.row) && !Holding(after.row) then 1 else 0)
  {
    if step.Retry? && step.id < |t| {
      ResetMerged(t[step.id].row, step.seen);
    }
    hide Refreshed, Settled, Merge, Reset, UniqueActive;
  }

  // ---------------------------------------------------------------- retries that revive

  /** A retry read, reset and committed the row as one step, and the row had not succeeded: all that
      `retry_bundle` looks at. */
  predicate RetryIsAtomic(t: Table, step: Step) {
    step.Retry? && step.id < |t| ==> step.seen == t[step.id].row && !step.seen.status.Success?
  }

  predicate AtomicRetries(steps: seq<Step>) {
    steps == [] || (AtomicRetries(steps[..|steps| - 1]) && RetryIsAtomic(After(steps[..|steps| - 1]), steps[|steps| - 1]))
  }

  /** The retry finds no attempt of the row alive. */
  predicate RetryIsQuiet(t: Table, step: Step) {
    step.Retry? && step.id < |t| ==> !t[step.id].row.status.InFlight() && !t[step.id].row.status.Success?
  }

  predicate QuietRetries(steps: seq<Step>) {
    steps == [] || (QuietRetries(steps[..|steps| - 1]) && RetryIsQuiet(After(steps[..|steps| - 1]), steps[|steps| - 1]))
  }

  /** An atomic retry revives exactly when it finds the row in flight; and no other step ever revives. */
  lemma RevivesIffInFlight(t: Table, step: Step, i: nat)
    requires RetryIsAtomic(t, step) && i < |t| && UniqueActive(Wanted(t, step))
    ensures i < |Exec(t, step)|
    ensures Exec(t, step)[i].revived != t[i].revived <==> step.Retry? && step.id == i && t[i].row.status.InFlight()
  {
    hide UniqueActive, Merge, Reset, Refreshed, Settled;
  }

  lemma QuietStepRevivesNothing(t: Table, step: Step)
    requires RetryIsQuiet(t, step) && forall i :: 0 <= i < |t| ==> t[i].revived == 0
    ensures forall i :: 0 <= i < |Exec(t, step)| ==> Exec(t, step)[i].revived == 0
  {
    hide UniqueActive, Merge, Reset, Refreshed, Settled, Claimed, NewRow;
  }

  lemma {:induction false} QuietRetriesReviveNothing(steps: seq<Step>)
    requires QuietRetries(steps)
    ensures forall i :: 0 <= i < |After(steps)| ==> After(steps)[i].revived == 0
  {
    if steps != [] {
      hide Exec, RetryIsQuiet;
      QuietRetriesReviveNothing(steps[..|steps| - 1]);
      QuietStepRevivesNothing(After(steps[..|steps| - 1]), steps[|steps| - 1]);
    }
  }

  lemma {:induction false} NoRevivals(t: Table, slot: Slot)
    requires forall i :: 0 <= i < |t| ==> t[i].revived == 0
    ensures Revivals(t, slot) == 0
  {
    if t != [] {
      assert forall i :: 0 <= i < |t[1..]| ==> t[1..][i] == t[i + 1];
      NoRevivals(t[1..], slot);
    }
  }

  /** While no retry finds an attempt alive, exits and strays alone bound the requests. */
  lemma QuietSlotExclusivity(steps: seq<Step>, slot: Slot)
    requires QuietRetries(steps)
    ensures Requests(After(steps), slot) <= 1 + Exits(After(steps), slot) + Strays(After(steps), slot)
  {
    SlotExclusivity(steps, slot);
    QuietRetriesReviveNothing(steps);
    NoRevivals(After(steps), slot);
  }

  // ---------------------------------------------------------------- the three terms are all needed

  /** Append one step whose effect is known. */
  lemma Then(steps: seq<Step>, t: Table, step: Step, t': Table) returns (longer: seq<Step>)
    requires After(steps) == t
    requires Wanted(t, step) == t' && UniqueActive(t')
    ensures After(longer) == t'
    ensures AtomicRetries(longer) == (AtomicRetries(steps) && RetryIsAtomic(t, step))
  {
    longer := steps + [step];
    assert longer[..|longer| - 1] == steps;
  }

  lemma NothingYet()
    ensures After([]) == [] && AtomicRetries([])
  {
  }

  /** One deployment is recorded, claimed, sent to Drone and refused. */
  lemma FirstAttemptRefused(slot: Slot) returns (steps: seq<Step>, failed: Row)
    ensures failed.status.Failed? && failed.slot == slot
    ensures After(steps) == [Entry(failed, 1, 0, 1, 0, [slot], 0)]
  {
    hide After;
    var row := NewRow("backend", slot, "c0ffee", "main", "operator", None, []);
    var claimed := Claimed(row, 0);
    var refusal := Settle(PromoteAnswer(true, true, Raised(AuthRefused)));
    failed := refusal.Apply(claimed);
    MergeOfFreshCopy(claimed, failed);
    NothingYet();
    steps := Then([], [], Create("backend", slot, "c0ffee", "main", "operator", None), [Entry(row, 0, 0, 0, 0, [], 0)]);
    steps := Then(steps, [Entry(row, 0, 0, 0, 0, [], 0)], Claim(0, 0), [Entry(claimed, 1, 0, 0, 1, [], 0)]);
    steps := Then(steps, [Entry(claimed, 1, 0, 0, 1, [], 0)], Post(0, slot), [Entry(claimed, 1, 0, 0, 0, [] + [slot], 0)]);
    steps := Then(steps, [Entry(claimed, 1, 0, 0, 0, [] + [slot], 0)], Flush(0, claimed, refusal),
                  [Entry(failed, 1, 0, 1, 0, [] + [slot], 0)]);
    assert [] + [slot] == [slot];
  }

  /** A session resets the copy it holds, claims the row and sends the request, whatever the row has become. */
  lemma RetriedFromCopy(steps: seq<Step>, e: Entry, copy: Row) returns (longer: seq<Step>, e': Entry)
    requires After(steps) == [e] && e.pending == 0 && !copy.status.Waiting?
    ensures After(longer) == [e']
    ensures AtomicRetries(longer) == (AtomicRetries(steps) && copy == e.row && !copy.status.Success?)
    ensures e'.row.slot == e.row.slot && e'.row.status == Status.Promoting && e'.hits == e.hits + [e.row.slot]
    ensures e'.exits == e.exits && e'.pending == 0 && e'.revived == e.revived + One(Revives(e.row, copy))
  {
    hide After;
    ResetMerged(e.row, copy);
    var e1 := Retried(e, copy);
    var e2 := e1.(row := Claimed(e1.row, 9), claims := e1.claims + 1, pending := 1);
    e' := e2.(pending := 0, hits := e2.hits + [e.row.slot]);
    hide Merge, Reset;
    longer := Then(steps, [e], Retry(0, copy), [e1]);
    longer := Then(longer, [e1], Claim(0, 9), [e2]);
    longer := Then(longer, [e2], Post(0, e.row.slot), [e']);
  }

  lemma TallyOfOne(e: Entry, slot: Slot)
    requires e.row.slot == slot && forall k :: 0 <= k < |e.hits| ==> e.hits[k] == slot
    ensures Requests([e], slot) == |e.hits| && Exits([e], slot) == e.exits && Revivals([e], slot) == e.revived
    ensures Strays([e], slot) == 0
  {
    CountSlotUniform(e.hits, slot, slot);
    assert [e][1..] == [];
  }

  /** Two overlapping retries of one failed row: the second still holds the failed copy, resets the row
      the first has already claimed, and a third request leaves with only one exit on record. */
  lemma OverlappingRetriesPromoteTwice(slot: Slot) returns (steps: seq<Step>)
    ensures RoutesKept(After(steps))
    ensures Requests(After(steps), slot) == 3 && Exits(After(steps), slot) == 1 && Revivals(After(steps), slot) == 1
  {
    hide After;
    var first, failed := FirstAttemptRefused(slot);
    var second, e := RetriedFromCopy(first, Entry(failed, 1, 0, 1, 0, [slot], 0), failed);
    var e';
    steps, e' := RetriedFromCopy(second, e, failed);
    assert e'.hits == [slot, slot, slot] && After(steps) == [e'];
    TallyOfOne(e', slot);
  }

  /** Record a deployment in a free slot and claim it. */
  lemma ThenRecordedAndClaimed(steps: seq<Step>, t: Table, slot: Slot) returns (longer: seq<Step>, e: Entry)
    requires After(steps) == t && SlotFree(t, slot)
    ensures After(longer) == t + [e]
    ensures AtomicRetries(longer) == AtomicRetries(steps)
    ensures e.row.slot == slot && e.row.status == Status.Promoting && e.pending == 1 && e.hits == []
    ensures e.exits == 0 && e.revived == 0
  {
    hide After;
    var row := NewRow("backend", slot, "c0ffee", "main", "operator", None, []);
    e := Entry(Claimed(row, 0), 1, 0, 0, 1, [], 0);
    longer := Then(steps, t, Create("backend", slot, "c0ffee", "main", "operator", None), t + [Entry(row, 0, 0, 0, 0, [], 0)]);
    assert (t + [Entry(row, 0, 0, 0, 0, [], 0)])[|t| := e] == t + [e];
    longer := Then(longer, t + [Entry(row, 0, 0, 0, 0, [], 0)], Claim(|t|, 0), t + [e]);
  }

  /** A claimed deployment's request goes out, to wherever its component points now. */
  lemma PostedTo(t: Table, id: nat, live: Slot) returns (e: Entry)
    requires UniqueActive(t) && id < |t| && t[id].pending == 1 && t[id].hits == []
    ensures e == t[id].(pending := 0, hits := [live])
    ensures Wanted(t, Post(id, live)) == t[id := e] && UniqueActive(t[id := e])
  {
    assert t[id].hits + [live] == [live];
    e := t[id].(pending := 0, hits := [live]);
    assert forall i :: 0 <= i < |t| ==> t[id := e][i].row == t[i].row;
  }

  /** One retry is enough, however atomic: it resets whatever has not succeeded, a row whose request is
      already with Drone included, and a second request leaves with no exit on record. */
  lemma InFlightRetryPromotesTwice(slot: Slot) returns (steps: seq<Step>)
    ensures AtomicRetries(steps) && RoutesKept(After(steps))
    ensures Requests(After(steps), slot) == 2 && Exits(After(steps), slot) == 0 && Revivals(After(steps), slot) == 1
  {
    hide After, Wanted, Exec, UniqueActive, AtomicRetries;
    NothingYet();
    var s1, a := ThenRecordedAndClaimed([], [], slot);
    assert [] + [a] == [a] && UniqueActive(After(s1));
    var e := PostedTo([a], 0, slot);
    assert [a][0 := e] == [e];
    var s2 := Then(s1, [a], Post(0, slot), [e]);
    var e';
    steps, e' := RetriedFromCopy(s2, e, e.row);
    assert e'.hits == [slot, slot] && After(steps) == [e'];
    TallyOfOne(e', slot);
  }

  /** A component re-pointed after its deployment was recorded: two rows in two slots, two requests at
      one set of coordinates, nothing ever left the active statuses. */
  lemma RepointedComponentPromotesTwice(here: Slot, there: Slot) returns (steps: seq<Step>)
    requires here != there
    ensures AtomicRetries(steps)
    ensures Requests(After(steps), here) == 2 && Exits(After(steps), here) == 0
  {
    hide After, Wanted, Exec, UniqueActive;
    NothingYet();
    var s1, a := ThenRecordedAndClaimed([], [], here);
    assert [] + [a] == [a];
    var s2, b := ThenRecordedAndClaimed(s1, [a], there);
    assert [a] + [b] == [a, b] && UniqueActive(After(s2));
    var a' := PostedTo([a, b], 0, here);
    Pair(a, b, a');
    var s3 := Then(s2, [a, b], Post(0, here), [a', b]);
    var b' := PostedTo([a', b], 1, here);
    Pair(a', b, b');
    steps := Then(s3, [a', b], Post(1, here), [a', b']);
    TallyOfPair(a', b', here);
  }

  lemma Pair<T>(a: T, b: T, x: T)
    ensures [a, b][0 := x] == [x, b] && [a, b][1 := x] == [a, x]
  {
  }

  lemma TallyOfPair(a: Entry, b: Entry, slot: Slot)
    requires a.hits == b.hits == [slot] && a.exits == b.exits == 0
    ensures Requests([a, b], slot) == 2 && Exits([a, b], slot) == 0
  {
    CountSlotUniform([slot], slot, slot);
    var t := [a, b];
    assert t[1..] == [b] && t[1..][1..] == [];
    assert Requests(t[1..], slot) == 1 && Exits(t[1..], slot) == 0;
  }
}
