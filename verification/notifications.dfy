/** Mail notifications: the cursor that turns workflow events into outbox rows, and the delivery of the
    outbox by any number of deliverers.

    Timestamps and event ids are numbers ordered as the database orders them. */
module Notifications {
  import opened Base
  import R = Rows

  datatype Key = Key(at: int, id: int) {
    predicate After(other: Key) {
      at > other.at || (at == other.at && id > other.id)
    }

    /** Not earlier by timestamp, and later by id. */
    predicate ClearOf(other: Key) {
      at >= other.at && id > other.id
    }
  }

  datatype Event = Event(key: Key, notifiable: bool)

  /** The cursor as it is first created: before every event. */
  const START := Key(0, -1)

  /** A pass under way: the cursor it read, and the events it then selected, with those somebody is to be told of. */
  datatype Pass = Pass(seen: Key, selected: bool, order: seq<Event>, addressed: set<Key>)

  datatype World = World(visible: seq<Event>, cursor: Key, outbox: seq<Key>, passes: map<nat, Pass>)

  const EMPTY := World([], START, [], map[])

  predicate Wanted(w: World, seen: Key, e: Event) {
    e.notifiable && e.key !in w.outbox && e.key.After(seen)
  }

  /** One result of the query: the wanted events, each once, oldest first; equal timestamps in any order. */
  predicate IsSelection(w: World, seen: Key, order: seq<Event>) {
    && (forall i :: 0 <= i < |order| ==> order[i] in w.visible && Wanted(w, seen, order[i]))
    && (forall e :: e in w.visible && Wanted(w, seen, e) ==> e in order)
    && (forall i, j :: 0 <= i < j < |order| ==> order[i] != order[j] && order[i].key.at <= order[j].key.at)
  }

  /** What is selected: exactly the visible notifiable events without a row that come after the cursor, by timestamp
      and, at one timestamp, by id; each once and in the order of time. */
  lemma SelectionIs(w: World, seen: Key, order: seq<Event>, e: Event)
    requires IsSelection(w, seen, order)
    ensures e in order <==>
              && e in w.visible && e.notifiable && e.key !in w.outbox
              && (e.key.at > seen.at || (e.key.at == seen.at && e.key.id > seen.id))
    ensures forall i, j :: 0 <= i < j < |order| ==> order[i].key.at <= order[j].key.at && order[i] != order[j]
  {
    if e in order {
      var i :| 0 <= i < |order| && order[i] == e;
      assert Wanted(w, seen, order[i]);
    }
  }

  /** The rows a pass adds: one for each addressed event that nobody has queued in the meantime. */
  function NewRows(order: seq<Event>, addressed: set<Key>, outbox: seq<Key>): seq<Key> {
    if order == [] then []
    else
      (if order[0].key in addressed && order[0].key !in outbox then [order[0].key] else [])
      + NewRows(order[1..], addressed, outbox)
  }

  lemma {:induction false} NewRowsMeans(order: seq<Event>, addressed: set<Key>, outbox: seq<Key>)
    ensures forall k :: k in NewRows(order, addressed, outbox) <==>
              k in addressed && k !in outbox && exists e :: e in order && e.key == k
  {
    if order != [] {
      NewRowsMeans(order[1..], addressed, outbox);
      assert forall e :: e in order <==> e == order[0] || e in order[1..];
    }
  }

  function LastKey(seen: Key, order: seq<Event>): Key {
    if order == [] then seen else order[|order| - 1].key
  }

  /** A session that worked from an old copy of the cursor writes only the columns it changed. */
  function FlushedCursor(row: Key, seen: Key, after: Key): Key {
    Key(R.Column(row.at, seen.at, after.at), R.Column(row.id, seen.id, after.id))
  }

  // ---------------------------------------------------------------- the pass in the service's own shape

  class Notifier {
    var cursor: Key
    var outbox: seq<Key>

    constructor ()
      ensures cursor == START && outbox == []
    {
      cursor, outbox := START, [];
    }

    /** An undisturbed pass: a row for every event somebody is to be told about, the cursor on the last one seen. */
    method EnqueueNewEvents(visible: seq<Event>, order: seq<Event>, addressed: set<Key>) returns (queued: nat)
      requires IsSelection(World(visible, cursor, outbox, map[]), cursor, order)
      requires forall i, j :: 0 <= i < j < |order| ==> order[i].key != order[j].key
      modifies this
      ensures outbox == old(outbox) + NewRows(order, addressed, old(outbox))
      ensures cursor == LastKey(old(cursor), order)
      ensures queued == |outbox| - |old(outbox)|
    {
      hide IsSelection;
      queued := 0;
      assert order[0..] == order;
      for i := 0 to |order|
        invariant outbox + NewRows(order[i..], addressed, old(outbox)) == old(outbox) + NewRows(order, addressed, old(outbox))
        invariant cursor == if i == 0 then old(cursor) else order[i - 1].key
        invariant queued == |outbox| - |old(outbox)|
        invariant forall j :: i <= j < |order| ==> (order[j].key in outbox <==> order[j].key in old(outbox))
      {
        var event := order[i];
        assert order[i..][1..] == order[i + 1..];
        if event.key in addressed && event.key !in outbox {
          outbox := outbox + [event.key];
          queued := queued + 1;
        }
        cursor := event.key;
      }
    }
  }

  // ---------------------------------------------------------------- any number of passes

  datatype Step =
    | Appear(event: Event)
    | Read(id: nat)
    | Select(id: nat, order: seq<Event>, addressed: set<Key>)
    | Flush(id: nat)
    | Die(id: nat)

  /** Events have ids of their own and come after the start of time; every wanted event has somebody to be told. */
  predicate Possible(w: World, step: Step) {
    match step
    case Appear(e) => e.key.After(START) && forall other :: other in w.visible ==> other.key.id != e.key.id
    case Read(id) => id !in w.passes
    case Select(id, order, addressed) =>
      && id in w.passes && !w.passes[id].selected
      && IsSelection(w, w.passes[id].seen, order) && forall e :: e in order ==> e.key in addressed
    case Flush(id) => id in w.passes && w.passes[id].selected
    case Die(id) => id in w.passes
  }

  function Flushed(w: World, p: Pass): World {
    w.(outbox := w.outbox + NewRows(p.order, p.addressed, w.outbox),
       cursor := FlushedCursor(w.cursor, p.seen, LastKey(p.seen, p.order)))
  }

  function Next(w: World, step: Step): World
    requires Possible(w, step)
  {
    match step
    case Appear(e) => w.(visible := w.visible + [e])
    case Read(id) => w.(passes := w.passes[id := Pass(w.cursor, false, [], {})])
    case Select(id, order, addressed) => w.(passes := w.passes[id := Pass(w.passes[id].seen, true, order, addressed)])
    case Flush(id) => Flushed(w, w.passes[id]).(passes := w.passes - {id})
    case Die(id) => w.(passes := w.passes - {id})
  }

  /** A pass nobody disturbs writes what the service's loop writes. */
  lemma UndisturbedFlush(w: World, p: Pass)
    requires p.seen == w.cursor
    ensures Flushed(w, p).cursor == LastKey(w.cursor, p.order)
  {
  }

  // ---------------------------------------------------------------- what every run keeps

  predicate NoDuplicates(outbox: seq<Key>) {
    forall i, j :: 0 <= i < j < |outbox| ==> outbox[i] != outbox[j]
  }

  predicate KeysDistinct(events: seq<Event>) {
    forall i, j :: 0 <= i < j < |events| ==> events[i].key != events[j].key
  }

  /** Rows are for visible notifiable events, one each. */
  predicate RowsHold(w: World) {
    && NoDuplicates(w.outbox)
    && (forall k :: k in w.outbox ==> exists e :: e in w.visible && e.key == k && e.notifiable)
    && KeysDistinct(w.visible)
  }

  /** A selected pass holds visible notifiable events, all of them addressed. */
  predicate PassFits(w: World, p: Pass) {
    && (forall e :: e in p.order ==> e in w.visible && e.notifiable && e.key in p.addressed)
    && KeysDistinct(p.order)
  }

  predicate PassesFit(w: World) {
    forall id :: id in w.passes ==> PassFits(w, w.passes[id])
  }

  lemma {:induction false} NewRowsDistinct(order: seq<Event>, addressed: set<Key>, outbox: seq<Key>)
    requires KeysDistinct(order)
    ensures NoDuplicates(NewRows(order, addressed, outbox))
  {
    if order != [] {
      var rest := NewRows(order[1..], addressed, outbox);
      NewRowsDistinct(order[1..], addressed, outbox);
      NewRowsMeans(order[1..], addressed, outbox);
      assert order[0].key !in rest;
    }
  }

  lemma SelectionHasDistinctKeys(w: World, seen: Key, order: seq<Event>)
    requires KeysDistinct(w.visible) && IsSelection(w, seen, order)
    ensures KeysDistinct(order)
  {
    forall i, j | 0 <= i < j < |order|
      ensures order[i].key != order[j].key
    {
      var a :| 0 <= a < |w.visible| && w.visible[a] == order[i];
      var b :| 0 <= b < |w.visible| && w.visible[b] == order[j];
      assert a != b;
      if a < b {
        assert w.visible[a].key != w.visible[b].key;
      } else {
        assert w.visible[b].key != w.visible[a].key;
      }
    }
  }

  lemma JoinedWithoutDuplicates(a: seq<Key>, b: seq<Key>)
    requires NoDuplicates(a) && NoDuplicates(b) && forall k :: k in b ==> k !in a
    ensures NoDuplicates(a + b)
  {
    forall i, j | 0 <= i < j < |a + b|
      ensures (a + b)[i] != (a + b)[j]
    {
      if i < |a| <= j {
        assert (a + b)[j] in b;
      }
    }
  }

  /** However passes overlap, no event ever has two rows. */
  lemma FlushKeepsRows(w: World, p: Pass)
    requires RowsHold(w) && PassFits(w, p)
    ensures RowsHold(Flushed(w, p))
  {
    NewRowsDistinct(p.order, p.addressed, w.outbox);
    NewRowsMeans(p.order, p.addressed, w.outbox);
    JoinedWithoutDuplicates(w.outbox, NewRows(p.order, p.addressed, w.outbox));
    hide NoDuplicates, NewRows, FlushedCursor;
  }

  /** Every event a pass selected has its row once the pass is flushed, whoever added it. */
  lemma FlushQueuesSelection(w: World, p: Pass, e: Event)
    requires PassFits(w, p) && e in p.order
    ensures e.key in Flushed(w, p).outbox
  {
    NewRowsMeans(p.order, p.addressed, w.outbox);
    if e.key !in w.outbox {
      assert e.key in NewRows(p.order, p.addressed, w.outbox);
    }
  }

  lemma StepKeepsRows(w: World, step: Step)
    requires RowsHold(w) && PassesFit(w) && Possible(w, step)
    ensures RowsHold(Next(w, step)) && PassesFit(Next(w, step))
  {
    match step
    case Appear(e) =>
      var w' := Next(w, step);
      assert forall other :: other in w'.visible <==> other in w.visible || other == e;
    case Select(id, order, addressed) =>
      SelectionHasDistinctKeys(w, w.passes[id].seen, order);
      assert PassFits(w, Pass(w.passes[id].seen, true, order, addressed));
      hide PassFits, IsSelection;
      assert forall p :: PassFits(w, p) ==> PassFits(Next(w, step), p) by {
        FitsElsewhere(w, Next(w, step));
      }
    case Flush(id) =>
      FlushKeepsRows(w, w.passes[id]);
      hide NewRows, FlushedCursor, NoDuplicates;
    case Read(_) =>
    case Die(_) =>
  }

  lemma FitsElsewhere(w: World, w': World)
    requires w'.visible == w.visible
    ensures forall p :: PassFits(w, p) ==> PassFits(w', p)
  {
  }

  // ---------------------------------------------------------------- when nothing is missed

  /** No notifiable event is behind the cursor without a row. */
  predicate NothingMissed(w: World) {
    forall e :: e in w.visible && e.notifiable ==> e.key in w.outbox || e.key.After(w.cursor)
  }

  /** An event becomes visible ahead of the cursor; a flush leaves the cursor behind every unqueued event that
      became visible after its pass selected. */
  predicate Clear(w: World, step: Step)
    requires Possible(w, step)
  {
    match step
    case Appear(e) => e.notifiable ==> e.key.After(w.cursor)
    case Flush(id) =>
      forall e :: e in w.visible && e.notifiable && e.key !in w.outbox && e !in w.passes[id].order ==>
        e.key.After(FlushedCursor(w.cursor, w.passes[id].seen, LastKey(w.passes[id].seen, w.passes[id].order)))
    case _ => true
  }

  lemma FlushMissesNothingIff(w: World, id: nat)
    requires RowsHold(w) && PassesFit(w) && NothingMissed(w) && Possible(w, Flush(id))
    ensures NothingMissed(Next(w, Flush(id))) <==> Clear(w, Flush(id))
  {
    var p, w' := w.passes[id], Next(w, Flush(id));
    assert PassFits(w, p);
    NewRowsMeans(p.order, p.addressed, w.outbox);
    forall e | e in p.order
      ensures e.key in w'.outbox
    {
      FlushQueuesSelection(w, p, e);
    }
    hide NewRows, FlushedCursor, LastKey;
    forall e | e in w.visible && e.key !in w.outbox && e !in p.order
      ensures e.key !in w'.outbox
    {
      SameKeySameEvent(w, p, e);
    }
  }

  lemma SameKeySameEvent(w: World, p: Pass, e: Event)
    requires KeysDistinct(w.visible) && PassFits(w, p) && e in w.visible && e !in p.order
    ensures forall other :: other in p.order ==> other.key != e.key
  {
    forall other | other in p.order
      ensures other.key != e.key
    {
      var a :| 0 <= a < |w.visible| && w.visible[a] == e;
      var b :| 0 <= b < |w.visible| && w.visible[b] == other;
      if a < b {
        assert w.visible[a].key != w.visible[b].key;
      } else {
        assert w.visible[b].key != w.visible[a].key;
      }
    }
  }

  lemma StepMissesNothingIff(w: World, step: Step)
    requires RowsHold(w) && PassesFit(w) && NothingMissed(w) && Possible(w, step)
    ensures NothingMissed(Next(w, step)) <==> Clear(w, step)
  {
    match step
    case Appear(e) =>
      var w' := Next(w, step);
      assert e in w'.visible;
      assert forall other :: other in w'.visible <==> other in w.visible || other == e;
      if e.key in w.outbox {
        assert false;
      }
    case Flush(id) =>
      FlushMissesNothingIff(w, id);
    case Read(_) =>
    case Select(_, _, _) =>
    case Die(_) =>
  }

  predicate PossibleRun(w: World, steps: seq<Step>)
    decreases |steps|
  {
    steps == [] || (Possible(w, steps[0]) && PossibleRun(Next(w, steps[0]), steps[1..]))
  }

  function RunTo(w: World, steps: seq<Step>): World
    requires PossibleRun(w, steps)
    decreases |steps|
  {
    if steps == [] then w else RunTo(Next(w, steps[0]), steps[1..])
  }

  predicate NeverMisses(w: World, steps: seq<Step>)
    requires PossibleRun(w, steps)
    decreases |steps|
  {
    NothingMissed(w) && (steps == [] || NeverMisses(Next(w, steps[0]), steps[1..]))
  }

  predicate AlwaysClear(w: World, steps: seq<Step>)
    requires PossibleRun(w, steps)
    decreases |steps|
  {
    steps == [] || (Clear(w, steps[0]) && AlwaysClear(Next(w, steps[0]), steps[1..]))
  }

  /** However passes overlap: no event has two rows, and none is ever behind the cursor without one if and only
      if every event appeared ahead of the cursor and every flush left it behind what its pass had not seen. */
  lemma {:induction false} NothingMissedIff(w: World, steps: seq<Step>)
    requires RowsHold(w) && PassesFit(w) && NothingMissed(w) && PossibleRun(w, steps)
    ensures NeverMisses(w, steps) <==> AlwaysClear(w, steps)
    ensures RowsHold(RunTo(w, steps)) && PassesFit(RunTo(w, steps))
    decreases |steps|
  {
    if steps != [] {
      hide Next, Possible, RowsHold, PassesFit, NothingMissed, Clear;
      StepMissesNothingIff(w, steps[0]);
      StepKeepsRows(w, steps[0]);
      if NothingMissed(Next(w, steps[0])) {
        NothingMissedIff(Next(w, steps[0]), steps[1..]);
      } else {
        RowsAlwaysHold(Next(w, steps[0]), steps[1..]);
      }
    }
  }

  lemma {:induction false} RowsAlwaysHold(w: World, steps: seq<Step>)
    requires RowsHold(w) && PassesFit(w) && PossibleRun(w, steps)
    ensures RowsHold(RunTo(w, steps)) && PassesFit(RunTo(w, steps))
    decreases |steps|
  {
    if steps != [] {
      hide Next, Possible, RowsHold, PassesFit;
      StepKeepsRows(w, steps[0]);
      RowsAlwaysHold(Next(w, steps[0]), steps[1..]);
    }
  }

  // ---------------------------------------------------------------- a check before the flush

  /** Events become visible in the order of their keys. */
  predicate InKeyOrder(w: World, step: Step) {
    step.Appear? ==> forall other :: other in w.visible ==> step.event.key.After(other.key)
  }

  predicate InKeyOrderRun(w: World, steps: seq<Step>)
    requires PossibleRun(w, steps)
    decreases |steps|
  {
    steps == [] || (InKeyOrder(w, steps[0]) && InKeyOrderRun(Next(w, steps[0]), steps[1..]))
  }

  /** A flush of one column and not the other, over a cursor that differs from the flushed one in both: what a
      session can tell from the cursor row, the cursor it read and the last event it selected. */
  predicate Mixes(row: Key, seen: Key, after: Key) {
    (after.at == seen.at) != (after.id == seen.id) && row.at != after.at && row.id != after.id
  }

  /** Exactly then the cursor that is left is neither the one it found nor the one it meant. */
  lemma CursorIsMixedIff(row: Key, seen: Key, after: Key)
    ensures FlushedCursor(row, seen, after) !in {row, after} <==> Mixes(row, seen, after)
  {
  }

  /** Events in key order, and no flush mixes the cursor. */
  predicate Unmixed(w: World, step: Step)
    requires Possible(w, step)
  {
    InKeyOrder(w, step)
    && (step.Flush? ==> var p := w.passes[step.id]; !Mixes(w.cursor, p.seen, LastKey(p.seen, p.order)))
  }

  predicate UnmixedRun(w: World, steps: seq<Step>)
    requires PossibleRun(w, steps)
    decreases |steps|
  {
    steps == [] || (Unmixed(w, steps[0]) && UnmixedRun(Next(w, steps[0]), steps[1..]))
  }

  predicate OnEvent(w: World, key: Key) {
    key == START || exists e :: e in w.visible && e.key == key
  }

  predicate UnqueuedAfter(w: World, order: seq<Event>, key: Key) {
    forall e :: e in w.visible && e.notifiable && e.key !in w.outbox && e !in order ==> e.key.After(key)
  }

  /** What has no row yet came after the cursor the pass read, and what it has not selected after all it has. */
  predicate SelectionReaches(w: World, p: Pass) {
    && OnEvent(w, p.seen) && UnqueuedAfter(w, [], p.seen)
    && (p.selected ==> UnqueuedAfter(w, p.order, LastKey(p.seen, p.order)))
  }

  predicate CursorHolds(w: World) {
    OnEvent(w, w.cursor) && forall id :: id in w.passes ==> SelectionReaches(w, w.passes[id])
  }

  lemma AppearReaches(w: World, e: Event, p: Pass)
    requires PassFits(w, p) && SelectionReaches(w, p) && e.key.After(START)
    requires forall other :: other in w.visible ==> e.key.After(other.key)
    ensures SelectionReaches(w.(visible := w.visible + [e]), p)
  {
    var w' := w.(visible := w.visible + [e]);
    assert forall other :: other in w'.visible <==> other in w.visible || other == e;
    if p.order != [] {
      assert p.order[|p.order| - 1] in p.order;
    }
  }

  lemma QueuedReaches(w: World, w': World, p: Pass)
    requires w'.visible == w.visible && (forall k :: k in w.outbox ==> k in w'.outbox) && SelectionReaches(w, p)
    ensures SelectionReaches(w', p)
  {
  }

  lemma OthersReach(w: World, w': World)
    requires w'.visible == w.visible && (forall k :: k in w.outbox ==> k in w'.outbox)
    requires forall id :: id in w.passes ==> SelectionReaches(w, w.passes[id])
    ensures forall id :: id in w.passes ==> SelectionReaches(w', w.passes[id])
  {
    hide SelectionReaches;
    forall id | id in w.passes
      ensures SelectionReaches(w', w.passes[id])
    {
      QueuedReaches(w, w', w.passes[id]);
    }
  }

  lemma AppearKeepsCursor(w: World, step: Step)
    requires PassesFit(w) && CursorHolds(w) && Possible(w, step) && step.Appear? && InKeyOrder(w, step)
    ensures Clear(w, step) && CursorHolds(Next(w, step))
  {
    var e, w' := step.event, Next(w, step);
    assert forall other :: other in w'.visible <==> other in w.visible || other == e;
    forall id | id in w'.passes
      ensures SelectionReaches(w', w'.passes[id])
    {
      assert PassFits(w, w.passes[id]);
      AppearReaches(w, e, w.passes[id]);
    }
    hide SelectionReaches;
  }

  lemma FlushKeepsCursor(w: World, step: Step)
    requires PassesFit(w) && NothingMissed(w) && CursorHolds(w) && Possible(w, step) && step.Flush? && Unmixed(w, step)
    ensures Clear(w, step) && CursorHolds(Next(w, step))
  {
    var p, w' := w.passes[step.id], Next(w, step);
    assert PassFits(w, p) && SelectionReaches(w, p);
    CursorIsMixedIff(w.cursor, p.seen, LastKey(p.seen, p.order));
    hide NewRows, FlushedCursor, Mixes;
    assert OnEvent(w', w'.cursor) by {
      if p.order != [] {
        assert p.order[|p.order| - 1] in w.visible;
      }
    }
    OthersReach(w, w');
  }

  lemma UnmixedStepIsClear(w: World, step: Step)
    requires PassesFit(w) && NothingMissed(w) && CursorHolds(w) && Possible(w, step) && Unmixed(w, step)
    ensures Clear(w, step) && CursorHolds(Next(w, step))
  {
    match step
    case Appear(_) =>
      AppearKeepsCursor(w, step);
    case Flush(_) =>
      FlushKeepsCursor(w, step);
    case Read(id) =>
      OthersReach(w, Next(w, step));
      assert SelectionReaches(Next(w, step), Pass(w.cursor, false, [], {}));
      hide SelectionReaches;
    case Select(id, order, addressed) =>
      OthersReach(w, Next(w, step));
      assert SelectionReaches(w, w.passes[id]);
      assert SelectionReaches(Next(w, step), Next(w, step).passes[id]) by {
        hide LastKey;
      }
      hide SelectionReaches, IsSelection;
    case Die(id) =>
      OthersReach(w, Next(w, step));
      hide SelectionReaches;
  }

  /** With that check, and events in key order, passes may overlap as they like and none ever misses an event. */
  lemma {:induction false} UnmixedRunIsClear(w: World, steps: seq<Step>)
    requires RowsHold(w) && PassesFit(w) && NothingMissed(w) && CursorHolds(w)
    requires PossibleRun(w, steps) && UnmixedRun(w, steps)
    ensures AlwaysClear(w, steps) && CursorHolds(RunTo(w, steps))
    decreases |steps|
  {
    if steps != [] {
      hide Next, Possible, RowsHold, PassesFit, NothingMissed, Clear, CursorHolds, Unmixed;
      UnmixedStepIsClear(w, steps[0]);
      StepMissesNothingIff(w, steps[0]);
      StepKeepsRows(w, steps[0]);
      UnmixedRunIsClear(Next(w, steps[0]), steps[1..]);
    }
  }

  /** And the first flush that does mix the cursor misses an event at once exactly when one that has no row and
      was not selected carries the timestamp that is left, with an id not above the one that is left. */
  lemma MixedFlushMissesIff(w: World, id: nat)
    requires RowsHold(w) && PassesFit(w) && NothingMissed(w) && CursorHolds(w) && Possible(w, Flush(id))
    requires Mixes(w.cursor, w.passes[id].seen, LastKey(w.passes[id].seen, w.passes[id].order))
    ensures var p := w.passes[id];
            var after := LastKey(p.seen, p.order);
            NothingMissed(Next(w, Flush(id))) <==>
            forall e :: e in w.visible && e.notifiable && e.key !in w.outbox && e !in p.order ==>
              if after.at == p.seen.at then e.key.at != w.cursor.at || e.key.id > after.id
              else e.key.at != after.at || e.key.id > w.cursor.id
  {
    assert SelectionReaches(w, w.passes[id]);
    StepMissesNothingIff(w, Flush(id));
    hide Next, LastKey;
  }

  /** A cursor found as the pass read it is never mixed. */
  lemma FoundIsUnmixed(w: World, step: Step)
    requires Possible(w, step) && InKeyOrder(w, step) && (step.Flush? ==> w.passes[step.id].seen == w.cursor)
    ensures Unmixed(w, step)
  {
    hide LastKey;
  }

  // ---------------------------------------------------------------- passes one at a time

  /** A pass begins only when no other is under way. */
  predicate InKeyOrderAlone(w: World, step: Step) {
    InKeyOrder(w, step) && (step.Read? ==> w.passes == map[])
  }

  predicate InKeyOrderAloneRun(w: World, steps: seq<Step>)
    requires PossibleRun(w, steps)
    decreases |steps|
  {
    steps == [] || (InKeyOrderAlone(w, steps[0]) && InKeyOrderAloneRun(Next(w, steps[0]), steps[1..]))
  }

  predicate OnePass(w: World) {
    && (forall a, b :: a in w.passes && b in w.passes ==> a == b)
    && forall id :: id in w.passes ==> w.passes[id].seen == w.cursor
  }

  /** Then no flush mixes the cursor. */
  lemma {:induction false} AloneRunIsUnmixed(w: World, steps: seq<Step>)
    requires OnePass(w) && PossibleRun(w, steps) && InKeyOrderAloneRun(w, steps)
    ensures UnmixedRun(w, steps)
    decreases |steps|
  {
    if steps != [] {
      hide InKeyOrder, IsSelection, Mixes, NewRows;
      FoundIsUnmixed(w, steps[0]);
      assert OnePass(Next(w, steps[0])) by {
        if steps[0].Flush? {
          UndisturbedFlush(w, w.passes[steps[0].id]);
        }
      }
      hide Next, Possible, OnePass, InKeyOrderAlone, Unmixed;
      AloneRunIsUnmixed(Next(w, steps[0]), steps[1..]);
    }
  }

  // ---------------------------------------------------------------- passes that overlap

  /** Events become visible in order of time, and their ids grow with it, as `event_id` means them to. */
  predicate Chronological(w: World, step: Step) {
    step.Appear? ==> step.event.key.ClearOf(START) && forall other :: other in w.visible ==> step.event.key.ClearOf(other.key)
  }

  predicate ChronologicalRun(w: World, steps: seq<Step>)
    requires PossibleRun(w, steps)
    decreases |steps|
  {
    steps == [] || (Chronological(w, steps[0]) && ChronologicalRun(Next(w, steps[0]), steps[1..]))
  }

  /** Column by column the key is no further than the start or some visible event. */
  predicate Covered(w: World, key: Key) {
    && (key.at <= START.at || exists e :: e in w.visible && key.at <= e.key.at)
    && (key.id <= START.id || exists e :: e in w.visible && key.id <= e.key.id)
  }

  predicate UnqueuedClearOf(w: World, key: Key) {
    forall e :: e in w.visible && e.notifiable && e.key !in w.outbox ==> e.key.ClearOf(key)
  }

  predicate UnselectedClearOf(w: World, order: seq<Event>, key: Key) {
    forall e :: e in w.visible && e.notifiable && e.key !in w.outbox && e !in order ==> e.key.ClearOf(key)
  }

  predicate PassIsSafe(w: World, p: Pass) {
    && Covered(w, p.seen) && UnqueuedClearOf(w, p.seen)
    && (p.selected ==> Covered(w, LastKey(p.seen, p.order)) && UnselectedClearOf(w, p.order, LastKey(p.seen, p.order)))
  }

  predicate OverlapHolds(w: World) {
    && Covered(w, w.cursor) && UnqueuedClearOf(w, w.cursor)
    && forall id :: id in w.passes ==> PassIsSafe(w, w.passes[id])
  }

  /** A later event leaves every bound in place. */
  lemma AppearKeepsSafe(w: World, e: Event, key: Key, order: seq<Event>)
    requires e.key.ClearOf(START) && (forall other :: other in w.visible ==> e.key.ClearOf(other.key)) && Covered(w, key)
    ensures var w' := w.(visible := w.visible + [e]);
            && Covered(w', key)
            && (UnqueuedClearOf(w, key) ==> UnqueuedClearOf(w', key))
            && (UnselectedClearOf(w, order, key) ==> UnselectedClearOf(w', order, key))
  {
    var w' := w.(visible := w.visible + [e]);
    assert forall other :: other in w'.visible <==> other in w.visible || other == e;
    assert e.key.ClearOf(key);
  }

  /** More rows leave every bound in place. */
  lemma QueuedKeepsSafe(w: World, w': World, p: Pass)
    requires w'.visible == w.visible && (forall k :: k in w.outbox ==> k in w'.outbox) && PassIsSafe(w, p)
    ensures PassIsSafe(w', p)
  {
  }

  lemma FlushKeepsSafe(w: World, id: nat)
    requires RowsHold(w) && PassesFit(w) && OverlapHolds(w) && Possible(w, Flush(id))
    ensures OverlapHolds(Next(w, Flush(id)))
  {
    var p, w' := w.passes[id], Next(w, Flush(id));
    assert PassFits(w, p) && PassIsSafe(w, p);
    var after := LastKey(p.seen, p.order);
    assert Covered(w', w'.cursor);
    forall e | e in w'.visible && e.notifiable && e.key !in w'.outbox
      ensures e.key.ClearOf(w'.cursor)
    {
      if e in p.order {
        FlushQueuesSelection(w, p, e);
      }
      assert e.key !in w.outbox;
      assert e.key.ClearOf(w.cursor) && e.key.ClearOf(after);
    }
    hide NewRows, Covered, UnqueuedClearOf, LastKey, FlushedCursor;
    forall other | other in w'.passes
      ensures PassIsSafe(w', w'.passes[other])
    {
      QueuedKeepsSafe(w, w', w.passes[other]);
    }
  }

  lemma SelectKeepsSafe(w: World, step: Step)
    requires OverlapHolds(w) && Possible(w, step) && step.Select?
    ensures OverlapHolds(Next(w, step))
  {
    var p, w' := w.passes[step.id], Next(w, step);
    assert PassIsSafe(w, p);
    forall e | e in w.visible && e.notifiable && e.key !in w.outbox
      ensures e in step.order
    {
      assert e.key.ClearOf(p.seen);
      assert Wanted(w, p.seen, e);
    }
    if step.order != [] {
      assert step.order[|step.order| - 1] in w.visible;
    }
    assert PassIsSafe(w', w'.passes[step.id]);
    hide IsSelection;
    forall other | other in w'.passes && other != step.id
      ensures PassIsSafe(w', w'.passes[other])
    {
      QueuedKeepsSafe(w, w', w.passes[other]);
    }
    assert Covered(w', w'.cursor) && UnqueuedClearOf(w', w'.cursor);
  }

  lemma AppearKeepsOverlap(w: World, step: Step)
    requires OverlapHolds(w) && Possible(w, step) && step.Appear? && Chronological(w, step)
    ensures OverlapHolds(Next(w, step))
  {
    AppearKeepsSafe(w, step.event, w.cursor, []);
    var w' := Next(w, step);
    hide Covered, UnqueuedClearOf, UnselectedClearOf;
    forall id | id in w'.passes
      ensures PassIsSafe(w', w'.passes[id])
    {
      var p := w.passes[id];
      assert PassIsSafe(w, p);
      AppearKeepsSafe(w, step.event, p.seen, []);
      if p.selected {
        AppearKeepsSafe(w, step.event, LastKey(p.seen, p.order), p.order);
      }
    }
  }

  lemma StepKeepsOverlap(w: World, step: Step)
    requires RowsHold(w) && PassesFit(w) && OverlapHolds(w) && Possible(w, step) && Chronological(w, step)
    ensures OverlapHolds(Next(w, step))
  {
    match step
    case Appear(_) =>
      AppearKeepsOverlap(w, step);
    case Select(_, _, _) =>
      SelectKeepsSafe(w, step);
    case Flush(id) =>
      FlushKeepsSafe(w, id);
    case Read(id) =>
      var w' := Next(w, step);
      forall other | other in w'.passes
        ensures PassIsSafe(w', w'.passes[other])
      {
        if other != id {
          QueuedKeepsSafe(w, w', w.passes[other]);
        }
      }
      assert Covered(w', w'.cursor) && UnqueuedClearOf(w', w'.cursor);
    case Die(id) =>
      var w' := Next(w, step);
      forall other | other in w'.passes
        ensures PassIsSafe(w', w'.passes[other])
      {
        QueuedKeepsSafe(w, w', w.passes[other]);
      }
      assert Covered(w', w'.cursor) && UnqueuedClearOf(w', w'.cursor);
  }

  lemma OverlapMissesNothing(w: World)
    requires OverlapHolds(w)
    ensures NothingMissed(w)
  {
  }

  lemma {:induction false} OverlapRun(w: World, steps: seq<Step>)
    requires RowsHold(w) && PassesFit(w) && OverlapHolds(w) && PossibleRun(w, steps) && ChronologicalRun(w, steps)
    ensures NeverMisses(w, steps) && OverlapHolds(RunTo(w, steps))
    ensures RowsHold(RunTo(w, steps)) && PassesFit(RunTo(w, steps))
    decreases |steps|
  {
    OverlapMissesNothing(w);
    if steps != [] {
      hide Next, Possible, RowsHold, PassesFit, NothingMissed, OverlapHolds, Chronological;
      StepKeepsOverlap(w, steps[0]);
      StepKeepsRows(w, steps[0]);
      OverlapRun(Next(w, steps[0]), steps[1..]);
    }
  }

  /** With chronological ids passes may overlap as they like: no event is ever missed and none has two rows. */
  lemma OverlappingPassesMissNothing(steps: seq<Step>)
    requires PossibleRun(EMPTY, steps) && ChronologicalRun(EMPTY, steps)
    ensures NeverMisses(EMPTY, steps) && NoDuplicates(RunTo(EMPTY, steps).outbox)
  {
    OverlapRun(EMPTY, steps);
  }

  // ---------------------------------------------------------------- exactly once

  /** A pass over a state in which nothing is missed: afterwards the rows are exactly those of the notifiable
      events, one each, in whatever order equal timestamps came back. */
  lemma PassCompletes(w: World, id: nat, order: seq<Event>, addressed: set<Key>)
    requires RowsHold(w) && PassesFit(w) && NothingMissed(w)
    requires Possible(w, Read(id)) && Possible(Next(w, Read(id)), Select(id, order, addressed))
    ensures var end := Flushed(w, Pass(w.cursor, true, order, addressed));
            && NoDuplicates(end.outbox)
            && forall k :: k in end.outbox <==> exists e :: e in w.visible && e.notifiable && e.key == k
  {
    var w1 := Next(w, Read(id));
    StepKeepsRows(w, Read(id));
    StepKeepsRows(w1, Select(id, order, addressed));
    var p := Pass(w.cursor, true, order, addressed);
    assert PassFits(w, p) by {
      var w2 := Next(w1, Select(id, order, addressed));
      assert w2.passes[id] == p && PassFits(w2, p);
    }
    FlushKeepsRows(w, p);
    forall e | e in w.visible && e.notifiable
      ensures e.key in Flushed(w, p).outbox
    {
      if e.key !in w.outbox {
        assert Wanted(w1, w.cursor, e);
        FlushQueuesSelection(w, p, e);
      }
    }
  }

  lemma {:induction false} NothingMissedAtEnd(w: World, steps: seq<Step>)
    requires PossibleRun(w, steps) && NeverMisses(w, steps)
    ensures NothingMissed(RunTo(w, steps))
    decreases |steps|
  {
    if steps != [] {
      NothingMissedAtEnd(Next(w, steps[0]), steps[1..]);
    }
  }

  /** Flushes that do not mix the cursor over events in key order, or any over chronological events:
      after one more pass every notifiable event has exactly one row and nothing else has any. */
  lemma ExactlyOnce(steps: seq<Step>, id: nat, order: seq<Event>, addressed: set<Key>)
    requires PossibleRun(EMPTY, steps) && (UnmixedRun(EMPTY, steps) || ChronologicalRun(EMPTY, steps))
    requires var w := RunTo(EMPTY, steps);
             Possible(w, Read(id)) && Possible(Next(w, Read(id)), Select(id, order, addressed))
    ensures var w := RunTo(EMPTY, steps);
            var end := Flushed(w, Pass(w.cursor, true, order, addressed));
            && NoDuplicates(end.outbox)
            && forall k :: k in end.outbox <==> exists e :: e in w.visible && e.notifiable && e.key == k
  {
    NothingMissedIff(EMPTY, steps);
    if UnmixedRun(EMPTY, steps) {
      UnmixedRunIsClear(EMPTY, steps);
    } else {
      OverlapRun(EMPTY, steps);
    }
    NothingMissedAtEnd(EMPTY, steps);
    PassCompletes(RunTo(EMPTY, steps), id, order, addressed);
  }

  // ---------------------------------------------------------------- a run that misses an event

  predicate Leads(w: World, step: Step, w': World) {
    Possible(w, step) && InKeyOrder(w, step) && Next(w, step) == w'
  }

  predicate Reaches(w: World, steps: seq<Step>, end: World) {
    PossibleRun(w, steps) && InKeyOrderRun(w, steps) && RunTo(w, steps) == end
  }

  lemma Before(w: World, step: Step, w': World, rest: seq<Step>, end: World)
    requires Leads(w, step, w') && Reaches(w', rest, end)
    ensures Reaches(w, [step] + rest, end)
  {
    hide Next, Possible, InKeyOrder;
    assert ([step] + rest)[1..] == rest;
  }

  function Told(at: int, id: int): Event {
    Event(Key(at, id), true)
  }

  function Queued(): seq<Event> {
    [Told(5, 1)]
  }

  /** Two passes read the same cursor; the second sees one event more. */
  function EarlyPass(): Pass {
    Pass(Key(5, 1), true, [Told(5, 9)], {Key(5, 9)})
  }

  function LatePass(): Pass {
    Pass(Key(5, 1), true, [Told(5, 9), Told(7, 3)], {Key(5, 9), Key(7, 3)})
  }

  function OneQueued(): World {
    World(Queued(), Key(5, 1), [Key(5, 1)], map[])
  }

  function OneHeld(): World {
    World(Queued() + [Told(5, 9)], Key(5, 1), [Key(5, 1)], map[1 := EarlyPass()])
  }

  function TwoHeld(): World {
    World(Queued() + [Told(5, 9)] + [Told(7, 3)], Key(5, 1), [Key(5, 1)], map[1 := EarlyPass(), 2 := LatePass()])
  }

  function LateFlushed(): World {
    TwoHeld().(cursor := Key(7, 3), outbox := [Key(5, 1), Key(5, 9), Key(7, 3)], passes := map[1 := EarlyPass()])
  }

  function BothFlushed(): World {
    LateFlushed().(cursor := Key(7, 9), passes := map[])
  }

  function Behind(): World {
    BothFlushed().(visible := BothFlushed().visible + [Told(7, 4)])
  }

  /** An event becomes visible, a pass reads the cursor and selects. */
  lemma PassBegins(w: World, e: Event, id: nat, order: seq<Event>, addressed: set<Key>, rest: seq<Step>, end: World)
    returns (steps: seq<Step>)
    requires id !in w.passes && e.key.After(START)
    requires forall other :: other in w.visible ==> e.key.After(other.key) && other.key.id != e.key.id
    requires IsSelection(w.(visible := w.visible + [e]), w.cursor, order) && forall x :: x in order ==> x.key in addressed
    requires Reaches(w.(visible := w.visible + [e], passes := w.passes[id := Pass(w.cursor, true, order, addressed)]), rest, end)
    ensures Reaches(w, steps, end)
  {
    var w1 := w.(visible := w.visible + [e]);
    var w2 := w1.(passes := w.passes[id := Pass(w.cursor, false, [], {})]);
    var w3 := w1.(passes := w.passes[id := Pass(w.cursor, true, order, addressed)]);
    assert Leads(w, Appear(e), w1) && Leads(w1, Read(id), w2);
    assert w2.passes[id := Pass(w.cursor, true, order, addressed)] == w3.passes;
    assert IsSelection(w2, w.cursor, order);
    assert Leads(w2, Select(id, order, addressed), w3);
    hide Leads, Reaches;
    Before(w2, Select(id, order, addressed), w3, rest, end);
    Before(w1, Read(id), w2, [Select(id, order, addressed)] + rest, end);
    Before(w, Appear(e), w1, [Read(id)] + ([Select(id, order, addressed)] + rest), end);
    steps := [Appear(e)] + ([Read(id)] + ([Select(id, order, addressed)] + rest));
  }

  function FirstHeld(): World {
    World(Queued(), START, [], map[0 := Pass(START, true, [Told(5, 1)], {Key(5, 1)})])
  }

  lemma FirstIsFlushed()
    ensures Leads(FirstHeld(), Flush(0), OneQueued())
  {
    var p := FirstHeld().passes[0];
    assert p.order[1..] == [];
    assert NewRows(p.order, p.addressed, []) == [Key(5, 1)];
  }

  lemma FirstIsSelected()
    ensures EMPTY.visible + [Told(5, 1)] == Queued() && 0 !in EMPTY.passes
    ensures IsSelection(EMPTY.(visible := EMPTY.visible + [Told(5, 1)]), EMPTY.cursor, [Told(5, 1)])
  {
  }

  lemma FirstIsQueued(rest: seq<Step>, end: World) returns (steps: seq<Step>)
    requires Reaches(OneQueued(), rest, end)
    ensures Reaches(EMPTY, steps, end)
  {
    FirstIsFlushed();
    FirstIsSelected();
    var order, addressed := [Told(5, 1)], {Key(5, 1)};
    assert EMPTY.passes[0 := Pass(START, true, order, addressed)] == FirstHeld().passes;
    hide Leads, Reaches, IsSelection;
    Before(FirstHeld(), Flush(0), OneQueued(), rest, end);
    steps := PassBegins(EMPTY, Told(5, 1), 0, order, addressed, [Flush(0)] + rest, end);
  }

  lemma BothBegin(rest: seq<Step>, end: World) returns (steps: seq<Step>)
    requires Reaches(TwoHeld(), rest, end)
    ensures Reaches(OneQueued(), steps, end)
  {
    hide Reaches;
    var late := PassBegins(OneHeld(), Told(7, 3), 2, LatePass().order, LatePass().addressed, rest, end);
    steps := PassBegins(OneQueued(), Told(5, 9), 1, EarlyPass().order, EarlyPass().addressed, late, end);
  }

  /** The earlier pass is flushed last: it leaves the timestamp it did not change and writes its own id. */
  lemma LateFlushMixes()
    ensures Leads(TwoHeld(), Flush(2), LateFlushed()) && Leads(LateFlushed(), Flush(1), BothFlushed())
    ensures Leads(BothFlushed(), Appear(Told(7, 4)), Behind())
  {
    var p, q := EarlyPass(), LatePass();
    assert q.order[1..] == [Told(7, 3)] && q.order[1..][1..] == [] && p.order[1..] == [];
    assert NewRows(q.order, q.addressed, TwoHeld().outbox) == [Key(5, 9), Key(7, 3)];
    assert NewRows(p.order, p.addressed, LateFlushed().outbox) == [];
  }

  /** Key order alone is not enough once passes overlap: a run from the empty state in which the last of two
      overlapping flushes mixes the columns of two keys, and the next event in key order is behind that cursor. */
  lemma OverlappingPassesMissEvent() returns (steps: seq<Step>)
    ensures PossibleRun(EMPTY, steps) && InKeyOrderRun(EMPTY, steps) && !NothingMissed(RunTo(EMPTY, steps))
  {
    var end := Behind();
    assert !NothingMissed(end) by {
      assert end.visible[3] == Told(7, 4);
    }
    assert Reaches(end, [], end);
    LateFlushMixes();
    var late := [Flush(1)] + ([Appear(Told(7, 4))] + []);
    assert Reaches(TwoHeld(), [Flush(2)] + late, end) by {
      hide Leads, Reaches;
      Before(BothFlushed(), Appear(Told(7, 4)), end, [], end);
      Before(LateFlushed(), Flush(1), BothFlushed(), [Appear(Told(7, 4))] + [], end);
      Before(TwoHeld(), Flush(2), LateFlushed(), late, end);
    }
    var held := BothBegin([Flush(2)] + late, end);
    steps := FirstIsQueued(held, end);
  }
}

/** Delivery of the outbox: a selection that looks at the attempts, claims that do not. */
module Delivery {
  import opened Base

  datatype Status = Pending | Processing(claimedAt: int) | Failed | Sent

  datatype Row = Row(status: Status, attempts: nat, nextAttempt: int, sends: nat)

  /** One `deliver_pending` under way: what it selected and has not reached yet, and the row it is sending. */
  datatype Pass = Pass(staleBefore: int, todo: seq<nat>, claimed: Option<nat>, unsent: bool)

  /** `passes` has one place for each deliverer. */
  datatype World = World(rows: seq<Row>, passes: seq<Option<Pass>>)

  datatype Step =
    | Queue
    | Select(place: nat, staleBefore: int, now: int, picked: seq<nat>)
    | Claim(place: nat, now: int)
    | Send(place: nat)
    | Settle(place: nat, sent: bool, retryAt: int)
    | Leave(place: nat)

  predicate Open(row: Row, staleBefore: int) {
    row.status.Pending? || row.status.Failed? || (row.status.Processing? && row.status.claimedAt <= staleBefore)
  }

  predicate Selectable(row: Row, staleBefore: int, now: int, max: nat) {
    Open(row, staleBefore) && row.attempts < max && row.nextAttempt <= now
  }

  predicate Busy(w: World, place: nat) {
    place < |w.passes| && w.passes[place].Some?
  }

  predicate HasClaim(w: World, place: nat) {
    Busy(w, place) && w.passes[place].value.claimed.Some? && w.passes[place].value.claimed.value < |w.rows|
  }

  predicate Possible(w: World, step: Step, max: nat) {
    match step
    case Queue => true
    case Select(place, staleBefore, now, picked) =>
      && place < |w.passes| && w.passes[place] == None
      && (forall i :: 0 <= i < |picked| ==> picked[i] < |w.rows| && Selectable(w.rows[picked[i]], staleBefore, now, max))
      && (forall i, j :: 0 <= i < j < |picked| ==> picked[i] != picked[j])
    case Claim(place, _) =>
      && Busy(w, place) && w.passes[place].value.claimed == None
      && w.passes[place].value.todo != [] && w.passes[place].value.todo[0] < |w.rows|
    case Send(place) => HasClaim(w, place) && w.passes[place].value.unsent
    case Settle(place, _, _) => HasClaim(w, place)
    case Leave(place) => Busy(w, place)
  }

  function Next(w: World, step: Step, max: nat): World
    requires Possible(w, step, max)
  {
    match step
    case Queue => w.(rows := w.rows + [Row(Pending, 0, 0, 0)])
    case Select(place, staleBefore, _, picked) => w.(passes := w.passes[place := Some(Pass(staleBefore, picked, None, false))])
    case Claim(place, now) =>
      var p := w.passes[place].value;
      var id := p.todo[0];
      var row := w.rows[id];
      if Open(row, p.staleBefore) then
        World(w.rows[id := row.(status := Processing(now), attempts := row.attempts + 1)],
              w.passes[place := Some(p.(todo := p.todo[1..], claimed := Some(id), unsent := true))])
      else w.(passes := w.passes[place := Some(p.(todo := p.todo[1..]))])
    case Send(place) =>
      var p := w.passes[place].value;
      var row := w.rows[p.claimed.value];
      World(w.rows[p.claimed.value := row.(sends := row.sends + 1)], w.passes[place := Some(p.(unsent := false))])
    case Settle(place, sent, retryAt) =>
      var p := w.passes[place].value;
      var row := w.rows[p.claimed.value];
      World(w.rows[p.claimed.value := if sent then row.(status := Sent) else row.(status := Failed, nextAttempt := retryAt)],
            w.passes[place := Some(p.(claimed := None, unsent := false))])
    case Leave(place) => w.(passes := w.passes[place := None])
  }

  // ---------------------------------------------------------------- one pass in the service's own shape

  function Doubled(n: nat): nat {
    if n == 0 then 1 else 2 * Doubled(n - 1)
  }

  /** What one undisturbed attempt makes of a row: each failure doubles the wait before the next attempt. */
  function Attempted(row: Row, sent: bool, now: int, retrySeconds: nat): Row {
    row.(status := if sent then Sent else Failed, attempts := row.attempts + 1, sends := row.sends + 1,
         nextAttempt := if sent then row.nextAttempt else now + retrySeconds * Doubled(row.attempts))
  }

  /** The oldest selectable rows, from row `from` on, at most `limit` of them. */
  function Selection(rows: seq<Row>, from: nat, staleBefore: int, now: int, max: nat, limit: nat): (picked: seq<nat>)
    requires from <= |rows|
    ensures |picked| <= limit
    ensures forall i :: 0 <= i < |picked| ==> from <= picked[i] < |rows| && Selectable(rows[picked[i]], staleBefore, now, max)
    ensures forall i, j :: 0 <= i < j < |picked| ==> picked[i] < picked[j]
    ensures |picked| < limit ==> forall id :: from <= id < |rows| && Selectable(rows[id], staleBefore, now, max) ==> id in picked
    decreases |rows| - from
  {
    if from == |rows| || limit == 0 then []
    else if Selectable(rows[from], staleBefore, now, max)
    then [from] + Selection(rows, from + 1, staleBefore, now, max, limit - 1)
    else Selection(rows, from + 1, staleBefore, now, max, limit)
  }

  /** One more attempt and one more sending: SENT and due when it was, or FAILED and due again later. */
  predicate Tried(row: Row, after: Row, sent: bool, now: int, retrySeconds: nat) {
    && after.attempts == row.attempts + 1 && after.sends == row.sends + 1
    && (if sent then after.status == Sent && after.nextAttempt == row.nextAttempt
        else after.status == Failed && after.nextAttempt == now + retrySeconds * Doubled(row.attempts))
  }

  /** A row whose mail was sent is SENT and due when it was; one whose mail was not is FAILED, due again `retrySeconds`
      later after the first failure, and after every further failure later by twice the wait before. */
  lemma FailuresWaitTwiceAsLong(row: Row, now: int, later: int, retrySeconds: nat)
    ensures var first := Attempted(row, false, now, retrySeconds);
            var second := Attempted(first, false, later, retrySeconds);
            && first == Row(Failed, row.attempts + 1, first.nextAttempt, row.sends + 1)
            && (row.attempts == 0 ==> first.nextAttempt == now + retrySeconds)
            && first.nextAttempt >= now
            && second.nextAttempt - later == 2 * (first.nextAttempt - now)
    ensures Attempted(row, true, now, retrySeconds) == Row(Sent, row.attempts + 1, row.nextAttempt, row.sends + 1)
  {
    var waits := Doubled(row.attempts);
    assert Doubled(row.attempts + 1) == 2 * waits;
    assert retrySeconds * (2 * waits) == 2 * (retrySeconds * waits) && retrySeconds * waits >= 0;
  }

  /** Pending, failed, or claimed so long ago that its deliverer must be gone; attempts left; and due. */
  predicate Due(row: Row, staleBefore: int, now: int, max: nat) {
    && (row.status == Pending || row.status == Failed || (row.status.Processing? && row.status.claimedAt <= staleBefore))
    && row.attempts < max && row.nextAttempt <= now
  }

  /** A pass selects exactly the due rows, in their order, up to its limit: a due row is left out only when the pass is
      full of earlier ones.  A row that was sent is never selected, and never claimed again. */
  lemma {:induction false} SelectionMeans(rows: seq<Row>, from: nat, staleBefore: int, now: int, max: nat, limit: nat, id: nat)
    requires from <= id < |rows|
    ensures var picked := Selection(rows, from, staleBefore, now, max, limit);
            && (id in picked ==> Due(rows[id], staleBefore, now, max) && rows[id].status != Sent)
            && (Due(rows[id], staleBefore, now, max) && id !in picked ==>
                  |picked| == limit && forall other :: other in picked ==> other < id)
    ensures rows[id].status == Sent ==> !Open(rows[id], staleBefore)
    decreases |rows| - from
  {
    var picked := Selection(rows, from, staleBefore, now, max, limit);
    if limit > 0 && from < id {
      var left := if Selectable(rows[from], staleBefore, now, max) then limit - 1 else limit;
      var rest := Selection(rows, from + 1, staleBefore, now, max, left);
      SelectionMeans(rows, from + 1, staleBefore, now, max, left, id);
      assert picked == if Selectable(rows[from], staleBefore, now, max) then [from] + rest else rest;
    }
  }

  class Outbox {
    var rows: seq<Row>

    constructor ()
      ensures rows == []
    {
      rows := [];
    }

    /** Claim the row, send it, and record what came of it. */
    method Attempt(id: nat, answer: bool, now: int, retrySeconds: nat)
      requires id < |rows|
      modifies this
      ensures rows == old(rows)[id := Attempted(old(rows)[id], answer, now, retrySeconds)]
    {
      rows := rows[id := rows[id].(status := Processing(now), attempts := rows[id].attempts + 1)];
      rows := rows[id := rows[id].(sends := rows[id].sends + 1)];
      if answer {
        rows := rows[id := rows[id].(status := Sent)];
      } else {
        rows := rows[id := rows[id].(status := Failed, nextAttempt := now + retrySeconds * Doubled(rows[id].attempts - 1))];
      }
    }

    method SendAll(picked: seq<nat>, answers: seq<bool>, now: int, retrySeconds: nat) returns (sent: nat)
      requires |answers| == |picked| && forall k :: 0 <= k < |picked| ==> picked[k] < |rows|
      requires forall i, j :: 0 <= i < j < |picked| ==> picked[i] < picked[j]
      modifies this
      ensures |rows| == |old(rows)|
      ensures forall k :: 0 <= k < |picked| ==> rows[picked[k]] == Attempted(old(rows)[picked[k]], answers[k], now, retrySeconds)
      ensures forall id :: 0 <= id < |rows| && id !in picked ==> rows[id] == old(rows)[id]
      ensures sent == Count(answers, (a: bool) => a)
    {
      hide Attempted;
      sent := 0;
      for k := 0 to |picked|
        invariant |rows| == |old(rows)|
        invariant forall j :: 0 <= j < k ==> rows[picked[j]] == Attempted(old(rows)[picked[j]], answers[j], now, retrySeconds)
        invariant forall id :: 0 <= id < |rows| && id !in picked[..k] ==> rows[id] == old(rows)[id]
        invariant sent + Count(answers[k..], (a: bool) => a) == Count(answers, (a: bool) => a)
      {
        assert picked[k] !in picked[..k] && picked[..k + 1] == picked[..k] + [picked[k]];
        assert answers[k..][1..] == answers[k + 1..];
        Attempt(picked[k], answers[k], now, retrySeconds);
        sent := sent + if answers[k] then 1 else 0;
      }
    }

    /** Undisturbed, every selected row is claimed and sent once, and no other row is touched. */
    method DeliverPending(staleBefore: int, now: int, max: nat, limit: nat, retrySeconds: nat, answers: seq<bool>)
        returns (sent: nat)
      requires |answers| == |Selection(rows, 0, staleBefore, now, max, limit)|
      modifies this
      ensures var picked := Selection(old(rows), 0, staleBefore, now, max, limit);
              && |rows| == |old(rows)|
              && (forall k :: 0 <= k < |picked| ==> rows[picked[k]] == Attempted(old(rows)[picked[k]], answers[k], now, retrySeconds))
              && (forall k :: 0 <= k < |picked| ==> Tried(old(rows)[picked[k]], rows[picked[k]], answers[k], now, retrySeconds))
              && (forall id :: 0 <= id < |rows| && id !in picked ==> rows[id] == old(rows)[id])
      ensures sent == Count(answers, (a: bool) => a)
    {
      forall row: Row, answer: bool
        ensures Tried(row, Attempted(row, answer, now, retrySeconds), answer, now, retrySeconds)
      {
      }
      hide Attempted;
      sent := SendAll(Selection(rows, 0, staleBefore, now, max, limit), answers, now, retrySeconds);
    }
  }

  // ---------------------------------------------------------------- how often one row can be sent

  predicate Holds(p: Option<Pass>, id: nat) {
    p.Some? && id in p.value.todo
  }

  predicate AboutToSend(p: Option<Pass>, id: nat) {
    p.Some? && p.value.claimed == Some(id) && p.value.unsent
  }

  function Holders(w: World, id: nat): nat {
    Count(w.passes, (p: Option<Pass>) => Holds(p, id))
  }

  function Senders(w: World, id: nat): nat {
    Count(w.passes, (p: Option<Pass>) => AboutToSend(p, id))
  }

  /** Claims made and still to come fit into the limit and one more for each further deliverer. */
  predicate Bounded(w: World, id: nat, max: nat)
    requires id < |w.rows|
  {
    && (Holders(w, id) > 0 || w.rows[id].attempts > 0 ==> w.rows[id].attempts + Holders(w, id) <= max - 1 + |w.passes|)
    && w.rows[id].sends + Senders(w, id) <= w.rows[id].attempts
  }

  predicate TodosDistinct(w: World) {
    forall place :: 0 <= place < |w.passes| && w.passes[place].Some? ==>
      var todo := w.passes[place].value.todo;
      && (forall i, j :: 0 <= i < j < |todo| ==> todo[i] != todo[j])
      && (forall i :: 0 <= i < |todo| ==> todo[i] < |w.rows|)
  }

  /** What a step does to one place, seen from one row. */
  lemma PlaceChanges(w: World, place: nat, p: Option<Pass>, id: nat)
    requires place < |w.passes|
    ensures var w' := w.(passes := w.passes[place := p]);
            && Holders(w', id) ==
               Holders(w, id) - (if Holds(w.passes[place], id) then 1 else 0) + (if Holds(p, id) then 1 else 0)
            && Senders(w', id) ==
               Senders(w, id) - (if AboutToSend(w.passes[place], id) then 1 else 0) + (if AboutToSend(p, id) then 1 else 0)
  {
    CountUpdate(w.passes, place, p, (q: Option<Pass>) => Holds(q, id));
    CountUpdate(w.passes, place, p, (q: Option<Pass>) => AboutToSend(q, id));
  }

  lemma StepKeepsBound(w: World, step: Step, max: nat, id: nat)
    requires Possible(w, step, max) && TodosDistinct(w) && id < |w.rows| && Bounded(w, id, max)
    ensures id < |Next(w, step, max).rows| && Bounded(Next(w, step, max), id, max)
  {
    var w' := Next(w, step, max);
    if !step.Queue? {
      var p := w'.passes[step.place];
      PlaceChanges(w, step.place, p, id);
      assert Holders(w', id) == Holders(w.(passes := w.passes[step.place := p]), id);
      assert Senders(w', id) == Senders(w.(passes := w.passes[step.place := p]), id);
      hide Holders, Senders;
    }
  }

  lemma NewRowIsBounded(w: World, step: Step, max: nat)
    requires Possible(w, step, max) && step.Queue? && TodosDistinct(w)
    requires forall place :: 0 <= place < |w.passes| ==> !AboutToSend(w.passes[place], |w.rows|)
    ensures Bounded(Next(w, step, max), |w.rows|, max)
  {
    var w' := Next(w, step, max);
    CountZero(w'.passes, (p: Option<Pass>) => Holds(p, |w.rows|));
    CountZero(w'.passes, (p: Option<Pass>) => AboutToSend(p, |w.rows|));
  }

  predicate ClaimsKnown(w: World) {
    forall place :: 0 <= place < |w.passes| && w.passes[place].Some? && w.passes[place].value.claimed.Some? ==>
      w.passes[place].value.claimed.value < |w.rows|
  }

  predicate Kept(w: World, max: nat) {
    && TodosDistinct(w) && ClaimsKnown(w)
    && forall id :: 0 <= id < |w.rows| ==> Bounded(w, id, max)
  }

  lemma StepKeepsShape(w: World, step: Step, max: nat)
    requires Possible(w, step, max) && TodosDistinct(w) && ClaimsKnown(w)
    ensures TodosDistinct(Next(w, step, max)) && ClaimsKnown(Next(w, step, max))
  {
  }

  lemma StepKept(w: World, step: Step, max: nat)
    requires Kept(w, max) && Possible(w, step, max)
    ensures Kept(Next(w, step, max), max)
  {
    StepKeepsShape(w, step, max);
    var w' := Next(w, step, max);
    forall id | 0 <= id < |w'.rows|
      ensures Bounded(w', id, max)
    {
      if id < |w.rows| {
        StepKeepsBound(w, step, max, id);
      } else {
        NewRowIsBounded(w, step, max);
      }
    }
  }

  predicate PossibleRun(w: World, steps: seq<Step>, max: nat)
    decreases |steps|
  {
    steps == [] || (Possible(w, steps[0], max) && PossibleRun(Next(w, steps[0], max), steps[1..], max))
  }

  function RunTo(w: World, steps: seq<Step>, max: nat): (end: World)
    requires PossibleRun(w, steps, max)
    ensures |end.passes| == |w.passes|
    decreases |steps|
  {
    if steps == [] then w else RunTo(Next(w, steps[0], max), steps[1..], max)
  }

  lemma {:induction false} RunKept(w: World, steps: seq<Step>, max: nat)
    requires Kept(w, max) && PossibleRun(w, steps, max)
    ensures Kept(RunTo(w, steps, max), max)
    decreases |steps|
  {
    if steps != [] {
      hide Next, Possible, Kept;
      StepKept(w, steps[0], max);
      RunKept(Next(w, steps[0], max), steps[1..], max);
    }
  }

  /** With k deliverers, dying and starting again as they like, no row is sent more than k - 1 times beyond
      the limit; a single deliverer keeps to it. */
  lemma SendsAreBounded(passes: seq<Option<Pass>>, steps: seq<Step>, max: nat, id: nat)
    requires forall place :: 0 <= place < |passes| ==> passes[place] == None
    requires PossibleRun(World([], passes), steps, max) && id < |RunTo(World([], passes), steps, max).rows|
    requires max > 0 && |passes| > 0
    ensures var row := RunTo(World([], passes), steps, max).rows[id];
            row.sends <= row.attempts <= max - 1 + |passes|
  {
    RunKept(World([], passes), steps, max);
    var w := RunTo(World([], passes), steps, max);
    assert Bounded(w, id, max);
    hide RunTo, PossibleRun;
  }

  // ---------------------------------------------------------------- a pass is a run

  lemma RunOf(w: World, step: Step, rest: seq<Step>, max: nat)
    requires Possible(w, step, max) && PossibleRun(Next(w, step, max), rest, max)
    ensures PossibleRun(w, [step] + rest, max) && RunTo(w, [step] + rest, max) == RunTo(Next(w, step, max), rest, max)
  {
    hide Next, Possible;
    assert ([step] + rest)[1..] == rest;
  }

  /** The turns of a deliverer at the rows it still has to do: claim, send and settle each, then leave. */
  function Turns(rows: seq<Row>, place: nat, todo: seq<nat>, answers: seq<bool>, now: int, retrySeconds: nat): seq<Step>
    requires |answers| == |todo| && forall k :: 0 <= k < |todo| ==> todo[k] < |rows|
  {
    if todo == [] then [Leave(place)]
    else
      [Claim(place, now)] + ([Send(place)] + ([Settle(place, answers[0], now + retrySeconds * Doubled(rows[todo[0]].attempts))]
      + Turns(rows, place, todo[1..], answers[1..], now, retrySeconds)))
  }

  predicate Reaches(w: World, steps: seq<Step>, end: World, max: nat) {
    PossibleRun(w, steps, max) && RunTo(w, steps, max) == end
  }

  lemma Before(w: World, step: Step, w': World, rest: seq<Step>, end: World, max: nat)
    requires Possible(w, step, max) && Next(w, step, max) == w' && Reaches(w', rest, end, max)
    ensures Reaches(w, [step] + rest, end, max)
  {
    RunOf(w, step, rest, max);
  }

  function Chosen(staleBefore: int, todo: seq<nat>): Option<Pass> {
    Some(Pass(staleBefore, todo, None, false))
  }

  /** One turn: the row is claimed, its mail is sent, and the answer is settled. */
  lemma OneTurn(rows: seq<Row>, passes: seq<Option<Pass>>, place: nat, staleBefore: int, todo: seq<nat>, sent: bool, now: int,
                retrySeconds: nat, rest: seq<Step>, end: World, max: nat)
    requires place < |passes| && todo != [] && todo[0] < |rows| && Open(rows[todo[0]], staleBefore)
    requires var id := todo[0];
             Reaches(World(rows[id := Attempted(rows[id], sent, now, retrySeconds)], passes[place := Chosen(staleBefore, todo[1..])]),
                     rest, end, max)
    ensures Reaches(World(rows, passes[place := Chosen(staleBefore, todo)]),
                    [Claim(place, now)] + ([Send(place)] + ([Settle(place, sent, now + retrySeconds * Doubled(rows[todo[0]].attempts))]
                    + rest)), end, max)
  {
    var id, retryAt := todo[0], now + retrySeconds * Doubled(rows[todo[0]].attempts);
    var row := rows[id];
    var claimed := row.(status := Processing(now), attempts := row.attempts + 1);
    var told := claimed.(sends := row.sends + 1);
    var w0 := World(rows, passes[place := Chosen(staleBefore, todo)]);
    var w1 := World(rows[id := claimed], passes[place := Some(Pass(staleBefore, todo[1..], Some(id), true))]);
    var w2 := World(rows[id := told], passes[place := Some(Pass(staleBefore, todo[1..], Some(id), false))]);
    var w3 := World(rows[id := Attempted(row, sent, now, retrySeconds)], passes[place := Chosen(staleBefore, todo[1..])]);
    assert Possible(w0, Claim(place, now), max) && Next(w0, Claim(place, now), max) == w1;
    assert Possible(w1, Send(place), max) && Next(w1, Send(place), max) == w2;
    assert Possible(w2, Settle(place, sent, retryAt), max) && Next(w2, Settle(place, sent, retryAt), max) == w3;
    hide Possible, Next, Reaches, Attempted;
    Before(w2, Settle(place, sent, retryAt), w3, rest, end, max);
    Before(w1, Send(place), w2, [Settle(place, sent, retryAt)] + rest, end, max);
    Before(w0, Claim(place, now), w1, [Send(place)] + ([Settle(place, sent, retryAt)] + rest), end, max);
  }

  /** The rows as a pass leaves them: those to do attempted, the others as they were. */
  predicate AllAttempted(rows: seq<Row>, after: seq<Row>, todo: seq<nat>, answers: seq<bool>, now: int, retrySeconds: nat)
    requires |answers| == |todo| && forall k :: 0 <= k < |todo| ==> todo[k] < |rows|
  {
    && |after| == |rows|
    && (forall k :: 0 <= k < |todo| ==> after[todo[k]] == Attempted(rows[todo[k]], answers[k], now, retrySeconds))
    && (forall id :: 0 <= id < |rows| && id !in todo ==> after[id] == rows[id])
  }

  lemma SameTurns(rows: seq<Row>, other: seq<Row>, place: nat, todo: seq<nat>, answers: seq<bool>, now: int, retrySeconds: nat)
    requires |answers| == |todo| && |rows| == |other|
    requires forall k :: 0 <= k < |todo| ==> todo[k] < |rows| && other[todo[k]] == rows[todo[k]]
    ensures Turns(rows, place, todo, answers, now, retrySeconds) == Turns(other, place, todo, answers, now, retrySeconds)
  {
  }

  /** Rows to do are there, each once, and open. */
  predicate AllOpen(rows: seq<Row>, todo: seq<nat>, staleBefore: int) {
    && (forall k :: 0 <= k < |todo| ==> todo[k] < |rows| && Open(rows[todo[k]], staleBefore))
    && (forall i, j :: 0 <= i < j < |todo| ==> todo[i] != todo[j])
  }

  lemma RestAttempted(rows: seq<Row>, after: seq<Row>, todo: seq<nat>, answers: seq<bool>, staleBefore: int, now: int,
                      retrySeconds: nat)
    requires |answers| == |todo| && todo != [] && AllOpen(rows, todo, staleBefore)
    requires AllAttempted(rows, after, todo, answers, now, retrySeconds)
    ensures var rows' := rows[todo[0] := Attempted(rows[todo[0]], answers[0], now, retrySeconds)];
            && AllOpen(rows', todo[1..], staleBefore)
            && AllAttempted(rows', after, todo[1..], answers[1..], now, retrySeconds)
            && forall k :: 0 <= k < |todo[1..]| ==> rows'[todo[1..][k]] == rows[todo[1..][k]]
  {
    hide Attempted, Open;
    assert forall k :: 0 <= k < |todo[1..]| ==> todo[1..][k] == todo[k + 1] && answers[1..][k] == answers[k + 1];
    assert forall x :: x in todo <==> x == todo[0] || x in todo[1..];
  }

  lemma Leaving(rows: seq<Row>, passes: seq<Option<Pass>>, place: nat, staleBefore: int, max: nat)
    requires place < |passes|
    ensures Reaches(World(rows, passes[place := Chosen(staleBefore, [])]), [Leave(place)], World(rows, passes[place := None]), max)
  {
    var w, end := World(rows, passes[place := Chosen(staleBefore, [])]), World(rows, passes[place := None]);
    assert Next(w, Leave(place), max) == end;
    assert Reaches(end, [], end, max);
    Before(w, Leave(place), end, [], end, max);
    assert [Leave(place)] + [] == [Leave(place)];
  }

  lemma {:induction false} TurnsAreARun(rows: seq<Row>, passes: seq<Option<Pass>>, place: nat, staleBefore: int, todo: seq<nat>,
                                        answers: seq<bool>, now: int, retrySeconds: nat, after: seq<Row>, max: nat)
    requires place < |passes| && |answers| == |todo| && AllOpen(rows, todo, staleBefore)
    requires AllAttempted(rows, after, todo, answers, now, retrySeconds)
    ensures Reaches(World(rows, passes[place := Chosen(staleBefore, todo)]), Turns(rows, place, todo, answers, now, retrySeconds),
                    World(after, passes[place := None]), max)
    decreases |todo|
  {
    var w, end := World(rows, passes[place := Chosen(staleBefore, todo)]), World(after, passes[place := None]);
    if todo == [] {
      hide Turns;
      Leaving(rows, passes, place, staleBefore, max);
      assert after == rows;
    } else {
      var id := todo[0];
      var rows' := rows[id := Attempted(rows[id], answers[0], now, retrySeconds)];
      RestAttempted(rows, after, todo, answers, staleBefore, now, retrySeconds);
      assert id < |rows| && Open(rows[id], staleBefore);
      assert forall k :: 0 <= k < |todo[1..]| ==> todo[1..][k] < |rows|;
      hide Attempted, AllAttempted, AllOpen, Open, Reaches, Next, Possible;
      TurnsAreARun(rows', passes, place, staleBefore, todo[1..], answers[1..], now, retrySeconds, after, max);
      SameTurns(rows, rows', place, todo[1..], answers[1..], now, retrySeconds);
      OneTurn(rows, passes, place, staleBefore, todo, answers[0], now, retrySeconds,
              Turns(rows, place, todo[1..], answers[1..], now, retrySeconds), end, max);
    }
  }

  /** An undisturbed pass is a run of the interleaved model: it selects, then claims, sends and settles row after row,
      and leaves the rows as the service's own loop does. */
  lemma DeliverPendingIsARun(rows: seq<Row>, passes: seq<Option<Pass>>, place: nat, staleBefore: int, now: int, max: nat, limit: nat,
                             retrySeconds: nat, answers: seq<bool>, after: seq<Row>)
    requires place < |passes| && passes[place] == None
    requires |answers| == |Selection(rows, 0, staleBefore, now, max, limit)|
    requires AllAttempted(rows, after, Selection(rows, 0, staleBefore, now, max, limit), answers, now, retrySeconds)
    ensures var picked := Selection(rows, 0, staleBefore, now, max, limit);
            Reaches(World(rows, passes),
                    [Select(place, staleBefore, now, picked)] + Turns(rows, place, picked, answers, now, retrySeconds),
                    World(after, passes), max)
  {
    var picked := Selection(rows, 0, staleBefore, now, max, limit);
    TurnsAreARun(rows, passes, place, staleBefore, picked, answers, now, retrySeconds, after, max);
    assert passes[place := None] == passes;
    var w := World(rows, passes[place := Chosen(staleBefore, picked)]);
    assert Next(World(rows, passes), Select(place, staleBefore, now, picked), max) == w;
    hide Reaches, AllAttempted, Selection, Selectable;
    Before(World(rows, passes), Select(place, staleBefore, now, picked), w, Turns(rows, place, picked, answers, now, retrySeconds),
           World(after, passes), max);
  }

  // ---------------------------------------------------------------- the bound is reached

  lemma NoMore(w: World, max: nat)
    ensures PossibleRun(w, [], max) && RunTo(w, [], max) == w
  {
  }

  lemma Selected(row: Row, place: nat, rest: seq<Option<Pass>>)
    requires place < |rest| && rest[place] == None && row == Row(Pending, 0, 0, 0)
    ensures Possible(World([row], rest), Select(place, 0, 1, [0]), 1)
    ensures Next(World([row], rest), Select(place, 0, 1, [0]), 1) == World([row], rest[place := Some(Pass(0, [0], None, false))])
  {
  }

  /** One deliverer's turn at a row it has selected: claim, send, and the failure it hears. */
  lemma Turn(row: Row, place: nat, passes: seq<Option<Pass>>, rest: seq<Step>)
      returns (steps: seq<Step>, row': Row, passes': seq<Option<Pass>>)
    requires place < |passes| && passes[place] == Some(Pass(0, [0], None, false)) && (row.status.Pending? || row.status.Failed?)
    ensures row' == Row(Failed, row.attempts + 1, 60, row.sends + 1)
    ensures passes' == passes[place := Some(Pass(0, [], None, false))]
    ensures PossibleRun(World([row'], passes'), rest, 1) ==>
              PossibleRun(World([row], passes), steps, 1)
              && RunTo(World([row], passes), steps, 1) == RunTo(World([row'], passes'), rest, 1)
  {
    var w0 := World([row], passes);
    var w1 := World([row.(status := Processing(2), attempts := row.attempts + 1)],
                    passes[place := Some(Pass(0, [], Some(0), true))]);
    assert passes[place].value.todo[1..] == [] && [row][0 := w1.rows[0]] == w1.rows;
    assert Possible(w0, Claim(place, 2), 1) && Next(w0, Claim(place, 2), 1) == w1;
    var w2 := World([w1.rows[0].(sends := row.sends + 1)], passes[place := Some(Pass(0, [], Some(0), false))]);
    assert Possible(w1, Send(place), 1) && Next(w1, Send(place), 1) == w2;
    row', passes' := Row(Failed, row.attempts + 1, 60, row.sends + 1), passes[place := Some(Pass(0, [], None, false))];
    var w3 := World([row'], passes');
    assert Possible(w2, Settle(place, false, 60), 1) && Next(w2, Settle(place, false, 60), 1) == w3;
    hide Next, Possible, RunTo, PossibleRun;
    steps := [Claim(place, 2)] + ([Send(place)] + ([Settle(place, false, 60)] + rest));
    if PossibleRun(w3, rest, 1) {
      RunOf(w2, Settle(place, false, 60), rest, 1);
      RunOf(w1, Send(place), [Settle(place, false, 60)] + rest, 1);
      RunOf(w0, Claim(place, 2), [Send(place)] + ([Settle(place, false, 60)] + rest), 1);
    }
  }

  /** Two deliverers that select a row before either claims it: one allowed attempt, two sendings. */
  lemma TwoDeliverersExceed() returns (steps: seq<Step>)
    ensures var w := World([Row(Pending, 0, 0, 0)], [None, None]);
            PossibleRun(w, steps, 1) && |RunTo(w, steps, 1).rows| == 1 && RunTo(w, steps, 1).rows[0].sends == 2
  {
    var row := Row(Pending, 0, 0, 0);
    var chosen := Some(Pass(0, [0], None, false));
    Selected(row, 0, [None, None]);
    assert [None, None][0 := chosen] == [chosen, None];
    Selected(row, 1, [chosen, None]);
    assert [chosen, None][1 := chosen] == [chosen, chosen];
    hide Next, Possible, RunTo, PossibleRun;
    var first, r1, p1 := Turn(row, 0, [chosen, chosen], []);
    var second, r2, p2 := Turn(r1, 1, p1, []);
    NoMore(World([r2], p2), 1);
    first, r1, p1 := Turn(row, 0, [chosen, chosen], second);
    RunOf(World([row], [chosen, None]), Select(1, 0, 1, [0]), first, 1);
    RunOf(World([row], [None, None]), Select(0, 0, 1, [0]), [Select(1, 0, 1, [0])] + first, 1);
    steps := [Select(0, 0, 1, [0])] + ([Select(1, 0, 1, [0])] + first);
  }
}
