/** Publishing a deployment as a Gitea release: one attempt in the service's own shape, and any number of
    attempts interleaved request by request with each other and with other writers.

    Nobody moves or deletes a tag or a release; creating a release creates its tag if there is none. */
module Publishing {
  import opened Base
  import R = Rows

  datatype Tag = Tag(owner: string, repository: string, name: string)

  datatype Forge = Forge(tags: map<Tag, string>, releases: set<Tag>)

  datatype RecordStatus = Publishing | Published | Failed

  datatype Failure = TagOnOtherCommit | GiteaTrouble

  datatype Record = Record(tag: Tag, commit: string, status: RecordStatus, failure: Option<Failure>)

  datatype Outcome = Existing | Created | Broken(failure: Failure)

  /** What Gitea makes of a request to create a release. */
  function WithRelease(forge: Forge, tag: Tag, commit: string): Forge {
    Forge(if tag in forge.tags then forge.tags else forge.tags[tag := commit], forge.releases + {tag})
  }

  function Settled(record: Record, outcome: Outcome): Record {
    match outcome
    case Broken(failure) => record.(status := Failed, failure := Some(failure))
    case _ => record.(status := Published)
  }

  datatype Phase =
    | AskRepository
    | AskTag
    | AskRelease
    | Create
    | RereadTag
    | RereadRelease
    | Over(outcome: Outcome)

  predicate OnCommit(forge: Forge, record: Record) {
    record.tag in forge.tags && forge.tags[record.tag] == record.commit
  }

  /** A release created now takes over a tag that somebody has put on another commit. */
  predicate LandsOnForeignTag(forge: Forge, record: Record) {
    record.tag in forge.tags && record.tag !in forge.releases && !OnCommit(forge, record)
  }

  /** What the attempt learns from its next answer. */
  function Answered(forge: Forge, record: Record, phase: Phase): Phase {
    var tag := record.tag;
    match phase
    case AskRepository => AskTag
    case AskTag =>
      if tag !in forge.tags then Create
      else if forge.tags[tag] != record.commit then Over(Broken(TagOnOtherCommit))
      else AskRelease
    case AskRelease => if tag in forge.releases then Over(Existing) else Create
    case Create => if tag in forge.releases then RereadTag else Over(Created)
    case RereadTag =>
      if tag !in forge.tags then Over(Broken(GiteaTrouble))
      else if forge.tags[tag] != record.commit then Over(Broken(TagOnOtherCommit))
      else RereadRelease
    case RereadRelease => Over(if tag in forge.releases then Existing else Broken(GiteaTrouble))
    case Over(outcome) => phase
  }

  // ---------------------------------------------------------------- one attempt, among others and over a bad line

  datatype Write = Release(tag: Tag, commit: string) | Bare(tag: Tag, commit: string)

  datatype Line = Up | Down | ReplyLost

  /** What others write before a request of the attempt arrives, and what becomes of the request. */
  datatype Weather = Weather(writes: seq<Write>, line: Line)

  /** A tag that exists is not created again, with or without a release. */
  function Wrote(forge: Forge, write: Write): Forge {
    if write.tag in forge.tags then forge
    else
      match write
      case Release(tag, commit) => if tag in forge.releases then forge else WithRelease(forge, tag, commit)
      case Bare(tag, commit) => forge.(tags := forge.tags[tag := commit])
  }

  function Written(forge: Forge, writes: seq<Write>): Forge
    decreases |writes|
  {
    if writes == [] then forge else Written(Wrote(forge, writes[0]), writes[1..])
  }

  /** What Gitea holds once it has served the request the attempt makes in this phase. */
  function ServedIn(forge: Forge, record: Record, phase: Phase): Forge {
    if phase == Create && record.tag !in forge.releases then WithRelease(forge, record.tag, record.commit) else forge
  }

  function Rank(phase: Phase): nat {
    match phase
    case AskRepository => 6
    case AskTag => 5
    case AskRelease => 4
    case Create => 3
    case RereadTag => 2
    case RereadRelease => 1
    case Over(_) => 0
  }

  /** The rest of an attempt; no phase comes twice, so each request has its own weather. */
  function Ran(forge: Forge, record: Record, phase: Phase, weather: Phase -> Weather): (Forge, Outcome)
    decreases Rank(phase)
  {
    if phase.Over? then (forge, phase.outcome)
    else
      var seen := Written(forge, weather(phase).writes);
      match weather(phase).line
      case Down => (seen, Broken(GiteaTrouble))
      case ReplyLost => (ServedIn(seen, record, phase), Broken(GiteaTrouble))
      case Up => Ran(ServedIn(seen, record, phase), record, Answered(seen, record, phase), weather)
  }

  class Gitea {
    var tags: map<Tag, string>
    var releases: set<Tag>

    constructor ()
      ensures Value() == Forge(map[], {})
    {
      tags, releases := map[], {};
    }

    function Value(): Forge
      reads this
    {
      Forge(tags, releases)
    }

    method Meanwhile(writes: seq<Write>)
      modifies this
      ensures Value() == Written(old(Value()), writes)
    {
      for i := 0 to |writes|
        invariant Written(Value(), writes[i..]) == Written(old(Value()), writes)
      {
        assert writes[i..][1..] == writes[i + 1..];
        var write := writes[i];
        if write.tag !in tags {
          if write.Bare? {
            tags := tags[write.tag := write.commit];
          } else if write.tag !in releases {
            tags, releases := tags[write.tag := write.commit], releases + {write.tag};
          }
        }
      }
    }

    method GetTag(tag: Tag, weather: Weather) returns (up: bool, commit: Option<string>)
      modifies this
      ensures Value() == Written(old(Value()), weather.writes) && up == weather.line.Up?
      ensures commit == if tag in tags then Some(tags[tag]) else None
    {
      Meanwhile(weather.writes);
      return weather.line.Up?, if tag in tags then Some(tags[tag]) else None;
    }

    method GetRelease(tag: Tag, weather: Weather) returns (up: bool, found: bool)
      modifies this
      ensures Value() == Written(old(Value()), weather.writes) && up == weather.line.Up?
      ensures found <==> tag in releases
    {
      Meanwhile(weather.writes);
      return weather.line.Up?, tag in releases;
    }

    /** A release already there is a conflict; a request whose reply is lost has been served all the same. */
    method CreateRelease(tag: Tag, commit: string, weather: Weather) returns (up: bool, created: bool)
      modifies this
      ensures var seen := Written(old(Value()), weather.writes);
              && up == weather.line.Up? && (created <==> tag !in seen.releases)
              && Value() == if weather.line.Down? || !created then seen else WithRelease(seen, tag, commit)
    {
      Meanwhile(weather.writes);
      up, created := weather.line.Up?, tag !in releases;
      if !weather.line.Down? && created {
        if tag !in tags {
          tags := tags[tag := commit];
        }
        releases := releases + {tag};
      }
    }

    method EnsureRelease(tag: Tag, commit: string, weather: Phase -> Weather) returns (outcome: Outcome)
      modifies this
      ensures (Value(), outcome) == Ran(old(Value()), Record(tag, commit, Publishing, None), AskRepository, weather)
    {
      hide Written, Wrote, WithRelease;
      ghost var record := Record(tag, commit, Publishing, None);
      ghost var all := Ran(Value(), record, AskRepository, weather);
      Meanwhile(weather(AskRepository).writes);
      if !weather(AskRepository).line.Up? {
        return Broken(GiteaTrouble);
      }
      assert all == Ran(Value(), record, AskTag, weather);
      var up, found := GetTag(tag, weather(AskTag));
      if !up {
        return Broken(GiteaTrouble);
      }
      if found.Some? && found.value != commit {
        return Broken(TagOnOtherCommit);
      }
      if found.Some? {
        assert all == Ran(Value(), record, AskRelease, weather);
        var answered, there := GetRelease(tag, weather(AskRelease));
        if !answered {
          return Broken(GiteaTrouble);
        }
        if there {
          return Existing;
        }
      }
      assert all == Ran(Value(), record, Create, weather);
      var created;
      up, created := CreateRelease(tag, commit, weather(Create));
      if !up {
        return Broken(GiteaTrouble);
      }
      if created {
        return Created;
      }
      assert all == Ran(Value(), record, RereadTag, weather);
      outcome := Reread(tag, commit, weather);
    }

    /** After a conflict the tag and the release are read again; the tag is never moved. */
    method Reread(tag: Tag, commit: string, weather: Phase -> Weather) returns (outcome: Outcome)
      modifies this
      ensures (Value(), outcome) == Ran(old(Value()), Record(tag, commit, Publishing, None), RereadTag, weather)
    {
      hide Written, Wrote, WithRelease;
      ghost var record := Record(tag, commit, Publishing, None);
      ghost var all := Ran(Value(), record, RereadTag, weather);
      var up, found := GetTag(tag, weather(RereadTag));
      if !up || found == None {
        return Broken(GiteaTrouble);
      }
      if found.value != commit {
        return Broken(TagOnOtherCommit);
      }
      assert all == Ran(Value(), record, RereadRelease, weather);
      var there;
      up, there := GetRelease(tag, weather(RereadRelease));
      return if up && there then Existing else Broken(GiteaTrouble);
    }
  }

  class PublishRecord {
    const tag: Tag
    const commit: string
    var status: RecordStatus
    var failure: Option<Failure>

    constructor (tag: Tag, commit: string)
      ensures Value() == Record(tag, commit, Publishing, None)
    {
      this.tag, this.commit, status, failure := tag, commit, Publishing, None;
    }

    function Value(): Record
      reads this
    {
      Record(tag, commit, status, failure)
    }

    /** A published record is left as it is and nothing is asked of Gitea. */
    method Publish(gitea: Gitea, weather: Phase -> Weather)
      modifies this, gitea
      ensures old(status).Published? ==> Value() == old(Value()) && gitea.Value() == old(gitea.Value())
      ensures !old(status).Published? ==>
                var begun := Record(tag, commit, Publishing, None);
                var (forge, outcome) := Ran(old(gitea.Value()), begun, AskRepository, weather);
                && Value() == Settled(begun, outcome) && gitea.Value() == forge
                && (outcome == Existing || outcome == Created ==> status == Published && failure == None)
                && (outcome.Broken? ==> status == Failed && failure == Some(outcome.failure))
    {
      hide Ran;
      if status == Published {
        return;
      }
      status := Publishing;
      failure := None;
      var outcome := gitea.EnsureRelease(tag, commit, weather);
      if outcome.Broken? {
        status := Failed;
        failure := Some(outcome.failure);
      } else {
        status := Published;
      }
    }
  }

  predicate TagsKept(before: Forge, after: Forge) {
    && (forall t :: t in before.tags ==> t in after.tags && after.tags[t] == before.tags[t])
    && before.releases <= after.releases
  }

  lemma {:induction false} WritesKeepTags(forge: Forge, writes: seq<Write>)
    ensures TagsKept(forge, Written(forge, writes))
    decreases |writes|
  {
    if writes != [] {
      WritesKeepTags(Wrote(forge, writes[0]), writes[1..]);
    }
  }

  /** What Gitea holds when the attempt's request to create the release arrives, if it gets there. */
  function AtCreation(forge: Forge, record: Record, phase: Phase, weather: Phase -> Weather): Option<Forge>
    decreases Rank(phase)
  {
    if phase.Over? then None
    else
      var seen := Written(forge, weather(phase).writes);
      if phase == Create then (if weather(phase).line.Down? then None else Some(seen))
      else if weather(phase).line != Up then None
      else AtCreation(seen, record, Answered(seen, record, phase), weather)
  }

  /** What an attempt knows by the phase it is in. */
  predicate Justified(forge: Forge, record: Record, phase: Phase) {
    match phase
    case AskRelease => OnCommit(forge, record)
    case RereadRelease => OnCommit(forge, record)
    case Over(outcome) => !outcome.Broken? ==> OnCommit(forge, record)
    case _ => true
  }

  /** Whatever others write meanwhile and whichever request is lost: no tag moves, and an attempt that reports
      success leaves the tag on its commit if and only if its release did not land on a foreign tag. */
  lemma {:induction false} AttemptMeans(forge: Forge, record: Record, phase: Phase, weather: Phase -> Weather)
    requires Justified(forge, record, phase)
    ensures var (end, outcome) := Ran(forge, record, phase, weather);
            && TagsKept(forge, end)
            && (!outcome.Broken? && !phase.Over? ==> record.tag in end.tags && record.tag in end.releases)
            && (!outcome.Broken? ==>
                  (OnCommit(end, record) <==>
                     var at := AtCreation(forge, record, phase, weather);
                     !(outcome == Created && at.Some? && LandsOnForeignTag(at.value, record))))
    decreases Rank(phase)
  {
    if !phase.Over? {
      var seen := Written(forge, weather(phase).writes);
      WritesKeepTags(forge, weather(phase).writes);
      hide Written;
      if weather(phase).line.Up? {
        var next := Answered(seen, record, phase);
        if next.Over? {
        } else {
          AttemptMeans(ServedIn(seen, record, phase), record, next, weather);
        }
      }
    }
  }

  /** What a create request leaves: the release, and the tag on the commit if there was none. */
  predicate Serves(forge: Forge, tag: Tag, commit: string, after: Forge) {
    && after.releases == forge.releases + {tag}
    && after.tags == if tag in forge.tags then forge.tags else forge.tags[tag := commit]
  }

  /** Undisturbed it is refused exactly when the tag is on another commit, breaks off exactly when a release has lost
      its tag, finds what is there, and otherwise creates what is missing; nothing else changes. */
  lemma QuietAttempt(forge: Forge, record: Record, weather: Phase -> Weather)
    requires forall phase :: weather(phase) == Weather([], Up)
    ensures var (end, outcome) := Ran(forge, record, AskRepository, weather);
            var tagged, released := record.tag in forge.tags, record.tag in forge.releases;
            && (outcome == Broken(TagOnOtherCommit) <==> tagged && forge.tags[record.tag] != record.commit)
            && (outcome == Broken(GiteaTrouble) <==> !tagged && released)
            && (outcome == Existing <==> tagged && forge.tags[record.tag] == record.commit && released)
            && (outcome == Created <==> (tagged ==> forge.tags[record.tag] == record.commit) && !released)
            && (if outcome == Created then Serves(forge, record.tag, record.commit, end) else end == forge)
  {
    assert Ran(forge, record, AskRepository, weather) == Ran(forge, record, AskTag, weather);
    if record.tag !in forge.tags || OnCommit(forge, record) {
      QuietConflict(forge, record, weather);
      assert Ran(forge, record, Create, weather).0 == ServedIn(forge, record, Create);
    }
  }

  /** An attempt whose create request meets a release that somebody else has made reads tag and release again: it is
      content exactly with a tag on its own commit, and it changes nothing. */
  lemma QuietConflict(forge: Forge, record: Record, weather: Phase -> Weather)
    requires forall phase :: weather(phase) == Weather([], Up)
    ensures var (end, outcome) := Ran(forge, record, Create, weather);
            if record.tag !in forge.releases then outcome == Created && Serves(forge, record.tag, record.commit, end)
            else
              && end == forge
              && outcome == (if record.tag !in forge.tags then Broken(GiteaTrouble)
                             else if forge.tags[record.tag] != record.commit then Broken(TagOnOtherCommit) else Existing)
  {
    assert Ran(forge, record, RereadRelease, weather).0 == forge;
    assert Ran(forge, record, RereadTag, weather).0 == forge;
  }

  // ---------------------------------------------------------------- any number of attempts, request by request

  /** `foreign` remembers that the attempt's release landed on somebody's bare tag on another commit. */
  datatype Attempt = Attempt(record: nat, phase: Phase, foreign: bool)

  /** `created` counts the releases each tag received from this controller. */
  datatype World = World(forge: Forge, records: seq<Record>, attempts: map<nat, Attempt>, created: map<Tag, nat>)

  datatype Step =
    | Add(record: Record)
    | Begin(id: nat, of: nat, seen: Record)
    | Call(id: nat, up: bool)
    | LoseReply(id: nat)
    | Finish(id: nat)
    | Die(id: nat)
    | OtherRelease(tag: Tag, commit: string)
    | BareTag(tag: Tag, commit: string)

  predicate Possible(w: World, step: Step) {
    match step
    case Add(record) => record.status.Publishing?
    case Begin(id, record, _) => id !in w.attempts && record < |w.records|
    case Call(id, _) => id in w.attempts && w.attempts[id].record < |w.records| && !w.attempts[id].phase.Over?
    case LoseReply(id) => id in w.attempts && w.attempts[id].record < |w.records| && w.attempts[id].phase == Create
    case Finish(id) => id in w.attempts && w.attempts[id].record < |w.records| && w.attempts[id].phase.Over?
    case Die(id) => id in w.attempts
    case OtherRelease(tag, _) => tag !in w.forge.tags && tag !in w.forge.releases
    case BareTag(tag, _) => tag !in w.forge.tags
  }

  function Creations(created: map<Tag, nat>, tag: Tag): nat {
    if tag in created then created[tag] else 0
  }

  /** The beginning of an attempt, decided on the copy the session holds and flushed over the row. */
  function Reopened(row: Record, seen: Record): Record {
    row.(status := R.Column(row.status, seen.status, Publishing), failure := R.Column(row.failure, seen.failure, None))
  }

  /** The create request reaches Gitea. */
  function Served(w: World, record: Record): World {
    if record.tag in w.forge.releases then w
    else w.(forge := WithRelease(w.forge, record.tag, record.commit),
        created := w.created[record.tag := Creations(w.created, record.tag) + 1])
  }

  function Next(w: World, step: Step): World
    requires Possible(w, step)
  {
    match step
    case Add(record) => w.(records := w.records + [record])
    case Begin(id, r, seen) =>
      if seen.status.Published? then w
      else w.(records := w.records[r := Reopened(w.records[r], seen)], attempts := w.attempts[id := Attempt(r, AskRepository, false)])
    case Call(id, up) =>
      var a := w.attempts[id];
      var record := w.records[a.record];
      if !up then w.(attempts := w.attempts[id := a.(phase := Over(Broken(GiteaTrouble)))])
      else
        var w' := if a.phase == Create then Served(w, record) else w;
        var lands := a.phase == Create && LandsOnForeignTag(w.forge, record);
        w'.(attempts := w.attempts[id := Attempt(a.record, Answered(w.forge, record, a.phase), a.foreign || lands)])
    case LoseReply(id) =>
      var a := w.attempts[id];
      Served(w, w.records[a.record]).(attempts := w.attempts[id := a.(phase := Over(Broken(GiteaTrouble)))])
    case Finish(id) =>
      var a := w.attempts[id];
      w.(records := w.records[a.record := Settled(w.records[a.record], a.phase.outcome)], attempts := w.attempts - {id})
    case Die(id) => w.(attempts := w.attempts - {id})
    case OtherRelease(tag, commit) => w.(forge := WithRelease(w.forge, tag, commit))
    case BareTag(tag, commit) => w.(forge := w.forge.(tags := w.forge.tags[tag := commit]))
  }

  /** The end of an attempt marks its record: PUBLISHED exactly if the release was found or created, and otherwise FAILED
      with the reason; the end of no attempt touches any other record. */
  lemma FinishMeans(w: World, id: nat)
    requires Possible(w, Finish(id))
    ensures var a, w' := w.attempts[id], Next(w, Finish(id));
            && w'.forge == w.forge && |w'.records| == |w.records| && w'.attempts == w.attempts - {id}
            && (forall r :: 0 <= r < |w.records| && r != a.record ==> w'.records[r] == w.records[r])
            && var before, after := w.records[a.record], w'.records[a.record];
               if a.phase.outcome == Existing || a.phase.outcome == Created then after == before.(status := Published)
               else after == before.(status := Failed, failure := Some(a.phase.outcome.failure))
  {
  }

  // ---------------------------------------------------------------- tags never move

  /** Whatever runs against whatever, every binding of a tag to a commit survives every step. */
  lemma StepKeepsTags(w: World, step: Step)
    requires Possible(w, step)
    ensures TagsKept(w.forge, Next(w, step).forge)
  {
  }

  predicate CreatedOnce(w: World) {
    forall t :: t in w.created ==> w.created[t] <= 1 && t in w.forge.releases
  }

  lemma StepCreatesOnce(w: World, step: Step)
    requires CreatedOnce(w) && Possible(w, step)
    ensures CreatedOnce(Next(w, step))
  {
    hide Answered;
  }

  // ---------------------------------------------------------------- a published tag is on its commit

  predicate Knows(forge: Forge, record: Record, a: Attempt) {
    if a.foreign then a.phase == Over(Created) && record.tag in forge.tags && !OnCommit(forge, record)
    else Justified(forge, record, a.phase)
  }

  predicate AttemptsKnow(w: World) {
    forall id :: id in w.attempts ==>
      w.attempts[id].record < |w.records| && Knows(w.forge, w.records[w.attempts[id].record], w.attempts[id])
  }

  /** Every published record's tag is on its commit. */
  predicate PublishedMatch(w: World) {
    forall r :: 0 <= r < |w.records| && w.records[r].status.Published? ==> OnCommit(w.forge, w.records[r])
  }

  predicate SameIntent(a: Record, b: Record) {
    a.tag == b.tag && a.commit == b.commit
  }

  lemma KnowledgeLasts(before: Forge, after: Forge, record: Record, record': Record, a: Attempt)
    requires TagsKept(before, after) && SameIntent(record, record')
    ensures OnCommit(before, record) ==> OnCommit(after, record')
    ensures Knows(before, record, a) ==> Knows(after, record', a)
  {
  }

  lemma RecordsKeepIntent(w: World, step: Step)
    requires Possible(w, step)
    ensures |w.records| <= |Next(w, step).records|
    ensures forall r :: 0 <= r < |w.records| ==> SameIntent(w.records[r], Next(w, step).records[r])
  {
    hide Answered, WithRelease;
  }

  /** The attempt the step is about, and no other, moves on. */
  lemma AttemptMovesHow(w: World, step: Step, id: nat)
    requires AttemptsKnow(w) && Possible(w, step) && id in Next(w, step).attempts
    ensures var a' := Next(w, step).attempts[id];
            || (id in w.attempts && a' == w.attempts[id])
            || (a'.record < |w.records| && Knows(Next(w, step).forge, w.records[a'.record], a'))
  {
    if step.Call? && step.id == id {
      assert Knows(w.forge, w.records[w.attempts[id].record], w.attempts[id]);
    } else {
      hide Answered;
    }
  }

  lemma StepKeepsKnowledge(w: World, step: Step)
    requires AttemptsKnow(w) && Possible(w, step)
    ensures AttemptsKnow(Next(w, step))
  {
    var w' := Next(w, step);
    StepKeepsTags(w, step);
    RecordsKeepIntent(w, step);
    forall id | id in w'.attempts
      ensures w'.attempts[id].record < |w'.records|
      ensures Knows(w'.forge, w'.records[w'.attempts[id].record], w'.attempts[id])
    {
      AttemptMovesHow(w, step, id);
      hide Next, Possible, Knows, TagsKept, SameIntent;
      var a := w'.attempts[id];
      if id in w.attempts && a == w.attempts[id] {
        KnowledgeLasts(w.forge, w'.forge, w.records[a.record], w'.records[a.record], a);
      } else {
        TagsKeptAlways(w'.forge);
        KnowledgeLasts(w'.forge, w'.forge, w.records[a.record], w'.records[a.record], a);
      }
    }
  }

  lemma TagsKeptAlways(forge: Forge)
    ensures TagsKept(forge, forge)
  {
  }

  /** An attempt whose release landed on a foreign tag records its success. */
  predicate RecordsForeign(w: World, step: Step)
    requires Possible(w, step)
  {
    step.Finish? && w.attempts[step.id].foreign
  }

  lemma StepMatchesIff(w: World, step: Step)
    requires AttemptsKnow(w) && PublishedMatch(w) && Possible(w, step)
    ensures PublishedMatch(Next(w, step)) <==> !RecordsForeign(w, step)
  {
    var w' := Next(w, step);
    StepKeepsTags(w, step);
    RecordsKeepIntent(w, step);
    if step.Finish? {
      assert Knows(w.forge, w.records[w.attempts[step.id].record], w.attempts[step.id]);
    } else {
      PublishedOnlyByFinish(w, step);
      hide Next, Possible, TagsKept;
      forall r | 0 <= r < |w'.records| && w'.records[r].status.Published?
        ensures OnCommit(w'.forge, w'.records[r])
      {
        KnowledgeLasts(w.forge, w'.forge, w.records[r], w'.records[r], Attempt(r, AskTag, false));
      }
    }
  }

  lemma PublishedOnlyByFinish(w: World, step: Step)
    requires Possible(w, step) && !step.Finish?
    ensures forall r :: 0 <= r < |Next(w, step).records| && Next(w, step).records[r].status.Published? ==>
              r < |w.records| && w.records[r].status.Published?
  {
    hide Answered, WithRelease;
  }

  /** Reading the tag once more after creating the release would tell. */
  lemma ForeignIffTagElsewhere(w: World, id: nat)
    requires AttemptsKnow(w) && id in w.attempts && w.attempts[id].phase == Over(Created)
    ensures w.attempts[id].foreign <==> !OnCommit(w.forge, w.records[w.attempts[id].record])
  {
    assert Knows(w.forge, w.records[w.attempts[id].record], w.attempts[id]);
  }

  predicate PossibleRun(w: World, steps: seq<Step>)
    decreases |steps|
  {
    steps == [] || (Possible(w, steps[0]) && PossibleRun(Next(w, steps[0]), steps[1..]))
  }

  predicate AlwaysMatches(w: World, steps: seq<Step>)
    requires PossibleRun(w, steps)
    decreases |steps|
  {
    PublishedMatch(w) && (steps == [] || AlwaysMatches(Next(w, steps[0]), steps[1..]))
  }

  predicate NeverRecordsForeign(w: World, steps: seq<Step>)
    requires PossibleRun(w, steps)
    decreases |steps|
  {
    steps == [] || (!RecordsForeign(w, steps[0]) && NeverRecordsForeign(Next(w, steps[0]), steps[1..]))
  }

  /** Every published record's tag is on its commit throughout a run, crashes, lost replies and retries
      included, if and only if no attempt whose release landed on a tag somebody had put on another commit
      lives to record it. */
  lemma {:induction false} PublishedTagsMatchIff(w: World, steps: seq<Step>)
    requires AttemptsKnow(w) && PublishedMatch(w) && PossibleRun(w, steps)
    ensures AlwaysMatches(w, steps) <==> NeverRecordsForeign(w, steps)
    decreases |steps|
  {
    if steps != [] {
      hide Next, Possible, AttemptsKnow, PublishedMatch, RecordsForeign;
      StepMatchesIff(w, steps[0]);
      StepKeepsKnowledge(w, steps[0]);
      if PublishedMatch(Next(w, steps[0])) {
        PublishedTagsMatchIff(Next(w, steps[0]), steps[1..]);
      }
    }
  }

  predicate NoneForeign(w: World) {
    w.forge.tags.Keys == w.forge.releases && forall id :: id in w.attempts ==> !w.attempts[id].foreign
  }

  /** Writers that always create tag and release together leave no bare tag to land on. */
  lemma {:induction false} TogetherIsSafe(w: World, steps: seq<Step>)
    requires PossibleRun(w, steps) && NoneForeign(w)
    requires forall step :: step in steps ==> !step.BareTag?
    ensures NeverRecordsForeign(w, steps)
    decreases |steps|
  {
    if steps != [] {
      assert NoneForeign(Next(w, steps[0]));
      hide Next, NoneForeign;
      TogetherIsSafe(Next(w, steps[0]), steps[1..]);
    }
  }

  function RunTo(w: World, steps: seq<Step>): World
    requires PossibleRun(w, steps)
    decreases |steps|
  {
    if steps == [] then w else RunTo(Next(w, steps[0]), steps[1..])
  }

  /** Over any run at all: no tag moves, and each tag receives at most one release from this controller. */
  lemma {:induction false} TagsNeverMove(w: World, steps: seq<Step>)
    requires CreatedOnce(w) && PossibleRun(w, steps)
    ensures TagsKept(w.forge, RunTo(w, steps).forge) && CreatedOnce(RunTo(w, steps))
    decreases |steps|
  {
    if steps != [] {
      hide Next, Possible, CreatedOnce;
      StepKeepsTags(w, steps[0]);
      StepCreatesOnce(w, steps[0]);
      TagsNeverMove(Next(w, steps[0]), steps[1..]);
    }
  }

  // ---------------------------------------------------------------- published for good

  /** One attempt at a time on each record. */
  predicate OneAttemptEach(w: World) {
    && (forall a, b :: a in w.attempts && b in w.attempts && a != b ==> w.attempts[a].record != w.attempts[b].record)
    && (forall a :: a in w.attempts ==> w.attempts[a].record < |w.records| && !w.records[w.attempts[a].record].status.Published?)
  }

  /** An attempt begins from the record as it is, and nobody else is publishing that record. */
  predicate BeginsAlone(w: World, step: Step)
    requires Possible(w, step)
  {
    step.Begin? ==> step.seen == w.records[step.of] && forall a :: a in w.attempts ==> w.attempts[a].record != step.of
  }

  predicate EachBeginsAlone(w: World, steps: seq<Step>)
    requires PossibleRun(w, steps)
    decreases |steps|
  {
    steps == [] || (BeginsAlone(w, steps[0]) && EachBeginsAlone(Next(w, steps[0]), steps[1..]))
  }

  lemma AnswersKeepAttempts(w: World, step: Step)
    requires Possible(w, step) && (step.Call? || step.LoseReply?)
    ensures Next(w, step).records == w.records && Next(w, step).attempts.Keys == w.attempts.Keys
    ensures forall a :: a in w.attempts ==> Next(w, step).attempts[a].record == w.attempts[a].record
  {
    hide Answered;
  }

  lemma StepKeepsOneAttempt(w: World, step: Step)
    requires OneAttemptEach(w) && Possible(w, step) && BeginsAlone(w, step)
    ensures OneAttemptEach(Next(w, step))
  {
    if step.Call? || step.LoseReply? {
      AnswersKeepAttempts(w, step);
      hide Next;
    } else {
      hide Answered, Served, WithRelease;
    }
  }

  lemma StepKeepsPublished(w: World, step: Step)
    requires OneAttemptEach(w) && Possible(w, step) && BeginsAlone(w, step)
    ensures |w.records| <= |Next(w, step).records|
    ensures forall r :: 0 <= r < |w.records| && w.records[r].status.Published? ==> Next(w, step).records[r] == w.records[r]
  {
    hide Answered;
  }

  /** While attempts at one record do not overlap, a published record is published for good. */
  lemma {:induction false} PublishedForGood(w: World, steps: seq<Step>, r: nat)
    requires OneAttemptEach(w) && PossibleRun(w, steps) && EachBeginsAlone(w, steps)
    requires r < |w.records| && w.records[r].status.Published?
    ensures r < |RunTo(w, steps).records| && RunTo(w, steps).records[r] == w.records[r]
    decreases |steps|
  {
    if steps != [] {
      hide Next, Possible, OneAttemptEach, BeginsAlone;
      StepKeepsPublished(w, steps[0]);
      StepKeepsOneAttempt(w, steps[0]);
      PublishedForGood(Next(w, steps[0]), steps[1..], r);
    }
  }

  /** Exactly which writes take a record back from PUBLISHED: the failed end of an attempt that another
      attempt at the same record has overtaken, and a beginning decided on an old copy that still says FAILED. */
  lemma UnpublishedIff(w: World, step: Step, r: nat)
    requires Possible(w, step) && r < |w.records| && w.records[r].status.Published?
    ensures r < |Next(w, step).records|
    ensures !Next(w, step).records[r].status.Published? <==>
            || (step.Finish? && w.attempts[step.id].record == r && w.attempts[step.id].phase.outcome.Broken?)
            || (step.Begin? && step.of == r && step.seen.status.Failed?)
  {
    hide Answered;
  }

  lemma RunOf(w: World, step: Step, rest: seq<Step>)
    requires Possible(w, step) && PossibleRun(Next(w, step), rest)
    ensures PossibleRun(w, [step] + rest) && RunTo(w, [step] + rest) == RunTo(Next(w, step), rest)
  {
    hide Next, Possible;
    assert ([step] + rest)[1..] == rest;
  }

  lemma NoMore(w: World)
    ensures PossibleRun(w, []) && RunTo(w, []) == w
  {
  }

  /** A record published on a tag that somebody pushed, on another commit, after the attempt had looked for it. */
  lemma ForeignTagIsRecorded(tag: Tag, commit: string, other: string) returns (steps: seq<Step>)
    requires other != commit
    ensures var w := World(Forge(map[], {}), [Record(tag, commit, Publishing, None)], map[], map[]);
            PossibleRun(w, steps) && var end := RunTo(w, steps);
            |end.records| == 1 && end.records[0].status.Published? && tag in end.forge.tags && end.forge.tags[tag] == other
  {
    var record := Record(tag, commit, Publishing, None);
    var w0 := World(Forge(map[], {}), [record], map[], map[]);
    var ask := Call(1, true);
    var w1 := Next(w0, First(tag, commit));
    var w2 := Next(w1, ask);
    var w3 := Next(w2, ask);
    assert w3.attempts == map[1 := Attempt(0, Create, false)] && w3.forge == w0.forge && w3.records == [record];
    var w4 := Next(w3, BareTag(tag, other));
    var w5 := ForeignRelease(w4, record, other);
    var w6 := Next(w5, Finish(1));
    hide Next, Possible, RunTo, PossibleRun;
    NoMore(w6);
    RunOf(w5, Finish(1), []);
    RunOf(w4, ask, [Finish(1)] + []);
    RunOf(w3, BareTag(tag, other), [ask] + ([Finish(1)] + []));
    RunOf(w2, ask, [BareTag(tag, other)] + ([ask] + ([Finish(1)] + [])));
    RunOf(w1, ask, [ask] + ([BareTag(tag, other)] + ([ask] + ([Finish(1)] + []))));
    RunOf(w0, First(tag, commit), [ask] + ([ask] + ([BareTag(tag, other)] + ([ask] + ([Finish(1)] + [])))));
    steps := [First(tag, commit)] + ([ask] + ([ask] + ([BareTag(tag, other)] + ([ask] + ([Finish(1)] + [])))));
  }

  lemma ForeignRelease(w: World, record: Record, other: string) returns (w': World)
    requires other != record.commit && w.forge == Forge(map[record.tag := other], {}) && w.records == [record]
    requires w.attempts == map[1 := Attempt(0, Create, false)]
    ensures Possible(w, Call(1, true)) && w' == Next(w, Call(1, true))
    ensures w'.forge.tags == w.forge.tags && w'.records == [record] && w'.attempts == map[1 := Attempt(0, Over(Created), true)]
  {
    w' := Next(w, Call(1, true));
  }

  lemma {:induction false} RunsJoin(w: World, a: seq<Step>, b: seq<Step>)
    requires PossibleRun(w, a) && PossibleRun(RunTo(w, a), b)
    ensures PossibleRun(w, a + b) && RunTo(w, a + b) == RunTo(RunTo(w, a), b)
    decreases |a|
  {
    hide Next, Possible;
    if a == [] {
      assert a + b == b;
    } else {
      assert (a + b)[1..] == a[1..] + b;
      RunsJoin(Next(w, a[0]), a[1..], b);
    }
  }

  lemma {:induction false} WritesAreSteps(w: World, writes: seq<Write>) returns (steps: seq<Step>)
    ensures PossibleRun(w, steps) && RunTo(w, steps) == w.(forge := Written(w.forge, writes))
    decreases |writes|
  {
    if writes == [] {
      NoMore(w);
      return [];
    }
    var write := writes[0];
    var w' := w.(forge := Wrote(w.forge, write));
    steps := WritesAreSteps(w', writes[1..]);
    if w'.forge != w.forge {
      var step := if write.Bare? then BareTag(write.tag, write.commit) else OtherRelease(write.tag, write.commit);
      assert Possible(w, step) && Next(w, step) == w';
      RunOf(w, step, steps);
      steps := [step] + steps;
    }
  }

  /** The request the attempt makes next, as a step. */
  function RequestStep(id: nat, phase: Phase, line: Line): Step {
    if line.ReplyLost? && phase == Create then LoseReply(id) else Call(id, line.Up?)
  }

  lemma RequestIsStep(w: World, id: nat, line: Line)
    requires id in w.attempts && w.attempts[id].record < |w.records| && !w.attempts[id].phase.Over?
    ensures var record, phase := w.records[w.attempts[id].record], w.attempts[id].phase;
            var step := RequestStep(id, phase, line);
            && Possible(w, step) && var w' := Next(w, step);
            && w'.records == w.records && id in w'.attempts && w'.attempts[id].record == w.attempts[id].record
            && w'.forge == (if line.Down? then w.forge else ServedIn(w.forge, record, phase))
            && w'.attempts[id].phase == if line.Up? then Answered(w.forge, record, phase) else Over(Broken(GiteaTrouble))
  {
    hide Answered, WithRelease;
  }

  /** The service's own attempt, in whatever weather, is a run of the interleaved model. */
  lemma {:induction false} AttemptIsARun(w: World, id: nat, weather: Phase -> Weather) returns (steps: seq<Step>)
    requires id in w.attempts && w.attempts[id].record < |w.records|
    ensures PossibleRun(w, steps) && var end := RunTo(w, steps);
            var (forge, outcome) := Ran(w.forge, w.records[w.attempts[id].record], w.attempts[id].phase, weather);
            && end.records == w.records && end.forge == forge && id in end.attempts
            && end.attempts[id].record == w.attempts[id].record && end.attempts[id].phase == Over(outcome)
    decreases Rank(w.attempts[id].phase)
  {
    var record, phase := w.records[w.attempts[id].record], w.attempts[id].phase;
    if phase.Over? {
      NoMore(w);
      return [];
    }
    var writes := WritesAreSteps(w, weather(phase).writes);
    var w1 := w.(forge := Written(w.forge, weather(phase).writes));
    var step := RequestStep(id, phase, weather(phase).line);
    RequestIsStep(w1, id, weather(phase).line);
    var w2 := Next(w1, step);
    hide Next, Possible, PossibleRun, RunTo, Written, ServedIn, RequestStep;
    var rest := AttemptIsARun(w2, id, weather);
    RunOf(w1, step, rest);
    RunsJoin(w, writes, [step] + rest);
    steps := writes + ([step] + rest);
  }

  /** Such an overtaking exists: two attempts begin on one record, the first publishes it, the second loses
      its connection and records the failure over it. */
  lemma OverlapUnpublishes(tag: Tag, commit: string) returns (steps: seq<Step>)
    ensures var w := World(Forge(map[], {}), [Record(tag, commit, Publishing, None)], map[], map[]);
            PossibleRun(w, steps) && var end := RunTo(w, steps);
            |end.records| == 1 && end.records[0].status.Failed? && tag in end.forge.releases
  {
    var w0 := World(Forge(map[], {}), [Record(tag, commit, Publishing, None)], map[], map[]);
    var w1, w2, w3 := FirstPublishesWhileSecondWaits(w0, tag, commit);
    var w4 := Next(w3, Call(2, false));
    var w5 := Next(w4, Finish(2));
    assert w5.records[0].status.Failed? && tag in w5.forge.releases;
    hide Next, Possible, RunTo, PossibleRun;
    NoMore(w5);
    RunOf(w4, Finish(2), []);
    RunOf(w3, Call(2, false), [Finish(2)] + []);
    var late := [Call(2, false)] + ([Finish(2)] + []);
    steps := Ahead(w0, w1, w2, w3, tag, commit, late);
  }

  function First(tag: Tag, commit: string): Step {
    Begin(1, 0, Record(tag, commit, Publishing, None))
  }

  function Second(tag: Tag, commit: string): Step {
    Begin(2, 0, Record(tag, commit, Publishing, None))
  }

  lemma PublishedFrom(w: World, tag: Tag, commit: string) returns (w': World)
    requires w.forge == Forge(map[], {}) && w.records == [Record(tag, commit, Publishing, None)]
    requires w.attempts == map[1 := Attempt(0, AskRepository, false), 2 := Attempt(0, AskRepository, false)]
    ensures PublishesAlone(w, 1) && w' == AfterPublishing(w, 1)
    ensures w'.records == [Record(tag, commit, Published, None)] && w'.attempts == map[2 := Attempt(0, AskRepository, false)]
    ensures tag in w'.forge.releases
  {
    var ask := Call(1, true);
    var a := Next(w, ask);
    assert a.attempts[1] == Attempt(0, AskTag, false) && a.records == w.records && a.forge == w.forge;
    var b := Next(a, ask);
    assert b.attempts[1] == Attempt(0, Create, false) && b.records == w.records && b.forge == w.forge;
    var c := Next(b, ask);
    assert c.attempts[1] == Attempt(0, Over(Created), false) && c.records == w.records && tag in c.forge.releases;
    w' := Next(c, Finish(1));
  }

  lemma FirstPublishesWhileSecondWaits(w0: World, tag: Tag, commit: string) returns (w1: World, w2: World, w3: World)
    requires w0 == World(Forge(map[], {}), [Record(tag, commit, Publishing, None)], map[], map[])
    ensures Possible(w0, First(tag, commit)) && w1 == Next(w0, First(tag, commit))
    ensures Possible(w1, Second(tag, commit)) && w2 == Next(w1, Second(tag, commit))
    ensures PublishesAlone(w2, 1) && w3 == AfterPublishing(w2, 1)
    ensures w3.records == [Record(tag, commit, Published, None)] && w3.attempts == map[2 := Attempt(0, AskRepository, false)]
    ensures tag in w3.forge.releases
  {
    w1 := Next(w0, First(tag, commit));
    assert w1.attempts == map[1 := Attempt(0, AskRepository, false)];
    w2 := Next(w1, Second(tag, commit));
    assert w2.attempts == map[1 := Attempt(0, AskRepository, false), 2 := Attempt(0, AskRepository, false)];
    assert w2.forge == Forge(map[], {}) && w2.records == [Record(tag, commit, Publishing, None)];
    w3 := PublishedFrom(w2, tag, commit);
  }

  /** Repository, tag, creation, record: the four steps of an attempt nothing comes in the way of. */
  predicate PublishesAlone(w: World, id: nat) {
    && Possible(w, Call(id, true)) && var a := Next(w, Call(id, true));
    && Possible(a, Call(id, true)) && var b := Next(a, Call(id, true));
    && Possible(b, Call(id, true)) && var c := Next(b, Call(id, true));
       Possible(c, Finish(id))
  }

  function AfterPublishing(w: World, id: nat): World
    requires PublishesAlone(w, id)
  {
    Next(Next(Next(Next(w, Call(id, true)), Call(id, true)), Call(id, true)), Finish(id))
  }

  lemma Ahead(w0: World, w1: World, w2: World, w3: World, tag: Tag, commit: string, late: seq<Step>) returns (steps: seq<Step>)
    requires Possible(w0, First(tag, commit)) && w1 == Next(w0, First(tag, commit))
    requires Possible(w1, Second(tag, commit)) && w2 == Next(w1, Second(tag, commit))
    requires PublishesAlone(w2, 1) && w3 == AfterPublishing(w2, 1)
    requires PossibleRun(w3, late)
    ensures PossibleRun(w0, steps) && RunTo(w0, steps) == RunTo(w3, late)
  {
    hide Next, Possible, RunTo, PossibleRun;
    var ask := Call(1, true);
    var a := Next(w2, ask);
    var b := Next(a, ask);
    var c := Next(b, ask);
    RunOf(c, Finish(1), late);
    RunOf(b, ask, [Finish(1)] + late);
    RunOf(a, ask, [ask] + ([Finish(1)] + late));
    RunOf(w2, ask, [ask] + ([ask] + ([Finish(1)] + late)));
    RunOf(w1, Second(tag, commit), [ask] + ([ask] + ([ask] + ([Finish(1)] + late))));
    RunOf(w0, First(tag, commit), [Second(tag, commit)] + ([ask] + ([ask] + ([ask] + ([Finish(1)] + late)))));
    steps := [First(tag, commit)] + ([Second(tag, commit)] + ([ask] + ([ask] + ([ask] + ([Finish(1)] + late)))));
  }
}
