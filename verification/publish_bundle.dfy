/** Publishing a whole bundle: version pinning, the verdict over the components, interruption, and the sweep
    that repairs what an interrupted publisher left behind. */
module BundlePublishing {
  import opened Base
  import R = Rows
  import P = Publishing

  datatype PublishStatus = NotPublished | Publishing | Published | PartialFailure | Failed {
    /** An attempt pins its version while it is in flight or partly done; a wholly failed one pins nothing. */
    predicate PinsVersion() {
      Publishing? || Published? || PartialFailure?
    }
  }

  datatype Bundle = Bundle(status: PublishStatus, version: Option<string>)

  /** One component's publish records, by version. */
  type Records = map<string, P.RecordStatus>

  predicate IsPublished(records: Records, version: string) {
    version in records && records[version].Published?
  }

  /** How many components have a published record of that version. */
  function PublishedAt(records: seq<Records>, version: string): (n: nat)
    ensures n <= |records|
    ensures n > 0 <==> exists c :: 0 <= c < |records| && IsPublished(records[c], version)
    ensures n == |records| <==> forall c :: 0 <= c < |records| ==> IsPublished(records[c], version)
  {
    if records == [] then 0
    else
      var rest := PublishedAt(records[1..], version);
      assert forall c :: 1 <= c < |records| ==> records[c] == records[1..][c - 1];
      (if IsPublished(records[0], version) then 1 else 0) + rest
  }

  /** They are the components whose record of that version says PUBLISHED. */
  lemma {:induction false} PublishedAtMeans(records: seq<Records>, version: string)
    ensures PublishedAt(records, version) == Count(records, (r: Records) => version in r && r[version] == P.Published)
  {
    if records != [] {
      PublishedAtMeans(records[1..], version);
    }
  }

  // ---------------------------------------------------------------- the version check and the verdicts

  predicate VersionAllowed(current: Bundle, requested: string) {
    current.version.GetOr("") == "" || current.version == Some(requested) || !current.status.PinsVersion()
  }

  /** The publisher's verdict, over the components that publish. */
  function Aggregate(published: nat, expected: nat): PublishStatus {
    if published == expected && published > 0 then Published
    else if published > 0 then PartialFailure
    else Failed
  }

  /** The sweep's verdict, over all components of the bundle. */
  function Recovered(published: nat, components: nat): PublishStatus {
    if components > 0 && published == components then Published
    else if published > 0 then PartialFailure
    else Failed
  }

  predicate Publishes(publishing: seq<nat>, components: nat) {
    && publishing != []
    && (forall k :: 0 <= k < |publishing| ==> publishing[k] < components)
    && (forall j, k :: 0 <= j < k < |publishing| ==> publishing[j] < publishing[k])
  }

  // ---------------------------------------------------------------- in the orchestrator's own shape

  datatype Answer = Reached | Refused | NotConfigured

  function AfterAnswer(records: Records, version: string, answer: Answer): Records {
    if IsPublished(records, version) then records
    else
      match answer
      case Reached => records[version := P.Published]
      case Refused => records[version := P.Failed]
      case NotConfigured => records
  }

  /** A published version stays; an answered one is what Gitea answered; one that nothing was asked for stays. */
  predicate AnswerKept(before: Records, after: Records, version: string, answer: Answer) {
    if version in before && before[version] == P.Published then after == before
    else if answer == Reached then after == before[version := P.Published]
    else if answer == Refused then after == before[version := P.Failed]
    else after == before
  }

  class ReleaseBundle {
    var status: PublishStatus
    var version: Option<string>
    var records: seq<Records>

    constructor (components: nat)
      ensures Value() == Bundle(NotPublished, None) && |records| == components
      ensures forall c :: 0 <= c < components ==> records[c] == map[]
    {
      status, version := NotPublished, None;
      records := seq(components, _ => map[]);
    }

    function Value(): Bundle
      reads this
    {
      Bundle(status, version)
    }

    /** Component after component, keeping what each repository answered. */
    method PublishComponents(requested: string, publishing: seq<nat>, answers: seq<Answer>)
      requires Publishes(publishing, |records|) && |answers| == |publishing|
      modifies this`records
      ensures |records| == |old(records)|
      ensures forall k :: 0 <= k < |publishing| ==>
                records[publishing[k]] == AfterAnswer(old(records)[publishing[k]], requested, answers[k])
      ensures forall c :: 0 <= c < |records| && c !in publishing ==> records[c] == old(records)[c]
    {
      for k := 0 to |publishing|
        invariant |records| == |old(records)|
        invariant forall j :: 0 <= j < k ==> records[publishing[j]] == AfterAnswer(old(records)[publishing[j]], requested, answers[j])
        invariant forall c :: 0 <= c < |records| && c !in publishing[..k] ==> records[c] == old(records)[c]
      {
        var c := publishing[k];
        assert c !in publishing[..k];
        if !IsPublished(records[c], requested) && answers[k] != NotConfigured {
          records := records[c := records[c][requested := P.Publishing]];
          records := records[c := records[c][requested := if answers[k] == Reached then P.Published else P.Failed]];
        }
      }
    }

    method Publish(deployed: bool, requested: string, publishing: seq<nat>, answers: seq<Answer>) returns (accepted: bool)
      requires publishing != [] ==> Publishes(publishing, |records|)
      requires |answers| == |publishing|
      modifies this
      ensures accepted <==>
                && deployed && publishing != []
                && (|| old(version) == None || old(version) == Some("") || old(version) == Some(requested)
                    || old(status) == NotPublished || old(status) == Failed)
      ensures !accepted ==> Value() == old(Value()) && records == old(records)
      ensures accepted ==> |records| == |old(records)| && version == Some(requested)
      ensures accepted ==> status == Aggregate(PublishedAt(records, requested), |publishing|)
      ensures accepted ==>
                var published := PublishedAt(records, requested);
                status == if published == 0 then Failed else if published == |publishing| then Published else PartialFailure
      ensures accepted ==> forall k :: 0 <= k < |publishing| ==>
                records[publishing[k]] == AfterAnswer(old(records)[publishing[k]], requested, answers[k])
      ensures accepted ==> forall k :: 0 <= k < |publishing| ==>
                AnswerKept(old(records)[publishing[k]], records[publishing[k]], requested, answers[k])
      ensures accepted ==> forall c :: 0 <= c < |records| && c !in publishing ==> records[c] == old(records)[c]
    {
      hide PublishedAt;
      if !deployed {
        return false;
      }
      if version.GetOr("") != "" && version != Some(requested) && status.PinsVersion() {
        return false;
      }
      if publishing == [] {
        return false;
      }
      status := Publishing;
      version := Some(requested);
      PublishComponents(requested, publishing, answers);
      status := Aggregate(PublishedAt(records, requested), |publishing|);
      return true;
    }

    /** Only records what already happened: nothing is published again. */
    method Sweep()
      modifies this`status
      ensures status == if old(status) == Publishing then Recovered(PublishedAt(records, version.GetOr("")), |records|) else old(status)
      ensures old(status) == Publishing ==>
                var published := PublishedAt(records, if version.Some? then version.value else "");
                status == if published == 0 then Failed else if published == |records| then Published else PartialFailure
    {
      if status != Publishing {
        return;
      }
      status := Recovered(PublishedAt(records, version.GetOr("")), |records|);
    }
  }

  // ---------------------------------------------------------------- every interleaving and interruption

  /** A running publisher: the components it still has to publish, and whether it is asking Gitea about the first. */
  datatype Publisher = Publisher(version: string, expected: nat, todo: seq<nat>, asking: bool)

  datatype World = World(bundle: Bundle, records: seq<Records>, publishers: map<nat, Publisher>)

  /** Sessions decide on the copies they loaded: of the bundle when they start, of a record when they claim
      it, of all records when they count. */
  datatype Step =
    | Start(id: nat, seen: Bundle, version: string, publishing: seq<nat>)
    | Claim(id: nat, copy: Option<P.RecordStatus>)
    | Settle(id: nat, reached: bool)
    | Skip(id: nat)
    | Close(id: nat, counted: nat)
    | Die(id: nat)
    | Sweep

  predicate Head(w: World, id: nat) {
    id in w.publishers && w.publishers[id].todo != [] && w.publishers[id].todo[0] < |w.records|
  }

  predicate Possible(w: World, step: Step) {
    match step
    case Start(id, seen, version, publishing) =>
      id !in w.publishers && version != "" && Publishes(publishing, |w.records|) && VersionAllowed(seen, version)
    case Claim(id, _) => Head(w, id) && !w.publishers[id].asking
    case Settle(id, _) => Head(w, id) && w.publishers[id].asking
    case Skip(id) => Head(w, id) && !w.publishers[id].asking
    case Close(id, _) => id in w.publishers && w.publishers[id].todo == []
    case Die(id) => id in w.publishers
    case Sweep => true
  }

  function RecordAt(w: World, c: nat, version: string): Option<P.RecordStatus>
    requires c < |w.records|
  {
    if version in w.records[c] then Some(w.records[c][version]) else None
  }

  function WithRecord(w: World, c: nat, version: string, status: P.RecordStatus): World
    requires c < |w.records|
  {
    w.(records := w.records[c := w.records[c][version := status]])
  }

  function WithPublisher(w: World, id: nat, p: Publisher): World {
    w.(publishers := w.publishers[id := p])
  }

  function Next(w: World, step: Step): World
    requires Possible(w, step)
  {
    match step
    case Start(id, seen, version, publishing) =>
      w.(bundle := Bundle(R.Column(w.bundle.status, seen.status, Publishing),
                          R.Column(w.bundle.version, seen.version, Some(version))),
         publishers := w.publishers[id := Publisher(version, |publishing|, publishing, false)])
    case Claim(id, copy) =>
      var p := w.publishers[id];
      if copy == Some(P.Published) then WithPublisher(w, id, p.(todo := p.todo[1..]))
      else if copy == Some(P.Publishing) then WithPublisher(w, id, p.(asking := true))
      else WithPublisher(WithRecord(w, p.todo[0], p.version, P.Publishing), id, p.(asking := true))
    case Settle(id, reached) =>
      var p := w.publishers[id];
      WithPublisher(WithRecord(w, p.todo[0], p.version, if reached then P.Published else P.Failed), id,
                    p.(todo := p.todo[1..], asking := false))
    case Skip(id) =>
      var p := w.publishers[id];
      WithPublisher(w, id, p.(todo := p.todo[1..]))
    case Close(id, counted) =>
      w.(bundle := w.bundle.(status := Aggregate(counted, w.publishers[id].expected)), publishers := w.publishers - {id})
    case Die(id) => w.(publishers := w.publishers - {id})
    case Sweep =>
      if w.bundle.status != Publishing then w
      else w.(bundle := w.bundle.(status := Recovered(PublishedAt(w.records, w.bundle.version.GetOr("")), |w.records|)))
  }

  // ---------------------------------------------------------------- one version

  ghost predicate OneVersion(w: World) {
    forall c, v {:trigger IsPublished(w.records[c], v)} ::
      0 <= c < |w.records| && IsPublished(w.records[c], v) ==> w.bundle.version == Some(v)
  }

  ghost predicate NothingPublished(records: seq<Records>) {
    forall c, v :: 0 <= c < |records| ==> !IsPublished(records[c], v)
  }

  /** The commit would also pass a compare-and-swap on the bundle's version: a start once something is
      published, and every publication. */
  ghost predicate VersionStands(w: World, step: Step)
    requires Possible(w, step)
  {
    match step
    case Start(_, seen, version, _) =>
      NothingPublished(w.records) || seen.version == Some(version) || w.bundle.version == Some(version)
    case Settle(id, reached) => reached ==> w.bundle.version == Some(w.publishers[id].version)
    case _ => true
  }

  /** Only an answer that the release was reached publishes a record. */
  lemma OnlyReachedPublishes(w: World, step: Step)
    requires Possible(w, step)
    ensures |Next(w, step).records| == |w.records|
    ensures forall c, v {:trigger IsPublished(Next(w, step).records[c], v)} ::
              0 <= c < |w.records| && IsPublished(Next(w, step).records[c], v) ==>
              || IsPublished(w.records[c], v)
              || (step.Settle? && step.reached && c == w.publishers[step.id].todo[0] && v == w.publishers[step.id].version)
  {
    hide PublishedAt;
  }

  lemma StepKeepsOneVersionIff(w: World, step: Step)
    requires OneVersion(w) && Possible(w, step)
    ensures OneVersion(Next(w, step)) <==> VersionStands(w, step)
  {
    OnlyReachedPublishes(w, step);
    if step.Start? {
      if !NothingPublished(w.records) {
        var c, v :| 0 <= c < |w.records| && IsPublished(w.records[c], v);
        assert w.bundle.version == Some(v);
      }
    } else if step.Settle? && step.reached {
      var p := w.publishers[step.id];
      var w' := Next(w, step);
      assert IsPublished(w'.records[p.todo[0]], p.version);
    }
  }

  predicate PossibleRun(w: World, steps: seq<Step>)
    decreases |steps|
  {
    steps == [] || (Possible(w, steps[0]) && PossibleRun(Next(w, steps[0]), steps[1..]))
  }

  function RunTo(w: World, steps: seq<Step>): World
    requires PossibleRun(w, steps)
    decreases |steps|
  {
    if steps == [] then w else RunTo(Next(w, steps[0]), steps[1..])
  }

  ghost predicate AlwaysOneVersion(w: World, steps: seq<Step>)
    requires PossibleRun(w, steps)
    decreases |steps|
  {
    OneVersion(w) && (steps == [] || AlwaysOneVersion(Next(w, steps[0]), steps[1..]))
  }

  ghost predicate VersionAlwaysStands(w: World, steps: seq<Step>)
    requires PossibleRun(w, steps)
    decreases |steps|
  {
    steps == [] || (VersionStands(w, steps[0]) && VersionAlwaysStands(Next(w, steps[0]), steps[1..]))
  }

  /** Whatever overlaps: all published records carry the bundle's version throughout a run if and only if
      every commit that starts or publishes would have passed a compare-and-swap on that version. */
  lemma {:induction false} OneVersionIff(w: World, steps: seq<Step>)
    requires OneVersion(w) && PossibleRun(w, steps)
    ensures AlwaysOneVersion(w, steps) <==> VersionAlwaysStands(w, steps)
    decreases |steps|
  {
    if steps != [] {
      hide Next, Possible, OneVersion, VersionStands;
      StepKeepsOneVersionIff(w, steps[0]);
      if OneVersion(Next(w, steps[0])) {
        OneVersionIff(Next(w, steps[0]), steps[1..]);
      }
    }
  }

  // ---------------------------------------------------------------- one publisher at a time

  /** Publishers of the bundle do not overlap, each decides on the rows as they are, and the sweep waits
      until the publisher it repairs is gone. */
  predicate Orderly(w: World, step: Step)
    requires Possible(w, step)
  {
    match step
    case Start(_, seen, _, _) => w.publishers == map[] && seen == w.bundle
    case Claim(id, copy) => copy == RecordAt(w, w.publishers[id].todo[0], w.publishers[id].version)
    case Close(id, counted) => counted == PublishedAt(w.records, w.publishers[id].version)
    case Sweep => w.publishers == map[]
    case _ => true
  }

  predicate PublisherHolds(w: World, p: Publisher) {
    && p.version != "" && w.bundle == Bundle(Publishing, Some(p.version))
    && (forall k :: 0 <= k < |p.todo| ==> p.todo[k] < |w.records|)
    && (p.asking ==> p.todo != [] && !IsPublished(w.records[p.todo[0]], p.version))
  }

  /** FAILED and NOT_PUBLISHED mean that nothing was published, and published records carry the version. */
  ghost predicate Kept(w: World) {
    && OneVersion(w)
    && (!w.bundle.status.PinsVersion() ==> NothingPublished(w.records))
    && (w.bundle.version == Some("") ==> NothingPublished(w.records))
    && (forall a, b :: a in w.publishers && b in w.publishers ==> a == b)
    && (forall id :: id in w.publishers ==> PublisherHolds(w, w.publishers[id]))
  }

  lemma NoneAtVersionMeansNone(w: World, version: string)
    requires OneVersion(w) && (w.bundle.version == Some(version) || w.bundle.version == None)
    ensures PublishedAt(w.records, version) == 0 ==> NothingPublished(w.records)
  {
    if PublishedAt(w.records, version) == 0 {
      forall c, v | 0 <= c < |w.records|
        ensures !IsPublished(w.records[c], v)
      {
        assert !IsPublished(w.records[c], version);
      }
    }
  }

  lemma StartKept(w: World, step: Step)
    requires Kept(w) && Possible(w, step) && Orderly(w, step) && step.Start?
    ensures Kept(Next(w, step)) && VersionStands(w, step)
  {
    hide PublishedAt;
    if w.bundle.version == None {
      assert NothingPublished(w.records);
    }
    StepKeepsOneVersionIff(w, step);
    assert PublisherHolds(Next(w, step), Next(w, step).publishers[step.id]);
  }

  lemma StepKept(w: World, step: Step)
    requires Kept(w) && Possible(w, step) && Orderly(w, step)
    ensures Kept(Next(w, step)) && VersionStands(w, step)
  {
    if step.Start? {
      StartKept(w, step);
      return;
    } else if step.Close? {
      NoneAtVersionMeansNone(w, w.publishers[step.id].version);
    } else if step.Sweep? {
      NoneAtVersionMeansNone(w, w.bundle.version.GetOr(""));
    }
    StepKeepsOneVersionIff(w, step);
    OnlyReachedPublishes(w, step);
    hide PublishedAt;
    if step.Claim? || step.Settle? || step.Skip? || step.Close? {
      assert PublisherHolds(w, w.publishers[step.id]);
    }
  }

  ghost predicate PublishedGrows(before: seq<Records>, after: seq<Records>) {
    && |before| == |after|
    && forall c, v :: 0 <= c < |before| && IsPublished(before[c], v) ==> IsPublished(after[c], v)
  }

  lemma StepGrows(w: World, step: Step)
    requires Kept(w) && Possible(w, step) && Orderly(w, step)
    ensures PublishedGrows(w.records, Next(w, step).records)
  {
    hide PublishedAt;
    if step.Settle? {
      assert PublisherHolds(w, w.publishers[step.id]);
    }
  }

  predicate OrderlyRun(w: World, steps: seq<Step>)
    decreases |steps|
  {
    steps == [] || (Possible(w, steps[0]) && Orderly(w, steps[0]) && OrderlyRun(Next(w, steps[0]), steps[1..]))
  }

  /** Over all orderly runs of publish, partial failure, crash, sweep and publishing again: the published
      records carry the bundle's version, they only grow in number, and once there is one the status is
      never FAILED. */
  lemma {:induction false} OneVersionPerBundle(w: World, steps: seq<Step>)
    requires Kept(w) && OrderlyRun(w, steps)
    ensures PossibleRun(w, steps) && AlwaysOneVersion(w, steps)
    ensures var end := RunTo(w, steps);
            && Kept(end) && PublishedGrows(w.records, end.records)
            && (!NothingPublished(w.records) ==> end.bundle.status.PinsVersion())
    decreases |steps|
  {
    if steps != [] {
      hide Next, Possible, VersionStands, Orderly;
      StepKept(w, steps[0]);
      StepGrows(w, steps[0]);
      var w' := Next(w, steps[0]);
      if !NothingPublished(w.records) {
        var c, v :| 0 <= c < |w.records| && IsPublished(w.records[c], v);
        assert IsPublished(w'.records[c], v);
      }
      hide Kept, OneVersion;
      OneVersionPerBundle(w', steps[1..]);
    } else {
      hide OneVersion;
    }
  }

  /** A bundle as it is created: never published, no records. */
  function NewBundle(components: nat): World {
    World(Bundle(NotPublished, None), seq(components, _ => map[]), map[])
  }

  lemma NewBundleKept(components: nat)
    ensures Kept(NewBundle(components))
  {
  }

  /** From a new bundle, over all orderly runs: what is published of its components is one version, the
      bundle's, and the status admits it. */
  lemma NewBundleHasOneVersion(components: nat, steps: seq<Step>)
    requires OrderlyRun(NewBundle(components), steps)
    ensures PossibleRun(NewBundle(components), steps) && AlwaysOneVersion(NewBundle(components), steps)
    ensures var end := RunTo(NewBundle(components), steps);
            && |end.records| == components
            && (forall c, v {:trigger IsPublished(end.records[c], v)} :: 0 <= c < components && IsPublished(end.records[c], v) ==>
                  end.bundle.version == Some(v) && end.bundle.status.PinsVersion())
            && (forall a, b, u, v ::
                  (0 <= a < components && 0 <= b < components && IsPublished(end.records[a], u) && IsPublished(end.records[b], v)) ==>
                    u == v)
  {
    NewBundleKept(components);
    OneVersionPerBundle(NewBundle(components), steps);
    hide RunTo, PossibleRun, OrderlyRun, AlwaysOneVersion, IsPublished, PublisherHolds;
  }

  // ---------------------------------------------------------------- the two verdicts

  /** A bundle of which every component publishes gets one verdict from both; otherwise they differ exactly
      when something is published and it is all that publishes, or all there is. */
  lemma VerdictsAgreeIff(records: seq<Records>, version: string, publishing: seq<nat>)
    requires Publishes(publishing, |records|)
    ensures |publishing| <= |records|
    ensures Aggregate(PublishedAt(records, version), |publishing|) == Recovered(PublishedAt(records, version), |records|) <==>
            (|| |publishing| == |records|
             || (forall c :: 0 <= c < |records| ==> !IsPublished(records[c], version))
             || (PublishedAt(records, version) != |publishing| && exists c :: 0 <= c < |records| && !IsPublished(records[c], version)))
  {
    IncreasingFits(publishing, |records|);
  }

  lemma {:induction false} IncreasingFits(publishing: seq<nat>, components: nat)
    requires Publishes(publishing, components)
    ensures |publishing| <= components
  {
    forall k | 0 <= k < |publishing|
      ensures publishing[k] >= k
    {
      AtLeastIndex(publishing, components, k);
    }
    assert publishing[|publishing| - 1] >= |publishing| - 1;
  }

  lemma {:induction false} AtLeastIndex(publishing: seq<nat>, components: nat, k: nat)
    requires Publishes(publishing, components) && k < |publishing|
    ensures publishing[k] >= k
  {
    if k > 0 {
      AtLeastIndex(publishing, components, k - 1);
    }
  }

  // ---------------------------------------------------------------- why the premises are needed

  /** Two publishers that both read the bundle before either started: one bundle, two versions. */
  lemma OverlappingPublishersSplitVersions(first: string, second: string)
    requires first != second && first != "" && second != ""
    ensures var blank := Bundle(NotPublished, None);
            var w0 := World(blank, [map[]], map[]);
            var s1, s2, s3, s4 := Start(1, blank, first, [0]), Start(2, blank, second, [0]), Claim(1, None), Settle(1, true);
            && Possible(w0, s1) && var w1 := Next(w0, s1);
            && Possible(w1, s2) && var w2 := Next(w1, s2);
            && Possible(w2, s3) && var w3 := Next(w2, s3);
            && Possible(w3, s4) && var w4 := Next(w3, s4);
            && IsPublished(w4.records[0], first) && w4.bundle.version == Some(second) && !OneVersion(w4)
  {
    var blank := Bundle(NotPublished, None);
    var w0 := World(blank, [map[]], map[]);
    var w1 := Next(w0, Start(1, blank, first, [0]));
    var w2 := Next(w1, Start(2, blank, second, [0]));
    var w3 := Next(w2, Claim(1, None));
    assert w3.publishers[1] == Publisher(first, 1, [0], true);
    var w4 := Next(w3, Settle(1, true));
    assert IsPublished(w4.records[0], first);
  }

  /** A sweep that does not wait calls a bundle FAILED whose component is just being published. */
  lemma EarlySweepFailsPublishedBundle(version: string)
    requires version != ""
    ensures var w := World(Bundle(Publishing, Some(version)), [map[version := P.Publishing]],
        map[1 := Publisher(version, 1, [0], true)]);
            && Kept(w) && Possible(w, Sweep) && var swept := Next(w, Sweep);
            && Possible(swept, Settle(1, true)) && var after := Next(swept, Settle(1, true));
            && after.bundle.status == Failed && IsPublished(after.records[0], version)
  {
    var w := World(Bundle(Publishing, Some(version)), [map[version := P.Publishing]], map[1 := Publisher(version, 1, [0], true)]);
    assert PublishedAt(w.records, version) == 0;
  }
}
