/** Drone builds, and the pure questions the controller asks about them. */
module Drone {
  import opened Base

  datatype BuildStep = BuildStep(name: string, status: string)

  datatype BuildStage = BuildStage(name: string, status: string, steps: seq<BuildStep>)

  /** A build as Drone reports it; `status` is already lower-cased on arrival. */
  datatype Build = Build(
    number: int,
    status: string,
    event: string,
    parent: Option<int>,
    target: Option<string>,
    branch: string,
    commit: string,
    stages: seq<BuildStage>)
  {
    predicate IsPromotable() {
      status == "success" && event == "push"
    }

    predicate IsPromotionOf(source: int, destination: string) {
      && event in {"promote", "promotion"}
      && target.GetOr("") == destination
      && parent == Some(source)
    }
  }

  // ---------------------------------------------------------------- which build is adopted

  function Promotions(builds: seq<Build>, source: int, target: string): (found: seq<Build>)
    ensures forall b :: b in found <==> b in builds && b.IsPromotionOf(source, target)
  {
    if builds == [] then []
    else (if builds[0].IsPromotionOf(source, target) then [builds[0]] else [])
         + Promotions(builds[1..], source, target)
  }

  /** The first element carrying the greatest number, as Python's `max` picks it. */
  function Newest(builds: seq<Build>): (b: Build)
    requires builds != []
    ensures b in builds
    ensures forall other :: other in builds ==> other.number <= b.number
  {
    if |builds| == 1 then builds[0]
    else
      var rest := Newest(builds[1..]);
      if builds[0].number >= rest.number then builds[0] else rest
  }

  function FindPromotionBuild(listed: seq<Build>, source: int, target: string): (found: Option<Build>)
    ensures found == None <==> forall b :: b in listed ==> !b.IsPromotionOf(source, target)
    ensures found.Some? ==>
              && found.value in listed
              && found.value.IsPromotionOf(source, target)
              && forall b :: b in listed && b.IsPromotionOf(source, target) ==> b.number <= found.value.number
  {
    var candidates := Promotions(listed, source, target);
    if candidates == [] then
      assert forall b :: b in listed && b.IsPromotionOf(source, target) ==> b in candidates;
      None
    else Some(Newest(candidates))
  }

  // ---------------------------------------------------------------- stage verification

  function StagesNamed(stages: seq<BuildStage>, name: string): (found: seq<BuildStage>)
    ensures forall s :: s in found <==> s in stages && s.name == name
  {
    if stages == [] then []
    else (if stages[0].name == name then [stages[0]] else []) + StagesNamed(stages[1..], name)
  }

  /** What one required stage must look like: present once, successful, and, for a
      deployment, with a real step that ran and no step that failed. */
  predicate StageVerified(build: Build, name: string, deployment: bool) {
    var matches := StagesNamed(build.stages, name);
    && |matches| == 1
    && matches[0].status == "success"
    && (deployment ==>
          && (exists s :: s in matches[0].steps && s.status == "success" && s.name != "clone")
          && (forall s :: s in matches[0].steps ==> s.status in {"success", "skipped"}))
  }

  predicate AllVerified(build: Build, names: seq<string>, deployment: bool) {
    names == [] || (StageVerified(build, names[0], deployment) && AllVerified(build, names[1..], deployment))
  }

  predicate StagesSucceeded(build: Build, names: seq<string>, deployment: bool) {
    names != [] && AllVerified(build, names, deployment)
  }

  /** The verdict is the conjunction over the required names, and never vacuous. */
  lemma {:induction false} StagesSucceededMeans(build: Build, names: seq<string>, deployment: bool)
    ensures StagesSucceeded(build, names, deployment) <==>
            names != [] && forall name :: name in names ==> StageVerified(build, name, deployment)
  {
    AllVerifiedMeans(build, names, deployment);
  }

  lemma {:induction false} AllVerifiedMeans(build: Build, names: seq<string>, deployment: bool)
    ensures AllVerified(build, names, deployment) <==>
            forall name :: name in names ==> StageVerified(build, name, deployment)
  {
    if names != [] {
      AllVerifiedMeans(build, names[1..], deployment);
      assert forall name :: name in names <==> name == names[0] || name in names[1..];
    }
  }

  /** Repeating a stage in the pipeline never helps: two stages of one required name reject the build. */
  lemma DuplicateStageIsRejected(build: Build, names: seq<string>, deployment: bool, i: nat, j: nat)
    requires i < j < |build.stages|
    requires build.stages[i].name == build.stages[j].name
    requires build.stages[i].name in names
    ensures !StagesSucceeded(build, names, deployment)
  {
    StagesSucceededMeans(build, names, deployment);
    TwoMatches(build.stages, build.stages[i].name, i, j);
  }

  lemma {:induction false} TwoMatches(stages: seq<BuildStage>, name: string, i: nat, j: nat)
    requires i < j < |stages| && stages[i].name == name == stages[j].name
    ensures |StagesNamed(stages, name)| >= 2
  {
    if i == 0 {
      assert stages[j] == stages[1..][j - 1];
      assert stages[j] in stages[1..];
      assert stages[j] in StagesNamed(stages[1..], name);
    } else {
      TwoMatches(stages[1..], name, i - 1, j - 1);
    }
  }

  // ---------------------------------------------------------------- the same, on the build's own columns

  /** Place i, and no other, holds a stage of that name. */
  predicate OnlyAt(stages: seq<BuildStage>, name: string, i: nat) {
    && i < |stages| && stages[i].name == name
    && forall j :: 0 <= j < |stages| && stages[j].name == name ==> j == i
  }

  /** A successful stage; for a deployment a step other than the clone has succeeded in it, and every step has
      succeeded or was skipped. */
  predicate WentWell(stage: BuildStage, deployment: bool) {
    && stage.status == "success"
    && (deployment ==>
          && (exists s :: s in stage.steps && s.status == "success" && s.name != "clone")
          && (forall s :: s in stage.steps ==> s.status == "success" || s.status == "skipped"))
  }

  predicate Shows(build: Build, name: string, deployment: bool) {
    exists i :: 0 <= i < |build.stages| && OnlyAt(build.stages, name, i) && WentWell(build.stages[i], deployment)
  }

  lemma {:induction false} NoMatch(stages: seq<BuildStage>, name: string)
    requires forall j :: 0 <= j < |stages| ==> stages[j].name != name
    ensures StagesNamed(stages, name) == []
  {
    if stages != [] {
      NoMatch(stages[1..], name);
    }
  }

  lemma {:induction false} OneMatch(stages: seq<BuildStage>, name: string, i: nat)
    requires OnlyAt(stages, name, i)
    ensures StagesNamed(stages, name) == [stages[i]]
  {
    assert forall j :: 0 <= j < |stages[1..]| ==> stages[1..][j] == stages[j + 1];
    if i == 0 {
      NoMatch(stages[1..], name);
    } else {
      assert stages[0].name != name;
      OneMatch(stages[1..], name, i - 1);
    }
  }

  lemma SoleMatch(stages: seq<BuildStage>, name: string) returns (i: nat)
    requires |StagesNamed(stages, name)| == 1
    ensures OnlyAt(stages, name, i)
  {
    assert StagesNamed(stages, name)[0] in StagesNamed(stages, name);
    i :| 0 <= i < |stages| && stages[i].name == name;
    forall j | 0 <= j < |stages| && stages[j].name == name
      ensures j == i
    {
      if j != i {
        TwoMatches(stages, name, if i < j then i else j, if i < j then j else i);
      }
    }
  }

  lemma StageVerifiedIff(build: Build, name: string, deployment: bool)
    ensures StageVerified(build, name, deployment) <==> Shows(build, name, deployment)
  {
    if StageVerified(build, name, deployment) {
      var i := SoleMatch(build.stages, name);
      OneMatch(build.stages, name, i);
      hide OnlyAt, StagesNamed;
      assert WentWell(build.stages[i], deployment);
    }
    if Shows(build, name, deployment) {
      var i :| 0 <= i < |build.stages| && OnlyAt(build.stages, name, i) && WentWell(build.stages[i], deployment);
      OneMatch(build.stages, name, i);
      hide OnlyAt, StagesNamed, Shows;
    }
  }

  /** The build promotes that source build to that target. */
  predicate Promotes(build: Build, source: int, destination: string) {
    && (build.event == "promote" || build.event == "promotion")
    && build.parent.Some? && build.parent.value == source
    && (if build.target.Some? then build.target.value == destination else destination == "")
  }

  /** It does so on that commit and shows every required stage, of which there is one. */
  predicate Fulfils(build: Build, source: int, destination: string, commit: string, required: seq<string>) {
    && Promotes(build, source, destination) && build.commit == commit
    && required != [] && forall name :: name in required ==> Shows(build, name, true)
  }

  /** What the service asks of a promotion build, and of a listed one, is exactly that. */
  lemma FulfilsIff(build: Build, source: int, destination: string, commit: string, required: seq<string>)
    ensures build.IsPromotionOf(source, destination) <==> Promotes(build, source, destination)
    ensures build.IsPromotionOf(source, destination) && build.commit == commit && StagesSucceeded(build, required, true) <==>
            Fulfils(build, source, destination, commit, required)
  {
    StagesSucceededMeans(build, required, true);
    forall name
      ensures StageVerified(build, name, true) <==> Shows(build, name, true)
    {
      StageVerifiedIff(build, name, true);
    }
    hide StageVerified, Shows, StagesSucceeded;
  }
}
