/** What a CI job comes to, case by case and column by column: accepted builds, dispatched deployments, and the
    verdict on the deployment it follows. */
module CiOutcomes {
  import opened Base
  import opened Drone
  import opened CiInbox
  import R = Rows

  // ---------------------------------------------------------------- following a deployment

  /** A run's verdict on the deployment it looked at: a success stands exactly when the promotion build is read back
      and is the job's promotion, on its commit, with every required stage; an unreadable build is waited for until
      the deployment's timeout; a failed or cancelled deployment fails the job with the code it maps to; anything
      else is still at work.  Only this job changes, and only in status, code and log. */
  lemma TrackMeans(w: World, j: nat, back: ReadBack)
    requires Possible(w, Track(j, back))
    ensures var w' := Next(w, Track(j, back));
            && |w'.jobs| == |w.jobs| && (forall i :: 0 <= i < |w.jobs| && i != j ==> w'.jobs[i] == w.jobs[i])
            && w'.intents == w.intents && w'.sent == w.sent && w'.looks == w.looks - {j}
            && FollowedTo(w.jobs[j], w'.jobs[j], w.looks[j], back)
            && (w'.jobs[j].status == Success <==>
                  w.looks[j].status == R.Status.Success && back.ReadBackFound? && Proven(w.jobs[j], back.build))
            && (w'.jobs[j].status == Deploying <==>
                  if w.looks[j].status == R.Status.Success then back.ReadBackFailed? && !back.late
                  else w.looks[j].status != R.Status.Failed && w.looks[j].status != R.Status.Cancelled)
  {
    FollowedMeans(w.jobs[j], w.looks[j], back);
    hide Followed, Proven;
  }

  // ---------------------------------------------------------------- before the deployment exists

  predicate Hexadecimal(s: string) {
    forall c :: c in s ==> '0' <= c <= '9' || 'a' <= c <= 'f' || 'A' <= c <= 'F'
  }

  predicate FullSha(s: string) {
    (|s| == 40 || |s| == 64) && Hexadecimal(s)
  }

  /** The component is where the job recorded it, and no override sends it elsewhere. */
  predicate StillThere(job: Job, live: Live) {
    && live.owner == job.owner && live.repository == job.repository && live.connection == job.connection
    && (live.targetOverride == None || live.targetOverride == Some("") || live.targetOverride == Some(job.target))
  }

  /** The source build shows every required source stage, of which there is one. */
  predicate SourceShown(job: Job, build: Build) {
    job.sourceStages != [] && forall name :: name in job.sourceStages ==> Shows(build, name, false)
  }

  lemma SourceShownIff(job: Job, build: Build)
    ensures StagesSucceeded(build, job.sourceStages, false) <==> SourceShown(job, build)
  {
    StagesSucceededMeans(build, job.sourceStages, false);
    forall name
      ensures StageVerified(build, name, false) <==> Shows(build, name, false)
    {
      StageVerifiedIff(build, name, false);
    }
    hide StageVerified, Shows, StagesSucceeded;
  }

  predicate Holds(intent: Intent, job: Job) {
    && intent.slot == R.Slot(job.connection, job.owner, job.repository, job.source, job.target)
    && (intent.status == R.Status.Waiting || intent.status == R.Status.Promoting
        || intent.status == R.Status.Deploying || intent.status == R.Status.Success)
  }

  predicate HeldBy(intents: seq<Intent>, job: Job, holder: Option<nat>) {
    match holder
    case None => forall d :: 0 <= d < |intents| ==> !Holds(intents[d], job)
    case Some(d) => d < |intents| && Holds(intents[d], job)
  }

  lemma HolderIsHeldBy(intents: seq<Intent>, job: Job)
    ensures HeldBy(intents, job, ActiveIntent(intents, job.Slot()))
  {
    var holder := ActiveIntent(intents, job.Slot());
    if holder == None {
      forall d | 0 <= d < |intents|
        ensures !Holds(intents[d], job)
      {
        assert intents[d].slot == job.Slot() ==> !intents[d].status.Active();
      }
    }
  }

  /** A verified source build: a new deployment in the token's name where the slot is free, otherwise the one that holds
      it, if that one has not left in the meantime and is for the same commit and branch. */
  predicate DispatchedTo(w: World, w': World, j: nat, build: Build, vanished: bool, holder: Option<nat>)
    requires j < |w.jobs| && |w'.jobs| == |w.jobs|
  {
    var job, after := w.jobs[j], w'.jobs[j];
    HeldBy(w.intents, job, holder) &&
    match holder
    case None =>
      && w'.intents == w.intents + [Intent(R.Slot(job.connection, job.owner, job.repository, job.source, job.target),
                                           build.commit, job.branch, "ci-token:" + job.token, Some(job.promotionStages),
                                           R.Status.Waiting, None, Some(j))]
      && Ends(job.(commit := Some(build.commit), deployment := Some(|w.intents|)), after, Deploying, None)
    case Some(d) =>
      && w'.intents == w.intents
      && (if vanished then after == job
          else if w.intents[d].commit != build.commit || w.intents[d].branch != job.branch
          then Ends(job, after, Failed, Some(ExistingDeploymentMismatch))
          else Ends(job.(commit := Some(build.commit), deployment := Some(d)), after, Deploying, None))
  }

  /** The verdict on a build that was found. */
  predicate ExaminedAs(job: Job, build: Build, ended: int, gate: Gate) {
    if build.number != job.source || build.event != "push" || build.branch != job.branch then gate == Refuse(SourceIdentityRejected)
    else if build.status == "pending" || build.status == "running" || build.status == "blocked" || build.status == "waiting" then
      gate == Hold(None)
    else if build.status != "success" then gate == Refuse(SourceBuildFailed)
    else if !FullSha(build.commit) || !SourceShown(job, build) then gate == Refuse(SourceStagesRejected)
    else if job.deadline <= ended then gate == Refuse(SourceWaitTimeout)
    else gate == Pass(build)
  }

  /** The checks before a build is looked at. */
  predicate Entered(job: Job, seen: Sighting) {
    && job.deadline > seen.began && seen.tokenActive && seen.live.active && !seen.live.archived && StillThere(job, seen.live)
    && seen.repository == RepositoryFound(job.owner, job.repository, job.owner + "/" + job.repository)
  }

  /** The verdict of a run on what it saw, check by check in the service's order. */
  predicate JudgedAs(job: Job, seen: Sighting, gate: Gate) {
    if job.deadline <= seen.began then gate == Refuse(SourceWaitTimeout)
    else if !seen.tokenActive then gate == Refuse(TokenInactive)
    else if seen.live.archived || !seen.live.active then gate == Refuse(ComponentDisabled)
    else if !StillThere(job, seen.live) then gate == Refuse(ConfigurationChanged)
    else if seen.repository.RepositoryMissing? then gate == Refuse(SourceBuildNotFound)
    else if seen.repository.RepositoryUnavailable? then gate == Hold(Some(SourceUpstreamUnavailable))
    else if !Entered(job, seen) then gate == Refuse(SourceRepositoryMismatch)
    else
      match seen.build
      case BuildMissing => gate == Refuse(SourceBuildNotFound)
      case BuildUnavailable => gate == Hold(Some(SourceUpstreamUnavailable))
      case BuildFound(build) => ExaminedAs(job, build, seen.ended, gate)
  }

  lemma BuildGateMeans(job: Job, build: Build, ended: int)
    ensures ExaminedAs(job, build, ended, BuildGate(job, build, ended))
  {
    SourceShownIff(job, build);
    hide SourceShown, StagesSucceeded;
  }

  /** The gate, for everything a run may see. */
  lemma SourceGateMeans(job: Job, seen: Sighting)
    ensures JudgedAs(job, seen, SourceGate(job, seen))
    ensures EntryGate(job, seen) == None && seen.build.BuildFound? <==> Entered(job, seen) && seen.build.BuildFound?
  {
    if seen.build.BuildFound? {
      BuildGateMeans(job, seen.build.build, seen.ended);
    }
    hide ExaminedAs, BuildGate;
  }

  /** A full object name of a build that was looked at is recorded, whatever becomes of the build. */
  predicate Noted(job: Job, seen: Sighting, noted: Job) {
    noted == if Entered(job, seen) && seen.build.BuildFound? && FullSha(seen.build.build.commit)
             then job.(commit := Some(seen.build.build.commit)) else job
  }

  lemma CommitIsNoted(job: Job, seen: Sighting)
    ensures Noted(job, seen, WithCommit(job, seen))
  {
    SourceGateMeans(job, seen);
    hide EntryGate, Entered, JudgedAs, SourceGate;
  }

  /** What a run makes of a waiting job: a refusal ends it, a wait keeps it waiting, a verified build dispatches it. */
  predicate AdvancedTo(w: World, w': World, j: nat, seen: Sighting, gate: Gate, noted: Job, holder: Option<nat>)
    requires j < |w.jobs| && |w'.jobs| == |w.jobs|
  {
    && JudgedAs(w.jobs[j], seen, gate) && Noted(w.jobs[j], seen, noted)
    && match gate
       case Refuse(code) => w'.intents == w.intents && Ends(noted, w'.jobs[j], Failed, Some(code))
       case Hold(code) => w'.intents == w.intents && Ends(noted, w'.jobs[j], WaitingSource, code)
       case Pass(build) => DispatchedTo(w, w', j, build, seen.vanished, holder)
  }

  lemma PassMeans(w: World, j: nat, seen: Sighting, build: Build)
    requires j < |w.jobs| && SourceGate(w.jobs[j], seen) == Pass(build)
    requires build.number == w.jobs[j].source && build.branch == w.jobs[j].branch && StillThere(w.jobs[j], seen.live)
    ensures |Advanced(w, j, seen).jobs| == |w.jobs|
    ensures DispatchedTo(w, Advanced(w, j, seen), j, build, seen.vanished, ActiveIntent(w.intents, w.jobs[j].Slot()))
  {
    var job, after := w.jobs[j], Advanced(w, j, seen).jobs[j];
    HolderIsHeldBy(w.intents, job);
    MovedEnds(job, after.status, after.code);
    MovedEnds(job.(commit := Some(build.commit), deployment := after.deployment), after.status, after.code);
    hide SourceGate, HeldBy, ActiveIntent, Moved, Ends, StillThere;
  }

  /** So does every run of a waiting job, and it touches no other job. */
  lemma AdvanceMeans(w: World, j: nat, seen: Sighting) returns (gate: Gate, noted: Job, holder: Option<nat>)
    requires Possible(w, Advance(j, seen))
    ensures var w' := Next(w, Advance(j, seen));
            && |w'.jobs| == |w.jobs| && (forall i :: 0 <= i < |w.jobs| && i != j ==> w'.jobs[i] == w.jobs[i])
            && w'.sent == w.sent && w'.looks == w.looks && w'.verified == w.verified
            && AdvancedTo(w, w', j, seen, gate, noted, holder)
  {
    var job := w.jobs[j];
    gate, noted, holder := SourceGate(job, seen), WithCommit(job, seen), ActiveIntent(w.intents, job.Slot());
    SourceGateMeans(job, seen);
    CommitIsNoted(job, seen);
    AdvanceHasEffect(w, j, seen);
    if gate.Pass? {
      PassMeans(w, j, seen, gate.build);
    } else if gate.Refuse? {
      MovedEnds(noted, Failed, Some(gate.code));
    } else {
      MovedEnds(noted, WaitingSource, gate.reason);
    }
    hide SourceGate, WithCommit, JudgedAs, Noted, DispatchedTo, Ends, Moved, ActiveIntent, AdvanceEffect;
  }

  // ---------------------------------------------------------------- the dispatch guard

  /** The job's token is active, its deadline open, and its component in use where the job recorded it. */
  predicate MayDispatch(job: Job, m: Moment) {
    job.token in m.activeTokens && job.deadline > m.now && m.live.active && !m.live.archived && StillThere(job, m.live)
  }

  /** A request leaves exactly when no job is linked to the deployment, or the deployment is not in the name of the
      looked-up job's token, or that job may still dispatch. */
  lemma PostLeavesIff(w: World, step: Step)
    requires Possible(w, step) && step.Post?
    ensures Next(w, step) ==
            if || step.picked == None
               || w.intents[step.id].requestedBy != "ci-token:" + w.jobs[step.picked.value].token
               || MayDispatch(w.jobs[step.picked.value], step.moment)
            then w.(sent := w.sent + [Request(step.id, step.moment)]) else w
  {
  }

  /** Over every run in which no two jobs want one slot: when a request of a deployment a job created left, that job's
      token was active, its deadline open and its component in use where the job recorded it. */
  lemma SentRequestsMayLeave(steps: seq<Step>, k: nat)
    requires PossibleRun(EMPTY, steps) && SlotsExclusive(RunTo(EMPTY, steps).jobs)
    requires k < |RunTo(EMPTY, steps).sent|
    ensures var w := RunTo(EMPTY, steps);
            var request := w.sent[k];
            request.intent < |w.intents| && w.intents[request.intent].creator.Some? ==>
              w.intents[request.intent].creator.value < |w.jobs|
              && MayDispatch(w.jobs[w.intents[request.intent].creator.value], request.moment)
  {
    DispatchIsNeverUnchecked(steps, k);
    hide RunTo, PossibleRun, SlotsExclusive;
  }
}
