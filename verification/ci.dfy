/** The CI inbox: what a job needs before it may create or adopt a deployment, what it follows afterwards,
    and the guard that stands before every promote request of a deployment it created. */
module CiInbox {
  import opened Base
  import opened Drone
  import R = Rows

  datatype JobStatus = WaitingSource | Deploying | Success | Failed {
    predicate Terminal() {
      Success? || Failed?
    }
  }

  datatype Code =
    | SourceWaitTimeout
    | TokenInactive
    | ComponentDisabled
    | ConfigurationChanged
    | SourceRepositoryMismatch
    | SourceBuildNotFound
    | SourceUpstreamUnavailable
    | SourceIdentityRejected
    | SourceBuildFailed
    | SourceStagesRejected
    | ExistingDeploymentMismatch
    | VerificationTimeout
    | PromotionUpstreamUnavailable
    | PromotionStagesRejected
    | DispatchRejected
    | WorkflowTimeout
    | DeploymentFailed
    | WorkerRetry

  datatype JobEvent = JobEvent(status: JobStatus, code: Option<Code>)

  datatype Job = Job(
    token: string,
    component: string,
    source: int,
    target: string,
    branch: string,
    connection: string,
    owner: string,
    repository: string,
    sourceStages: seq<string>,
    promotionStages: seq<string>,
    deadline: int,
    commit: Option<string>,
    deployment: Option<nat>,
    status: JobStatus,
    code: Option<Code>,
    log: seq<JobEvent>)
  {
    function Slot(): R.Slot {
      R.Slot(connection, owner, repository, source, target)
    }
  }

  /** A deployment as the inbox sees it; `creator` is the job that recorded it, if one did. */
  datatype Intent = Intent(
    slot: R.Slot,
    commit: string,
    branch: string,
    requestedBy: string,
    required: Option<seq<string>>,
    status: R.Status,
    error: Option<R.ErrorCode>,
    creator: Option<nat>)

  function ActorName(token: string): string {
    "ci-token:" + token
  }

  lemma ActorNamesDiffer(a: string, b: string)
    ensures ActorName(a) == ActorName(b) <==> a == b
  {
    assert ActorName(a)[9..] == a && ActorName(b)[9..] == b;
  }

  /** A full hexadecimal SHA-1 or SHA-256 object name. */
  predicate IsSha(s: string) {
    |s| in {40, 64} && forall c :: c in s ==> '0' <= c <= '9' || 'a' <= c <= 'f' || 'A' <= c <= 'F'
  }

  // ---------------------------------------------------------------- a job's own column writes

  /** `transition`: nothing happens, and nothing is logged, unless status or code change. */
  function Moved(job: Job, status: JobStatus, code: Option<Code>): Job {
    if job.status == status && job.code == code then job
    else job.(status := status, code := code, log := job.log + [JobEvent(status, code)])
  }

  // ---------------------------------------------------------------- before the deployment exists

  datatype Live = Live(
    connection: string,
    owner: string,
    repository: string,
    targetOverride: Option<string>,
    active: bool,
    archived: bool)

  datatype RepositoryAnswer =
    | RepositoryFound(owner: string, name: string, slug: string)
    | RepositoryMissing
    | RepositoryUnavailable

  datatype BuildAnswer = BuildFound(build: Build) | BuildMissing | BuildUnavailable

  /** What one run of a waiting job sees: two clock readings, its token, its component, Drone, and whether a
      deployment that refused it the slot had left the slot again when it was looked up. */
  datatype Sighting = Sighting(
    began: int,
    tokenActive: bool,
    live: Live,
    repository: RepositoryAnswer,
    build: BuildAnswer,
    ended: int,
    vanished: bool)

  predicate RoutedAs(job: Job, live: Live) {
    && (live.owner, live.repository, live.connection) == (job.owner, job.repository, job.connection)
    && live.targetOverride.GetOr("") in {"", job.target}
  }

  datatype Gate = Refuse(code: Code) | Hold(reason: Option<Code>) | Pass(build: Build)

  /** What stands before any build is looked at. */
  function EntryGate(job: Job, seen: Sighting): Option<Gate> {
    if job.deadline <= seen.began then Some(Refuse(SourceWaitTimeout))
    else if !seen.tokenActive then Some(Refuse(TokenInactive))
    else if seen.live.archived || !seen.live.active then Some(Refuse(ComponentDisabled))
    else if !RoutedAs(job, seen.live) then Some(Refuse(ConfigurationChanged))
    else
      match seen.repository
      case RepositoryMissing => Some(Refuse(SourceBuildNotFound))
      case RepositoryUnavailable => Some(Hold(Some(SourceUpstreamUnavailable)))
      case RepositoryFound(owner, name, slug) =>
        if (owner, name, slug) != (job.owner, job.repository, job.owner + "/" + job.repository)
        then Some(Refuse(SourceRepositoryMismatch))
        else
          match seen.build
          case BuildMissing => Some(Refuse(SourceBuildNotFound))
          case BuildUnavailable => Some(Hold(Some(SourceUpstreamUnavailable)))
          case BuildFound(_) => None
  }

  const WAITING_BUILD := {"pending", "running", "blocked", "waiting"}

  function BuildGate(job: Job, build: Build, ended: int): Gate {
    if build.number != job.source || build.event != "push" || build.branch != job.branch then Refuse(SourceIdentityRejected)
    else if build.status in WAITING_BUILD then Hold(None)
    else if build.status != "success" then Refuse(SourceBuildFailed)
    else if !IsSha(build.commit) || !StagesSucceeded(build, job.sourceStages, false) then Refuse(SourceStagesRejected)
    else if job.deadline <= ended then Refuse(SourceWaitTimeout)
    else Pass(build)
  }

  function SourceGate(job: Job, seen: Sighting): Gate {
    match EntryGate(job, seen)
    case Some(gate) => gate
    case None => if seen.build.BuildFound? then BuildGate(job, seen.build.build, seen.ended) else Hold(None)
  }

  /** The commit of a looked-at build is kept for the record, whatever becomes of the build. */
  function WithCommit(job: Job, seen: Sighting): Job {
    if EntryGate(job, seen) == None && seen.build.BuildFound? && IsSha(seen.build.build.commit)
    then job.(commit := Some(seen.build.build.commit)) else job
  }

  // ---------------------------------------------------------------- the inbox and the deployments

  /** The deployment of a job as its run has it in hand after refreshing it; reading the promotion build back
      takes a while. */
  datatype Sight = Sight(deployment: nat, status: R.Status, error: Option<R.ErrorCode>)

  /** What a job's success was read from: the deployment as the run had it, and the promotion build. */
  datatype Evidence = Evidence(look: Sight, build: Build)

  /** `looks` are the runs that are reading a build back; `verified` records the evidence of each successful job. */
  datatype World = World(
    jobs: seq<Job>,
    intents: seq<Intent>,
    sent: seq<Request>,
    looks: map<nat, Sight>,
    verified: map<nat, Evidence>)

  function ActiveIntent(intents: seq<Intent>, slot: R.Slot): (found: Option<nat>)
    ensures found.Some? ==> found.value < |intents| && intents[found.value].slot == slot && intents[found.value].status.Active()
    ensures found == None ==> forall d :: 0 <= d < |intents| && intents[d].slot == slot ==> !intents[d].status.Active()
  {
    if intents == [] then None
    else if intents[0].slot == slot && intents[0].status.Active() then Some(0)
    else
      match ActiveIntent(intents[1..], slot)
      case None => None
      case Some(d) => Some(d + 1)
  }

  function CreatedIntent(job: Job, j: nat, build: Build, live: Live): Intent {
    Intent(R.Slot(live.connection, live.owner, live.repository, build.number, job.target), build.commit, build.branch,
           ActorName(job.token), Some(job.promotionStages), R.Status.Waiting, None, Some(j))
  }

  /** A job without a deployment: refuse, hold, create, or adopt the deployment that already holds the slot. */
  function Advanced(w: World, j: nat, seen: Sighting): World
    requires j < |w.jobs|
  {
    var job := w.jobs[j];
    match SourceGate(job, seen)
    case Refuse(code) => w.(jobs := w.jobs[j := Moved(WithCommit(job, seen), Failed, Some(code))])
    case Hold(code) => w.(jobs := w.jobs[j := Moved(WithCommit(job, seen), WaitingSource, code)])
    case Pass(build) =>
      match ActiveIntent(w.intents, job.Slot())
      case None =>
        w.(intents := w.intents + [CreatedIntent(job, j, build, seen.live)],
           jobs := w.jobs[j := Moved(job.(commit := Some(build.commit), deployment := Some(|w.intents|)), Deploying, None)])
      case Some(d) =>
        if seen.vanished then w
        else if w.intents[d].commit != build.commit || w.intents[d].branch != job.branch
        then w.(jobs := w.jobs[j := Moved(job, Failed, Some(ExistingDeploymentMismatch))])
        else w.(jobs := w.jobs[j := Moved(job.(commit := Some(build.commit), deployment := Some(d)), Deploying, None)])
  }

  /** What reading the promotion build back gave; `late` says that the deployment timeout is over. */
  datatype ReadBack = ReadBackFailed(late: bool) | ReadBackFound(build: Build)

  predicate PromotionVerified(job: Job, build: Build) {
    && build.IsPromotionOf(job.source, job.target)
    && Some(build.commit) == job.commit
    && StagesSucceeded(build, job.promotionStages, true)
  }

  function FailureCode(error: Option<R.ErrorCode>): Code {
    match error
    case Some(PromotionStagesRejected) => PromotionStagesRejected
    case Some(CiDispatchRejected) => DispatchRejected
    case Some(WorkflowTimeout) => WorkflowTimeout
    case _ => DeploymentFailed
  }

  function Followed(job: Job, look: Sight, back: ReadBack): Job {
    match look.status
    case Success =>
      (match back
       case ReadBackFailed(late) =>
         if late then Moved(job, Failed, Some(VerificationTimeout)) else Moved(job, Deploying, Some(PromotionUpstreamUnavailable))
       case ReadBackFound(build) =>
         if PromotionVerified(job, build) then Moved(job, Success, None) else Moved(job, Failed, Some(PromotionStagesRejected)))
    case Failed => Moved(job, Failed, Some(FailureCode(look.error)))
    case Cancelled => Moved(job, Failed, Some(FailureCode(look.error)))
    case _ => Moved(job, Deploying, None)
  }

  // ---------------------------------------------------------------- what following comes to, on plain columns

  /** The job is left with that status and code and otherwise as it was; an event is logged exactly if one of the two
      is new. */
  predicate Ends(job: Job, after: Job, status: JobStatus, code: Option<Code>) {
    && after == job.(status := status, code := code, log := after.log)
    && after.log == job.log + if job.status != status || job.code != code then [JobEvent(status, code)] else []
  }

  lemma MovedEnds(job: Job, status: JobStatus, code: Option<Code>)
    ensures Ends(job, Moved(job, status, code), status, code)
  {
    assert job.log + [] == job.log;
  }

  /** The build read back is the job's promotion, on its commit, with every required stage. */
  predicate Proven(job: Job, build: Build) {
    job.commit.Some? && Fulfils(build, job.source, job.target, job.commit.value, job.promotionStages)
  }

  lemma ProvenIff(job: Job, build: Build)
    ensures PromotionVerified(job, build) <==> Proven(job, build)
  {
    FulfilsIff(build, job.source, job.target, build.commit, job.promotionStages);
    hide StagesSucceeded, Promotes, Shows;
  }

  predicate FollowedTo(job: Job, after: Job, look: Sight, back: ReadBack) {
    if look.status == R.Status.Success then
      if back.ReadBackFailed? then
        if back.late then Ends(job, after, Failed, Some(VerificationTimeout))
        else Ends(job, after, Deploying, Some(PromotionUpstreamUnavailable))
      else if Proven(job, back.build) then Ends(job, after, Success, None)
      else Ends(job, after, Failed, Some(PromotionStagesRejected))
    else if look.status == R.Status.Failed || look.status == R.Status.Cancelled then
      Ends(job, after, Failed,
           if look.error == Some(R.ErrorCode.PromotionStagesRejected) then Some(PromotionStagesRejected)
           else if look.error == Some(R.ErrorCode.CiDispatchRejected) then Some(DispatchRejected)
           else if look.error == Some(R.ErrorCode.WorkflowTimeout) then Some(WorkflowTimeout)
           else Some(DeploymentFailed))
    else Ends(job, after, Deploying, None)
  }

  lemma FollowedMeans(job: Job, look: Sight, back: ReadBack)
    ensures FollowedTo(job, Followed(job, look, back), look, back)
  {
    if back.ReadBackFound? {
      ProvenIff(job, back.build);
    }
    var after := Followed(job, look, back);
    MovedEnds(job, after.status, after.code);
    assert after == Moved(job, after.status, after.code);
    hide Moved, Proven, PromotionVerified, Ends;
  }

  function Tracked(w: World, j: nat, look: Sight, back: ReadBack): World
    requires j < |w.jobs|
  {
    var job := Followed(w.jobs[j], look, back);
    w.(jobs := w.jobs[j := job],
       verified := if job.status.Success? && back.ReadBackFound? then w.verified[j := Evidence(look, back.build)] else w.verified)
  }

  /** What refreshing a job's deployment left in its row, and what reading the promotion build back gave. */
  datatype Outlook = Outlook(status: R.Status, error: Option<R.ErrorCode>, back: ReadBack)

  function Driven(w: World, d: nat, status: R.Status, error: Option<R.ErrorCode>): World
    requires d < |w.intents|
  {
    w.(intents := w.intents[d := w.intents[d].(status := status, error := error)])
  }

  /** The refresh of the linked deployment, and what the job makes of it. */
  function Pursued(w: World, j: nat, outlook: Outlook): World
    requires j < |w.jobs| && w.jobs[j].deployment.Some? && w.jobs[j].deployment.value < |w.intents|
  {
    var d := w.jobs[j].deployment.value;
    Tracked(Driven(w, d, outlook.status, outlook.error), j, Sight(d, outlook.status, outlook.error), outlook.back)
  }

  lemma AdvancedLinks(w: World, j: nat, seen: Sighting)
    requires j < |w.jobs| && w.jobs[j].deployment == None
    ensures |Advanced(w, j, seen).jobs| == |w.jobs|
    ensures var job := Advanced(w, j, seen).jobs[j]; job.deployment.Some? ==> job.deployment.value < |Advanced(w, j, seen).intents|
  {
    hide SourceGate;
  }

  /** A whole run of a job: a linked one is pursued, any other is advanced and, once linked, pursued at once. */
  function Worked(w: World, j: nat, seen: Sighting, outlook: Outlook): World
    requires j < |w.jobs| && (w.jobs[j].deployment.Some? ==> w.jobs[j].deployment.value < |w.intents|)
  {
    if w.jobs[j].deployment.Some? then Pursued(w, j, outlook)
    else
      AdvancedLinks(w, j, seen);
      var linked := Advanced(w, j, seen);
      if linked.jobs[j].deployment.Some? then Pursued(linked, j, outlook) else linked
  }

  // ---------------------------------------------------------------- the same steps, in the service's own shape

  class Inbox {
    var jobs: seq<Job>
    var intents: seq<Intent>
    ghost var sent: seq<Request>
    ghost var looks: map<nat, Sight>
    ghost var verified: map<nat, Evidence>

    constructor ()
      ensures Value() == World([], [], [], map[], map[])
    {
      jobs, intents, sent, looks, verified := [], [], [], map[], map[];
    }

    ghost function Value(): World
      reads this
    {
      World(jobs, intents, sent, looks, verified)
    }

    method Transition(j: nat, status: JobStatus, code: Option<Code>)
      requires j < |jobs|
      modifies this
      ensures Value() == old(Value()).(jobs := old(jobs)[j := Moved(old(jobs)[j], status, code)])
    {
      var job := jobs[j];
      if job.status == status && job.code == code {
        return;
      }
      jobs := jobs[j := job.(status := status, code := code, log := job.log + [JobEvent(status, code)])];
    }

    method Work(j: nat, seen: Sighting, outlook: Outlook)
      requires j < |jobs| && (jobs[j].deployment.Some? ==> jobs[j].deployment.value < |intents|)
      modifies this
      ensures Value() == Worked(old(Value()), j, seen, outlook)
    {
      hide Advanced, Tracked;
      if jobs[j].deployment == None {
        AdvancedLinks(Value(), j, seen);
        Advance(j, seen);
      }
      if jobs[j].deployment == None {
        return;
      }
      var d := jobs[j].deployment.value;
      intents := intents[d := intents[d].(status := outlook.status, error := outlook.error)];
      Track(j, Sight(d, outlook.status, outlook.error), outlook.back);
    }

    method Advance(j: nat, seen: Sighting)
      requires j < |jobs|
      modifies this
      ensures Value() == Advanced(old(Value()), j, seen)
    {
      var job := jobs[j];
      if job.deadline <= seen.began {
        Transition(j, Failed, Some(SourceWaitTimeout));
        return;
      }
      if !seen.tokenActive {
        Transition(j, Failed, Some(TokenInactive));
        return;
      }
      if seen.live.archived || !seen.live.active {
        Transition(j, Failed, Some(ComponentDisabled));
        return;
      }
      if !RoutedAs(job, seen.live) {
        Transition(j, Failed, Some(ConfigurationChanged));
        return;
      }
      if seen.repository.RepositoryMissing? {
        Transition(j, Failed, Some(SourceBuildNotFound));
        return;
      }
      if seen.repository.RepositoryUnavailable? {
        Transition(j, WaitingSource, Some(SourceUpstreamUnavailable));
        return;
      }
      if (seen.repository.owner, seen.repository.name, seen.repository.slug)
         != (job.owner, job.repository, job.owner + "/" + job.repository)
      {
        Transition(j, Failed, Some(SourceRepositoryMismatch));
        return;
      }
      if seen.build.BuildMissing? {
        Transition(j, Failed, Some(SourceBuildNotFound));
        return;
      }
      if seen.build.BuildUnavailable? {
        Transition(j, WaitingSource, Some(SourceUpstreamUnavailable));
        return;
      }
      Examine(j, seen);
    }

    method Examine(j: nat, seen: Sighting)
      requires j < |jobs| && EntryGate(jobs[j], seen) == None && seen.build.BuildFound?
      modifies this
      ensures Value() == Advanced(old(Value()), j, seen)
    {
      hide StagesSucceeded, IsSha, ActorName, EntryGate, RoutedAs;
      var job, build := jobs[j], seen.build.build;
      if IsSha(build.commit) {
        jobs := jobs[j := job.(commit := Some(build.commit))];
      }
      if build.number != job.source || build.event != "push" || build.branch != job.branch {
        Transition(j, Failed, Some(SourceIdentityRejected));
        return;
      }
      if build.status in WAITING_BUILD {
        Transition(j, WaitingSource, None);
        return;
      }
      if build.status != "success" {
        Transition(j, Failed, Some(SourceBuildFailed));
        return;
      }
      if !IsSha(build.commit) || !StagesSucceeded(build, job.sourceStages, false) {
        Transition(j, Failed, Some(SourceStagesRejected));
        return;
      }
      if job.deadline <= seen.ended {
        Transition(j, Failed, Some(SourceWaitTimeout));
        return;
      }
      var holder := ActiveIntent(intents, job.Slot());
      if holder == None {
        jobs := jobs[j := jobs[j].(deployment := Some(|intents|))];
        intents := intents + [CreatedIntent(job, j, build, seen.live)];
        Transition(j, Deploying, None);
        return;
      }
      jobs := jobs[j := job];
      if seen.vanished {
        return;
      }
      var existing := intents[holder.value];
      if existing.commit != build.commit || existing.branch != job.branch {
        Transition(j, Failed, Some(ExistingDeploymentMismatch));
        return;
      }
      jobs := jobs[j := job.(commit := Some(build.commit), deployment := holder)];
      Transition(j, Deploying, None);
    }

    method Track(j: nat, deployment: Sight, back: ReadBack)
      requires j < |jobs|
      modifies this
      ensures Value() == Tracked(old(Value()), j, deployment, back)
      ensures |jobs| == |old(jobs)| && FollowedTo(old(jobs)[j], jobs[j], deployment, back)
    {
      FollowedMeans(jobs[j], deployment, back);
      hide FollowedTo;
      var job := jobs[j];
      if deployment.status == R.Status.Success {
        if back.ReadBackFailed? {
          if back.late {
            Transition(j, Failed, Some(VerificationTimeout));
          } else {
            Transition(j, Deploying, Some(PromotionUpstreamUnavailable));
          }
          return;
        }
        if !PromotionVerified(job, back.build) {
          Transition(j, Failed, Some(PromotionStagesRejected));
          return;
        }
        Transition(j, Success, None);
        verified := verified[j := Evidence(deployment, back.build)];
      } else if deployment.status == R.Status.Failed || deployment.status == R.Status.Cancelled {
        Transition(j, Failed, Some(FailureCode(deployment.error)));
      } else {
        Transition(j, Deploying, None);
      }
    }
  }

  // ---------------------------------------------------------------- the dispatch guard

  /** What the guard can see when a request is about to leave: the clock, the tokens that are active, and
      the deployment's component. */
  datatype Moment = Moment(now: int, activeTokens: set<string>, live: Live)

  /** A promote request that left, for deployment `intent`, after the guard looked at `moment`. */
  datatype Request = Request(intent: nat, moment: Moment)

  predicate DispatchCheck(job: Job, m: Moment) {
    && job.token in m.activeTokens
    && job.deadline > m.now
    && !m.live.archived && m.live.active
    && RoutedAs(job, m.live)
  }

  predicate LookupMayReturn(jobs: seq<Job>, d: nat, picked: Option<nat>) {
    match picked
    case None => forall j :: 0 <= j < |jobs| ==> jobs[j].deployment != Some(d)
    case Some(p) => p < |jobs| && jobs[p].deployment == Some(d)
  }

  /** `ci_dispatch_allowed`, with the job its lookup returned. */
  predicate DispatchAllowed(jobs: seq<Job>, intent: Intent, picked: Option<nat>, m: Moment)
    requires picked.Some? ==> picked.value < |jobs|
  {
    || picked == None
    || intent.requestedBy != ActorName(jobs[picked.value].token)
    || DispatchCheck(jobs[picked.value], m)
  }

  // ---------------------------------------------------------------- everything that can happen

  /** `Drive` is whatever any session does to a deployment; `Glance` and `Track` are a run's look at its deployment
      and what it writes from that look; `Stumble` is a run that ended in an exception. */
  datatype Step =
    | Accept(job: Job)
    | Record(intent: Intent)
    | Drive(id: nat, status: R.Status, error: Option<R.ErrorCode>)
    | Advance(id: nat, seen: Sighting)
    | Glance(id: nat)
    | Track(id: nat, back: ReadBack)
    | Stumble(id: nat)
    | Post(id: nat, picked: Option<nat>, moment: Moment)

  predicate Possible(w: World, step: Step) {
    match step
    case Accept(job) => job.deployment == None && job.status == WaitingSource
    case Record(intent) => intent.creator == None
    case Drive(d, _, _) => d < |w.intents|
    case Advance(j, _) => j < |w.jobs| && w.jobs[j].deployment == None && !w.jobs[j].status.Terminal()
    case Glance(j) =>
      && j < |w.jobs| && !w.jobs[j].status.Terminal()
      && w.jobs[j].deployment.Some? && w.jobs[j].deployment.value < |w.intents|
    case Track(j, _) => j < |w.jobs| && !w.jobs[j].status.Terminal() && j in w.looks
    case Stumble(j) => j < |w.jobs| && !w.jobs[j].status.Terminal()
    case Post(d, picked, _) => d < |w.intents| && LookupMayReturn(w.jobs, d, picked)
  }

  function Next(w: World, step: Step): World
    requires Possible(w, step)
  {
    match step
    case Accept(job) => w.(jobs := w.jobs + [job])
    case Record(intent) => w.(intents := w.intents + [intent])
    case Drive(d, status, error) => Driven(w, d, status, error)
    case Advance(j, seen) => Advanced(w, j, seen)
    case Glance(j) =>
      var d := w.jobs[j].deployment.value;
      w.(looks := w.looks[j := Sight(d, w.intents[d].status, w.intents[d].error)])
    case Track(j, back) => Tracked(w, j, w.looks[j], back).(looks := w.looks - {j})
    case Stumble(j) => w.(jobs := w.jobs[j := Moved(w.jobs[j], w.jobs[j].status, Some(WorkerRetry))])
    case Post(d, picked, m) =>
      if DispatchAllowed(w.jobs, w.intents[d], picked, m) then w.(sent := w.sent + [Request(d, m)]) else w
  }

  // ---------------------------------------------------------------- what every run keeps

  predicate Agree(job: Job, intent: Intent) {
    intent.slot == job.Slot() && Some(intent.commit) == job.commit && intent.branch == job.branch
  }

  /** A linked job and its deployment agree. */
  predicate LinksAgree(w: World) {
    forall j :: 0 <= j < |w.jobs| && w.jobs[j].deployment.Some? ==>
      w.jobs[j].deployment.value < |w.intents| && Agree(w.jobs[j], w.intents[w.jobs[j].deployment.value])
  }

  /** A deployment a job created is linked to that job and bears its actor's name. */
  predicate CreatorsLinked(w: World) {
    forall d :: 0 <= d < |w.intents| && w.intents[d].creator.Some? ==>
      var j := w.intents[d].creator.value;
      j < |w.jobs| && w.jobs[j].deployment == Some(d) && w.intents[d].requestedBy == ActorName(w.jobs[j].token)
  }

  predicate LinksHold(w: World) {
    LinksAgree(w) && CreatorsLinked(w)
  }

  predicate SuccessIsVerified(w: World) {
    forall j :: 0 <= j < |w.jobs| && w.jobs[j].status.Success? ==>
      && j in w.verified && w.jobs[j].deployment == Some(w.verified[j].look.deployment)
      && w.verified[j].look.status.Success? && PromotionVerified(w.jobs[j], w.verified[j].build)
  }

  /** A run looks at the deployment its job is linked to. */
  predicate LooksFit(w: World) {
    forall j :: j in w.looks ==> j < |w.jobs| && w.jobs[j].deployment == Some(w.looks[j].deployment)
  }

  /** No two jobs want the same build of the same repository on the same target. */
  predicate SlotsExclusive(jobs: seq<Job>) {
    forall i, j :: 0 <= i < j < |jobs| ==> jobs[i].Slot() != jobs[j].Slot()
  }

  predicate SentChecked(w: World) {
    forall k :: 0 <= k < |w.sent| && w.sent[k].intent < |w.intents| && w.intents[w.sent[k].intent].creator.Some? ==>
      var j := w.intents[w.sent[k].intent].creator.value;
      j < |w.jobs| && DispatchCheck(w.jobs[j], w.sent[k].moment)
  }

  predicate SentKnown(w: World) {
    forall k :: 0 <= k < |w.sent| ==> w.sent[k].intent < |w.intents|
  }

  lemma SlotMeansRoute(job: Job, build: Build, live: Live)
    requires RoutedAs(job, live) && build.number == job.source
    ensures R.Slot(live.connection, live.owner, live.repository, build.number, job.target) == job.Slot()
  {
  }

  /** What the gate lets through was checked: in time, token active, component as recorded, source verified. */
  lemma GatePassedMeans(job: Job, seen: Sighting)
    requires SourceGate(job, seen).Pass?
    ensures var build := SourceGate(job, seen).build;
            && job.deadline > seen.began && job.deadline > seen.ended && seen.tokenActive
            && seen.live.active && !seen.live.archived && RoutedAs(job, seen.live)
            && build.number == job.source && build.branch == job.branch && build.IsPromotable()
            && IsSha(build.commit)
            && job.sourceStages != [] && forall name :: name in job.sourceStages ==> StageVerified(build, name, false)
  {
    StagesSucceededMeans(SourceGate(job, seen).build, job.sourceStages, false);
  }

  /** What a job was accepted with never changes. */
  predicate SameTerms(a: Job, b: Job) {
    a.(commit := b.commit, deployment := b.deployment, status := b.status, code := b.code, log := b.log) == b
  }

  /** One run of a waiting job touches that job alone, never succeeds, and links it to a deployment it
      agrees with: one that was there, or a new one of its own. */
  predicate AdvanceEffect(w: World, w': World, j: nat)
    requires j < |w.jobs|
  {
    && |w'.jobs| == |w.jobs| && (forall i :: 0 <= i < |w.jobs| && i != j ==> w'.jobs[i] == w.jobs[i])
    && w'.sent == w.sent && w'.looks == w.looks && w'.verified == w.verified
    && SameTerms(w.jobs[j], w'.jobs[j]) && !w'.jobs[j].status.Success?
    && (w'.jobs[j].deployment.Some? ==>
          w'.jobs[j].deployment.value < |w'.intents| && Agree(w'.jobs[j], w'.intents[w'.jobs[j].deployment.value]))
    && (|| w'.intents == w.intents
        || (&& w'.jobs[j].deployment == Some(|w.intents|)
            && |w'.intents| == |w.intents| + 1 && w'.intents[..|w.intents|] == w.intents
            && var own := w'.intents[|w.intents|];
               own.creator == Some(j) && own.requestedBy == ActorName(w.jobs[j].token)))
  }

  lemma PassHasEffect(w: World, j: nat, seen: Sighting, build: Build)
    requires Possible(w, Advance(j, seen)) && SourceGate(w.jobs[j], seen) == Pass(build)
    requires CreatedIntent(w.jobs[j], j, build, seen.live).slot == w.jobs[j].Slot() && build.branch == w.jobs[j].branch
    ensures AdvanceEffect(w, Advanced(w, j, seen), j)
  {
    hide SourceGate, ActorName;
  }

  lemma AdvanceHasEffect(w: World, j: nat, seen: Sighting)
    requires Possible(w, Advance(j, seen))
    ensures AdvanceEffect(w, Advanced(w, j, seen), j)
  {
    var gate := SourceGate(w.jobs[j], seen);
    if gate.Pass? {
      GatePassedMeans(w.jobs[j], seen);
      SlotMeansRoute(w.jobs[j], gate.build, seen.live);
      PassHasEffect(w, j, seen, gate.build);
    } else {
      hide SourceGate, EntryGate, IsSha, ActiveIntent;
    }
  }

  lemma EffectKeepsAgreement(w: World, w': World, j: nat)
    requires LinksAgree(w) && j < |w.jobs| && AdvanceEffect(w, w', j)
    ensures LinksAgree(w')
  {
    hide SameTerms, ActorName, Agree;
    assert forall d :: 0 <= d < |w.intents| ==> w'.intents[d] == w.intents[d];
  }

  lemma EffectKeepsCreators(w: World, w': World, j: nat)
    requires CreatorsLinked(w) && j < |w.jobs| && w.jobs[j].deployment == None && AdvanceEffect(w, w', j)
    ensures CreatorsLinked(w')
  {
    hide ActorName, Agree;
    assert forall d :: 0 <= d < |w.intents| ==> w'.intents[d] == w.intents[d];
  }

  lemma AdvanceKeepsLinks(w: World, j: nat, seen: Sighting)
    requires LinksHold(w) && Possible(w, Advance(j, seen))
    ensures LinksHold(Advanced(w, j, seen))
  {
    AdvanceHasEffect(w, j, seen);
    EffectKeepsAgreement(w, Advanced(w, j, seen), j);
    EffectKeepsCreators(w, Advanced(w, j, seen), j);
    hide Advanced, LinksAgree, CreatorsLinked;
  }

  lemma TrackKeepsLinks(w: World, step: Step)
    requires LinksHold(w) && Possible(w, step) && step.Track?
    ensures LinksHold(Next(w, step))
  {
    FollowedKeepsJob(w.jobs[step.id], w.looks[step.id], step.back);
    hide Followed, ActorName;
  }

  lemma StepKeepsLinks(w: World, step: Step)
    requires LinksHold(w) && Possible(w, step)
    ensures LinksHold(Next(w, step))
  {
    if step.Advance? {
      AdvanceKeepsLinks(w, step.id, step.seen);
      hide LinksHold, Advanced;
    } else if step.Track? {
      TrackKeepsLinks(w, step);
    } else {
      hide ActorName, DispatchAllowed, LookupMayReturn;
    }
  }

  /** Only status, code and log of a job move once it is linked. */
  predicate SameIntent(a: Job, b: Job) {
    a.(status := b.status, code := b.code, log := b.log) == b
  }

  lemma FollowedKeepsJob(job: Job, look: Sight, back: ReadBack)
    ensures SameIntent(job, Followed(job, look, back))
    ensures Followed(job, look, back).status.Success? && !job.status.Success? ==>
              look.status.Success? && back.ReadBackFound? && PromotionVerified(job, back.build)
  {
  }

  lemma AdvanceKeepsSuccess(w: World, step: Step)
    requires SuccessIsVerified(w) && LooksFit(w) && Possible(w, step) && step.Advance?
    ensures SuccessIsVerified(Next(w, step)) && LooksFit(Next(w, step))
  {
    AdvanceHasEffect(w, step.id, step.seen);
    hide Advanced, PromotionVerified, ActorName, Agree;
    var after := Next(w, step);
    forall j | 0 <= j < |after.jobs| && after.jobs[j].status.Success?
      ensures after.jobs[j] == w.jobs[j]
    {
    }
  }

  lemma VerifiedStays(a: Job, b: Job, build: Build)
    requires SameIntent(a, b)
    ensures PromotionVerified(a, build) <==> PromotionVerified(b, build)
    ensures a.deployment == b.deployment
  {
  }

  lemma TrackKeepsSuccess(w: World, step: Step)
    requires SuccessIsVerified(w) && LooksFit(w) && Possible(w, step) && step.Track?
    ensures SuccessIsVerified(Next(w, step)) && LooksFit(Next(w, step))
  {
    var job, after := w.jobs[step.id], Followed(w.jobs[step.id], w.looks[step.id], step.back);
    FollowedKeepsJob(job, w.looks[step.id], step.back);
    if step.back.ReadBackFound? {
      VerifiedStays(job, after, step.back.build);
    }
    assert !job.status.Success?;
    hide Followed, SameIntent, PromotionVerified;
  }

  lemma StepKeepsSuccess(w: World, step: Step)
    requires SuccessIsVerified(w) && LooksFit(w) && Possible(w, step)
    ensures SuccessIsVerified(Next(w, step)) && LooksFit(Next(w, step))
  {
    if step.Advance? {
      AdvanceKeepsSuccess(w, step);
    } else if step.Track? {
      TrackKeepsSuccess(w, step);
    } else {
      hide PromotionVerified, DispatchAllowed, LookupMayReturn;
    }
  }

  /** Exclusive jobs leave the guard's lookup no choice: it finds the creator's own job. */
  lemma LookupFindsCreator(w: World, d: nat, picked: Option<nat>)
    requires LinksHold(w) && SlotsExclusive(w.jobs) && d < |w.intents| && w.intents[d].creator.Some?
    requires LookupMayReturn(w.jobs, d, picked)
    ensures picked == w.intents[d].creator
  {
    var c := w.intents[d].creator.value;
    assert w.jobs[c].deployment == Some(d);
    if picked != Some(c) {
      assert w.jobs[picked.value].Slot() == w.intents[d].slot == w.jobs[c].Slot();
    }
  }

  lemma TermsAreFixed(w: World, step: Step)
    requires Possible(w, step)
    ensures |Next(w, step).jobs| >= |w.jobs| && forall j :: 0 <= j < |w.jobs| ==> SameTerms(w.jobs[j], Next(w, step).jobs[j])
    ensures |Next(w, step).intents| >= |w.intents|
    ensures forall d :: 0 <= d < |w.intents| ==> Next(w, step).intents[d].creator == w.intents[d].creator
  {
    hide Advanced, PromotionVerified, DispatchAllowed, LookupMayReturn, ActorName, Agree;
    if step.Advance? {
      AdvanceHasEffect(w, step.id, step.seen);
    }
  }

  lemma TermsKeepChecks(w: World, w': World)
    requires SentKnown(w) && SentChecked(w) && w'.sent == w.sent
    requires |w.jobs| <= |w'.jobs| && forall j :: 0 <= j < |w.jobs| ==> SameTerms(w.jobs[j], w'.jobs[j])
    requires |w.intents| <= |w'.intents| && forall d :: 0 <= d < |w.intents| ==> w'.intents[d].creator == w.intents[d].creator
    ensures SentKnown(w') && SentChecked(w')
  {
    forall k | 0 <= k < |w'.sent| && w'.intents[w'.sent[k].intent].creator.Some?
      ensures w'.intents[w'.sent[k].intent].creator.value < |w'.jobs|
      ensures DispatchCheck(w'.jobs[w'.intents[w'.sent[k].intent].creator.value], w'.sent[k].moment)
    {
      var j := w.intents[w.sent[k].intent].creator.value;
      TermsDecideCheck(w.jobs[j], w'.jobs[j], w.sent[k].moment);
    }
  }

  lemma TermsDecideCheck(a: Job, b: Job, m: Moment)
    requires SameTerms(a, b)
    ensures DispatchCheck(a, m) <==> DispatchCheck(b, m)
  {
  }

  lemma PostKeepsChecks(w: World, step: Step)
    requires LinksHold(w) && SlotsExclusive(w.jobs) && SentKnown(w) && SentChecked(w) && Possible(w, step) && step.Post?
    ensures SentKnown(Next(w, step)) && SentChecked(Next(w, step))
  {
    if w.intents[step.id].creator.Some? {
      LookupFindsCreator(w, step.id, step.picked);
    }
    hide SlotsExclusive, LookupMayReturn, DispatchCheck, ActorName, Agree;
  }

  lemma StepKeepsChecks(w: World, step: Step)
    requires LinksHold(w) && SlotsExclusive(w.jobs) && SentKnown(w) && SentChecked(w) && Possible(w, step)
    ensures SentKnown(Next(w, step)) && SentChecked(Next(w, step))
  {
    if step.Post? {
      PostKeepsChecks(w, step);
    } else {
      TermsAreFixed(w, step);
      SentIsKept(w, step);
      TermsKeepChecks(w, Next(w, step));
    }
  }

  lemma SentIsKept(w: World, step: Step)
    requires Possible(w, step) && !step.Post?
    ensures Next(w, step).sent == w.sent
  {
    if step.Advance? {
      AdvanceHasEffect(w, step.id, step.seen);
    }
    hide Advanced, Followed, PromotionVerified;
  }

  predicate PossibleRun(w: World, steps: seq<Step>)
    decreases |steps|
  {
    steps == [] || (Possible(w, steps[0]) && PossibleRun(Next(w, steps[0]), steps[1..]))
  }

  function RunTo(w: World, steps: seq<Step>): World
    requires PossibleRun(w, steps)
    decreases |steps|
  {
    if steps == [] then w else RunTo(Next(w, steps[0]), steps[1..])
  }

  lemma {:induction false} RunKeeps(w: World, steps: seq<Step>)
    requires LinksHold(w) && SuccessIsVerified(w) && LooksFit(w) && PossibleRun(w, steps)
    ensures LinksHold(RunTo(w, steps)) && SuccessIsVerified(RunTo(w, steps)) && LooksFit(RunTo(w, steps))
    decreases |steps|
  {
    if steps != [] {
      hide Next, Possible, LinksHold, SuccessIsVerified, LooksFit;
      StepKeepsLinks(w, steps[0]);
      StepKeepsSuccess(w, steps[0]);
      RunKeeps(Next(w, steps[0]), steps[1..]);
    }
  }

  lemma PursuitIsSteps(w: World, j: nat, outlook: Outlook)
    requires j < |w.jobs| && !w.jobs[j].status.Terminal() && j !in w.looks
    requires w.jobs[j].deployment.Some? && w.jobs[j].deployment.value < |w.intents|
    ensures var d := w.jobs[j].deployment.value;
            && Possible(w, Drive(d, outlook.status, outlook.error)) && var driven := Next(w, Drive(d, outlook.status, outlook.error));
            && Possible(driven, Glance(j)) && var glanced := Next(driven, Glance(j));
            && Possible(glanced, Track(j, outlook.back))
            && Pursued(w, j, outlook) == Next(glanced, Track(j, outlook.back))
  {
    var d := w.jobs[j].deployment.value;
    var driven := Driven(w, d, outlook.status, outlook.error);
    var look := Sight(d, outlook.status, outlook.error);
    var glanced := driven.(looks := w.looks[j := look]);
    assert glanced.looks - {j} == w.looks;
    hide Followed;
    assert Tracked(glanced, j, look, outlook.back).(looks := w.looks) == Tracked(driven, j, look, outlook.back);
  }

  /** A run of a job is an advance, whatever refreshing does to the deployment, and a look at the result. */
  lemma WorkIsSteps(w: World, j: nat, seen: Sighting, outlook: Outlook)
    requires j < |w.jobs| && !w.jobs[j].status.Terminal()
    requires j !in w.looks && (w.jobs[j].deployment.Some? ==> w.jobs[j].deployment.value < |w.intents|)
    ensures var start := if w.jobs[j].deployment == None then Next(w, Advance(j, seen)) else w;
            && (w.jobs[j].deployment == None ==> Possible(w, Advance(j, seen)))
            && j < |start.jobs|
            && match start.jobs[j].deployment
               case None => Worked(w, j, seen, outlook) == start
               case Some(d) =>
                 && Possible(start, Drive(d, outlook.status, outlook.error))
                 && var driven := Next(start, Drive(d, outlook.status, outlook.error));
                 && Possible(driven, Glance(j)) && var glanced := Next(driven, Glance(j));
                 && Possible(glanced, Track(j, outlook.back))
                 && Worked(w, j, seen, outlook) == Next(glanced, Track(j, outlook.back))
  {
    if w.jobs[j].deployment == None {
      AdvancedLinks(w, j, seen);
      AdvanceLeavesLinkedOpen(w, j, seen);
    }
    hide Advanced, Tracked;
    var start := if w.jobs[j].deployment == None then Next(w, Advance(j, seen)) else w;
    if start.jobs[j].deployment.Some? {
      PursuitIsSteps(start, j, outlook);
    }
    hide Driven, Pursued;
  }

  lemma AdvanceLeavesLinkedOpen(w: World, j: nat, seen: Sighting)
    requires j < |w.jobs| && w.jobs[j].deployment == None && !w.jobs[j].status.Terminal()
    ensures |Advanced(w, j, seen).jobs| == |w.jobs|
    ensures Advanced(w, j, seen).jobs[j].deployment.Some? ==> !Advanced(w, j, seen).jobs[j].status.Terminal()
    ensures Advanced(w, j, seen).looks == w.looks
  {
    hide SourceGate, WithCommit;
    assert WithCommit(w.jobs[j], seen).deployment == None by {
      CommitKeepsLink(w.jobs[j], seen);
    }
  }

  lemma CommitKeepsLink(job: Job, seen: Sighting)
    ensures WithCommit(job, seen).deployment == job.deployment
  {
  }

  const EMPTY := World([], [], [], map[], map[])

  lemma {:induction false} PrefixPossible(w: World, steps: seq<Step>, k: nat)
    requires PossibleRun(w, steps) && k <= |steps|
    ensures PossibleRun(w, steps[..k])
    decreases k
  {
    hide Next, Possible;
    if k > 0 {
      assert steps[..k][1..] == steps[1..][..k - 1];
      PrefixPossible(Next(w, steps[0]), steps[1..], k - 1);
    }
  }

  /** In some state of the run, the deployment was as the look says. */
  ghost predicate WasSo(w: World, steps: seq<Step>, look: Sight) {
    exists k :: 0 <= k <= |steps| && PossibleRun(w, steps[..k])
      && look.deployment < |RunTo(w, steps[..k]).intents| && RunTo(w, steps[..k]).intents[look.deployment].status == look.status
  }

  lemma WasSoNow(w: World, steps: seq<Step>, look: Sight)
    requires look.deployment < |w.intents| && w.intents[look.deployment].status == look.status
    ensures WasSo(w, steps, look)
  {
    assert steps[..0] == [];
    assert PossibleRun(w, steps[..0]) && RunTo(w, steps[..0]) == w;
  }

  lemma WasSoBefore(w: World, steps: seq<Step>, look: Sight)
    requires steps != [] && PossibleRun(w, steps) && WasSo(Next(w, steps[0]), steps[1..], look)
    ensures WasSo(w, steps, look)
  {
    hide Next, Possible;
    var w1 := Next(w, steps[0]);
    var k :| 0 <= k <= |steps[1..]| && PossibleRun(w1, steps[1..][..k])
             && look.deployment < |RunTo(w1, steps[1..][..k]).intents|
             && RunTo(w1, steps[1..][..k]).intents[look.deployment].status == look.status;
    assert steps[..k + 1][1..] == steps[1..][..k];
    PrefixPossible(w, steps, k + 1);
    assert RunTo(w, steps[..k + 1]) == RunTo(w1, steps[1..][..k]);
  }

  /** Where looks and evidence come from: they were there, or a look took them from a state of the run. */
  lemma {:induction false} LooksAreReal(w: World, steps: seq<Step>, j: nat)
    requires PossibleRun(w, steps)
    ensures var end := RunTo(w, steps);
            && (j in end.looks ==> WasSo(w, steps, end.looks[j]) || (j in w.looks && w.looks[j] == end.looks[j]))
            && (j in end.verified ==>
                  var look := end.verified[j].look;
                  WasSo(w, steps, look) || (j in w.looks && w.looks[j] == look) || (j in w.verified && w.verified[j] == end.verified[j]))
    decreases |steps|
  {
    if steps != [] {
      var w1, end := Next(w, steps[0]), RunTo(w, steps);
      LooksAreReal(w1, steps[1..], j);
      StepLooks(w, steps[0], j);
      hide Next, Possible, WasSo;
      if j in end.looks && WasSo(w1, steps[1..], end.looks[j]) {
        WasSoBefore(w, steps, end.looks[j]);
      } else if j in end.looks && !(j in w.looks && w.looks[j] == end.looks[j]) {
        WasSoNow(w, steps, end.looks[j]);
      }
      if j in end.verified {
        var look := end.verified[j].look;
        if WasSo(w1, steps[1..], look) {
          WasSoBefore(w, steps, look);
        } else if j in w1.looks && w1.looks[j] == look && !(j in w.looks && w.looks[j] == look) {
          WasSoNow(w, steps, look);
        }
      }
    }
  }

  lemma StepLooks(w: World, step: Step, j: nat)
    requires Possible(w, step)
    ensures var w' := Next(w, step);
            && (j in w'.looks ==>
                  || (j in w.looks && w.looks[j] == w'.looks[j])
                  || (var look := w'.looks[j]; look.deployment < |w.intents| && w.intents[look.deployment].status == look.status))
            && (j in w'.verified ==>
                  (j in w.looks && w.looks[j] == w'.verified[j].look) || (j in w.verified && w.verified[j] == w'.verified[j]))
  {
    if step.Advance? {
      AdvanceHasEffect(w, step.id, step.seen);
    }
    hide Advanced, Followed, PromotionVerified, DispatchAllowed, LookupMayReturn;
  }

  /** Over every run, a linked job and its deployment, created or adopted, agree on connection, repository,
      build, target, commit and branch; a job is successful on a look at its deployment that found it SUCCESS in
      some state of the run, and on a promotion build that promotes that source to that target at that commit and
      shows every required stage exactly once, successful, with a real successful step in it. */
  lemma JobsAreSound(steps: seq<Step>, j: nat)
    requires PossibleRun(EMPTY, steps) && j < |RunTo(EMPTY, steps).jobs|
    ensures var w := RunTo(EMPTY, steps);
            var job := w.jobs[j];
            && (job.deployment.Some? ==> job.deployment.value < |w.intents| && Agree(job, w.intents[job.deployment.value]))
            && (job.status.Success? ==>
                  && j in w.verified && job.deployment == Some(w.verified[j].look.deployment)
                  && w.verified[j].look.status.Success? && WasSo(EMPTY, steps, w.verified[j].look)
                  && var build := w.verified[j].build;
                  && build.IsPromotionOf(job.source, job.target) && Some(build.commit) == job.commit
                  && job.promotionStages != []
                  && forall name :: name in job.promotionStages ==> StageVerified(build, name, true))
  {
    RunKeeps(EMPTY, steps);
    LooksAreReal(EMPTY, steps, j);
    var w := RunTo(EMPTY, steps);
    if w.jobs[j].status.Success? {
      StagesSucceededMeans(w.verified[j].build, w.jobs[j].promotionStages, true);
    }
    hide RunTo, PossibleRun, StagesSucceeded, StageVerified, WasSo;
  }

  /** The deployment of a successful job stays SUCCESS until some session writes another status over it, and no
      step of the inbox does. */
  lemma DeploymentStaysIff(w: World, step: Step, d: nat)
    requires Possible(w, step) && d < |w.intents| && w.intents[d].status.Success?
    ensures d < |Next(w, step).intents|
    ensures Next(w, step).intents[d].status.Success? <==> !(step.Drive? && step.id == d && !step.status.Success?)
  {
    if step.Advance? {
      AdvanceHasEffect(w, step.id, step.seen);
    }
    hide Advanced, Followed, PromotionVerified;
  }

  lemma {:induction false} ChecksKept(w: World, steps: seq<Step>)
    requires LinksHold(w) && SentKnown(w) && SentChecked(w) && PossibleRun(w, steps)
    requires SlotsExclusive(RunTo(w, steps).jobs)
    ensures SentChecked(RunTo(w, steps))
    decreases |steps|
  {
    if steps != [] {
      hide Next, Possible, LinksHold, SentChecked, SentKnown;
      ExclusiveBefore(w, steps);
      StepKeepsLinks(w, steps[0]);
      StepKeepsChecks(w, steps[0]);
      ChecksKept(Next(w, steps[0]), steps[1..]);
    }
  }

  /** Jobs exclusive at the end of a run were exclusive all along. */
  lemma {:induction false} ExclusiveBefore(w: World, steps: seq<Step>)
    requires PossibleRun(w, steps) && SlotsExclusive(RunTo(w, steps).jobs)
    ensures SlotsExclusive(w.jobs)
    decreases |steps|
  {
    if steps != [] {
      hide Next, Possible;
      ExclusiveBefore(Next(w, steps[0]), steps[1..]);
      TermsAreFixed(w, steps[0]);
      var after := Next(w, steps[0]).jobs;
      assert forall j :: 0 <= j < |w.jobs| ==> SameTerms(w.jobs[j], after[j]) && after[j].Slot() == w.jobs[j].Slot();
    }
  }

  /** While no two jobs want the same slot, every promote request of a deployment a job created, whoever
      sends it, left at a moment when that job's token was active, its deadline open and the component
      still routed as the job recorded. */
  lemma DispatchIsNeverUnchecked(steps: seq<Step>, k: nat)
    requires PossibleRun(EMPTY, steps) && SlotsExclusive(RunTo(EMPTY, steps).jobs)
    requires k < |RunTo(EMPTY, steps).sent|
    ensures var w := RunTo(EMPTY, steps);
            var request := w.sent[k];
            request.intent < |w.intents| && w.intents[request.intent].creator.Some? ==>
              w.intents[request.intent].creator.value < |w.jobs|
              && DispatchCheck(w.jobs[w.intents[request.intent].creator.value], request.moment)
  {
    ChecksKept(EMPTY, steps);
  }

  // ---------------------------------------------------------------- when the guard can be missed

  /** The guard asks what the creator's job would ask, at every moment, if and only if the job its lookup
      returned carries the creator's token and deadline. */
  lemma GuardIsCreatorsIff(w: World, d: nat, p: nat)
    requires LinksHold(w) && d < |w.intents| && w.intents[d].creator.Some?
    requires LookupMayReturn(w.jobs, d, Some(p))
    ensures var c := w.intents[d].creator.value;
            (forall m :: DispatchAllowed(w.jobs, w.intents[d], Some(p), m) <==> DispatchCheck(w.jobs[c], m)) <==>
            (w.jobs[p].token == w.jobs[c].token && w.jobs[p].deadline == w.jobs[c].deadline)
  {
    var c := w.intents[d].creator.value;
    var own, other := w.jobs[c], w.jobs[p];
    assert own.Slot() == other.Slot();
    ActorNamesDiffer(own.token, other.token);
    hide ActorName;
    var open := Live(own.connection, own.owner, own.repository, None, true, false);
    if other.token != own.token {
      var m := Moment(own.deadline - 1, {}, open);
      assert DispatchAllowed(w.jobs, w.intents[d], Some(p), m) && !DispatchCheck(own, m);
    } else if other.deadline != own.deadline {
      var m := Moment(if own.deadline < other.deadline then own.deadline else other.deadline, {own.token}, open);
      assert DispatchAllowed(w.jobs, w.intents[d], Some(p), m) != DispatchCheck(own, m);
    }
  }

  /** No request passes the guard that the creator's job would refuse, at any moment, if and only if the job its
      lookup returned carries the creator's token and no later deadline. */
  lemma GuardSufficesIff(w: World, d: nat, p: nat)
    requires LinksHold(w) && d < |w.intents| && w.intents[d].creator.Some?
    requires LookupMayReturn(w.jobs, d, Some(p))
    ensures var c := w.intents[d].creator.value;
            (forall m :: DispatchAllowed(w.jobs, w.intents[d], Some(p), m) ==> DispatchCheck(w.jobs[c], m)) <==>
            (w.jobs[p].token == w.jobs[c].token && w.jobs[p].deadline <= w.jobs[c].deadline)
  {
    var c := w.intents[d].creator.value;
    if w.jobs[p].token == w.jobs[c].token && w.jobs[p].deadline <= w.jobs[c].deadline {
      assert w.jobs[c].Slot() == w.jobs[p].Slot();
    } else {
      var m := UnsafeMoment(w, d, p);
    }
  }

  /** A moment at which a request leaves that the creator's job would refuse. */
  lemma UnsafeMoment(w: World, d: nat, p: nat) returns (m: Moment)
    requires LinksHold(w) && d < |w.intents| && w.intents[d].creator.Some?
    requires LookupMayReturn(w.jobs, d, Some(p))
    requires var c := w.intents[d].creator.value;
             w.jobs[p].token != w.jobs[c].token || w.jobs[p].deadline > w.jobs[c].deadline
    ensures DispatchAllowed(w.jobs, w.intents[d], Some(p), m) && !DispatchCheck(w.jobs[w.intents[d].creator.value], m)
  {
    var own, other := w.jobs[w.intents[d].creator.value], w.jobs[p];
    assert own.Slot() == other.Slot();
    ActorNamesDiffer(own.token, other.token);
    var open := Live(own.connection, own.owner, own.repository, None, true, false);
    m := Moment(own.deadline, if other.token == own.token then {own.token} else {}, open);
  }

  // ---------------------------------------------------------------- over whole runs

  /** The guard's lookup returns a job that speaks for the creator of the deployment. */
  predicate LookupSuffices(w: World, step: Step)
    requires Possible(w, step)
  {
    step.Post? && w.intents[step.id].creator.Some? ==>
      && step.picked.Some? && w.intents[step.id].creator.value < |w.jobs|
      && var own, other := w.jobs[w.intents[step.id].creator.value], w.jobs[step.picked.value];
         other.token == own.token && other.deadline <= own.deadline
  }

  predicate LookupsSuffice(w: World, steps: seq<Step>)
    requires PossibleRun(w, steps)
    decreases |steps|
  {
    steps == [] || (LookupSuffices(w, steps[0]) && LookupsSuffice(Next(w, steps[0]), steps[1..]))
  }

  /** The same run, with its requests leaving at other moments. */
  predicate SameButMoments(steps: seq<Step>, other: seq<Step>) {
    && |steps| == |other|
    && forall i :: 0 <= i < |steps| ==>
         if steps[i].Post? then other[i].Post? && other[i] == steps[i].(moment := other[i].moment) else other[i] == steps[i]
  }

  predicate SameButSent(w: World, w': World) {
    w' == w.(sent := w'.sent)
  }

  /** What was sent, and when, decides neither what is possible nor what the lookups return. */
  lemma SentDoesNotMatter(w: World, w': World, step: Step, other: Step)
    requires SameButSent(w, w') && Possible(w, step)
    requires if step.Post? then other.Post? && other == step.(moment := other.moment) else other == step
    ensures Possible(w', other) && SameButSent(Next(w, step), Next(w', other))
    ensures LookupSuffices(w, step) <==> LookupSuffices(w', other)
  {
    hide SourceGate, WithCommit, Followed, DispatchAllowed;
  }

  lemma {:induction false} SameRun(w: World, w': World, steps: seq<Step>, other: seq<Step>)
    requires SameButSent(w, w') && PossibleRun(w, steps) && SameButMoments(steps, other)
    ensures PossibleRun(w', other)
    ensures LookupsSuffice(w, steps) <==> LookupsSuffice(w', other)
    decreases |steps|
  {
    if steps != [] {
      SentDoesNotMatter(w, w', steps[0], other[0]);
      assert SameButMoments(steps[1..], other[1..]);
      hide Next, Possible, LookupSuffices, SameButSent;
      SameRun(Next(w, steps[0]), Next(w', other[0]), steps[1..], other[1..]);
    }
  }

  lemma SufficientStepKeepsChecks(w: World, step: Step)
    requires LinksHold(w) && SentKnown(w) && SentChecked(w) && Possible(w, step) && LookupSuffices(w, step)
    ensures SentKnown(Next(w, step)) && SentChecked(Next(w, step))
  {
    if step.Post? {
      if w.intents[step.id].creator.Some? {
        GuardSufficesIff(w, step.id, step.picked.value);
      }
      hide LookupMayReturn, DispatchCheck, ActorName, LinksHold;
    } else {
      TermsAreFixed(w, step);
      SentIsKept(w, step);
      TermsKeepChecks(w, Next(w, step));
    }
  }

  lemma {:induction false} SufficientLookupsKeepChecks(w: World, steps: seq<Step>)
    requires LinksHold(w) && SentKnown(w) && SentChecked(w) && PossibleRun(w, steps) && LookupsSuffice(w, steps)
    ensures SentChecked(RunTo(w, steps))
    decreases |steps|
  {
    if steps != [] {
      hide Next, Possible, LinksHold, SentChecked, SentKnown, LookupSuffices;
      StepKeepsLinks(w, steps[0]);
      SufficientStepKeepsChecks(w, steps[0]);
      SufficientLookupsKeepChecks(Next(w, steps[0]), steps[1..]);
    }
  }

  /** A request left that its creator's job would have refused, and it is known which. */
  predicate UncheckedAt(w: World, k: nat) {
    && k < |w.sent| && w.sent[k].intent < |w.intents| && w.intents[w.sent[k].intent].creator.Some?
    && w.intents[w.sent[k].intent].creator.value < |w.jobs|
    && !DispatchCheck(w.jobs[w.intents[w.sent[k].intent].creator.value], w.sent[k].moment)
  }

  lemma UncheckedStays(w: World, step: Step, k: nat)
    requires UncheckedAt(w, k) && Possible(w, step)
    ensures UncheckedAt(Next(w, step), k)
  {
    TermsAreFixed(w, step);
    if !step.Post? {
      SentIsKept(w, step);
    }
    var j := w.intents[w.sent[k].intent].creator.value;
    TermsDecideCheck(w.jobs[j], Next(w, step).jobs[j], w.sent[k].moment);
    assert Next(w, step).sent[k] == w.sent[k];
    hide Next, DispatchCheck, SameTerms;
  }

  lemma {:induction false} UncheckedForGood(w: World, steps: seq<Step>, k: nat)
    requires UncheckedAt(w, k) && PossibleRun(w, steps)
    ensures !SentChecked(RunTo(w, steps))
    decreases |steps|
  {
    if steps != [] {
      UncheckedStays(w, steps[0], k);
      hide Next, Possible, UncheckedAt, SentChecked;
      UncheckedForGood(Next(w, steps[0]), steps[1..], k);
    }
  }

  lemma InsufficientPost(w: World, step: Step) returns (other: Step)
    requires LinksHold(w) && Possible(w, step) && !LookupSuffices(w, step)
    ensures step.Post? && other.Post? && other == step.(moment := other.moment)
    ensures Possible(w, other) && UncheckedAt(Next(w, other), |w.sent|)
  {
    assert w.jobs[w.intents[step.id].creator.value].deployment == Some(step.id);
    var m := UnsafeMoment(w, step.id, step.picked.value);
    other := step.(moment := m);
    assert Next(w, other).sent == w.sent + [Request(step.id, m)];
    hide DispatchAllowed, DispatchCheck;
  }

  lemma {:induction false} InsufficientLookupMisses(w: World, steps: seq<Step>) returns (other: seq<Step>)
    requires LinksHold(w) && PossibleRun(w, steps) && !LookupsSuffice(w, steps)
    ensures SameButMoments(steps, other) && PossibleRun(w, other) && !SentChecked(RunTo(w, other))
    decreases |steps|
  {
    if LookupSuffices(w, steps[0]) {
      StepKeepsLinks(w, steps[0]);
      hide Next, Possible, LinksHold, LookupSuffices, SentChecked;
      var rest := InsufficientLookupMisses(Next(w, steps[0]), steps[1..]);
      other := [steps[0]] + rest;
      assert other[1..] == rest;
    } else {
      var first := InsufficientPost(w, steps[0]);
      SentDoesNotMatter(w, w, steps[0], first);
      SameRun(Next(w, steps[0]), Next(w, first), steps[1..], steps[1..]);
      UncheckedForGood(Next(w, first), steps[1..], |w.sent|);
      hide Next, Possible, LinksHold, LookupSuffices, SentChecked, UncheckedAt;
      other := [first] + steps[1..];
      assert other[1..] == steps[1..];
    }
  }

  /** Over every run, at whatever moments its requests leave: none of them leaves unchecked if and only if every
      lookup returned a job that speaks for the creator. */
  lemma GuardHoldsOverRunsIff(steps: seq<Step>)
    requires PossibleRun(EMPTY, steps)
    ensures LookupsSuffice(EMPTY, steps) <==>
            (forall other :: SameButMoments(steps, other) ==> PossibleRun(EMPTY, other) && SentChecked(RunTo(EMPTY, other)))
  {
    forall other | SameButMoments(steps, other)
      ensures PossibleRun(EMPTY, other)
      ensures LookupsSuffice(EMPTY, steps) ==> SentChecked(RunTo(EMPTY, other))
    {
      SameRun(EMPTY, EMPTY, steps, other);
      if LookupsSuffice(EMPTY, steps) {
        SufficientLookupsKeepChecks(EMPTY, other);
      }
    }
    if !LookupsSuffice(EMPTY, steps) {
      var other := InsufficientLookupMisses(EMPTY, steps);
    }
  }

  lemma FirstJobCreates(w: World, first: Job, second: Job, seen: Sighting, build: Build)
    requires w == World([first, second], [], [], map[], map[])
    requires first.deployment == None && first.status == WaitingSource && SourceGate(first, seen) == Pass(build)
    ensures var w' := Next(w, Advance(0, seen));
            && w'.intents == [CreatedIntent(first, 0, build, seen.live)] && w'.sent == []
            && |w'.jobs| == 2 && SameTerms(first, w'.jobs[0]) && w'.jobs[1] == second
  {
    hide SourceGate, IsSha, ActorName;
    assert [] + [CreatedIntent(first, 0, build, seen.live)] == [CreatedIntent(first, 0, build, seen.live)];
  }

  /** The first job creates a deployment, the second adopts it. */
  lemma SecondJobAdopts(first: Job, second: Job, seen: Sighting, build: Build) returns (w2: World, w3: World, w4: World)
    requires first.deployment == None && first.status == WaitingSource
    requires second.deployment == None && second.status == WaitingSource
    requires first.Slot() == second.Slot() && !seen.vanished
    requires SourceGate(first, seen) == Pass(build) && SourceGate(second, seen) == Pass(build)
    ensures w2 == World([first, second], [], [], map[], map[])
    ensures Possible(w2, Advance(0, seen)) && w3 == Next(w2, Advance(0, seen))
    ensures Possible(w3, Advance(1, seen)) && w4 == Next(w3, Advance(1, seen))
    ensures w4.intents == [CreatedIntent(first, 0, build, seen.live)] && w4.sent == [] && |w4.jobs| == 2
    ensures SameTerms(first, w4.jobs[0]) && SameTerms(second, w4.jobs[1]) && w4.jobs[1].deployment == Some(0)
  {
    GatePassedMeans(first, seen);
    GatePassedMeans(second, seen);
    SlotMeansRoute(first, build, seen.live);
    hide SourceGate, IsSha, ActorName, RoutedAs, StageVerified;
    w2 := World([first, second], [], [], map[], map[]);
    w3 := Next(w2, Advance(0, seen));
    FirstJobCreates(w2, first, second, seen, build);
    assert ActiveIntent(w3.intents, second.Slot()) == Some(0);
    hide ActiveIntent;
    w4 := Next(w3, Advance(1, seen));
  }

  /** Two components on one repository and target: the second job adopts the first one's deployment, the
      lookup returns the second job, and the request leaves although the first job's token is revoked. */
  lemma SharedRepositoryMissesGuard(first: Job, second: Job, seen: Sighting, build: Build, m: Moment)
      returns (steps: seq<Step>)
    requires first.deployment == None && first.status == WaitingSource
    requires second.deployment == None && second.status == WaitingSource
    requires first.Slot() == second.Slot() && first.component != second.component && first.token != second.token && !seen.vanished
    requires SourceGate(first, seen) == Pass(build) && SourceGate(second, seen) == Pass(build)
    requires first.token !in m.activeTokens
    ensures PossibleRun(EMPTY, steps) && !SentChecked(RunTo(EMPTY, steps))
  {
    var w2, w3, w4 := SecondJobAdopts(first, second, seen, build);
    var w1 := Next(EMPTY, Accept(first));
    assert w1.jobs == [first] && Next(w1, Accept(second)).jobs == [first, second];
    var post := Post(0, Some(1), m);
    UncheckedPost(w4, first, second, m);
    var w5 := Next(w4, post);
    hide *;
    Arrive(w5);
    RunOf(w4, post, []);
    RunOf(w3, Advance(1, seen), [post] + []);
    RunOf(w2, Advance(0, seen), [Advance(1, seen)] + ([post] + []));
    RunOf(w1, Accept(second), [Advance(0, seen)] + ([Advance(1, seen)] + ([post] + [])));
    RunOf(EMPTY, Accept(first), [Accept(second)] + ([Advance(0, seen)] + ([Advance(1, seen)] + ([post] + []))));
    steps := [Accept(first)] + ([Accept(second)] + ([Advance(0, seen)] + ([Advance(1, seen)] + ([post] + []))));
  }

  lemma UncheckedPost(w: World, first: Job, second: Job, m: Moment)
    requires |w.jobs| == 2 && |w.intents| == 1 && w.sent == [] && SameTerms(first, w.jobs[0]) && SameTerms(second, w.jobs[1])
    requires w.intents[0].creator == Some(0) && w.intents[0].requestedBy == ActorName(first.token)
    requires w.jobs[1].deployment == Some(0) && first.token != second.token && first.token !in m.activeTokens
    ensures Possible(w, Post(0, Some(1), m)) && !SentChecked(Next(w, Post(0, Some(1), m)))
  {
    ActorNamesDiffer(first.token, second.token);
    var w' := Next(w, Post(0, Some(1), m));
    assert DispatchAllowed(w.jobs, w.intents[0], Some(1), m);
    assert w'.sent == [] + [Request(0, m)];
    assert w'.sent[0] == Request(0, m) && !DispatchCheck(w'.jobs[0], m);
  }

  lemma Arrive(w: World)
    ensures PossibleRun(w, []) && RunTo(w, []) == w
  {
  }

  lemma RunOf(w: World, step: Step, rest: seq<Step>)
    requires Possible(w, step) && PossibleRun(Next(w, step), rest)
    ensures PossibleRun(w, [step] + rest) && RunTo(w, [step] + rest) == RunTo(Next(w, step), rest)
  {
    hide Next;
    assert ([step] + rest)[1..] == rest;
  }
}
