/** Approved release plans: approval, the one-use claim, the bundle a plan launches, and the guard every
    promote request of that bundle has to pass, whoever sends it.

    The digest function is a parameter and is taken to be injective. */
module ReleasePlans {
  import opened Base
  import opened Drone

  datatype Route = Route(
    componentId: string,
    connection: string,
    server: string,
    owner: string,
    repository: string,
    position: int,
    targetOverride: Option<string>)

  datatype Action = Action(component: string, build: int, commit: string, route: Route)

  datatype Snapshot = Snapshot(
    project: string,
    environment: string,
    target: string,
    actions: seq<Action>,
    executable: bool)

  datatype PlanStatus = Pending | Approved | Executing | Executed | ExecutionFailed

  datatype Plan = Plan(
    project: string,
    snapshot: Snapshot,
    digest: string,
    status: PlanStatus,
    approvedBy: Option<string>,
    expires: int,
    release: Option<string>)

  datatype User = User(authEnabled: bool, admin: bool, login: string)

  datatype Refusal = PermissionDenied | Conflict | PipelineFailed

  ghost predicate Injective(hash: Snapshot -> string) {
    forall a, b :: hash(a) == hash(b) ==> a == b
  }

  // ---------------------------------------------------------------- the checks

  /** `validate_current`: what a plan read at `now` must satisfy, `current` being a snapshot taken afresh. */
  function Stale(seen: Plan, now: int, current: Snapshot, hash: Snapshot -> string): Option<Refusal> {
    if seen.expires <= now then Some(Conflict)
    else if hash(seen.snapshot) != seen.digest then Some(Conflict)
    else if current != seen.snapshot then Some(Conflict)
    else if !current.executable then Some(PipelineFailed)
    else None
  }

  function ApprovalRefused(seen: Plan, digest: string, user: User, now: int, current: Snapshot,
      hash: Snapshot -> string): Option<Refusal> {
    if !user.authEnabled || !user.admin || user.login == "authentication-disabled" then Some(PermissionDenied)
    else if seen.snapshot.environment != "production" || digest != seen.digest then Some(Conflict)
    else Stale(seen, now, current, hash)
  }

  function ClaimRefused(seen: Plan, fullMode: bool, now: int, current: Snapshot, hash: Snapshot -> string): Option<Refusal> {
    if !fullMode then Some(PermissionDenied)
    else if seen.status != Approved || seen.approvedBy.GetOr("") == "" then Some(PermissionDenied)
    else if seen.snapshot.environment != "production" then Some(PermissionDenied)
    else Stale(seen, now, current, hash)
  }

  /** The conditional UPDATEs: each matches only the status it moves away from. */
  predicate ApproveMatches(row: Plan, digest: string, now: int) {
    row.status == Pending && row.digest == digest && row.expires > now
  }

  predicate ClaimMatches(row: Plan, seen: Plan, now: int) {
    row.status == Approved && row.digest == seen.digest && row.expires > now
  }

  // ---------------------------------------------------------------- the row, updated in place

  class ReleasePlan {
    const project: string
    const digest: string
    const expires: int
    var snapshot: Snapshot
    var status: PlanStatus
    var approvedBy: Option<string>
    var release: Option<string>

    constructor (snapshot: Snapshot, expires: int, hash: Snapshot -> string)
      ensures Value() == Plan(snapshot.project, snapshot, hash(snapshot), Pending, None, expires, None)
    {
      this.project, this.digest, this.expires := snapshot.project, hash(snapshot), expires;
      this.snapshot, status, approvedBy, release := snapshot, Pending, None, None;
    }

    function Value(): Plan
      reads this
    {
      Plan(project, snapshot, digest, status, approvedBy, expires, release)
    }

    /** `seen` is the copy this session read and checked; the row may have moved on by the time it writes. */
    method Approve(seen: Plan, givenDigest: string, user: User, readAt: int, now: int, current: Snapshot,
                   hash: Snapshot -> string) returns (refusal: Option<Refusal>)
      modifies this
      ensures var refused := ApprovalRefused(seen, givenDigest, user, readAt, current, hash);
              refusal == if refused.Some? || ApproveMatches(old(Value()), givenDigest, now) then refused else Some(Conflict)
      ensures Value() == if refusal == None then old(Value()).(status := Approved, approvedBy := Some(user.login)) else old(Value())
    {
      if !user.authEnabled || !user.admin || user.login == "authentication-disabled" {
        return Some(PermissionDenied);
      }
      if seen.snapshot.environment != "production" || givenDigest != seen.digest {
        return Some(Conflict);
      }
      var stale := Stale(seen, readAt, current, hash);
      if stale.Some? {
        return stale;
      }
      if !(status == Pending && digest == givenDigest && expires > now) {
        return Some(Conflict);
      }
      status := Approved;
      approvedBy := Some(user.login);
      return None;
    }

    /** The durable claim, committed before anything is sent anywhere. */
    method Claim(seen: Plan, fullMode: bool, releaseId: string, readAt: int, now: int, current: Snapshot,
                 hash: Snapshot -> string) returns (refusal: Option<Refusal>)
      modifies this
      ensures var refused := ClaimRefused(seen, fullMode, readAt, current, hash);
              refusal == if refused.Some? || ClaimMatches(old(Value()), seen, now) then refused else Some(Conflict)
      ensures Value() == if refusal == None then old(Value()).(status := Executing, release := Some(releaseId)) else old(Value())
    {
      if !fullMode {
        return Some(PermissionDenied);
      }
      if seen.status != Approved || seen.approvedBy.GetOr("") == "" {
        return Some(PermissionDenied);
      }
      if seen.snapshot.environment != "production" {
        return Some(PermissionDenied);
      }
      var stale := Stale(seen, readAt, current, hash);
      if stale.Some? {
        return stale;
      }
      if !(status == Approved && digest == seen.digest && expires > now) {
        return Some(Conflict);
      }
      status := Executing;
      release := Some(releaseId);
      return None;
    }

    method Finish(succeeded: bool)
      modifies this
      ensures Value() == old(Value()).(status := if succeeded then Executed else ExecutionFailed)
    {
      status := if succeeded then Executed else ExecutionFailed;
    }
  }

  // ---------------------------------------------------------------- the guard before every request

  datatype Deployment = Deployment(
    release: Option<string>,
    project: string,
    component: string,
    build: int,
    commit: string,
    target: string)

  /** The component as the sending session holds it: the same copy is checked and then addressed. */
  datatype Live = Live(route: Route, active: bool, archived: bool)

  function FindAction(actions: seq<Action>, component: string): (found: Option<Action>)
    ensures found.Some? ==> found.value in actions && found.value.component == component
    ensures found == None <==> forall a :: a in actions ==> a.component != component
  {
    if actions == [] then None
    else if actions[0].component == component then Some(actions[0])
    else FindAction(actions[1..], component)
  }

  predicate ConstraintsHold(plan: Plan, d: Deployment, live: Live, source: Build, hash: Snapshot -> string) {
    var action := FindAction(plan.snapshot.actions, d.component);
    && action.Some?
    && hash(plan.snapshot) == plan.digest
    && plan.approvedBy.GetOr("") != ""
    && plan.status in {Executing, Executed, ExecutionFailed}
    && plan.project == d.project
    && live.route == action.value.route
    && live.active && !live.archived
    && d.target == plan.snapshot.target
    && d.build == action.value.build
    && d.commit == action.value.commit
    && source.IsPromotable()
    && source.commit == action.value.commit
  }

  // ---------------------------------------------------------------- everything that can happen to plans

  /** A plan with its history: who runs it, the snapshot its approver was shown, how often it was used. */
  datatype Run = Idle | Holding | Launched | Over

  datatype Tracked = Tracked(plan: Plan, run: Run, approved: Option<Snapshot>, claims: nat, bundles: nat)

  /** A promote request on its way: the deployment it is for and the route it goes to. */
  datatype Sent = Sent(deployment: Deployment, route: Route)

  datatype World = World(plans: seq<Tracked>, releases: set<string>, deployments: seq<Deployment>, sent: seq<Sent>)

  datatype Step =
    | Draft(snapshot: Snapshot, expires: int)
    | Approve(id: nat, seen: Plan, digest: string, user: User, readAt: int, now: int, current: Snapshot)
    | Claim(id: nat, seen: Plan, fullMode: bool, release: string, readAt: int, now: int, current: Snapshot)
    | Launch(id: nat)
    | Finish(id: nat, succeeded: bool)
    | Die(id: nat)
    | Alter(id: nat, snapshot: Snapshot)
    | Record(bundle: Option<string>, deployments: seq<Deployment>)
    | Post(deployment: Deployment, held: Plan, live: Live, source: Build)

  function FindPlan(plans: seq<Tracked>, release: string): (found: Option<nat>)
    ensures found.Some? ==> found.value < |plans| && plans[found.value].plan.release == Some(release)
    ensures found == None ==> forall i :: 0 <= i < |plans| ==> plans[i].plan.release != Some(release)
  {
    if plans == [] then None
    else if plans[0].plan.release == Some(release) then Some(0)
    else
      match FindPlan(plans[1..], release)
      case None => None
      case Some(i) => Some(i + 1)
  }

  /** `verify_planned_deployment`, on the copy of the plan the session holds: deployments that no plan
      launched are not its business. */
  predicate GuardPasses(plans: seq<Tracked>, d: Deployment, held: Plan, live: Live, source: Build, hash: Snapshot -> string) {
    d.release.Some? && FindPlan(plans, d.release.value).Some? ==> ConstraintsHold(held, d, live, source, hash)
  }

  /** The copy was read from the plan of this release at some time; its other columns may have changed since. */
  predicate MayHold(plans: seq<Tracked>, d: Deployment, held: Plan) {
    d.release.Some? ==>
      match FindPlan(plans, d.release.value)
      case None => true
      case Some(i) => held.digest == plans[i].plan.digest
  }

  predicate Possible(w: World, step: Step) {
    match step
    case Draft(_, _) => true
    case Approve(id, _, _, _, _, _, _) => id < |w.plans|
    case Claim(id, _, _, release, _, _, _) => id < |w.plans| && release !in w.releases
    case Launch(id) => id < |w.plans| && w.plans[id].run == Holding && w.plans[id].plan.release.Some?
    case Finish(id, succeeded) => id < |w.plans| && (w.plans[id].run == Launched || (w.plans[id].run == Holding && !succeeded))
    case Die(id) => id < |w.plans| && w.plans[id].run in {Holding, Launched}
    case Alter(id, _) => id < |w.plans|
    case Record(bundle, deployments) =>
      (bundle.Some? ==> bundle.value !in w.releases) && forall d :: d in deployments ==> d.release == bundle
    case Post(d, held, _, _) => d in w.deployments && MayHold(w.plans, d, held)
  }

  function Planned(snapshot: Snapshot, actions: seq<Action>, release: string): (ds: seq<Deployment>)
    ensures |ds| == |actions|
    ensures forall i :: 0 <= i < |ds| ==>
              ds[i] == Deployment(Some(release), snapshot.project, actions[i].component, actions[i].build, actions[i].commit,
                                  snapshot.target)
  {
    if actions == [] then []
    else [Deployment(Some(release), snapshot.project, actions[0].component, actions[0].build, actions[0].commit, snapshot.target)]
         + Planned(snapshot, actions[1..], release)
  }

  function Next(w: World, step: Step, hash: Snapshot -> string): (w': World)
    requires Possible(w, step)
    ensures |w'.plans| >= |w.plans|
  {
    match step
    case Draft(snapshot, expires) =>
      w.(plans := w.plans + [Tracked(Plan(snapshot.project, snapshot, hash(snapshot), Pending, None, expires, None),
          Idle, None, 0, 0)])
    case Approve(id, seen, digest, user, readAt, now, current) =>
      var t := w.plans[id];
      if ApprovalRefused(seen, digest, user, readAt, current, hash) == None && ApproveMatches(t.plan, digest, now) then
        w.(plans := w.plans[id := t.(plan := t.plan.(status := Approved, approvedBy := Some(user.login)),
            approved := Some(seen.snapshot))])
      else w
    case Claim(id, seen, fullMode, release, readAt, now, current) =>
      var t := w.plans[id];
      if ClaimRefused(seen, fullMode, readAt, current, hash) == None && ClaimMatches(t.plan, seen, now) then
        w.(plans := w.plans[id := t.(plan := t.plan.(status := Executing, release := Some(release)), run := Holding,
            claims := t.claims + 1)],
           releases := w.releases + {release})
      else w
    case Launch(id) =>
      var t := w.plans[id];
      w.(plans := w.plans[id := t.(run := Launched, bundles := t.bundles + 1)],
         deployments := w.deployments + Planned(t.plan.snapshot, t.plan.snapshot.actions, t.plan.release.value))
    case Finish(id, succeeded) =>
      var t := w.plans[id];
      w.(plans := w.plans[id := t.(plan := t.plan.(status := if succeeded then Executed else ExecutionFailed), run := Over)])
    case Die(id) => w.(plans := w.plans[id := w.plans[id].(run := Over)])
    case Alter(id, snapshot) => w.(plans := w.plans[id := w.plans[id].(plan := w.plans[id].plan.(snapshot := snapshot))])
    case Record(bundle, deployments) =>
      w.(releases := if bundle.Some? then w.releases + {bundle.value} else w.releases, deployments := w.deployments + deployments)
    case Post(d, held, live, source) =>
      if GuardPasses(w.plans, d, held, live, source, hash) then w.(sent := w.sent + [Sent(d, live.route)]) else w
  }

  // ---------------------------------------------------------------- what every run keeps

  /** Used at most once: one claim, one bundle, one run, in step with the status. */
  predicate UsedOnce(t: Tracked) {
    && t.claims == (if t.plan.status in {Pending, Approved} then 0 else 1)
    && (t.plan.release.Some? <==> t.claims == 1)
    && (t.run == Idle <==> t.claims == 0)
    && (t.run in {Holding, Launched} ==> t.plan.status == Executing)
    && t.bundles <= (if t.run in {Launched, Over} then 1 else 0)
  }

  predicate ApprovalOnRecord(t: Tracked, hash: Snapshot -> string) {
    && (t.approved.Some? <==> t.plan.status != Pending)
    && (t.approved.Some? ==> hash(t.approved.value) == t.plan.digest && t.approved.value.environment == "production")
  }

  /** The request is what one action of the snapshot says, at that action's own route. */
  predicate Matches(s: Sent, snapshot: Snapshot) {
    && s.deployment.target == snapshot.target
    && exists a :: a in snapshot.actions && a.component == s.deployment.component && a.build == s.deployment.build
                   && a.commit == s.deployment.commit && a.route == s.route
  }

  /** Every request of a bundle a plan launched matches the snapshot that plan's approver was shown. */
  predicate SentAsApproved(plans: seq<Tracked>, sent: seq<Sent>) {
    forall i, k ::
      && 0 <= i < |plans| && 0 <= k < |sent|
      && plans[i].plan.release.Some? && plans[i].plan.release == sent[k].deployment.release
      ==>
      plans[i].approved.Some? && Matches(sent[k], plans[i].approved.value)
  }

  predicate ReleasesKnown(w: World) {
    && (forall i :: 0 <= i < |w.plans| && w.plans[i].plan.release.Some? ==> w.plans[i].plan.release.value in w.releases)
    && (forall i, j :: 0 <= i < j < |w.plans| && w.plans[i].plan.release.Some? ==> w.plans[i].plan.release != w.plans[j].plan.release)
    && (forall d :: d in w.deployments && d.release.Some? ==> d.release.value in w.releases)
    && (forall k :: 0 <= k < |w.sent| && w.sent[k].deployment.release.Some? ==> w.sent[k].deployment.release.value in w.releases)
  }

  predicate Named(approver: Option<string>) {
    approver.Some? && approver.value != ""
  }

  /** Action k is the first one for that component. */
  predicate FirstFor(actions: seq<Action>, component: string, k: nat) {
    && k < |actions| && actions[k].component == component
    && forall j :: 0 <= j < k ==> actions[j].component != component
  }

  lemma {:induction false} FoundIsFirst(actions: seq<Action>, component: string, k: nat)
    requires FirstFor(actions, component, k)
    ensures FindAction(actions, component) == Some(actions[k])
  {
    if k > 0 {
      assert actions[0].component != component;
      assert forall j :: 0 <= j < k - 1 ==> actions[1..][j] == actions[j + 1];
      FoundIsFirst(actions[1..], component, k - 1);
    }
  }

  lemma {:induction false} FirstExists(actions: seq<Action>, component: string) returns (k: nat)
    requires FindAction(actions, component).Some?
    ensures FirstFor(actions, component, k)
  {
    if actions[0].component == component {
      k := 0;
    } else {
      var i := FirstExists(actions[1..], component);
      k := i + 1;
      assert forall j :: 0 < j <= k ==> actions[j] == actions[1..][j - 1];
    }
  }

  /** The plan runs or has run, approved by somebody, with the snapshot its digest is of. */
  predicate InForce(held: Plan, hash: Snapshot -> string) {
    && (held.status == Executing || held.status == Executed || held.status == ExecutionFailed)
    && Named(held.approvedBy) && hash(held.snapshot) == held.digest
  }

  /** What is about to be sent is what action k says: this build and commit to this target, at the action's own route,
      for a component that is active, from a source build that succeeded on a push of that commit. */
  predicate AsPlanned(held: Plan, d: Deployment, live: Live, source: Build, k: nat) {
    && FirstFor(held.snapshot.actions, d.component, k)
    && held.project == d.project && held.snapshot.target == d.target
    && held.snapshot.actions[k].build == d.build && held.snapshot.actions[k].commit == d.commit
    && held.snapshot.actions[k].route == live.route && live.active && !live.archived
    && source.status == "success" && source.event == "push" && source.commit == d.commit
  }

  lemma ConstraintsHoldIff(held: Plan, d: Deployment, live: Live, source: Build, hash: Snapshot -> string)
    ensures ConstraintsHold(held, d, live, source, hash) <==>
            InForce(held, hash) && exists k :: 0 <= k < |held.snapshot.actions| && AsPlanned(held, d, live, source, k)
  {
    if FindAction(held.snapshot.actions, d.component).Some? {
      var k := FirstExists(held.snapshot.actions, d.component);
      FoundIsFirst(held.snapshot.actions, d.component, k);
      if ConstraintsHold(held, d, live, source, hash) {
        assert AsPlanned(held, d, live, source, k);
      }
    }
    if k :| 0 <= k < |held.snapshot.actions| && AsPlanned(held, d, live, source, k) {
      FoundIsFirst(held.snapshot.actions, d.component, k);
    }
  }

  /** A request passes the guard of a planned deployment exactly if its plan is in force and it is as planned; and then it
      matches the approved snapshot, however old the copy and even if the stored snapshot was altered: an altered one
      has lost the approved digest. */
  lemma GuardedRequestMatches(t: Tracked, held: Plan, d: Deployment, live: Live, source: Build, hash: Snapshot -> string)
    requires Injective(hash) && ApprovalOnRecord(t, hash) && t.plan.status != Pending && held.digest == t.plan.digest
    ensures ConstraintsHold(held, d, live, source, hash) <==>
            InForce(held, hash) && exists k :: 0 <= k < |held.snapshot.actions| && AsPlanned(held, d, live, source, k)
    ensures ConstraintsHold(held, d, live, source, hash) ==>
              t.approved == Some(held.snapshot) && Matches(Sent(d, live.route), t.approved.value)
  {
    ConstraintsHoldIff(held, d, live, source, hash);
    hide AsPlanned, InForce;
    assert ConstraintsHold(held, d, live, source, hash) ==> hash(t.approved.value) == hash(held.snapshot);
  }

  /** The digest is one of a snapshot of the plan's own project. */
  ghost predicate DigestFitsProject(t: Tracked, hash: Snapshot -> string) {
    forall s :: hash(s) == t.plan.digest ==> s.project == t.plan.project
  }

  ghost predicate PlansKept(w: World, hash: Snapshot -> string) {
    forall i :: 0 <= i < |w.plans| ==>
      UsedOnce(w.plans[i]) && ApprovalOnRecord(w.plans[i], hash) && DigestFitsProject(w.plans[i], hash)
  }

  ghost predicate Kept(w: World, hash: Snapshot -> string) {
    PlansKept(w, hash) && ReleasesKnown(w) && SentAsApproved(w.plans, w.sent)
  }

  lemma StepKeepsPlans(w: World, step: Step, hash: Snapshot -> string)
    requires Injective(hash) && PlansKept(w, hash) && Possible(w, step)
    ensures PlansKept(Next(w, step, hash), hash)
  {
    hide GuardPasses, Planned;
  }

  lemma StepKeepsReleases(w: World, step: Step, hash: Snapshot -> string)
    requires ReleasesKnown(w) && Possible(w, step)
    ensures ReleasesKnown(Next(w, step, hash))
  {
    hide GuardPasses, ApprovalRefused, ClaimRefused, ApproveMatches, ClaimMatches;
  }

  lemma PostKeepsSent(w: World, step: Step, hash: Snapshot -> string)
    requires Injective(hash) && PlansKept(w, hash) && ReleasesKnown(w) && SentAsApproved(w.plans, w.sent)
    requires Possible(w, step) && step.Post?
    ensures SentAsApproved(Next(w, step, hash).plans, Next(w, step, hash).sent)
  {
    var d := step.deployment;
    if GuardPasses(w.plans, d, step.held, step.live, step.source, hash) {
      forall i | 0 <= i < |w.plans| && w.plans[i].plan.release.Some? && w.plans[i].plan.release == d.release
        ensures w.plans[i].approved.Some? && Matches(Sent(d, step.live.route), w.plans[i].approved.value)
      {
        assert FindPlan(w.plans, d.release.value) == Some(i);
        GuardedRequestMatches(w.plans[i], step.held, d, step.live, step.source, hash);
      }
      hide ConstraintsHold, Matches, FindPlan, GuardPasses, UsedOnce, ApprovalOnRecord;
    }
  }

  lemma StepKeepsSent(w: World, step: Step, hash: Snapshot -> string)
    requires Injective(hash) && PlansKept(w, hash) && ReleasesKnown(w) && SentAsApproved(w.plans, w.sent) && Possible(w, step)
    ensures SentAsApproved(Next(w, step, hash).plans, Next(w, step, hash).sent)
  {
    if step.Post? {
      PostKeepsSent(w, step, hash);
    } else {
      hide GuardPasses, Matches, Injective, Planned, ApprovalRefused, ClaimRefused;
    }
  }

  lemma StepKeeps(w: World, step: Step, hash: Snapshot -> string)
    requires Injective(hash) && Kept(w, hash) && Possible(w, step)
    ensures Kept(Next(w, step, hash), hash)
  {
    StepKeepsPlans(w, step, hash);
    StepKeepsReleases(w, step, hash);
    StepKeepsSent(w, step, hash);
    hide Next, PlansKept, ReleasesKnown, SentAsApproved, Injective;
  }

  predicate PossibleRun(w: World, steps: seq<Step>, hash: Snapshot -> string)
    decreases |steps|
  {
    steps == [] || (Possible(w, steps[0]) && PossibleRun(Next(w, steps[0], hash), steps[1..], hash))
  }

  function RunTo(w: World, steps: seq<Step>, hash: Snapshot -> string): World
    requires PossibleRun(w, steps, hash)
    decreases |steps|
  {
    if steps == [] then w else RunTo(Next(w, steps[0], hash), steps[1..], hash)
  }

  lemma {:induction false} RunKeeps(w: World, steps: seq<Step>, hash: Snapshot -> string)
    requires Injective(hash) && Kept(w, hash) && PossibleRun(w, steps, hash)
    ensures Kept(RunTo(w, steps, hash), hash)
    decreases |steps|
  {
    if steps != [] {
      hide Kept, Next, Possible, Injective;
      StepKeeps(w, steps[0], hash);
      RunKeeps(Next(w, steps[0], hash), steps[1..], hash);
    }
  }

  /** Over every run: a plan is claimed at most once, launches at most one bundle, and every request of
      that bundle, by whichever session, matches an action of the snapshot its approver was shown. */
  lemma ApprovedPlansAreUsedOnceAndExactly(steps: seq<Step>, hash: Snapshot -> string)
    requires Injective(hash) && PossibleRun(World([], {}, [], []), steps, hash)
    ensures var w := RunTo(World([], {}, [], []), steps, hash);
            && (forall i :: 0 <= i < |w.plans| ==> w.plans[i].bundles <= w.plans[i].claims <= 1)
            && (forall i :: 0 <= i < |w.plans| && w.plans[i].claims == 1 ==> w.plans[i].approved.Some?)
            && SentAsApproved(w.plans, w.sent)
  {
    RunKeeps(World([], {}, [], []), steps, hash);
    hide RunTo, SentAsApproved, ReleasesKnown, PossibleRun;
  }

  // ---------------------------------------------------------------- the path of one plan

  predicate Edge(from: PlanStatus, to: PlanStatus) {
    || from == to
    || (from == Pending && to == Approved)
    || (from == Approved && to == Executing)
    || (from == Executing && to in {Executed, ExecutionFailed})
  }

  /** Every step moves every plan along pending, approved, executing, executed or failed; its digest and,
      once claimed, its release never change. */
  lemma PlansOnlyMoveForward(w: World, step: Step, hash: Snapshot -> string, i: nat)
    requires Kept(w, hash) && Possible(w, step) && i < |w.plans|
    ensures var before, after := w.plans[i].plan, Next(w, step, hash).plans[i].plan;
            && Edge(before.status, after.status)
            && after.digest == before.digest && after.project == before.project
            && (before.release.Some? ==> after.release == before.release)
  {
    hide Stale, GuardPasses, ReleasesKnown, SentAsApproved;
  }

  /** Not one request leaves for the bundle on the strength of a snapshot that is not the approved one. */
  lemma AlteredPlanSendsNothing(w: World, i: nat, d: Deployment, held: Plan, live: Live, source: Build, hash: Snapshot -> string)
    requires Injective(hash) && Kept(w, hash) && i < |w.plans| && Possible(w, Post(d, held, live, source))
    requires w.plans[i].plan.release.Some? && d.release == w.plans[i].plan.release
    requires w.plans[i].approved != Some(held.snapshot)
    ensures Next(w, Post(d, held, live, source), hash).sent == w.sent
  {
    assert FindPlan(w.plans, d.release.value) == Some(i);
    if ConstraintsHold(held, d, live, source, hash) {
      GuardedRequestMatches(w.plans[i], held, d, live, source, hash);
    }
  }

  lemma LaunchAppends(w: World, id: nat, hash: Snapshot -> string)
    requires Possible(w, Launch(id))
    ensures id < |w.plans| && w.plans[id].plan.release.Some?
    ensures var plan := w.plans[id].plan;
            Next(w, Launch(id), hash).deployments == w.deployments + Planned(plan.snapshot, plan.snapshot.actions, plan.release.value)
  {
  }

  lemma UnalteredIsApproved(t: Tracked, hash: Snapshot -> string)
    requires Injective(hash) && UsedOnce(t) && ApprovalOnRecord(t, hash)
    requires t.plan.release.Some? && hash(t.plan.snapshot) == t.plan.digest
    ensures t.approved == Some(t.plan.snapshot)
  {
    assert hash(t.approved.value) == hash(t.plan.snapshot);
  }

  /** The bundle of an unaltered plan holds exactly one deployment for each approved action. */
  lemma LaunchFollowsTheSnapshot(w: World, id: nat, snapshot: Snapshot, hash: Snapshot -> string)
    requires Injective(hash) && Kept(w, hash) && Possible(w, Launch(id))
    requires id < |w.plans| && w.plans[id].plan.snapshot == snapshot && hash(snapshot) == w.plans[id].plan.digest
    ensures w.plans[id].approved == Some(snapshot) && w.plans[id].plan.release.Some?
    ensures Next(w, Launch(id), hash).deployments == w.deployments + Planned(snapshot, snapshot.actions, w.plans[id].plan.release.value)
    ensures forall k :: 0 <= k < |snapshot.actions| ==>
              var d := Planned(snapshot, snapshot.actions, w.plans[id].plan.release.value)[k];
              && d.release == w.plans[id].plan.release && d.target == snapshot.target
              && d.component == snapshot.actions[k].component && d.build == snapshot.actions[k].build
              && d.commit == snapshot.actions[k].commit
  {
    LaunchAppends(w, id, hash);
    UnalteredIsApproved(w.plans[id], hash);
    hide Next, Planned, Kept, Possible, Injective;
  }

  // ---------------------------------------------------------------- what goes through, on the plan's own columns

  /** The copy is not expired, its digest is that of its snapshot, and a snapshot taken afresh is the same. */
  predicate UpToDate(seen: Plan, now: int, current: Snapshot, hash: Snapshot -> string) {
    now < seen.expires && hash(seen.snapshot) == seen.digest && current == seen.snapshot
  }

  /** Who is refused an approval, and with which error: nobody but a signed-in administrator may approve; the plan
      must be for production, asked for by its digest and up to date; and it must be executable. */
  lemma ApprovalRefusedIff(seen: Plan, digest: string, user: User, now: int, current: Snapshot, hash: Snapshot -> string)
    ensures var allowed := user.authEnabled && user.admin && user.login != "authentication-disabled";
            var fits := seen.snapshot.environment == "production" && digest == seen.digest && UpToDate(seen, now, current, hash);
            var refused := ApprovalRefused(seen, digest, user, now, current, hash);
            && (refused == Some(PermissionDenied) <==> !allowed)
            && (refused == Some(Conflict) <==> allowed && !fits)
            && (refused == Some(PipelineFailed) <==> allowed && fits && !current.executable)
            && (refused == None <==> allowed && fits && current.executable)
  {
  }

  lemma ClaimRefusedIff(seen: Plan, fullMode: bool, now: int, current: Snapshot, hash: Snapshot -> string)
    ensures var allowed := fullMode && seen.status == Approved && Named(seen.approvedBy) && seen.snapshot.environment == "production";
            var refused := ClaimRefused(seen, fullMode, now, current, hash);
            && (refused == Some(PermissionDenied) <==> !allowed)
            && (refused == Some(Conflict) <==> allowed && !UpToDate(seen, now, current, hash))
            && (refused == Some(PipelineFailed) <==> allowed && UpToDate(seen, now, current, hash) && !current.executable)
            && (refused == None <==> allowed && UpToDate(seen, now, current, hash) && current.executable)
  {
  }

  /** An approval takes effect exactly when it is not refused and the row is still pending, unexpired and of that
      digest; then it records who gave it and what was shown. */
  lemma ApprovalGoesThroughIff(w: World, step: Step, hash: Snapshot -> string)
    requires Possible(w, step) && step.Approve?
    ensures var t, t' := w.plans[step.id], Next(w, step, hash).plans[step.id];
            if && ApprovalRefused(step.seen, step.digest, step.user, step.readAt, step.current, hash) == None
               && t.plan.status == Pending && t.plan.digest == step.digest && step.now < t.plan.expires
            then t' == t.(plan := t.plan.(status := Approved, approvedBy := Some(step.user.login)), approved := Some(step.seen.snapshot))
            else t' == t
  {
    hide ApprovalRefused;
  }

  /** A claim takes effect exactly when it is not refused and the row is still approved, unexpired and of the digest
      that was read; then the plan is executing under the new release. */
  lemma ClaimGoesThroughIff(w: World, step: Step, hash: Snapshot -> string)
    requires Possible(w, step) && step.Claim?
    ensures var t, t' := w.plans[step.id], Next(w, step, hash).plans[step.id];
            if && ClaimRefused(step.seen, step.fullMode, step.readAt, step.current, hash) == None
               && t.plan.status == Approved && t.plan.digest == step.seen.digest && step.now < t.plan.expires
            then
              && t'.plan == t.plan.(status := Executing, release := Some(step.release)) && t'.run == Holding
              && t'.claims == t.claims + 1
            else t' == t
  {
    hide ClaimRefused;
  }

  /** The guard lets a request through exactly when no plan launched its release, or the plan is in force and the
      request is as planned. */
  lemma GuardPassesIff(plans: seq<Tracked>, d: Deployment, held: Plan, live: Live, source: Build, hash: Snapshot -> string)
    ensures GuardPasses(plans, d, held, live, source, hash) <==>
            || d.release == None
            || (forall i :: 0 <= i < |plans| ==> plans[i].plan.release != d.release)
            || (InForce(held, hash) && exists k :: 0 <= k < |held.snapshot.actions| && AsPlanned(held, d, live, source, k))
  {
    ConstraintsHoldIff(held, d, live, source, hash);
    hide ConstraintsHold, InForce, AsPlanned;
  }

  /** Each component has one action. */
  predicate OneActionEach(actions: seq<Action>) {
    forall i, j :: 0 <= i < j < |actions| ==> actions[i].component != actions[j].component
  }

  predicate StillClaimed(w: World, id: nat, plan: Plan) {
    && id < |w.plans| && w.plans[id].claims == 1
    && w.plans[id].plan == plan.(status := w.plans[id].plan.status, snapshot := w.plans[id].plan.snapshot)
  }

  /** Once a plan is claimed nothing but its status and its snapshot ever changes, and deployments stay. */
  lemma {:induction false} ClaimedPlanStays(w: World, steps: seq<Step>, id: nat, hash: Snapshot -> string)
    requires Injective(hash) && Kept(w, hash) && PossibleRun(w, steps, hash) && id < |w.plans| && w.plans[id].claims == 1
    ensures StillClaimed(RunTo(w, steps, hash), id, w.plans[id].plan)
    ensures w.deployments <= RunTo(w, steps, hash).deployments
    decreases |steps|
  {
    if steps != [] {
      ClaimedStepStays(w, steps[0], id, hash);
      StepKeeps(w, steps[0], hash);
      hide Next, Possible, Kept, Injective;
      ClaimedPlanStays(Next(w, steps[0], hash), steps[1..], id, hash);
    }
  }

  lemma ClaimedStepStays(w: World, step: Step, id: nat, hash: Snapshot -> string)
    requires Kept(w, hash) && Possible(w, step) && id < |w.plans| && w.plans[id].claims == 1
    ensures StillClaimed(Next(w, step, hash), id, w.plans[id].plan) && w.deployments <= Next(w, step, hash).deployments
  {
    hide GuardPasses, ApprovalRefused, ClaimRefused, ReleasesKnown, SentAsApproved, Planned;
  }

  /** Over every run after the launch of an approved plan, whatever else happens: as long as the plan's snapshot is
      the one launched, each of its deployments may be posted, and it is sent, at its action's route, exactly if the
      component is active there and the source build promotable on the action's commit. */
  lemma LaunchedDeploymentIsSentIff(w: World, id: nat, steps: seq<Step>, k: nat, live: Live, source: Build, hash: Snapshot -> string)
    requires Injective(hash) && Kept(w, hash) && Possible(w, Launch(id)) && PossibleRun(Next(w, Launch(id), hash), steps, hash)
    requires id < |w.plans| && Named(w.plans[id].plan.approvedBy) && hash(w.plans[id].plan.snapshot) == w.plans[id].plan.digest
    requires k < |w.plans[id].plan.snapshot.actions| && OneActionEach(w.plans[id].plan.snapshot.actions)
    ensures var plan, end := w.plans[id].plan, RunTo(Next(w, Launch(id), hash), steps, hash);
            var action := plan.snapshot.actions[k];
            var d := Deployment(plan.release, plan.project, action.component, action.build, action.commit, plan.snapshot.target);
            id < |end.plans| && end.plans[id].plan.snapshot == plan.snapshot ==>
              var post := Post(d, end.plans[id].plan, live, source);
              && Possible(end, post)
              && Next(end, post, hash).sent ==
                 end.sent + if live.route == action.route && live.active && !live.archived && source.status == "success"
                               && source.event == "push" && source.commit == action.commit
                            then [Sent(d, action.route)] else []
  {
    var plan, w1 := w.plans[id].plan, Next(w, Launch(id), hash);
    var action := plan.snapshot.actions[k];
    var d := Deployment(plan.release, plan.project, action.component, action.build, action.commit, plan.snapshot.target);
    StepKeeps(w, Launch(id), hash);
    LaunchAppends(w, id, hash);
    ClaimedPlanStays(w1, steps, id, hash);
    RunKeeps(w1, steps, hash);
    var end := RunTo(w1, steps, hash);
    assert w1.plans[id].plan == plan && w1.plans[id].claims == 1;
    assert DigestFitsProject(w.plans[id], hash);
    if end.plans[id].plan.snapshot == plan.snapshot {
      var ds := Planned(plan.snapshot, plan.snapshot.actions, plan.release.value);
      assert ds[k] == d && w1.deployments == w.deployments + ds;
      assert w1.deployments[|w.deployments| + k] == d && d in w1.deployments;
      PlannedPost(end, id, d, k, live, source, hash);
    }
  }

  /** The guard's decision about a deployment of a claimed and unaltered plan. */
  lemma PlannedPost(w: World, id: nat, d: Deployment, k: nat, live: Live, source: Build, hash: Snapshot -> string)
    requires Kept(w, hash) && id < |w.plans| && w.plans[id].claims == 1 && d in w.deployments
    requires var plan := w.plans[id].plan;
             && Named(plan.approvedBy) && hash(plan.snapshot) == plan.digest && OneActionEach(plan.snapshot.actions)
             && k < |plan.snapshot.actions|
             && d == Deployment(plan.release, plan.project, plan.snapshot.actions[k].component, plan.snapshot.actions[k].build,
                                plan.snapshot.actions[k].commit, plan.snapshot.target)
    ensures var plan, action := w.plans[id].plan, w.plans[id].plan.snapshot.actions[k];
            var post := Post(d, plan, live, source);
            && Possible(w, post)
            && Next(w, post, hash).sent ==
               w.sent + if live.route == action.route && live.active && !live.archived && source.status == "success"
                           && source.event == "push" && source.commit == action.commit
                        then [Sent(d, action.route)] else []
  {
    var plan := w.plans[id].plan;
    assert UsedOnce(w.plans[id]);
    assert FindPlan(w.plans, d.release.value) == Some(id);
    GuardPassesIff(w.plans, d, plan, live, source, hash);
    assert FirstFor(plan.snapshot.actions, d.component, k);
    assert InForce(plan, hash);
    if j :| 0 <= j < |plan.snapshot.actions| && AsPlanned(plan, d, live, source, j) {
      assert j == k;
    }
    hide GuardPasses, FindPlan, OneActionEach, Kept;
  }

  /** Two sessions that both read an approved plan: the second claim finds nothing left to take. */
  lemma SecondClaimLoses(w: World, first: Step, second: Step, hash: Snapshot -> string)
    requires first.Claim? && second.Claim? && first.id == second.id && first.release != second.release
    requires Possible(w, first) && Next(w, first, hash) != w && Possible(Next(w, first, hash), second)
    ensures Next(Next(w, first, hash), second, hash) == Next(w, first, hash)
  {
    assert Next(w, first, hash).plans[first.id].plan.status == Executing;
  }
}
