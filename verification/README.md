# Release controller: a verified model of the promotion protocol

The release controller promotes Drone builds to a target, follows the resulting deployments, and publishes
the result as Gitea releases.  Promotion is the dangerous part: Drone's promote call is not idempotent, its
reply can be lost, and API requests, the recovery worker, the CI runner and the schedule runner may all act on
the same deployment at once.  This project models the controller's state machines in Dafny and proves what
holds of them over every interleaving, crash and retry, and exactly when it stops holding.

## What is modelled, and how

One file per component.

* `base.dfy`, `drone.dfy`: options and counting; Drone builds, which build is adopted, stage verification.
* `rows.dfy`: the deployment and bundle rows as values.  Every write is a function from the row a session has
  loaded to the row it wants; `Merge` is what the ORM then commits: only the changed columns, events appended.
* `service.dfy`: the deployment service as a class whose methods assign fields and append events, each proved
  equal to its value-level write in `rows.dfy`; what those writes keep is stated in `reconcile.dfy`, `audit.dfy`
  and `table.dfy`.
* `outcomes.dfy`: what polls, promotes, retries and walks come to, by answer and column (`RowOutcomes`,
  `WalkOutcomes`), stated without the functions above.
* `table.dfy`: all deployments together, any number of sessions holding copies of any age, the conditional
  claim, the partial unique index, requests and deaths as separate steps.
* `reconcile.dfy`: a promote request whose reply never arrives.
* `audit.dfy`: the append-only event log read back.
* `bundle.dfy`, `timing.dfy`: one bundle under any number of sessions, each holding its own copies of all steps and
  of the bundle, with retries; and how long it can take (`TimeBound`, and `GuardedTime` for walks from copies).
* `stale.dfy`: the same bundle when sessions walk from copies of any age.
* `races.dfy`: runs from a created bundle in which a reply, a verdict or a walk comes too late.
* `walks.dfy`, `orchestrator.dfy`, `rescan.dfy`: the orchestrator's walk and the use case's bounded rescanning
  loop as functions, the two loops over mutable deployments proved against them, and when the two agree.
* `plans.dfy`: approved, single-use release plans and the guard before every request of a planned bundle.
* `ci.dfy`, `ci_outcomes.dfy`, `leases.dfy`: the CI inbox and its dispatch guard; what each of its jobs comes to, case by
  case; worker leases and concurrent acceptance.
* `publish.dfy`, `publish_bundle.dfy`: publishing one record, request by request, and a whole bundle.
* `notifications.dfy`: the event cursor (`Notifications`) and the delivery of the outbox (`Delivery`).
* `patch_rows.dfy`: the front end's keyed in-place list reconciliation.

Code that mutates is a class or a method with loops, proved against functions on values; properties of whole
runs are lemmas about those functions.  Drone, Gitea, clocks, mail and markup parsing are parameters: a step
carries the answer it gets, so every lemma holds for all answers.

## Assumptions the properties name

* In `Bundles` and `StaleWalks` a retry reads, resets and commits in one step.  In `PromotionTable` a retry may work
  from a copy of any age; nothing is supposed of it, and the bound counts the retries that found an attempt alive.
* In `Bundles` and `TimeBound` one walk up to its commit reads the rows it decides on in the step that commits.  A
  claim, its request, the record of the outcome and the verdict over the bundle after a refusal are always separate
  steps, the last three from copies read before.  `StaleWalks`, `AuditTrail` and `PromotionTable` need no such
  assumption: there every write may come from a copy of any age, and `AuditTrail` asks nothing of a copy but what
  the code looks at in it.
* A reply comes inside the workflow timeout of its own claim (`TimeBound.Allowed`).
* Component positions do not change while a bundle runs: the rows of a bundle keep their order.
* The publish sweep waits until the publisher it repairs is gone (`BundlePublishing.Orderly`);
  `EarlySweepFailsPublishedBundle` shows why.
* The digest function of release plans is injective.

## Where the code is weaker than its description

Each of these is a proved counterexample with the exact condition, or the premise, under which the property holds.

* A reply that arrives after another session has adopted the promotion and moved on puts a finished step back
  to DEPLOYING or FAILED, under a later step already at work (`LateReplyBreaksOrder`).
* A session whose request was refused commits the row first and the verdict over the bundle later, from its old
  copies of all steps and of the bundle.  If the bundle was retried in between, the verdict cancels steps of the new
  attempt and ends a bundle whose first step is at work; no refresh looks at it again (`StaleVerdictBreaksOrder`).
* The order of a bundle holds in every state exactly when every reply comes in turn and every such verdict finds
  its refusal standing (`OrderedReleaseIff`).  In turn means: a creation finds every earlier step succeeded and every
  later one in the queue; a refusal finds that in an open bundle, or repeats the verdict the bundle has.  The step
  itself need not be at work any more, so a late creation can reopen a succeeded step, and a finished bundle with it
  (`SuccessStaysIff`, `FinishedSuccessStaysIff`).  Two guards the code does not have would be enough: write a reply
  only over a row still PROMOTING, and a verdict only while the refused step shows the refusal
  (`GuardedReleaseIsOrdered`).
* A walk commits what it polled over rows that may have moved on since it loaded them.  `StaleWalks.OrderedReleaseIff`
  says exactly which walks keep the order, by what the session finds; `OldAdoptionBreaksOrder` is a run that does
  not.  The order alone does not protect work: a time-out recorded from an old copy overwrites a success and cancels a
  step whose request is on its way, and leaves the bundle in order (`OldTimeOutCancelsWork`, `WalkOverwrites`).
  Checking, before the commit, that the bundle and the steps the walk looked at are unchanged would exclude both
  (`StaleWalks.GuardedReleaseIsOrdered`, `UnchangedCallsOffNothing`).
* A late reply may also leave a bundle open for ever, with a cancelled step first (`LateReplyNeverEnds`).
* `retry_bundle` resets every row that has not succeeded, one with a request at Drone included.  One retry of such a
  row is enough for a second request with no failure on record (`InFlightRetryPromotesTwice`).  An orderly bundle has
  no such row to reset (`OrderlyRetryIsQuiet`); after a stale verdict there is one (`RetryRevivesAfterStaleVerdict`).
* The event log is right about the status exactly while every status a session stamps without writing it is the
  row's, and every one it writes without stamping it is the row's already (`LogDeterminesStatus`).  Runs in which it
  is not: a late timeout (`LateUnknownOutcomeMisleads`); a late announcement of a success that a reply has undone
  (`LateAnnouncementMisleads`); and a reset from the copy before the reply, which leaves a build number on the waiting
  row, so that the next attempt is found running without a word (`OldNumberMovesUnstamped`).
* Two sessions that poll from one copy record the same outage twice (`OverlappingPollsRepeatOutage`,
  `OutagesAreNewsIff`).  A reset from a copy loaded before an outage leaves the row with an error that the log has
  cleared, and an unknown outcome from a copy that already shows the error logs it without writing it
  (`OldResetKeepsOutage`, `RepeatedUnknownOutcomeMisleads`, `LogDeterminesPollError`).
* A request goes to the component's present coordinates, not to those the deployment's slot records, so a
  re-pointed component can be promoted twice (`RepointedComponentPromotesTwice`).
* A retried attempt whose request never reached Drone adopts the build of an earlier attempt
  (`UnsentRequestAdoptsOlderBuild`): adoption goes by the greatest number alone.
* The rescanning use case checks neither required stages nor the CI and plan guards.  It equals the
  orchestrator's walk exactly when none of them would have objected (`RescanRefinesIff`).
* With two CI components on one repository and target the dispatch guard may look up the other job and let a
  request pass that the creator's own job would have refused (`SharedRepositoryMissesGuard`).  Nothing
  leaves unchecked in a run exactly when every looked-up job has the creator's token and no later deadline
  (`GuardSufficesIff`, `GuardHoldsOverRunsIff`).
* A successful CI job says that its deployment was SUCCESS when the run looked at it; while the run reads the build
  back, and ever after, a late reply, a late cancellation or a retry may move the deployment on (`DeploymentStaysIff`, `SuccessIsLeftIff`).
* A CI run that outlives its lease can reopen a finished job (`OverrunReopensFinishedJob`,
  `FinishedJobReopensIff`).
* A release created on a tag that somebody else pushed meanwhile is recorded as published although the tag is
  on another commit (`ForeignTagIsRecorded`, `PublishedTagsMatchIff`; reading the tag once more would tell,
  `ForeignIffTagElsewhere`); an overtaken attempt can take a record back from PUBLISHED
  (`UnpublishedIff`, `OverlapUnpublishes`).
* The version check of a bundle is not a compare-and-swap: two publishers that overlap split a bundle over two
  versions (`OverlappingPublishersSplitVersions`, `OneVersionIff`).
* The recovery sweep counts all components, the publisher only those that publish: their verdicts can
  differ only when some component does not publish, and `VerdictsAgreeIff` says exactly when they do.
* Two overlapping notification passes never queue an event twice, but the later flush can leave a cursor that
  neither of them wrote (`CursorIsMixedIff`) and that is ahead of the next event in key order
  (`OverlappingPassesMissEvent`).  While no flush mixes the cursor, which a session can tell before it flushes and a
  compare-and-swap would rule out, nothing is missed (`UnmixedRunIsClear`, `FoundIsUnmixed`); the first that does
  misses an event at once exactly in a tie of timestamps (`MixedFlushMissesIff`).  With event ids that grow with time
  nothing is ever missed (`OverlappingPassesMissNothing`).
* The attempts limit of the outbox is looked at when rows are selected, not when they are claimed: k deliverers
  may exceed it by k - 1 (`SendsAreBounded`, `TwoDeliverersExceed`).
* A keyed row that changes its tag keeps the old one (`EqualsRebuildIff`).

The Drone client reports a promotion whose answer carries no number as a refusal
(`app/integrations/drone/client.py:113-115`), which the service records as FAILED although the build may exist; the
model follows it: such an answer is `PromoteRefused`.

## Model

| member | source | states |
|---|---|---|
| Drone.FindPromotionBuild | app/services/drone_build_service.py:96-117 | A build is found exactly when some listed build is a promotion of the source to the target, and it is the one with the greatest number |
| Drone.StagesSucceededMeans | app/services/ci_policy.py:11-26 | The verdict over required stages is that there is at least one and each is verified on its own |
| Drone.DuplicateStageIsRejected | app/services/ci_policy.py:15-18 | A build that lists a required stage twice is never accepted |
| Drone.StageVerifiedIff | app/services/ci_policy.py:11-26 | A required stage is accepted exactly when one stage of that name is listed, it is successful, and for a deployment some step other than the clone succeeded in it and none did anything but succeed or be skipped |
| Drone.FulfilsIff | app/integrations/drone/schemas.py:83-89 | A build counts as the promotion of a source to a target exactly by event, parent and target, and is verified exactly when commit and every required stage are right too |
| Rows.OnlyResetRequeues | app/services/deployment_service.py:520-587 | No poll and no promote outcome puts a row back to WAITING |
| Rows.FlushMeans | app/services/deployment_service.py:520-656 | A flush writes exactly the columns the session changed in its copy, whatever the table holds by now, and appends exactly its new events |
| RowOutcomes.PollMeans | app/services/deployment_service.py:520-587 | For every row and answer: over stays over; past the timeout WORKFLOW_TIMEOUT; DEPLOYING exactly while the build is pending, running or blocked; SUCCESS exactly when it succeeded and nothing is required, or event, parent, target, commit and every stage are right; FAILED with the code of each other case |
| RowOutcomes.LookingFor | app/services/deployment_service.py:360-409 | Without a build number the newest listed promotion of the row is adopted into the stage of waiting exactly if one is listed, and otherwise only the poll columns move and only a new condition is logged |
| RowOutcomes.PollMovesBundleIff | app/services/deployment_service.py:469-518 | A poll moves the bundle exactly when it adopts a promotion, to DEPLOYING in the stage of waiting |
| RowOutcomes.PromoteMeans | app/services/deployment_service.py:264-358 | For every answer: the guards refuse with their codes, a creation leaves the row DEPLOYING under its number in the stage of waiting, a lost reply leaves it PROMOTING with an unknown outcome on record, and each refusal fails it with its own code |
| RowOutcomes.PromoteMovesBundleIff | app/services/deployment_service.py:209-262 | The bundle goes to PROMOTING in the stage of asking, and to DEPLOYING in the stage of waiting exactly when a promotion was created |
| DeploymentService.Deployment.ClaimForPromotion | app/services/deployment_service.py:209-262 | The claim is won exactly from WAITING; the winner's row is PROMOTING with its start time kept or set, the loser's is untouched, and the bundle mirrors the winner |
| DeploymentService.Deployment.Promote | app/services/deployment_service.py:264-322 | A waiting row is claimed and then settled by the CI guard, the plan guard and Drone's answer, in that order, with status, stage, number, start time and codes as `Promoted` spells them out; any other row and its bundle are left alone |
| DeploymentService.Deployment.ReconcilePromotion | app/services/deployment_service.py:360-409 | A listed promotion is adopted as if its reply had come; otherwise only a poll failure is recorded |
| DeploymentService.Deployment.Refresh | app/services/deployment_service.py:520-587 | The whole new row after a poll, for terminal, timed out, unconfirmed, unreachable, running, successful and failed builds, spelled out by build status and column in `Polled`, and the bundle it moves |
| PromotionTable.RequestsPerAttempt | app/services/deployment_service.py:155-262 | Under arbitrarily stale and overlapping sessions, a deployment's requests are at most its claims, and its claims at most one more than its resets |
| PromotionTable.FlushNeverRequeues | app/services/deployment_service.py:520-656 | However old the copy, a write-back keeps the slot and never returns a row to WAITING |
| PromotionTable.SlotExclusivity | app/db/models/orchestration.py:54-81 | Over every interleaving, with copies of any age and retries of any kind, requests that reach a slot's coordinates never exceed one, plus the times a deployment of the slot left the active statuses, plus the requests of re-pointed components, plus the retries that found an attempt alive |
| PromotionTable.SlotBoundHolds | app/services/deployment_service.py:209-322 | For each deployment, claims plus being in the queue are at most exits plus being active plus resets of a living attempt |
| PromotionTable.NoDoublePromotion | app/db/models/orchestration.py:181-187 | While nothing of a slot has failed, been cancelled or been reset alive, and routes were kept, Drone gets at most one request for it |
| PromotionTable.OneHolderPerSlot | app/db/models/orchestration.py:181-187 | Over every run, of two deployments of one slot at most one is queued, promoting, deploying or deployed |
| PromotionTable.CreatedIff | app/services/deployment_service.py:155-207 | A deployment is created, waiting and blank, exactly when none of its slot is queued, promoting, deploying or deployed |
| PromotionTable.RetriedIff | app/services/release_orchestrator.py:283-326 | A reset is refused exactly when another deployment holds the slot of the row it would put back in the queue |
| PromotionTable.ExitCountedIff | app/services/deployment_service.py:604-656 | An exit is counted exactly when a queued, promoting, deploying or deployed row becomes FAILED or CANCELLED |
| PromotionTable.RevivesIffInFlight | app/services/release_orchestrator.py:299-309 | A retry in one step resets a living attempt exactly when it finds the row in flight, and no other step does |
| PromotionTable.QuietSlotExclusivity | app/services/release_orchestrator.py:299-309 | While no retry finds an attempt alive, the bound holds over exits and re-pointed requests alone |
| PromotionTable.OverlappingRetriesPromoteTwice | app/services/release_orchestrator.py:283-326 | Two retries from one failed copy: three requests, one exit, one reset of a living attempt |
| PromotionTable.InFlightRetryPromotesTwice | app/services/release_orchestrator.py:299-309 | A run with one retry in one step: two requests, nothing ever failed |
| PromotionTable.RepointedComponentPromotesTwice | app/services/deployment_service.py:271-293 | Two deployments in two slots send two requests to one set of coordinates |
| Reconciliation.EveryAttemptStartsFresh | app/services/deployment_service.py:209-262 | A claim of a new row and a claim of a reset row start the same kind of attempt |
| Reconciliation.LostReplyIsHarmless | app/services/deployment_service.py:301-409 | If a request reached Drone and its reply was lost or the process died, then after any number of polls that see nothing, the first poll that sees the build leaves row and bundle as the reply would have |
| Reconciliation.BlindPollsChangeNothing | app/services/deployment_service.py:360-448 | Polls that see no promotion change only poll bookkeeping and log |
| Reconciliation.OwnBuildIsFound | app/services/drone_build_service.py:96-117 | With growing numbers and no other promoter the attempt's own build is the one found |
| Reconciliation.PollResolvesTo | app/services/deployment_service.py:360-409 | An unconfirmed row adopts a build exactly when it is not timed out and a promotion is listed, and then the newest |
| Reconciliation.UnsentRequestAdoptsOlderBuild | app/services/drone_build_service.py:96-117 | An attempt whose request never left adopts an older attempt's build |
| Reconciliation.SlotKeptIffUnconfirmed | app/services/deployment_service.py:301-319 | A failed promote call keeps its slot exactly when its error leaves the outcome unknown |
| AuditTrail.LogDeterminesStatus | app/services/deployment_service.py:469-694 | With writes from copies of any age and shape, the status read back from the log is right in every committed state of a run exactly when every status stamped and not written was the row's, and every one written and not stamped was the row's already, with no recovery stamped in between |
| AuditTrail.LogDeterminesPollError | app/services/deployment_service.py:324-467 | The pending poll error is what the log says throughout a run exactly when no reset from a copy without one found one pending and no unknown outcome from a copy with that error found it gone |
| AuditTrail.OutagesAreNewsIff | app/services/deployment_service.py:411-448 | While the log is right about what is pending, every outage event of a run says something new exactly when every outage was recorded while the row did not have it pending |
| AuditTrail.OutagesAreNeverRepeated | app/services/deployment_service.py:411-448 | Then between two outage events of one code there is always a recovery, a retry or a different problem |
| AuditTrail.LateUnknownOutcomeMisleads | app/services/deployment_service.py:324-358 | A late timeout makes the log say PROMOTING for a row that is DEPLOYING |
| AuditTrail.OldNumberMovesUnstamped | app/services/deployment_service.py:520-587 | A run from a row in the queue, every copy a committed state of it, that ends DEPLOYING with a log that says PROMOTING |
| AuditTrail.LateAnnouncementMisleads | app/services/release_orchestrator.py:393-415 | Such a run that ends DEPLOYING with a log that says SUCCESS, because a standalone success is announced from the copy |
| AuditTrail.RepeatedUnknownOutcomeMisleads | app/services/deployment_service.py:324-358 | Such a run that ends without a poll error pending and with a log that says one is |
| AuditTrail.OverlappingPollsRepeatOutage | app/services/deployment_service.py:411-448 | Two polls from one copy that both fail write the same outage twice in a row |
| AuditTrail.OldResetKeepsOutage | app/services/deployment_service.py:658-694 | A reset from a copy loaded before an outage leaves the row with an error pending that the log has cleared |
| AuditTrail.SuccessIsLeftIff | app/services/deployment_service.py:469-694 | A committed write takes a deployment out of SUCCESS exactly if it is a known reply, a cancellation, a reset from a copy not in the queue, or a poll that changes its copy's status to anything but SUCCESS |
| Bundles.OrderedReleaseIff | app/services/release_orchestrator.py:351-378 | When each walk decides on the rows its commit finds: in every committed state of a run, crashes and retries included, the steps are successes, then at most one at work or failed, then only waiting or, once over, only cancelled, exactly when every reply comes in turn and every verdict a session commits from old copies finds its refusal standing |
| Bundles.StepInOrderIff | app/services/release_orchestrator.py:455-484 | When each walk decides on the rows its commit finds: one walk, reply, verdict from old copies, crash or retry keeps that order exactly when a reply, if it is one, comes in turn, and a verdict, if it is one, finds the first unfinished step failed with its own stage and code and nothing alive from there to its step |
| Bundles.PromotingReplyIsInTurn | app/services/deployment_service.py:301-322 | In an orderly bundle a reply that still finds its row PROMOTING comes in turn |
| Bundles.OwnRefusalStands | app/services/release_orchestrator.py:455-484 | A verdict whose own step still shows the refusal, behind successes, keeps the order |
| Bundles.GuardedReleaseIsOrdered | app/services/release_orchestrator.py:351-378 | With those two checks before every such commit, every run is in order throughout |
| Bundles.SuccessStaysIff | app/services/deployment_service.py:469-518 | In any state a succeeded step leaves SUCCESS exactly by a known reply to a request for it or by a verdict from copies that hold it as waiting |
| Bundles.FinishedSuccessStaysIff | app/services/release_orchestrator.py:486-504 | An orderly bundle that succeeded leaves SUCCESS exactly by a reply that reports a creation or by a verdict from old copies |
| Bundles.ClaimFollowsSuccess | app/services/release_orchestrator.py:363-378 | A walk claims a step only in a commit in which every earlier step has succeeded |
| Bundles.PassKeepsQueue | app/services/release_orchestrator.py:363-378 | A walk claims at most one queued step and leaves every other queued step exactly as it was |
| Bundles.RetryTouchesOnlyFinished | app/services/release_orchestrator.py:299-309 | Retrying an orderly bundle resets only failed and cancelled steps |
| Bundles.RetryInOrder | app/services/release_orchestrator.py:270-337 | A retry leaves an orderly bundle in order |
| Bundles.CreatedInOrder | app/services/release_orchestrator.py:134-226 | A bundle as it is created is in order |
| Bundles.FinishedBundleMeans | app/services/release_orchestrator.py:455-504 | When an orderly bundle is over, its status is SUCCESS, PARTIAL_FAILURE or FAILED exactly by which steps succeeded and failed, nothing waits or works, and stage and error are those of the only failed step |
| StaleWalks.FreshWalkIsAdvance | app/services/release_orchestrator.py:351-378 | A walk from a copy taken just before is the walk of the one-step model |
| StaleWalks.StepInOrderIff | app/services/release_orchestrator.py:339-378 | A walk from copies of any age keeps an orderly bundle in order exactly when: an adoption finds every earlier step succeeded, every later one queued, and the bundle open unless its copy of it was not DEPLOYING; a polled failure finds every earlier step succeeded and the same stage and code in row and bundle where its copies had them already; any other failure finds the first unfinished step failed with them and nothing alive from there on; a claim or a finish finds every earlier step succeeded; and no lost claim meets a cancelled step behind a success just written |
| StaleWalks.CarriesPlainly | app/services/release_orchestrator.py:455-484 | From a copy of the bundle without a verdict, that says simply that the failed row has the stage and code the session records |
| StaleWalks.OrderedReleaseIff | app/services/release_orchestrator.py:339-378 | In every committed state of a run, with walks, replies and verdicts from copies of any age, crashes and retries, the bundle is in order exactly when every one of them was in turn |
| StaleWalks.WalkOverwrites | app/services/release_orchestrator.py:351-378 | In any state a walk from an old copy changes a step's status only by the poll of a step its copy has at work, by a claim the row itself allows, or by cancelling a step its copy has in the queue |
| StaleWalks.UnchangedWalkIsInTurn | app/services/release_orchestrator.py:351-378 | A walk that finds the bundle and the steps it looked at as it loaded them is in turn |
| StaleWalks.UnchangedCallsOffNothing | app/services/release_orchestrator.py:351-378 | Such a walk cancels only what is still in the queue and overwrites no success |
| StaleWalks.GuardedReleaseIsOrdered | app/services/release_orchestrator.py:351-378 | With that check and the two before replies and verdicts, every run is in order throughout, however old the copies |
| Races.LateReplyBreaksOrder | app/services/deployment_service.py:469-518 | A run in which a slow reply puts a succeeded first step back to work under a second step being promoted |
| Races.StaleVerdictBreaksOrder | app/services/deployment_service.py:301-319 | A run, all replies in turn, in which the verdict of a refused request lands on the retried bundle: first step PROMOTING, second CANCELLED, bundle FAILED, and no refresh changes it again |
| Races.LateReplyNeverEnds | app/services/release_orchestrator.py:351-378 | A run, with the reply inside its timeout, to an open bundle that no further run of refreshes, retries or crashes ever changes |
| Races.OldAdoptionBreaksOrder | app/services/deployment_service.py:360-409 | A run in which a session that loaded the bundle before an adoption commits its own last: the first step is back at DEPLOYING under a second being promoted |
| Races.OldTimeOutCancelsWork | app/services/deployment_service.py:520-587 | A run in which a time-out from an old copy overwrites a success and cancels the step whose request is on its way, the bundle in order before and after |
| Races.OrderlyRetryIsQuiet | app/services/release_orchestrator.py:299-309 | In an orderly bundle every row a retry resets has failed or been cancelled, so the retry revives nothing in the table of all deployments |
| Races.RetryRevivesAfterStaleVerdict | app/services/release_orchestrator.py:270-337 | A run after which the retry is allowed and resets a step whose request is with Drone |
| TimeBound.OverInTime | app/services/release_orchestrator.py:339-378 | When each refresh decides on the rows its commit finds, at least once per gap: a bundle of n steps is over after a gap plus n times timeout plus gap since its creation or its last retry, whatever Drone answers and whoever crashes |
| TimeBound.StaysOnSchedule | app/services/deployment_service.py:740-748 | The schedule that gives the bound is kept by every refresh, reply, verdict and crash, and begun anew by a retry |
| TimeBound.ReplyToResetRowNeverTimesOut | app/services/deployment_service.py:740-748 | A reply to an attempt that was reset leaves a row at work without a start time, which no timeout ever ends |
| GuardedTime.GuardedWalkIsAdvance | app/services/release_orchestrator.py:339-378 | A walk from a copy however old that finds rows and bundle as it loaded them does what one reading them in its commit does |
| GuardedTime.OverInTime | app/services/release_orchestrator.py:339-378 | The same bound when walks start from copies of any age and commit only over rows and bundle as they loaded them |
| Walks.WalkIsPassThenReply | app/services/release_orchestrator.py:351-378 | An uninterrupted walk is a walk up to its commit followed by the outcome of the request it claimed |
| Walks.UndisturbedConclusion | app/services/deployment_service.py:301-319 | With nobody else at work, the verdict a session commits from its copies after a refusal is the one the uninterrupted walk ends with |
| Walks.RescanRefinesIff | app/usecase/orchestration/_promotion.py:394-441 | The rescanning walk and the single walk give the same rows, events and bundle exactly when no guard that the former lacks would have objected on the way |
| Walks.PollsAgreeIff | app/usecase/orchestration/_promotion.py:184-239 | The two polls agree exactly when a reported success shows its required stages; otherwise one fails and the other succeeds |
| Walks.PromotesAgreeIff | app/usecase/orchestration/_promotion.py:65-86 | The two promotes agree exactly when both guards let the request pass |
| WalkOutcomes.WalkMeans | app/services/release_orchestrator.py:351-378 | A walk passes what has succeeded and acts on the first step that has not: cancelled ends it, failed stops the bundle, waiting is promoted, at work is polled, and what becomes of it decides between stopping, going on and ending here |
| WalkOutcomes.WalkFinishes | app/services/release_orchestrator.py:486-498 | Past the last step the bundle is SUCCESS in both statuses and in no stage |
| WalkOutcomes.FailureMeans | app/services/release_orchestrator.py:455-484 | When a bundle fails exactly its waiting steps are cancelled, and it is PARTIAL_FAILURE exactly if some step succeeded, with stage and code of the failed one |
| WalkOutcomes.RetryMeans | app/services/release_orchestrator.py:270-326 | A retry is allowed exactly for a failed bundle that published nothing and has an unfinished step, and puts exactly those steps and the bundle back as they were created |
| WalkOutcomes.RescanPollMeans | app/usecase/orchestration/_promotion.py:184-239 | The rescanning use case's poll comes to the same but takes Drone's word for success |
| WalkOutcomes.RescanPromoteMeans | app/usecase/orchestration/_promotion.py:65-154 | Its promote comes to the same with both guards silent |
| Orchestrator.CancelLater | app/services/release_orchestrator.py:467-473 | Exactly the waiting steps are cancelled |
| Orchestrator.FailBundle | app/services/release_orchestrator.py:455-484 | Waiting steps are cancelled and the bundle takes stage and code of the failed step and its status from whether some step succeeded |
| Orchestrator.Advance | app/services/release_orchestrator.py:351-378 | The loop over mutable steps leaves all rows and the bundle as the walk says |
| Orchestrator.WalkTurn | app/services/release_orchestrator.py:363-378 | One turn visits a step, then stops, fails the bundle or goes on |
| Orchestrator.RetryBundle | app/services/release_orchestrator.py:270-337 | A retry starts exactly when the bundle failed, is unpublished and has an unfinished step, and says which of these is missing otherwise; then all unfinished steps are reset and walked from the front |
| Orchestrator.RefreshBundle | app/services/release_orchestrator.py:339-349 | A bundle that is over is left alone, any other is walked |
| Orchestrator.RefreshStandalone | app/services/release_orchestrator.py:393-415 | A bundled deployment is refused; a standalone one is promoted or polled, and a success is announced on every call |
| RescanUseCase.Promote | app/usecase/orchestration/_promotion.py:65-154 | A waiting row is claimed and settled by Drone's answer alone |
| RescanUseCase.Refresh | app/usecase/orchestration/_promotion.py:184-239 | The whole new row after a poll without stage verification |
| RescanUseCase.NextDecision | app/usecase/orchestration/_promotion.py:404-414 | The step decided on is the first that has not succeeded |
| RescanUseCase.RoundIsTurn | app/usecase/orchestration/_promotion.py:404-429 | Acting on the front and scanning again from the start is walking on, and a success moves the front |
| RescanUseCase.Advance | app/usecase/orchestration/_promotion.py:394-431 | The bounded loop always settles within one round per step and one more, and its result is the rescanning walk's |
| ReleasePlans.ReleasePlan.Approve | app/services/release_plan_service.py:197-230 | A plan is approved exactly when the checks on the copy read and the conditional update on the row both pass, and the error is that of the first that does not |
| ReleasePlans.ReleasePlan.Claim | app/services/release_plan_service.py:267-298 | A plan is claimed exactly when the checks and the conditional update pass, and then carries its release; the error is that of the first that does not |
| ReleasePlans.ApprovedPlansAreUsedOnceAndExactly | app/services/release_plan_service.py:197-315 | Over every run a plan is claimed at most once, launches at most one bundle, and every request of that bundle matches an action of the snapshot its approver was shown |
| ReleasePlans.GuardedRequestMatches | app/services/planned_deployment_guard.py:13-55 | The guard of a planned deployment passes exactly when its plan is in force and the request is as planned; and what passes matches the approved snapshot, however old the session's copy and even if the stored snapshot was altered |
| ReleasePlans.GuardPassesIff | app/services/planned_deployment_guard.py:13-55 | A request passes exactly if no plan launched its release, or the plan is executing, executed or failed in execution, approved by somebody, with its own digest, and the request is what its action says: project, target, build, commit, route, an active component, and a source build that succeeded on a push of that commit |
| ReleasePlans.LaunchedDeploymentIsSentIff | app/services/release_plan_service.py:232-315 | Over every run after the launch of an unaltered plan, each of its deployments is sent at its action's route exactly if the component is active there and the source build promotable on the action's commit |
| ReleasePlans.ApprovalRefusedIff | app/services/release_plan_service.py:197-218 | Which of the three errors an approval gets, and exactly when it gets none |
| ReleasePlans.ClaimRefusedIff | app/services/release_plan_service.py:267-281 | Which of the three errors a claim gets, and exactly when it gets none |
| ReleasePlans.ApprovalGoesThroughIff | app/services/release_plan_service.py:197-230 | An approval that is not refused takes effect exactly on a pending, unexpired row of that digest, and records who gave it |
| ReleasePlans.ClaimGoesThroughIff | app/services/release_plan_service.py:267-298 | A claim that is not refused takes effect exactly on an approved, unexpired row of the digest read, which is executing from then on |
| ReleasePlans.PlansOnlyMoveForward | app/services/release_plan_service.py:197-315 | A plan only moves pending, approved, executing, executed or failed; digest and release never change |
| ReleasePlans.AlteredPlanSendsNothing | app/services/planned_deployment_guard.py:21-50 | Nothing is sent on the strength of a snapshot that is not the approved one |
| ReleasePlans.LaunchFollowsTheSnapshot | app/services/release_plan_service.py:232-253 | The bundle of an unaltered plan holds one deployment per approved action, with its component, build, commit and target |
| ReleasePlans.SecondClaimLoses | app/services/release_plan_service.py:282-296 | A second claim of a claimed plan changes nothing |
| CiInbox.Inbox.Advance | app/services/ci_deployment_service.py:230-331 | A waiting job is refused, held, given a new deployment or an existing one, in the order of the checks |
| CiInbox.Inbox.Examine | app/services/ci_deployment_service.py:272-331 | From the source build on: identity, state, stages, deadline, then creation or adoption with the link in the same commit |
| CiInbox.Inbox.Work | app/services/ci_deployment_service.py:230-375 | A run of a job: an unlinked job is advanced, and a linked one follows its deployment in the same run |
| CiInbox.Inbox.Track | app/services/ci_deployment_service.py:333-375 | A linked job follows its deployment, with status and code for each look and each read-back as `FollowedTo` spells them out: SUCCESS exactly on a successful deployment whose promotion build is read back and right in source, target, commit and every stage |
| CiOutcomes.TrackMeans | app/services/ci_deployment_service.py:333-375 | From an open linked job: SUCCESS exactly on such a look and read-back, DEPLOYING exactly while the deployment is at work or a failed read-back is early, FAILED with the code of each other case; nothing but this job changes |
| CiOutcomes.SourceGateMeans | app/services/ci_deployment_service.py:239-300 | The gate of a waiting job for everything a run may see, each refusal and each wait with its code; a pending, running, blocked or waiting source build is waited for |
| CiOutcomes.AdvanceMeans | app/services/ci_deployment_service.py:239-331 | What a run makes of a waiting job: refused, waiting, or linked to a new deployment in its token's name where the slot is free and otherwise to the holder, if that is for the same commit and branch |
| CiInbox.WorkIsSteps | app/services/ci_deployment_service.py:230-375 | Such a run, undisturbed, is an advance, whatever refreshing does to the deployment, a look at the result, and what the job makes of it |
| CiInbox.GatePassedMeans | app/services/ci_deployment_service.py:239-300 | What passes the source checks is in time, authorised, routed as recorded, promotable and shows every required source stage |
| CiInbox.JobsAreSound | app/services/ci_deployment_service.py:230-375 | Over every run a linked job and its deployment agree on connection, repository, build, target, commit and branch, and a successful job became so from a look at its deployment that found it SUCCESS in some state of the run, and on a promotion of exactly that with every required stage once, successful and with a real step |
| CiInbox.LooksAreReal | app/services/ci_deployment_service.py:333-345 | Whatever happens while a run reads the build back, what it has in hand of the deployment is what the deployment was in some state of the run |
| CiInbox.DeploymentStaysIff | app/services/ci_deployment_service.py:333-375 | That deployment stays SUCCESS until another session writes another status over it; no step of the inbox does |
| CiInbox.LookupFindsCreator | app/services/ci_policy.py:29-38 | While no two jobs want one slot the guard's lookup returns the creator's own job |
| CiInbox.DispatchIsNeverUnchecked | app/services/ci_policy.py:29-52 | Then every request of a deployment a job created, whoever sends it, left with the token active, the deadline open and the component as recorded |
| CiOutcomes.PostLeavesIff | app/services/ci_policy.py:29-52 | A request leaves exactly if no job is linked to its deployment, or it is in another name, or the looked-up job's token is active, its deadline open and its component in use where recorded |
| CiOutcomes.SentRequestsMayLeave | app/services/ci_policy.py:29-52 | While no two jobs want one slot, those three facts held for the creating job whenever a request of its deployment left |
| CiInbox.GuardIsCreatorsIff | app/services/ci_policy.py:29-52 | The guard asks what the creator's job would ask, at every moment, exactly when the job it looked up has the creator's token and deadline |
| CiInbox.GuardSufficesIff | app/services/ci_policy.py:29-52 | At no moment does a request pass that the creator's job would refuse, exactly when the looked-up job has the creator's token and no later deadline |
| CiInbox.GuardHoldsOverRunsIff | app/services/ci_policy.py:29-52 | Over a run, at whatever moments its requests leave, none leaves unchecked exactly when every look-up returned such a job |
| CiInbox.SharedRepositoryMissesGuard | app/services/ci_deployment_service.py:310-331 | A run with two jobs on one repository and target in which a request leaves although its creator's token is revoked |
| JobLeases.JobRow.ClaimLease | app/services/ci_deployment_service.py:190-207 | The lease is taken, for five minutes, exactly when the job is neither successful nor failed and its lease is free or over |
| JobLeases.ClaimGrantsIff | app/services/ci_deployment_service.py:190-207 | Among many jobs a claim grants that lease to a new run, from the worker's reading of the clock, exactly then, and does nothing otherwise |
| JobLeases.LeasedWorkIsExclusive | app/services/ci_deployment_service.py:190-228 | Over every run whose workers write within their lease: no two work on one job, the last event is the job's state, no event repeats the one before it, and two accept calls return one job exactly when they asked for one component, build and target |
| JobLeases.FinishedForGood | app/services/ci_deployment_service.py:190-228 | A finished job keeps its status, code and events over the rest of such a run |
| JobLeases.FinishedJobChangesIff | app/services/ci_deployment_service.py:190-228 | In any state, a step changes a finished job exactly if it is the write of a run of that job that moves its own copy's status or code, or a link to something neither copy nor row has |
| JobLeases.FinishedJobReopensIff | app/services/ci_deployment_service.py:208-218 | It reopens one exactly if it moves its own copy on to a status that is not final |
| JobLeases.EndClearsOnlyOwnLease | app/services/ci_deployment_service.py:219-228 | The end of a run clears its own lease and no other |
| JobLeases.StepKeepsIntents | app/services/ci_deployment_service.py:87-151 | Two jobs always differ in component, source build or target, and every call is answered with a job that has the three it asked for, whatever the workers do |
| JobLeases.CallsAreAnswered | app/services/ci_deployment_service.py:101-151 | Over every run, for every two accept calls in it: an answered call got a job of the component, build and target it asked for, and both got one job exactly if they asked for the same three |
| JobLeases.InsertAddsIff | app/services/ci_deployment_service.py:120-151 | An accept call adds a job, waiting and on its own terms, exactly if there is none for its component, build and target |
| JobLeases.OverrunReopensFinishedJob | app/services/ci_deployment_service.py:208-218 | A run from the empty queue, for any intent, in which a worker past its lease moves the job that the next worker has failed back to DEPLOYING |
| Publishing.Gitea.EnsureRelease | app/services/publish_service.py:226-271 | Whatever others write between its requests and whichever request or reply is lost, outcome and Gitea are those of the attempt's requests in their order, the re-reading after a conflict included |
| Publishing.AttemptMeans | app/services/publish_service.py:226-271 | No attempt moves a tag, and one that reports success leaves tag and release there, the tag on its commit exactly when its release did not land on a bare tag on another commit |
| Publishing.QuietAttempt | app/services/publish_service.py:226-271 | Undisturbed it is refused exactly when the tag is on another commit, breaks off exactly when a release has lost its tag, finds exactly what is there, and otherwise changes nothing but to create what is missing |
| Publishing.QuietConflict | app/services/publish_service.py:249-271 | An attempt whose create request meets a release is content exactly with a tag on its own commit and changes nothing |
| Publishing.AttemptIsARun | app/services/publish_service.py:226-271 | Every such attempt is a run of the interleaved model, request by request and write by write |
| Publishing.PublishRecord.Publish | app/services/publish_service.py:93-158 | A published record is left alone; any other is begun and then settled by such an attempt |
| Publishing.FinishMeans | app/services/publish_service.py:118-158 | The end of an attempt marks its record PUBLISHED exactly if the release was found or created, and otherwise FAILED with the reason, and touches no other record |
| Publishing.TagsNeverMove | app/services/publish_service.py:226-271 | Over any run no tag moves and each tag gets at most one release from this controller |
| Publishing.PublishedTagsMatchIff | app/services/publish_service.py:226-271 | Every published record's tag is on its commit throughout a run exactly when no attempt whose release landed on a bare tag on another commit gets to record it |
| Publishing.ForeignIffTagElsewhere | app/services/publish_service.py:249-262 | For an attempt that has created its release, reading the tag once more tells exactly whether it landed on such a tag |
| Publishing.ForeignTagIsRecorded | app/services/publish_service.py:226-271 | A run that ends with a record published under a tag on another commit |
| Publishing.TogetherIsSafe | app/services/publish_service.py:247-258 | Writers that create tag and release together never make that happen |
| Publishing.PublishedForGood | app/services/publish_service.py:93-158 | While attempts at one record do not overlap, a published record stays as it is |
| Publishing.UnpublishedIff | app/services/publish_service.py:102-132 | A record leaves PUBLISHED exactly by the failed end of an overtaken attempt or by a beginning decided on an old copy that says FAILED |
| Publishing.OverlapUnpublishes | app/services/publish_service.py:287-302 | A run of two overlapping attempts that ends with a failed record and an existing release |
| BundlePublishing.ReleaseBundle.Publish | app/services/publish_orchestrator.py:90-150 | A publish starts exactly when the bundle is deployed, the version is allowed and something publishes; each publishing component's record follows its answer, published ones stay, others are untouched, and the status is the verdict over those that publish |
| BundlePublishing.PublishedAtMeans | app/services/publish_orchestrator.py:257-288 | What both verdicts count are the components whose record of the version says PUBLISHED |
| BundlePublishing.ReleaseBundle.Sweep | app/services/recovery_service.py:172-240 | Only a PUBLISHING bundle is touched, and only its status, by what the records say |
| BundlePublishing.OneVersionPerBundle | app/services/publish_orchestrator.py:90-150 | Over all orderly runs of publishing, partial failure, crash, sweep and publishing again: published records carry the bundle's version, their set only grows, and once there is one the status is never FAILED |
| BundlePublishing.NewBundleHasOneVersion | app/services/publish_orchestrator.py:90-150 | From a new bundle, over all such runs: all published records carry one version, the bundle's, and its status admits it |
| BundlePublishing.OneVersionIff | app/services/publish_orchestrator.py:350-364 | Whatever overlaps, the records carry the bundle's version throughout exactly when every start and every publication would have passed a compare-and-swap on it |
| BundlePublishing.VerdictsAgreeIff | app/services/publish_orchestrator.py:257-288 | The publisher's and the sweep's verdict agree for every bundle of which every component publishes, and otherwise exactly when nothing is published or neither all that publish nor all there is |
| BundlePublishing.OverlappingPublishersSplitVersions | app/services/publish_orchestrator.py:90-100 | Two publishers that both read the bundle first leave a record published under a version the bundle no longer has |
| BundlePublishing.EarlySweepFailsPublishedBundle | app/services/recovery_service.py:172-199 | A sweep during a publication leaves a FAILED bundle with a published record |
| Notifications.Notifier.EnqueueNewEvents | app/services/notification_service.py:263-359 | A pass adds one row for every selected event that has recipients and leaves the cursor on the last selected event |
| Notifications.SelectionIs | app/services/notification_service.py:276-291 | A pass selects exactly the visible notifiable events without a row that come after the cursor by timestamp and, at one timestamp, by id |
| Notifications.PassCompletes | app/services/notification_service.py:276-291 | After a pass every visible notifiable event has a row, in whatever order equal timestamps came back |
| Notifications.StepMissesNothingIff | app/services/notification_service.py:263-359 | A step passes over an event exactly when one becomes visible behind the cursor or a flush puts the cursor past one without a row |
| Notifications.StepKeepsRows | app/services/notification_service.py:300-359 | However passes overlap, no event ever has two rows and only visible notifiable events have any |
| Notifications.UnmixedRunIsClear | app/services/notification_service.py:263-359 | Over events in key order, however passes overlap, nothing is missed while no flush writes one column of a cursor that differs from its own in both |
| Notifications.FoundIsUnmixed | app/services/notification_service.py:263-359 | A flush that finds the cursor as its pass read it never does |
| Notifications.AloneRunIsUnmixed | app/services/notification_service.py:263-359 | Nor do passes one at a time |
| Notifications.MixedFlushMissesIff | app/services/notification_service.py:356-358 | The first flush that does misses an event at once exactly when one it has not selected carries the timestamp it leaves with an id not above the one it leaves |
| Notifications.OverlappingPassesMissNothing | app/services/notification_service.py:263-359 | With event ids that grow with time, overlapping passes never miss an event nor queue one twice |
| Notifications.ExactlyOnce | app/services/notification_service.py:263-359 | Flushes that do not mix the cursor over events in key order, or any over ids that grow with time, and one pass more: every notifiable event has exactly one row and nothing else has any |
| Notifications.CursorIsMixedIff | app/services/notification_service.py:356-358 | A flush leaves a cursor that is neither what it found nor what it meant exactly when it changed one of the two columns and differs from the row in both |
| Notifications.OverlappingPassesMissEvent | app/services/notification_service.py:356-358 | A run from the empty state, events in key order, in which two overlapping passes leave the next event behind the cursor without a row |
| Delivery.Outbox.DeliverPending | app/services/notification_service.py:361-430 | Undisturbed, each selected row is attempted once, and is SENT exactly if its mail was sent and otherwise FAILED and due again later; no other row changes |
| Delivery.SelectionMeans | app/services/notification_service.py:361-387 | A pass selects exactly the due rows, oldest first, up to its limit; a sent row is never selected nor claimed again |
| Delivery.FailuresWaitTwiceAsLong | app/services/notification_service.py:413-427 | A first failure waits the retry interval, and each further one twice as long as the one before |
| Delivery.DeliverPendingIsARun | app/services/notification_service.py:361-430 | Such a pass is a run of the interleaved model: it selects, then claims, sends and settles row after row, and leaves |
| Delivery.SendsAreBounded | app/services/notification_service.py:361-430 | With k deliverers, crashing and restarting at will, a row is sent at most as often as claimed, and claimed at most k - 1 times beyond the limit |
| Delivery.StepKeepsBound | app/services/notification_service.py:366-408 | Claims made and selections still held stay within the limit plus k - 1, and sendings within claims |
| Delivery.TwoDeliverersExceed | app/services/notification_service.py:366-408 | A run of two deliverers that sends a row twice with one attempt allowed |
| PatchRows.SurvivingKeyKeepsOneRow | frontend/src/controller.ts:227-250 | A key shared by old and new rows keeps exactly one old row, the last of its duplicates, at the first new row of that key |
| PatchRows.MatchesAreDistinct | frontend/src/controller.ts:227-250 | No old row is taken over twice |
| PatchRows.Node.PatchTo | frontend/src/controller.ts:238-248 | Afterwards attributes and inner markup are the new row's; the tag stays |
| PatchRows.Container.PlaceNext | frontend/src/controller.ts:251-252 | The row ends up behind those already placed, whether it stood at the cursor, further down or nowhere |
| PatchRows.Keyed | frontend/src/controller.ts:226-231 | The map holds every key of the old rows with the last node of that key |
| PatchRows.Patch | frontend/src/controller.ts:217-258 | Nothing happens without a container or on remembered markup; otherwise the children are the new rows in order, old nodes where keys survive, and a faithful container shows the markup exactly when it was remembered or the tags fit |
| PatchRows.NodeOfRow | frontend/src/controller.ts:210-258 | A row is shown by the last old node of its history id or, without one, of its build number, if it is the first new row of that name, and by a new node of its own tag otherwise |
| PatchRows.EqualsRebuildIff | frontend/src/controller.ts:217-258 | The patched list equals a full rebuild exactly when no surviving key changed its tag |

## Left out

- Bundles.OrderedReleaseIff: besides the outcome of a request and the verdict after a refusal, no session writes from copies older than its step; StaleWalks.OrderedReleaseIff drops that.
- StaleWalks.OrderedReleaseIff: a session loads the bundle and its steps at one moment, where the code reads them with two SELECTs, one right after the other; and a retry reads and resets in one step.
- TimeBound.OverInTime: supposes walks that decide on the rows their commit finds (GuardedTime: that find them as loaded), replies and verdicts in turn, replies inside the timeout, and no request outstanding at a retry; LateReplyNeverEnds and ReplyToResetRowNeverTimesOut show two of these are needed.
- Orchestrator.Advance, RescanUseCase.Advance: one uninterrupted walk; interleavings with other sessions are in Bundles.
- CiInbox.JobsAreSound: a run's own job row is read and written in one step, which JobLeases justifies; deployments move at any time in between, and DeploymentStaysIff says what may follow.
- JobLeases.LeasedWorkIsExclusive: supposes that a run writes only while its lease lasts; FinishedJobChangesIff says what any other write does to a finished job.
- BundlePublishing.ReleaseBundle.Publish: Gitea's answer per component is an input; what it does to tags is in Publishing.
- Notifications.ExactlyOnce: supposes that every event has recipients.
- `ReleaseBundle.next_decision` and the entity methods of the rescanning use case are taken to be the tests and field writes of the orchestrator and the deployment service.
- The plan guard's reads and the request it lets through are one step: the request carries what the guard read.
- Plan snapshots keep project, environment, target, actions, routes and whether they are executable; how a snapshot is assembled from candidates and checks is an input.
- Accepting a CI request checks scope, policy and component first; those look-ups decide only whether a job is asked for.
- A draft release creates no tag at Gitea; drafts, and tags moved or deleted by others, are not modelled.
- The deployment's and the record's publish columns other than status, code, version, tag and commit.
- Validation before a bundle is created (source builds, duplicate slots, targets): it only decides whether the bundle starts to exist.
- HTTP clients, retries of reads, SMTP, encryption, the ORM and BPMN: foreign calls whose answers are inputs.
- `resume_deployments` and `ordered_by_component`: which bundles are refreshed and the order of a bundle's steps are inputs.
- Deletion of deployment rows: the model never deletes one.
- Routes, schemas, dependency wiring, command line, MCP transport, migrations, and the front end except `patchRows`.
- Schedule claiming and the sweep of stale schedules: the same compare-and-swap in a weaker form.
- OAuth, redaction and attachment file names: text handling.
- Human-readable messages and timestamps other than start times, deadlines, leases and retry times.
