/** Worker leases on CI jobs, and the concurrent acceptance of one intent.

    A run claims a job with a conditional UPDATE, works from the copy it read after the claim, and gives
    the lease back by its own lease id.  Whatever it writes is flushed column by column over the row. */
module JobLeases {
  import opened Base
  import opened CiInbox
  import R = Rows

  const LEASE_SECONDS := 300

  datatype Lease = Lease(id: nat, until: int)

  datatype Leased = Leased(job: Job, lease: Option<Lease>)

  predicate Claimable(row: Leased, at: int) {
    !row.job.status.Terminal() && (row.lease == None || row.lease.value.until <= at)
  }

  // ---------------------------------------------------------------- the row, updated in place

  class JobRow {
    var job: Job
    var lease: Option<Lease>

    constructor (job: Job)
      ensures Value() == Leased(job, None)
    {
      this.job, lease := job, None;
    }

    function Value(): Leased
      reads this
    {
      Leased(job, lease)
    }

    method ClaimLease(id: nat, at: int) returns (won: bool)
      modifies this`lease
      ensures won <==>
                && old(job).status != Success && old(job).status != Failed
                && (old(lease) == None || old(lease).value.until <= at)
      ensures lease == if won then Some(Lease(id, at + 300)) else old(lease)
    {
      if job.status.Terminal() || (lease.Some? && lease.value.until > at) {
        return false;
      }
      lease := Some(Lease(id, at + LEASE_SECONDS));
      return true;
    }

    method ReleaseLease(id: nat)
      modifies this`lease
      ensures Value() == Released(old(Value()), id)
    {
      if lease.Some? && lease.value.id == id {
        lease := None;
      }
    }
  }

  function Released(row: Leased, id: nat): Leased {
    if row.lease.Some? && row.lease.value.id == id then row.(lease := None) else row
  }

  // ---------------------------------------------------------------- everything that can happen

  /** A worker between its claim and its end: the copy of the job it holds, and whether it may still write. */
  datatype Run = Run(job: nat, until: int, seen: Job, working: bool)

  datatype Key = Key(component: string, source: int, target: string)

  function KeyOf(job: Job): Key {
    Key(job.component, job.source, job.target)
  }

  /** Lease ids are drawn from `next`; `looking` are the accept calls that found no job, `answered` those
      that have returned one, each with what it asked for. */
  datatype Queue = Queue(
    clock: int,
    next: nat,
    jobs: seq<Leased>,
    runs: map<nat, Run>,
    looking: map<nat, Job>,
    answered: map<nat, (Job, nat)>)

  /** A run that meets an exception rolls back and reads its job again before it writes. */
  datatype Step =
    | Wait(to: int)
    | Claim(id: nat, at: int)
    | Write(run: nat, status: JobStatus, code: Option<Code>, commit: Option<string>, deployment: Option<nat>)
    | Reload(run: nat)
    | End(run: nat)
    | Die(run: nat)
    | Look(call: nat, wanted: Job)
    | Insert(call: nat)

  function FindKey(jobs: seq<Leased>, key: Key): (found: Option<nat>)
    ensures found.Some? ==> found.value < |jobs| && KeyOf(jobs[found.value].job) == key
    ensures found == None ==> forall j :: 0 <= j < |jobs| ==> KeyOf(jobs[j].job) != key
  {
    if jobs == [] then None
    else if KeyOf(jobs[0].job) == key then Some(0)
    else
      match FindKey(jobs[1..], key)
      case None => None
      case Some(j) => Some(j + 1)
  }

  predicate Possible(w: Queue, step: Step) {
    match step
    case Wait(to) => w.clock <= to
    case Claim(id, at) => id < |w.jobs| && at <= w.clock
    case Write(run, _, _, _, _) => run in w.runs && w.runs[run].working && w.runs[run].job < |w.jobs|
    case Reload(run) => run in w.runs && w.runs[run].job < |w.jobs|
    case End(run) => run in w.runs && w.runs[run].job < |w.jobs|
    case Die(run) => run in w.runs
    case Look(call, _) => call !in w.looking && call !in w.answered
    case Insert(call) => call in w.looking
  }

  /** What the run wants the job to be, computed on its copy by `transition`. */
  function Desired(seen: Job, step: Step): Job
    requires step.Write?
  {
    Moved(seen.(commit := step.commit, deployment := step.deployment), step.status, step.code)
  }

  function MergedJob(row: Job, seen: Job, after: Job): Job
    requires |seen.log| <= |after.log|
  {
    row.(status := R.Column(row.status, seen.status, after.status),
         code := R.Column(row.code, seen.code, after.code),
         commit := R.Column(row.commit, seen.commit, after.commit),
         deployment := R.Column(row.deployment, seen.deployment, after.deployment),
         log := row.log + after.log[|seen.log|..])
  }

  function Accepted(wanted: Job): Leased {
    Leased(wanted.(commit := None, deployment := None, status := WaitingSource, code := None,
                   log := [JobEvent(WaitingSource, None)]), None)
  }

  function Next(w: Queue, step: Step): Queue
    requires Possible(w, step)
  {
    match step
    case Wait(to) => w.(clock := to)
    case Claim(id, at) =>
      if Claimable(w.jobs[id], at) then
        w.(next := w.next + 1,
           jobs := w.jobs[id := w.jobs[id].(lease := Some(Lease(w.next, at + LEASE_SECONDS)))],
           runs := w.runs[w.next := Run(id, at + LEASE_SECONDS, w.jobs[id].job, true)])
      else w
    case Write(run, status, _, _, _) =>
      var r := w.runs[run];
      var after := Desired(r.seen, step);
      w.(jobs := w.jobs[r.job := w.jobs[r.job].(job := MergedJob(w.jobs[r.job].job, r.seen, after))],
         runs := w.runs[run := r.(seen := after, working := !status.Terminal())])
    case Reload(run) => w.(runs := w.runs[run := w.runs[run].(seen := w.jobs[w.runs[run].job].job)])
    case End(run) =>
      w.(jobs := w.jobs[w.runs[run].job := Released(w.jobs[w.runs[run].job], run)], runs := w.runs - {run})
    case Die(run) => w.(runs := w.runs - {run})
    case Look(call, wanted) =>
      (match FindKey(w.jobs, KeyOf(wanted))
       case Some(j) => w.(answered := w.answered[call := (wanted, j)])
       case None => w.(looking := w.looking[call := wanted]))
    case Insert(call) =>
      var wanted := w.looking[call];
      (match FindKey(w.jobs, KeyOf(wanted))
       case Some(j) => w.(looking := w.looking - {call}, answered := w.answered[call := (wanted, j)])
       case None =>
         w.(looking := w.looking - {call}, answered := w.answered[call := (wanted, |w.jobs|)],
            jobs := w.jobs + [Accepted(wanted)]))
  }

  /** A run writes only while its lease lasts. */
  predicate Timely(w: Queue, step: Step)
    requires Possible(w, step)
  {
    step.Write? ==> w.clock < w.runs[step.run].until
  }

  // ---------------------------------------------------------------- what every timely run keeps

  predicate LastEventIsState(job: Job) {
    job.log != [] && job.log[|job.log| - 1] == JobEvent(job.status, job.code)
  }

  predicate NoEqualNeighbours(log: seq<JobEvent>) {
    forall k :: 0 < k < |log| ==> log[k - 1] != log[k]
  }

  predicate LogHolds(job: Job) {
    LastEventIsState(job) && NoEqualNeighbours(job.log)
  }

  /** A run whose lease lasts owns it, and while it works its copy is the row and the row is open. */
  predicate OwnsLease(w: Queue, run: nat)
    requires run in w.runs
  {
    var r := w.runs[run];
    && run < w.next && r.job < |w.jobs|
    && (w.clock < r.until ==> w.jobs[r.job].lease == Some(Lease(run, r.until)))
    && (w.clock < r.until && r.working ==> r.seen == w.jobs[r.job].job && !r.seen.status.Terminal())
  }

  predicate LeasesHold(w: Queue) {
    && (forall run :: run in w.runs ==> OwnsLease(w, run))
    && (forall j :: 0 <= j < |w.jobs| && w.jobs[j].lease.Some? ==> w.jobs[j].lease.value.id < w.next)
    && (forall j :: 0 <= j < |w.jobs| ==> LogHolds(w.jobs[j].job))
  }

  /** No two unexpired runs hold one job. */
  predicate RunsApart(w: Queue) {
    forall a, b :: a in w.runs && b in w.runs && a != b && w.clock < w.runs[a].until && w.clock < w.runs[b].until ==>
      w.runs[a].job != w.runs[b].job
  }

  lemma LeasesKeepRunsApart(w: Queue)
    requires LeasesHold(w)
    ensures RunsApart(w)
  {
    forall a, b | a in w.runs && b in w.runs && a != b && w.clock < w.runs[a].until && w.clock < w.runs[b].until
      ensures w.runs[a].job != w.runs[b].job
    {
      assert OwnsLease(w, a) && OwnsLease(w, b);
    }
  }

  lemma TransitionKeepsLog(job: Job, commit: Option<string>, deployment: Option<nat>, status: JobStatus, code: Option<Code>)
    requires LogHolds(job)
    ensures LogHolds(Moved(job.(commit := commit, deployment := deployment), status, code))
    ensures job.log <= Moved(job.(commit := commit, deployment := deployment), status, code).log
  {
  }

  lemma MergeOfOwnCopy(seen: Job, after: Job)
    requires seen.log <= after.log && SameTerms(seen, after)
    ensures MergedJob(seen, seen, after) == after
  {
    assert after.log == seen.log + after.log[|seen.log|..];
  }

  lemma WriteKeepsLeases(w: Queue, step: Step)
    requires LeasesHold(w) && Possible(w, step) && step.Write? && Timely(w, step)
    ensures LeasesHold(Next(w, step))
  {
    var r := w.runs[step.run];
    assert OwnsLease(w, step.run);
    TransitionKeepsLog(r.seen, step.commit, step.deployment, step.status, step.code);
    MergeOfOwnCopy(r.seen, Desired(r.seen, step));
    var after := Desired(r.seen, step);
    assert after.status == step.status;
    LeasesKeepRunsApart(w);
    hide Desired, MergedJob, LogHolds, KeyOf;
    var w' := Next(w, step);
    forall run | run in w'.runs
      ensures OwnsLease(w', run)
    {
      assert OwnsLease(w, run);
    }
  }

  lemma ClaimKeepsLeases(w: Queue, step: Step)
    requires LeasesHold(w) && Possible(w, step) && step.Claim?
    ensures LeasesHold(Next(w, step))
  {
    hide LogHolds;
    var w' := Next(w, step);
    forall run | run in w'.runs
      ensures OwnsLease(w', run)
    {
      assert run in w.runs ==> OwnsLease(w, run);
    }
  }

  lemma InsertKeepsLeases(w: Queue, step: Step)
    requires LeasesHold(w) && Possible(w, step) && step.Insert?
    ensures LeasesHold(Next(w, step))
  {
    assert LogHolds(Accepted(w.looking[step.call]).job) && Accepted(w.looking[step.call]).lease == None;
    hide LogHolds, FindKey, Accepted, KeyOf;
    var w' := Next(w, step);
    forall run | run in w'.runs
      ensures OwnsLease(w', run)
    {
      assert OwnsLease(w, run);
    }
  }

  lemma QuietStepKeepsLeases(w: Queue, step: Step)
    requires LeasesHold(w) && Possible(w, step) && (step.Wait? || step.Reload? || step.End? || step.Die? || step.Look?)
    ensures LeasesHold(Next(w, step))
  {
    hide LogHolds, FindKey, KeyOf;
    var w' := Next(w, step);
    forall run | run in w'.runs
      ensures OwnsLease(w', run)
    {
      assert OwnsLease(w, run);
    }
  }

  lemma StepKeepsLeases(w: Queue, step: Step)
    requires LeasesHold(w) && Possible(w, step) && Timely(w, step)
    ensures LeasesHold(Next(w, step))
  {
    hide LeasesHold, Next, Timely;
    if step.Write? {
      WriteKeepsLeases(w, step);
    } else if step.Claim? {
      ClaimKeepsLeases(w, step);
    } else if step.Insert? {
      InsertKeepsLeases(w, step);
    } else {
      QuietStepKeepsLeases(w, step);
    }
  }

  /** A finished job never changes again: not its status, not its code, not its events. */
  lemma TerminalJobsNeverChange(w: Queue, step: Step, j: nat)
    requires LeasesHold(w) && Possible(w, step) && Timely(w, step)
    requires j < |w.jobs| && w.jobs[j].job.status.Terminal()
    ensures j < |Next(w, step).jobs| && Next(w, step).jobs[j].job == w.jobs[j].job
  {
    if step.Write? {
      assert OwnsLease(w, step.run);
    }
    hide MergedJob, KeyOf, LogHolds;
  }

  /** A run gives back no lease but its own. */
  lemma EndClearsOnlyOwnLease(w: Queue, run: nat, j: nat)
    requires Possible(w, End(run)) && j < |w.jobs|
    ensures Next(w, End(run)).jobs[j].lease ==
            if j == w.runs[run].job && w.jobs[j].lease.Some? && w.jobs[j].lease.value.id == run then None else w.jobs[j].lease
  {
  }

  // ---------------------------------------------------------------- one job per intent

  /** Both ask for the same component, source build and target. */
  predicate SameWish(a: Job, b: Job) {
    a.component == b.component && a.source == b.source && a.target == b.target
  }

  /** Two jobs always differ in component, source build or target. */
  predicate WishesDiffer(jobs: seq<Leased>) {
    forall i, j :: 0 <= i < j < |jobs| ==> !SameWish(jobs[i].job, jobs[j].job)
  }

  /** Every call was answered with a job for what it asked for. */
  predicate AnswersHold(w: Queue) {
    forall call :: call in w.answered ==>
      w.answered[call].1 < |w.jobs| && SameWish(w.jobs[w.answered[call].1].job, w.answered[call].0)
  }

  predicate IntentsHold(w: Queue) {
    WishesDiffer(w.jobs) && AnswersHold(w)
  }

  /** The look-up by key finds a job exactly when there is one for the same component, build and target. */
  lemma FindKeyMeans(jobs: seq<Leased>, wanted: Job)
    ensures match FindKey(jobs, KeyOf(wanted))
            case Some(j) => j < |jobs| && SameWish(jobs[j].job, wanted)
            case None => forall j :: 0 <= j < |jobs| ==> !SameWish(jobs[j].job, wanted)
  {
    if FindKey(jobs, KeyOf(wanted)) == None {
      forall j | 0 <= j < |jobs|
        ensures !SameWish(jobs[j].job, wanted)
      {
        assert KeyOf(jobs[j].job) != KeyOf(wanted);
      }
    }
  }

  lemma JobsKeepTheirWishes(w: Queue, step: Step)
    requires Possible(w, step)
    ensures |w.jobs| <= |Next(w, step).jobs|
    ensures forall j :: 0 <= j < |w.jobs| ==> SameWish(Next(w, step).jobs[j].job, w.jobs[j].job)
    ensures !step.Insert? ==> |Next(w, step).jobs| == |w.jobs|
  {
    hide Desired, FindKey, KeyOf;
  }

  lemma AppendKeepsUnique(jobs: seq<Leased>, row: Leased)
    requires WishesDiffer(jobs) && forall j :: 0 <= j < |jobs| ==> !SameWish(jobs[j].job, row.job)
    ensures WishesDiffer(jobs + [row])
  {
    hide SameWish;
  }

  lemma LookKeepsIntents(w: Queue, step: Step)
    requires IntentsHold(w) && Possible(w, step) && step.Look?
    ensures IntentsHold(Next(w, step))
  {
    FindKeyMeans(w.jobs, step.wanted);
    hide KeyOf, FindKey, WishesDiffer, SameWish;
  }

  lemma InsertKeepsIntents(w: Queue, step: Step)
    requires IntentsHold(w) && Possible(w, step) && step.Insert?
    ensures IntentsHold(Next(w, step))
  {
    var wanted := w.looking[step.call];
    FindKeyMeans(w.jobs, wanted);
    assert SameWish(Accepted(wanted).job, wanted);
    if FindKey(w.jobs, KeyOf(wanted)) == None {
      AppendKeepsUnique(w.jobs, Accepted(wanted));
    }
    hide Accepted, KeyOf, FindKey, WishesDiffer;
  }

  /** Whatever the workers do and however late, accept calls never make a second job for one component, build and
      target, and each is answered with a job for what it asked for. */
  lemma StepKeepsIntents(w: Queue, step: Step)
    requires IntentsHold(w) && Possible(w, step)
    ensures IntentsHold(Next(w, step))
  {
    if step.Insert? {
      InsertKeepsIntents(w, step);
    } else if step.Look? {
      LookKeepsIntents(w, step);
    } else {
      JobsKeepTheirWishes(w, step);
      assert Next(w, step).answered == w.answered;
      hide Next;
    }
  }

  /** An accept call adds a job exactly when there is none for its component, build and target: a waiting one, on the
      call's terms, that nobody has leased. */
  lemma InsertAddsIff(w: Queue, call: nat)
    requires Possible(w, Insert(call))
    ensures var wanted, w' := w.looking[call], Next(w, Insert(call));
            if exists j :: 0 <= j < |w.jobs| && SameWish(w.jobs[j].job, wanted) then w'.jobs == w.jobs
            else
              && |w'.jobs| == |w.jobs| + 1 && w'.jobs[..|w.jobs|] == w.jobs && w'.jobs[|w.jobs|].lease == None
              && w'.answered == w.answered[call := (wanted, |w.jobs|)]
              && w'.jobs[|w.jobs|].job ==
                 wanted.(commit := None, deployment := None, status := WaitingSource, code := None,
                         log := [JobEvent(WaitingSource, None)])
  {
    FindKeyMeans(w.jobs, w.looking[call]);
    hide KeyOf, FindKey;
  }

  /** The lease is granted exactly on an open job whose lease is free or over, for five minutes from the worker's
      reading of the clock. */
  lemma ClaimGrantsIff(w: Queue, id: nat, at: int)
    requires Possible(w, Claim(id, at))
    ensures var row, w' := w.jobs[id], Next(w, Claim(id, at));
            if row.job.status != Success && row.job.status != Failed && (row.lease == None || row.lease.value.until <= at) then
              && w'.jobs == w.jobs[id := row.(lease := Some(Lease(w.next, at + 300)))]
              && w'.runs == w.runs[w.next := Run(id, at + 300, row.job, true)]
            else w' == w
  {
  }

  // ---------------------------------------------------------------- what each call asked for

  predicate Remembered(w: Queue, call: nat, wanted: Job) {
    || (call in w.looking && call !in w.answered && w.looking[call] == wanted)
    || (call in w.answered && call !in w.looking && w.answered[call].0 == wanted)
  }

  lemma StepRemembers(w: Queue, step: Step, call: nat, wanted: Job)
    requires Possible(w, step)
    requires Remembered(w, call, wanted) || (step == Look(call, wanted))
    ensures Remembered(Next(w, step), call, wanted)
  {
    hide FindKey, KeyOf, Desired, MergedJob, Accepted;
  }

  lemma {:induction false} RunRemembers(w: Queue, steps: seq<Step>, call: nat, wanted: Job)
    requires PossibleRun(w, steps) && (Remembered(w, call, wanted) || Look(call, wanted) in steps)
    ensures Remembered(RunTo(w, steps), call, wanted)
    decreases |steps|
  {
    if steps != [] {
      hide Next, Possible, Remembered;
      if Remembered(w, call, wanted) || steps[0] == Look(call, wanted) {
        StepRemembers(w, steps[0], call, wanted);
      }
      RunRemembers(Next(w, steps[0]), steps[1..], call, wanted);
    }
  }

  lemma {:induction false} RunKeepsIntents(w: Queue, steps: seq<Step>)
    requires IntentsHold(w) && PossibleRun(w, steps)
    ensures IntentsHold(RunTo(w, steps))
    decreases |steps|
  {
    if steps != [] {
      hide Next, Possible, IntentsHold;
      StepKeepsIntents(w, steps[0]);
      RunKeepsIntents(Next(w, steps[0]), steps[1..]);
    }
  }

  predicate AnsweredIn(w: Queue, call: nat) {
    call in w.answered && w.answered[call].1 < |w.jobs|
  }

  /** Over every run from the empty inbox, whatever the workers do and however late: a call that was answered got a job
      for the component, source build and target it asked for; two calls got one job exactly when they asked for the
      same three; and two jobs always differ in one of them. */
  lemma CallsAreAnswered(clock: int, steps: seq<Step>, a: Step, b: Step)
    requires PossibleRun(Empty(clock), steps) && a in steps && b in steps && a.Look? && b.Look?
    requires a.call in RunTo(Empty(clock), steps).answered && b.call in RunTo(Empty(clock), steps).answered
    ensures var w := RunTo(Empty(clock), steps);
            && AnsweredIn(w, a.call) && AnsweredIn(w, b.call)
            && var i, j := w.answered[a.call].1, w.answered[b.call].1;
               && w.jobs[i].job.component == a.wanted.component && w.jobs[i].job.source == a.wanted.source
               && w.jobs[i].job.target == a.wanted.target
               && (i == j <==> a.wanted.component == b.wanted.component && a.wanted.source == b.wanted.source
                               && a.wanted.target == b.wanted.target)
               && WishesDiffer(w.jobs)
  {
    var w := RunTo(Empty(clock), steps);
    RunKeepsIntents(Empty(clock), steps);
    RunRemembers(Empty(clock), steps, a.call, a.wanted);
    RunRemembers(Empty(clock), steps, b.call, b.wanted);
    hide RunTo, PossibleRun;
  }

  // ---------------------------------------------------------------- whole runs

  predicate PossibleRun(w: Queue, steps: seq<Step>)
    decreases |steps|
  {
    steps == [] || (Possible(w, steps[0]) && PossibleRun(Next(w, steps[0]), steps[1..]))
  }

  predicate TimelyRun(w: Queue, steps: seq<Step>)
    requires PossibleRun(w, steps)
    decreases |steps|
  {
    steps == [] || (Timely(w, steps[0]) && TimelyRun(Next(w, steps[0]), steps[1..]))
  }

  function RunTo(w: Queue, steps: seq<Step>): Queue
    requires PossibleRun(w, steps)
    decreases |steps|
  {
    if steps == [] then w else RunTo(Next(w, steps[0]), steps[1..])
  }

  /** Nothing accepted, nobody at work. */
  function Empty(clock: int): Queue {
    Queue(clock, 0, [], map[], map[], map[])
  }

  lemma {:induction false} RunKeeps(w: Queue, steps: seq<Step>)
    requires LeasesHold(w) && IntentsHold(w) && PossibleRun(w, steps) && TimelyRun(w, steps)
    ensures LeasesHold(RunTo(w, steps)) && IntentsHold(RunTo(w, steps))
    decreases |steps|
  {
    if steps != [] {
      hide Next, Possible, LeasesHold, IntentsHold, Timely;
      StepKeepsLeases(w, steps[0]);
      StepKeepsIntents(w, steps[0]);
      RunKeeps(Next(w, steps[0]), steps[1..]);
    }
  }

  lemma {:induction false} FinishedForGood(w: Queue, steps: seq<Step>, j: nat)
    requires LeasesHold(w) && PossibleRun(w, steps) && TimelyRun(w, steps) && j < |w.jobs| && w.jobs[j].job.status.Terminal()
    ensures j < |RunTo(w, steps).jobs| && RunTo(w, steps).jobs[j].job == w.jobs[j].job
    decreases |steps|
  {
    if steps != [] {
      hide Next, Possible, LeasesHold, Timely;
      StepKeepsLeases(w, steps[0]);
      TerminalJobsNeverChange(w, steps[0], j);
      FinishedForGood(Next(w, steps[0]), steps[1..], j);
    }
  }

  /** From an empty inbox, over every run whose workers write only while their lease lasts: no two of them
      work on one job at a time, each job's last event is its state and no event repeats the one before
      it, and two accept calls return one job exactly when they asked for one component, build and target. */
  lemma LeasedWorkIsExclusive(clock: int, steps: seq<Step>)
    requires PossibleRun(Empty(clock), steps) && TimelyRun(Empty(clock), steps)
    ensures var w := RunTo(Empty(clock), steps);
            && RunsApart(w)
            && (forall j :: 0 <= j < |w.jobs| ==> LastEventIsState(w.jobs[j].job) && NoEqualNeighbours(w.jobs[j].job.log))
            && WishesDiffer(w.jobs)
            && (forall a, b :: a in w.answered && b in w.answered ==>
                  (w.answered[a].1 == w.answered[b].1 <==> SameWish(w.answered[a].0, w.answered[b].0)))
  {
    var w := RunTo(Empty(clock), steps);
    RunKeeps(Empty(clock), steps);
    LeasesKeepRunsApart(w);
    hide RunTo, TimelyRun, OwnsLease, RunsApart;
  }

  // ---------------------------------------------------------------- runs that overstay their lease

  /** Exactly which steps change a finished job: the write of a run whose copy, read before the job was
      finished, differs from what the run wants in status or code, or in a link the row does not have yet. */
  lemma FinishedJobChangesIff(w: Queue, step: Step, j: nat)
    requires Possible(w, step) && j < |w.jobs| && w.jobs[j].job.status.Terminal()
    ensures j < |Next(w, step).jobs|
    ensures Next(w, step).jobs[j].job != w.jobs[j].job <==>
              && step.Write? && w.runs[step.run].job == j
              && var seen, row := w.runs[step.run].seen, w.jobs[j].job;
                 || step.status != seen.status || step.code != seen.code
                 || step.commit !in {seen.commit, row.commit} || step.deployment !in {seen.deployment, row.deployment}
  {
    hide FindKey, KeyOf, Accepted;
    if step.Write? && w.runs[step.run].job == j {
      var seen, row := w.runs[step.run].seen, w.jobs[j].job;
      var after := Desired(seen, step);
      if step.status != seen.status || step.code != seen.code {
        assert after.log[|seen.log|..] == [JobEvent(step.status, step.code)];
        assert |MergedJob(row, seen, after).log| == |row.log| + 1;
      } else {
        assert after.log[|seen.log|..] == [] && row.log + [] == row.log;
      }
    }
  }

  /** Exactly which steps reopen one: a run that moves its own copy on to a status that is not final. */
  lemma FinishedJobReopensIff(w: Queue, step: Step, j: nat)
    requires Possible(w, step) && j < |w.jobs| && w.jobs[j].job.status.Terminal()
    ensures j < |Next(w, step).jobs|
    ensures !Next(w, step).jobs[j].job.status.Terminal() <==>
              && step.Write? && w.runs[step.run].job == j
              && step.status != w.runs[step.run].seen.status && !step.status.Terminal()
  {
    hide FindKey, KeyOf, Accepted;
  }

  predicate Leads(w: Queue, step: Step, w': Queue) {
    Possible(w, step) && Next(w, step) == w'
  }

  predicate Reaches(w: Queue, steps: seq<Step>, end: Queue) {
    PossibleRun(w, steps) && RunTo(w, steps) == end
  }

  lemma Before(w: Queue, step: Step, w': Queue, rest: seq<Step>, end: Queue)
    requires Leads(w, step, w') && Reaches(w', rest, end)
    ensures Reaches(w, [step] + rest, end)
  {
    hide Next, Possible;
    assert ([step] + rest)[1..] == rest;
  }

  lemma {:induction false} After(w: Queue, steps: seq<Step>, last: Step, middle: Queue, end: Queue)
    requires Reaches(w, steps, middle) && Leads(middle, last, end)
    ensures Reaches(w, steps + [last], end)
    decreases |steps|
  {
    hide Next, Possible;
    if steps == [] {
      assert Reaches(end, [], end);
      Before(w, last, end, [], end);
      assert [] + [last] == [last] + [];
    } else {
      assert (steps + [last])[1..] == steps[1..] + [last];
      After(Next(w, steps[0]), steps[1..], last, middle, end);
    }
  }

  /** The first worker of an accepted job is slow: a second one takes the job over once the lease is over. */
  lemma TakenOver(wanted: Job, clock: int) returns (steps: seq<Step>, w: Queue)
    ensures Reaches(Empty(clock), steps, w) && w.clock == clock + LEASE_SECONDS
    ensures w.jobs == [Leased(Accepted(wanted).job, Some(Lease(1, clock + 2 * LEASE_SECONDS)))]
    ensures w.runs == map[0 := Run(0, clock + LEASE_SECONDS, Accepted(wanted).job, true),
                          1 := Run(0, clock + 2 * LEASE_SECONDS, Accepted(wanted).job, true)]
  {
    var job := Accepted(wanted).job;
    var over := clock + LEASE_SECONDS;
    var first, second := Run(0, over, job, true), Run(0, over + LEASE_SECONDS, job, true);
    var w1 := Empty(clock).(looking := map[0 := wanted]);
    var w2 := Queue(clock, 0, [Accepted(wanted)], map[], map[], map[0 := (wanted, 0)]);
    var w3 := w2.(next := 1, jobs := [Leased(job, Some(Lease(0, over)))], runs := map[0 := first]);
    var w4 := w3.(clock := over);
    w := w4.(next := 2, jobs := [Leased(job, Some(Lease(1, over + LEASE_SECONDS)))], runs := map[0 := first, 1 := second]);
    assert Leads(Empty(clock), Look(0, wanted), w1) && Leads(w1, Insert(0), w2);
    assert Leads(w2, Claim(0, clock), w3) && Leads(w3, Wait(over), w4) && Leads(w4, Claim(0, over), w);
    assert Reaches(w, [], w);
    hide Leads, Reaches, Accepted;
    Before(w4, Claim(0, over), w, [], w);
    Before(w3, Wait(over), w4, [Claim(0, over)] + [], w);
    Before(w2, Claim(0, clock), w3, [Wait(over)] + ([Claim(0, over)] + []), w);
    Before(w1, Insert(0), w2, [Claim(0, clock)] + ([Wait(over)] + ([Claim(0, over)] + [])), w);
    steps := [Look(0, wanted)] + ([Insert(0)] + ([Claim(0, clock)] + ([Wait(over)] + ([Claim(0, over)] + []))));
    Before(Empty(clock), Look(0, wanted), w1, [Insert(0)] + ([Claim(0, clock)] + ([Wait(over)] + ([Claim(0, over)] + []))), w);
  }

  /** The premise is needed: from the empty queue, for any intent, a worker that outlives its lease reopens the
      job that the worker which took it over has failed. */
  lemma OverrunReopensFinishedJob(wanted: Job, clock: int, code: Code, commit: string, deployment: nat)
    returns (steps: seq<Step>, late: Step)
    ensures PossibleRun(Empty(clock), steps) && PossibleRun(Empty(clock), steps + [late])
    ensures var w := RunTo(Empty(clock), steps);
            |w.jobs| == 1 && w.jobs[0].job.status == Failed && Possible(w, late) && !Timely(w, late)
    ensures var end := RunTo(Empty(clock), steps + [late]);
            |end.jobs| == 1 && end.jobs[0].job.status == Deploying
  {
    var taken, w := TakenOver(wanted, clock);
    var fail := Write(1, Failed, Some(code), None, None);
    late := Write(0, Deploying, None, Some(commit), Some(deployment));
    var failed := Next(w, fail);
    assert failed.jobs[0].job.status == Failed && failed.runs[0] == w.runs[0];
    FinishedJobReopensIff(failed, late, 0);
    var end := Next(failed, late);
    assert Possible(failed, late) && !Timely(failed, late) && |end.jobs| == 1;
    assert end.jobs[0].job.status == Deploying;
    hide Timely, Next, Possible, PossibleRun, RunTo, Accepted;
    After(Empty(clock), taken, fail, w, failed);
    steps := taken + [fail];
    After(Empty(clock), steps, late, failed, end);
  }
}
