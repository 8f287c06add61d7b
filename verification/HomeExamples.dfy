/**
 Two runs that reach what the promises about homes leave open: a home that is ready although its
 deletion has been requested, and one that stays pending although its job has failed for good.
 */
module HomeExamples {
  import opened Strings
  import opened HomeNames
  import opened Dynsec
  import opened HomeJobs
  import opened HomeJobsInvariant
  import opened HomeJobsSteps
  import opened HomeJobsRuns

  const ACCOUNT: Account := Account("suffix", "password")

  const ANSWERED: Fate := Fate(true, 0, {})

  /** Nothing there yet; all delays are one unit of time. */
  function Empty(): (w: World)
    ensures IsStart(w)
  {
    World(Config(1, 1, 1), 0, map[], 0, map[], 0, map[], Broker(map[], map[]), {}, map[], map[], {})
  }

  // ---------- one home with one provision job ----------

  /** Home 0 is pending, and its provision job 0 is the only row; the worker is idle. */
  predicate Waits(w: World, attempts: nat) {
    && w.tasks == map[] && w.jobs.Keys == {0} && w.homes.Keys == {0} && w.requested == {}
    && w.homes[0].state == Pending && !w.homes[0].deleted
    && w.jobs[0].home == 0 && w.jobs[0].operation == Provision && w.jobs[0].status == JobPending
    && w.jobs[0].attempts == attempts
  }

  lemma EnrolledWaits()
    ensures Inv(Take(Empty(), Enroll(0, ACCOUNT))) && Waits(Take(Empty(), Enroll(0, ACCOUNT)), 0)
  {
    hide Inv, Waits, Take, Empty;
    StartInv(Empty());
    StepKeeps(Empty(), Enroll(0, ACCOUNT));
    Enrolled();
    EnrolledRow();
  }

  lemma Enrolled()
    ensures Take(Empty(), Enroll(0, ACCOUNT)) == EnrollHome(Empty(), 0, ACCOUNT)
  {
    NotBlank(ACCOUNT.password);
    hide EnrollHome, Blank;
  }

  lemma EnrolledRow()
    ensures Waits(EnrollHome(Empty(), 0, ACCOUNT), 0)
  {
    EnrollEffect(Empty(), 0, ACCOUNT);
    hide EnrollHome, HomeMqttUsername;
  }

  lemma OnlyDue(jobs: map<nat, Job>, now: int)
    requires jobs.Keys == {0} && jobs[0].status == JobPending && jobs[0].nextRunAt <= now
    ensures FirstDue(jobs, now) == {0}
  {
    assert DueJobs(jobs, now) == {0};
    assert DueBefore(jobs, now, 0) == {};
  }

  /** When the job is due. */
  function Wake(w: World): int
    requires 0 in w.jobs
  {
    if w.jobs[0].nextRunAt < w.now then w.now else w.jobs[0].nextRunAt
  }

  /** The worker claims the job as soon as it is due. */
  lemma ClaimsIt(w: World, attempts: nat)
    requires Waits(w, attempts)
    ensures var w' := Take(Take(w, Tick(Wake(w))), Claim);
            var job := ClaimedJob(w.jobs[0], Wake(w));
            w' == w.(now := Wake(w), jobs := map[0 := job], tasks := map[0 := Task(job, Claimed)])
  {
    ClaimsOne(w.(now := Wake(w)));
    hide ClaimJobs, ClaimedJob;
  }

  lemma ClaimsOne(w: World)
    requires w.jobs.Keys == {0} && w.jobs[0].status == JobPending && w.jobs[0].nextRunAt <= w.now
    ensures var job := ClaimedJob(w.jobs[0], w.now);
            ClaimJobs(w) == w.(jobs := map[0 := job], tasks := map[0 := Task(job, Claimed)])
  {
    OnlyDue(w.jobs, w.now);
    hide FirstDue, ClaimedJob;
  }

  // ---------- ready although it is being deleted ----------

  lemma Requested(w: World, h: nat)
    requires h in w.homes && !w.homes[h].deleted
    ensures var w' := Take(w, DeleteHome(h));
            && w' == w.(homes := w'.homes, jobs := w'.jobs, nextJob := w'.nextJob, latest := w'.latest,
                        requested := w.requested + {h})
            && w'.homes == w.homes[h := w.homes[h].(state := Deleting)]
  {
    DeletionEffect(w, h);
    hide ScheduleHomeDeletion, ClearJobs;
  }

  /** Read, asked to be deleted, cleared, granted: the deletion comes in between. */
  lemma GrantedAfterRequest(w: World, fate: Fate, grantFate: GrantFate)
    requires Inv(w) && InPhase(w, 0, Claimed) && w.tasks[0].job.operation == Provision && w.tasks[0].job.home == 0
    requires 0 !in w.requested && fate.answered && grantFate.grant.answered && Willing(grantFate.grant.refused)
    ensures var w' := Take(Take(Take(Take(w, Read(0, true)), DeleteHome(0)), Clear(0, fate, true)),
                           Grant(0, grantFate));
            && 0 in w'.tasks && w'.tasks[0].job == w.tasks[0].job && w'.tasks[0].phase.Provisioned?
            && 0 in w'.requested && 0 in w'.homes && w'.homes[0].state == Deleting && Inv(w')
  {
    hide Inv, Take, HomeOk, Blank, HomeMqttUsername, Gone, Granted, Willing;
    LiveHome(w, 0);
    var home := w.homes[0];
    StepKeeps(w, Read(0, true));
    ReadEffect(w, 0);
    var w1 := Take(w, Read(0, true));
    StepKeeps(w1, DeleteHome(0));
    Requested(w1, 0);
    var w2 := Take(w1, DeleteHome(0));
    StepKeeps(w2, Clear(0, fate, true));
    ClearEffect(w2, 0, home, fate);
    var w3 := Take(w2, Clear(0, fate, true));
    StepKeeps(w3, Grant(0, grantFate));
    GrantEffect(w3, 0, home, grantFate);
  }

  const GRANTED: GrantFate := GrantFate(ANSWERED, ANSWERED, ANSWERED)

  function UpToClaim(): (steps: seq<Step>) { [Enroll(0, ACCOUNT), Tick(1), Claim] }

  lemma ClaimedNow(w: World)
    requires Inv(w) && Waits(w, 0)
    ensures var w' := Take(Take(w, Tick(Wake(w))), Claim);
            && Inv(w') && InPhase(w', 0, Claimed) && w'.tasks[0].job.operation == Provision && w'.tasks[0].job.home == 0
            && w'.requested == {}
  {
    hide Inv, Wake;
    ClaimsIt(w, 0);
    StepKeeps(w, Tick(Wake(w)));
    StepKeeps(Take(w, Tick(Wake(w))), Claim);
    hide Take;
  }

  /** The enrolled home's job is claimed. */
  lemma FirstClaim()
    ensures var w := Run(Empty(), UpToClaim());
            && Inv(w) && InPhase(w, 0, Claimed) && w.tasks[0].job.operation == Provision && w.tasks[0].job.home == 0
            && w.requested == {}
  {
    hide Take, Inv, InPhase, Waits, Wake, Empty, Run;
    EnrolledWaits();
    FirstWake();
    ClaimedNow(Take(Empty(), Enroll(0, ACCOUNT)));
    ThreeSteps(Empty(), Enroll(0, ACCOUNT), Tick(1), Claim);
  }

  lemma FirstWake()
    ensures var w := Take(Empty(), Enroll(0, ACCOUNT)); 0 in w.jobs && Wake(w) == 1
  {
    NotBlank(ACCOUNT.password);
    EnrollEffect(Empty(), 0, ACCOUNT);
    hide EnrollHome, Blank, HomeMqttUsername;
  }

  /** The home is ready, its deletion has been requested, and the cleanup row is still there. */
  lemma ReadyAfterRequestIsReachable()
    ensures var steps := UpToClaim() + [Read(0, true), DeleteHome(0), Clear(0, ANSWERED, true), Grant(0, GRANTED),
                                        Commit(0)];
            var w := Run(Empty(), steps);
            && 0 in w.requested && 0 in w.homes && w.homes[0].state == Ready && !w.homes[0].deleted
            && exists j :: JobsOf(w, 0) == {j} && w.jobs[j].operation == Cleanup
  {
    FirstClaim();
    hide Inv, InPhase, Take, Willing, JobsOf, UpToClaim, Empty;
    var w := Run(Empty(), UpToClaim());
    AllWilling();
    GrantedAfterRequest(w, ANSWERED, GRANTED);
    var last := [Read(0, true), DeleteHome(0), Clear(0, ANSWERED, true), Grant(0, GRANTED), Commit(0)];
    RunConcat(Empty(), UpToClaim(), last);
    FiveSteps(w, Read(0, true), DeleteHome(0), Clear(0, ANSWERED, true), Grant(0, GRANTED), Commit(0));
    var w' := Take(Take(Take(Take(w, Read(0, true)), DeleteHome(0)), Clear(0, ANSWERED, true)), Grant(0, GRANTED));
    StaleProvisionFrom(w', 0);
    CommitRequested(w', 0);
  }

  lemma AllWilling()
    ensures Willing({})
  {
  }

  lemma CommitRequested(w: World, j: nat)
    requires j in w.tasks
    ensures Take(w, Commit(j)).requested == w.requested
  {
    hide HomeAfter, RetriedJob;
  }

  lemma FiveSteps(w: World, a: Step, b: Step, c: Step, d: Step, e: Step)
    ensures Run(w, [a, b, c, d, e]) == Take(Take(Take(Take(Take(w, a), b), c), d), e)
  {
    hide Take;
    assert [a, b, c, d, e][1..] == [b, c, d, e];
    FourSteps(Take(w, a), b, c, d, e);
  }

  // ---------- pending although its job has failed ----------

  /** The last attempt has failed, and the home does not show it. */
  predicate IsStranded(w: World) {
    && 0 in w.homes && w.homes[0].state == Pending && 0 in w.stranded && w.requested == {}
    && w.jobs.Keys == {0} && w.jobs[0].home == 0 && w.jobs[0].operation == Provision && w.jobs[0].status == JobFailed
  }

  /** One attempt at a home that the database does not deliver. */
  function Attempt(w: World): seq<Step>
    requires 0 in w.jobs
  {
    [Tick(Wake(w)), Claim, Read(0, false), Commit(0)]
  }

  lemma OneAttempt(w: World, attempts: nat)
    requires Waits(w, attempts) && attempts < MAX_PROVISION_ATTEMPTS
    ensures var w' := Run(w, Attempt(w));
            if attempts + 1 < MAX_PROVISION_ATTEMPTS then Waits(w', attempts + 1) else IsStranded(w')
  {
    FourSteps(w, Tick(Wake(w)), Claim, Read(0, false), Commit(0));
    ClaimsIt(w, attempts);
    Unread(w, Wake(w));
    hide Run, Take, Wake, ClaimedJob;
  }

  /** From the claim to the end of the attempt. */
  lemma Unread(w: World, now: int)
    requires 0 in w.jobs
    ensures var job := ClaimedJob(w.jobs[0], now);
            var w1 := w.(now := now, jobs := map[0 := job], tasks := map[0 := Task(job, Claimed)]);
            var w' := Take(Take(w1, Read(0, false)), Commit(0));
            && w' == w1.(jobs := map[0 := RetriedJob(w.cfg, now, job, job)], tasks := map[],
                         stranded := if GivesUp(job) then w.stranded + {job.home} else w.stranded)
  {
    hide ClaimedJob, RetriedJob, GivesUp;
  }

  lemma {:induction false} AttemptsRunOut(w: World, attempts: nat) returns (steps: seq<Step>)
    requires Waits(w, attempts) && attempts < MAX_PROVISION_ATTEMPTS
    ensures IsStranded(Run(w, steps))
    decreases MAX_PROVISION_ATTEMPTS - attempts
  {
    OneAttempt(w, attempts);
    steps := Attempt(w);
    hide Run, Waits, IsStranded, Attempt;
    if attempts + 1 < MAX_PROVISION_ATTEMPTS {
      var rest := AttemptsRunOut(Run(w, steps), attempts + 1);
      RunConcat(w, steps, rest);
      steps := steps + rest;
    }
  }

  /** Six reads that fail: the job has failed for good, and the home stays pending. */
  lemma StrandedIsReachable() returns (steps: seq<Step>)
    ensures IsStranded(Run(Empty(), steps))
  {
    EnrolledWaits();
    hide Take, Waits, IsStranded;
    var w := Take(Empty(), Enroll(0, ACCOUNT));
    var rest := AttemptsRunOut(w, 0);
    steps := [Enroll(0, ACCOUNT)] + rest;
    assert steps[1..] == rest;
  }
}
