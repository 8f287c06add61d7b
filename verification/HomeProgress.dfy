/**
 No reachable state is beyond recovery: even after a crash right there, a requested deletion and a
 pending provision can still be carried through, within as many claims as the queue is long.
 */
module HomeProgress {
  import opened Strings
  import opened Sets
  import opened HomeNames
  import opened Dynsec
  import opened HomeJobs
  import opened HomeJobsInvariant
  import opened HomeJobsSteps
  import opened HomeJobsRuns
  import opened FairClaims

  /** The worker's own steps, none of which fails to be written. */
  predicate OfWorker(step: Step) { step.Claim? || step.Read? || step.Clear? || step.Grant? || step.Commit? }

  lemma {:induction false} ClaimsConcat(w: World, a: seq<Step>, b: seq<Step>)
    ensures Claims(w, a + b) == Claims(w, a) + Claims(Run(w, a), b)
    decreases |a|
  {
    hide Take, Enabled;
    if a == [] {
      assert a + b == b;
    } else {
      ClaimsConcat(Take(w, a[0]), a[1..], b);
      assert (a + b)[1..] == a[1..] + b && (a + b)[0] == a[0];
    }
  }

  lemma {:induction false} NoClaims(w: World, steps: seq<Step>)
    requires forall s :: s in steps ==> !s.Claim?
    ensures Claims(w, steps) == 0
    decreases |steps|
  {
    hide Take, Enabled;
    if steps != [] { NoClaims(Take(w, steps[0]), steps[1..]); }
  }

  // ---------- the rest of a batch ----------

  /** All tasks have just been claimed, and none of them is for this job. */
  predicate Others(w: World, j: nat) { j !in w.tasks && forall i :: i in w.tasks ==> w.tasks[i].phase == Claimed }

  /** One of them fails to read its home, and its job is put back in line or given up. */
  lemma OneFails(w: World, i: nat, j: nat)
    requires Others(w, j) && i in w.tasks && j in w.jobs
    ensures var w' := Take(Take(w, Read(i, false)), Commit(i));
            && Others(w', j) && w'.tasks == w.tasks - {i} && j in w'.jobs && w'.jobs[j] == w.jobs[j]
            && w'.requested == w.requested
  {
    var w1 := Take(w, Read(i, false));
    assert w1 == SetPhase(w, i, Failing(false));
    FinishWrites(w1, i);
    hide Finish, RetriedJob;
  }

  /** All of them do, one after the other. */
  lemma {:induction false} Drain(w: World, j: nat) returns (steps: seq<Step>)
    requires Others(w, j) && j in w.jobs
    ensures var w' := Run(w, steps);
            w'.tasks == map[] && j in w'.jobs && w'.jobs[j] == w.jobs[j] && w'.requested == w.requested
    ensures forall s :: s in steps ==> OfWorker(s) && !s.Claim?
    decreases |w.tasks|
  {
    hide Take, Others;
    steps := [];
    if w.tasks != map[] {
      var i :| i in w.tasks;
      OneFails(w, i, j);
      var first := [Read(i, false), Commit(i)];
      TwoSteps(w, Read(i, false), Commit(i));
      Fewer(w.tasks, i);
      var rest := Drain(Run(w, first), j);
      RunConcat(w, first, rest);
      steps := first + rest;
    }
  }

  lemma Fewer(tasks: map<nat, Task>, i: nat)
    requires i in tasks
    ensures |tasks - {i}| < |tasks|
  {
    assert (tasks - {i}).Keys == tasks.Keys - {i};
    assert |tasks - {i}| == |(tasks - {i}).Keys| && |tasks| == |tasks.Keys|;
  }

  // ---------- from the line into the worker ----------

  lemma ClaimTasks(w: World, j: nat)
    requires w.tasks == map[] && Waits(w, j)
    ensures j in w.jobs
    ensures var w' := Take(w, Claim);
            && w'.requested == w.requested && j in w'.jobs
            && (j in FirstDue(w.jobs, w.now) ==>
                  InPhase(w', j, Claimed) && w'.tasks[j].job.home == w.jobs[j].home
                  && w'.tasks[j].job.operation == w.jobs[j].operation)
            && (j !in FirstDue(w.jobs, w.now) ==> Others(w', j) && w'.jobs[j] == w.jobs[j])
  {
    hide FirstDue;
  }

  /** With the worker idle, a due job gets claimed: until then every claim takes a full batch from in
      front of it, and even if the whole batch fails nothing gets in front again. */
  lemma {:induction false} GetsClaimed(w: World, j: nat) returns (steps: seq<Step>)
    requires Inv(w) && w.tasks == map[] && Waits(w, j)
    ensures var w' := Run(w, steps);
            && InPhase(w', j, Claimed) && w'.tasks[j].job.home == w.jobs[j].home
            && w'.tasks[j].job.operation == w.jobs[j].operation && w'.requested == w.requested
    ensures Claims(w, steps) <= |Ahead(w.jobs, j)| / JOB_BATCH_SIZE + 1
    ensures forall s :: s in steps ==> OfWorker(s)
    decreases |Ahead(w.jobs, j)|
  {
    hide Inv, Take, Waits, Others, Ahead, FirstDue;
    ClaimTasks(w, j);
    var w1 := Take(w, Claim);
    OneClaimed(w);
    steps := [Claim];
    if j !in FirstDue(w.jobs, w.now) {
      var drain := Drain(w1, j);
      var round := [Claim] + drain;
      RunConcat(w, [Claim], drain);
      ClaimsConcat(w, [Claim], drain);
      NoClaims(w1, drain);
      RunKeeps(w, round);
      WaitingFrom(w, round, j);
      var w2 := Run(w, round);
      SameJobWaits(w, w2, j);
      var rest := GetsClaimed(w2, j);
      RunConcat(w, round, rest);
      ClaimsConcat(w, round, rest);
      OneBatchLess(|Ahead(w2.jobs, j)|, |Ahead(w.jobs, j)|);
      steps := round + rest;
    }
  }

  lemma OneClaimed(w: World)
    requires w.tasks == map[]
    ensures Run(w, [Claim]) == Take(w, Claim) && Claims(w, [Claim]) == 1
  {
    hide ClaimJobs;
    assert [Claim][1..] == [];
    OneClaim(w, Claim);
  }

  lemma SameJobWaits(w: World, w': World, j: nat)
    requires j in w.jobs && j in w'.jobs && w'.jobs[j] == w.jobs[j]
    ensures StillWaits(w, w', j)
  {
  }

  lemma OneBatchLess(fewer: nat, more: nat)
    requires fewer + JOB_BATCH_SIZE <= more
    ensures fewer / JOB_BATCH_SIZE + 1 <= more / JOB_BATCH_SIZE
  {
  }

  // ---------- after a crash ----------

  /** A moment at which the job is due, or its claim has gone stale. */
  function Late(w: World, j: nat): int
    requires j in w.jobs
  {
    var job := w.jobs[j];
    var t := if w.now < job.nextRunAt then job.nextRunAt else w.now;
    var claimed := if job.claimedAt.Some? then job.claimedAt.value + STALE_CLAIM_AFTER else t;
    (if t < claimed then claimed else t) + 1
  }

  function Restart(w: World, j: nat): seq<Step>
    requires j in w.jobs
  {
    [Crash, Tick(Late(w, j)), Requeue, Tick(Late(w, j) + 1)]
  }

  lemma Restarted(w: World, now: int)
    requires w.now <= now
    ensures Take(Take(w, Crash), Tick(now)) == w.(tasks := map[], now := now)
  {
  }

  /** In line, or claimed so long ago that the claim is taken back. */
  predicate Recoverable(job: Job, now: int) { job.nextRunAt <= now && (job.status == JobPending || Stale(job, now)) }

  lemma TakenBack(w: World, j: nat)
    requires w.tasks == map[] && j in w.jobs && Recoverable(w.jobs[j], w.now)
    ensures var w' := Take(Take(w, Requeue), Tick(w.now + 1));
            && w'.tasks == map[] && Waits(w', j) && w'.requested == w.requested && w'.jobs.Keys == w.jobs.Keys
            && w'.jobs[j].home == w.jobs[j].home && w'.jobs[j].operation == w.jobs[j].operation
  {
  }

  lemma LateEnough(w: World, j: nat)
    requires j in w.jobs && JobOk(w, j) && w.jobs[j].status != JobFailed
    ensures w.now <= Late(w, j) && Recoverable(w.jobs[j], Late(w, j))
  {
  }

  /** After a restart and enough time every row that has not failed is in line. */
  lemma BackInLine(w: World, j: nat)
    requires Inv(w) && j in w.jobs && w.jobs[j].status != JobFailed
    ensures var w' := Run(w, Restart(w, j));
            && w'.tasks == map[] && Waits(w', j) && w'.requested == w.requested && w'.jobs.Keys == w.jobs.Keys
            && w'.jobs[j].home == w.jobs[j].home && w'.jobs[j].operation == w.jobs[j].operation
  {
    hide Inv, Take, Run, Late, Waits, Recoverable, JobOk;
    OtherRow(w, j);
    LateEnough(w, j);
    Restarted(w, Late(w, j));
    TakenBack(w.(tasks := map[], now := Late(w, j)), j);
    FourSteps(w, Crash, Tick(Late(w, j)), Requeue, Tick(Late(w, j) + 1));
  }

  /** Time passes, stale claims are taken back, and the worker works. */
  predicate Recovers(step: Step) { step.Tick? || step.Requeue? || OfWorker(step) }

  /** The job is claimed again, however long the line is. */
  lemma ClaimedAgain(w: World, j: nat) returns (steps: seq<Step>)
    requires Inv(w) && j in w.jobs && w.jobs[j].status != JobFailed
    ensures steps != [] && steps[0] == Crash && forall s :: s in steps[1..] ==> Recovers(s)
    ensures Claims(w, steps) <= |w.jobs| / JOB_BATCH_SIZE + 1
    ensures var w' := Run(w, steps);
            && InPhase(w', j, Claimed) && w'.tasks[j].job.home == w.jobs[j].home
            && w'.tasks[j].job.operation == w.jobs[j].operation && w'.requested == w.requested
  {
    hide Inv, Waits, Take, Ahead, InPhase;
    BackInLine(w, j);
    var first := Restart(w, j);
    RunKeeps(w, first);
    var w1 := Run(w, first);
    var rest := GetsClaimed(w1, j);
    NoClaims(w, first);
    ClaimsConcat(w, first, rest);
    RunConcat(w, first, rest);
    LineLength(w1.jobs, j);
    Batches(|Ahead(w1.jobs, j)|, |w.jobs|);
    SameSize(w.jobs, w1.jobs);
    steps := first + rest;
    hide Run, Claims;
    assert steps[1..] == first[1..] + rest;
  }

  lemma LineLength(jobs: map<nat, Job>, j: nat)
    requires j in jobs
    ensures |Ahead(jobs, j)| <= |jobs|
  {
    SubsetSize(Ahead(jobs, j), jobs.Keys);
    assert |jobs| == |jobs.Keys|;
  }

  lemma SameSize(a: map<nat, Job>, b: map<nat, Job>)
    requires a.Keys == b.Keys
    ensures |a| == |b|
  {
    assert |a| == |a.Keys| && |b| == |b.Keys|;
  }

  lemma Batches(fewer: nat, more: nat)
    ensures fewer <= more ==> fewer / JOB_BATCH_SIZE <= more / JOB_BATCH_SIZE
  {
  }

  // ---------- carried through ----------

  /** Two parts of a recovery, the second of them without a claim. */
  lemma Carry(w: World, first: seq<Step>, last: seq<Step>)
    requires first != [] && (forall s :: s in first[1..] ==> Recovers(s))
    requires forall s :: s in last ==> OfWorker(s) && !s.Claim?
    ensures Run(w, first + last) == Run(Run(w, first), last) && Claims(w, first + last) == Claims(w, first)
    ensures (first + last)[0] == first[0] && forall s :: s in (first + last)[1..] ==> Recovers(s)
  {
    hide Run, Claims, OfWorker;
    RunConcat(w, first, last);
    ClaimsConcat(w, first, last);
    NoClaims(Run(w, first), last);
    assert (first + last)[1..] == first[1..] + last;
  }

  lemma DeletionFrom(w: World, h: nat, fate: Fate) returns (steps: seq<Step>)
    requires Inv(w) && h in w.requested && h in w.homes && !w.homes[h].deleted && fate.answered
    ensures steps != [] && steps[0] == Crash && forall s :: s in steps[1..] ==> Recovers(s)
    ensures Claims(w, steps) <= |w.jobs| / JOB_BATCH_SIZE + 1
    ensures var w' := Run(w, steps);
            h in w'.homes && w'.homes[h].deleted && w'.homes[h].username == "" && w'.homes[h].password == ""
  {
    hide Inv, JobOk, JobsOf, InPhase, Take, Run, Claims, Recovers;
    OnlyRow(w, h);
    var j := w.latest[h];
    CleanupRow(w, j);
    var first := ClaimedAgain(w, j);
    RunKeeps(w, first);
    var last := [Read(j, true), Clear(j, fate, true), Commit(j)];
    CleanupFrom(Run(w, first), j, fate);
    Carry(w, first, last);
    steps := first + last;
  }

  lemma ProvisionRow(w: World, h: nat)
    requires Inv(w) && h in w.homes && h !in w.requested && w.homes[h].state == Pending && h !in w.stranded
    ensures h in w.latest && w.latest[h] in w.jobs && w.jobs[w.latest[h]].home == h
    ensures w.jobs[w.latest[h]].operation == Provision && w.jobs[w.latest[h]].status != JobFailed
  {
    OnlyRow(w, h);
    assert HomeOk(w, h);
    hide HomesOk, JobsOk, TasksOk, OneTask, HomeGone, HomeGranted, Blank, HomeMqttUsername;
  }

  lemma ProvisioningFrom(w: World, h: nat, fate: Fate, grantFate: GrantFate) returns (steps: seq<Step>)
    requires Inv(w) && h in w.homes && h !in w.requested && w.homes[h].state == Pending && h !in w.stranded
    requires fate.answered && grantFate.grant.answered && Willing(grantFate.grant.refused)
    ensures steps != [] && steps[0] == Crash && forall s :: s in steps[1..] ==> Recovers(s)
    ensures Claims(w, steps) <= |w.jobs| / JOB_BATCH_SIZE + 1
    ensures var w' := Run(w, steps);
            && h in w'.homes && w'.homes[h].state == Ready && JobsOf(w', h) == {}
            && Granted(w'.broker, w'.homes[h].user, h, w'.homes[h].username, w'.homes[h].password)
  {
    hide Inv, JobsOf, InPhase, Take, Granted, Willing, Run, Claims, Recovers;
    ProvisionRow(w, h);
    var j := w.latest[h];
    var first := ClaimedAgain(w, j);
    RunKeeps(w, first);
    var last := [Read(j, true), Clear(j, fate, true), Grant(j, grantFate), Commit(j)];
    ProvisionFrom(Run(w, first), j, fate, grantFate);
    Carry(w, first, last);
    steps := first + last;
  }

  /** From every reachable state, even if the server crashes in it, there is a run that carries a requested
      deletion through by the worker's own steps, with at most one claim more than full batches of rows,
      although every other job that it claims on the way fails; the broker answers a single message. */
  lemma DeletionCanFinish(start: World, before: seq<Step>, h: nat, fate: Fate) returns (steps: seq<Step>)
    requires IsStart(start) && h in Run(start, before).requested && fate.answered
    ensures h in Run(start, before).homes
    ensures !Run(start, before).homes[h].deleted ==>
              && steps != [] && steps[0] == Crash && (forall s :: s in steps[1..] ==> Recovers(s))
              && Claims(Run(start, before), steps) <= |Run(start, before).jobs| / JOB_BATCH_SIZE + 1
              && var w' := Run(Run(start, before), steps);
              h in w'.homes && w'.homes[h].deleted && w'.homes[h].username == "" && w'.homes[h].password == ""
  {
    hide Run, Inv, Recovers, Claims;
    StartInv(start);
    RunKeeps(start, before);
    var w := Run(start, before);
    RequestedHome(w, h);
    steps := [];
    if !w.homes[h].deleted {
      steps := DeletionFrom(w, h, fate);
    }
  }

  /** The same for a home that is pending, not to be deleted and not stranded: it can become ready. */
  lemma ProvisionCanFinish(start: World, before: seq<Step>, h: nat, fate: Fate, grantFate: GrantFate)
    returns (steps: seq<Step>)
    requires IsStart(start) && h in Run(start, before).homes && h !in Run(start, before).requested
    requires Run(start, before).homes[h].state == Pending && h !in Run(start, before).stranded
    requires fate.answered && grantFate.grant.answered && Willing(grantFate.grant.refused)
    ensures steps != [] && steps[0] == Crash && (forall s :: s in steps[1..] ==> Recovers(s))
    ensures Claims(Run(start, before), steps) <= |Run(start, before).jobs| / JOB_BATCH_SIZE + 1
    ensures var w' := Run(Run(start, before), steps);
            && h in w'.homes && w'.homes[h].state == Ready && JobsOf(w', h) == {}
            && Granted(w'.broker, w'.homes[h].user, h, w'.homes[h].username, w'.homes[h].password)
  {
    hide Run, Inv, Recovers, Claims, JobsOf, Granted, Willing;
    StartInv(start);
    RunKeeps(start, before);
    steps := ProvisioningFrom(Run(start, before), h, fate, grantFate);
  }

  // ---------- given up for good ----------

  lemma FailedStays(w: World, step: Step, j: nat)
    requires Inv(w) && j in w.jobs && w.jobs[j].status == JobFailed && w.jobs[j].home !in Take(w, step).requested
    ensures j in Take(w, step).jobs && Take(w, step).jobs[j] == w.jobs[j]
  {
    hide Inv, EnrollHome, ScheduleHomeDeletion, ScheduleHomeDeletions, FirstDue, Finish, CanFinish, Blank, HomesOf,
         CleanupHomeAccess, ProvisionHomeAccess, HasMqttCredentials;
    if Enabled(w, step) {
      match step
      case Enroll(user, account) => EnrollSparesRow(w, user, account, j);
      case DeleteHome(g) => DeletionSparesRow(w, g, j);
      case DeleteUser(user, order) =>
        RequestsRecorded(w, order);
        assert forall g :: g in order ==> g in HomesOf(w, user);
        HomesOfExist(w, user);
        DeletionsSpareRow(w, order, j);
      case Commit(i) => CommitSparesFailed(w, i, j);
      case _ =>
    }
  }

  lemma EnrollSparesRow(w: World, user: nat, account: Account, j: nat)
    requires Inv(w) && j in w.jobs
    ensures j in EnrollHome(w, user, account).jobs && EnrollHome(w, user, account).jobs[j] == w.jobs[j]
  {
    FreshHome(w);
    FreshJob(w);
    JobHomes(w);
    EnrollEffect(w, user, account);
    hide Inv, EnrollHome, HomeMqttUsername;
  }

  lemma DeletionSparesRow(w: World, g: nat, j: nat)
    requires Inv(w) && g in w.homes && j in w.jobs && w.jobs[j].home !in ScheduleHomeDeletion(w, g).requested
    ensures j in ScheduleHomeDeletion(w, g).jobs && ScheduleHomeDeletion(w, g).jobs[j] == w.jobs[j]
  {
    FreshJob(w);
    DeletionEffect(w, g);
    hide Inv, ScheduleHomeDeletion;
  }

  lemma {:induction false} DeletionsSpareRow(w: World, order: seq<nat>, j: nat)
    requires Inv(w) && (forall g :: g in order ==> g in w.homes) && j in w.jobs
    requires w.jobs[j].home !in w.requested && w.jobs[j].home !in order
    ensures j in ScheduleHomeDeletions(w, order).jobs && ScheduleHomeDeletions(w, order).jobs[j] == w.jobs[j]
    decreases |order|
  {
    hide Inv, ScheduleHomeDeletion;
    if order != [] {
      RequestRecorded(w, order[0]);
      DeletionSparesRow(w, order[0], j);
      DeleteHomeKeeps(w, order[0]);
      DeletionsSpareRow(ScheduleHomeDeletion(w, order[0]), order[1..], j);
    }
  }

  lemma CommitSparesFailed(w: World, i: nat, j: nat)
    requires Inv(w) && i in w.tasks && CanFinish(w.tasks[i]) && j in w.jobs && w.jobs[j].status == JobFailed
    ensures j in Finish(w, i).jobs && Finish(w, i).jobs[j] == w.jobs[j]
  {
    RowFacts(w, i);
    TaskRunning(w, i);
    FinishWrites(w, i);
    hide Inv, Finish, RetriedJob, CanFinish;
  }

  lemma {:induction false} FailedForGood(w: World, steps: seq<Step>, j: nat)
    requires Inv(w) && j in w.jobs && w.jobs[j].status == JobFailed && w.jobs[j].home !in Run(w, steps).requested
    ensures j in Run(w, steps).jobs && Run(w, steps).jobs[j] == w.jobs[j]
    decreases |steps|
  {
    hide Inv, Take;
    if steps != [] {
      RunRequests(Take(w, steps[0]), steps[1..]);
      FailedStays(w, steps[0], j);
      StepKeeps(w, steps[0]);
      FailedForGood(Take(w, steps[0]), steps[1..], j);
    }
  }

  /** Failed homes and stranded ones never become ready again, whatever happens. */
  lemma GivenUpForGood(start: World, before: seq<Step>, after: seq<Step>, h: nat)
    requires IsStart(start) && h in Run(start, before).homes
    requires h !in Run(Run(start, before), after).requested
    requires Run(start, before).homes[h].state == Failed || h in Run(start, before).stranded
    ensures var w := Run(Run(start, before), after);
            h in w.homes && w.homes[h].state != Ready
  {
    hide Run, Inv;
    StartInv(start);
    RunKeeps(start, before);
    var w := Run(start, before);
    RunKeeps(w, after);
    RunRequests(w, after);
    FailedRow(w, h);
    FailedForGood(w, after, w.latest[h]);
    RowExcludesReady(Run(w, after), w.latest[h]);
  }

  lemma FailedRow(w: World, h: nat)
    requires Inv(w) && h in w.homes && h !in w.requested && (w.homes[h].state == Failed || h in w.stranded)
    ensures h in w.latest && w.latest[h] in w.jobs
    ensures w.jobs[w.latest[h]].status == JobFailed && w.jobs[w.latest[h]].home == h
  {
    assert HomeOk(w, h);
    hide HomesOk, JobsOk, TasksOk, OneTask, HomeGone, HomeGranted, Blank, HomeMqttUsername;
  }

  lemma RowExcludesReady(w: World, j: nat)
    requires Inv(w) && j in w.jobs && w.jobs[j].home !in w.requested
    ensures w.jobs[j].home in w.homes && w.homes[w.jobs[j].home].state != Ready
  {
    assert JobOk(w, j);
    assert HomeOk(w, w.jobs[j].home);
    hide HomesOk, JobsOk, TasksOk, OneTask, HomeGone, HomeGranted, Blank, HomeMqttUsername;
  }
}
