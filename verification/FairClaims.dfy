/**
 No due job waits behind others for long: whatever is rescheduled, requeued or enqueued later gets
 in line behind it, and every claim takes a full batch from those in front.
 */
module FairClaims {
  import opened Strings
  import opened Sets
  import opened Arithmetic
  import opened HomeNames
  import opened Dynsec
  import opened HomeJobs
  import opened HomeJobsInvariant
  import opened HomeJobsSteps

  /** The pending rows in front of `j` in claiming order. */
  function Ahead(jobs: map<nat, Job>, j: nat): set<nat>
    requires j in jobs
  {
    set i | i in jobs && jobs[i].status == JobPending && Before(jobs, i, j)
  }

  // ---------- a claim takes the first of the line ----------

  lemma BeforeIsOrder(jobs: map<nat, Job>, i: nat, j: nat, k: nat)
    requires i in jobs && j in jobs && k in jobs
    ensures !Before(jobs, i, i)
    ensures Before(jobs, i, j) && Before(jobs, j, k) ==> Before(jobs, i, k)
    ensures i == j || Before(jobs, i, j) || Before(jobs, j, i)
  {
  }

  lemma ProperSubset(a: set<nat>, b: set<nat>, x: nat)
    requires a <= b && x in b && x !in a
    ensures |a| < |b|
  {
    assert a <= b - {x};
    SubsetSize(a, b - {x});
  }

  /** Due jobs further back have more due jobs in front of them. */
  lemma RankGrows(jobs: map<nat, Job>, now: int, i: nat, j: nat)
    requires i in DueJobs(jobs, now) && j in jobs && Before(jobs, i, j)
    ensures |DueBefore(jobs, now, i)| < |DueBefore(jobs, now, j)|
  {
    hide Before;
    BeforeIsOrder(jobs, i, i, i);
    forall k | k in DueBefore(jobs, now, i)
      ensures k in DueBefore(jobs, now, j)
    {
      BeforeIsOrder(jobs, k, i, j);
    }
    ProperSubset(DueBefore(jobs, now, i), DueBefore(jobs, now, j), i);
  }

  /** The due jobs with fewer than `n` due jobs in front of them. */
  function FirstN(jobs: map<nat, Job>, now: int, n: nat): set<nat> {
    set j | j in DueJobs(jobs, now) && |DueBefore(jobs, now, j)| < n
  }

  lemma {:induction false} Foremost(jobs: map<nat, Job>, s: set<nat>) returns (m: nat)
    requires s != {} && s <= jobs.Keys
    ensures m in s && forall x :: x in s && x != m ==> Before(jobs, m, x)
    decreases |s|
  {
    var any :| any in s;
    if s == {any} {
      m := any;
    } else {
      var best := Foremost(jobs, s - {any});
      BeforeIsOrder(jobs, any, best, any);
      m := if Before(jobs, any, best) then any else best;
      forall x | x in s && x != m
        ensures Before(jobs, m, x)
      {
        if x != any && x != best {
          assert x in s - {any};
          BeforeIsOrder(jobs, m, best, x);
        }
      }
    }
  }

  /** There are exactly `n` of them, as long as so many are due. */
  lemma {:induction false} FirstNSize(jobs: map<nat, Job>, now: int, n: nat)
    requires n <= |DueJobs(jobs, now)|
    ensures |FirstN(jobs, now, n)| == n
  {
    if n == 0 {
      assert FirstN(jobs, now, 0) == {};
    } else {
      FirstNSize(jobs, now, n - 1);
      var s := FirstN(jobs, now, n - 1);
      var rest := DueJobs(jobs, now) - s;
      RestNotEmpty(DueJobs(jobs, now), s);
      var m := Foremost(jobs, rest);
      NextInRank(jobs, now, n - 1, m);
    }
  }

  lemma RestNotEmpty(all: set<nat>, some: set<nat>)
    requires some <= all && |some| < |all|
    ensures all - some != {}
  {
    assert all == some + (all - some);
  }

  /** The foremost of those not among the first `n` is the one that joins them next. */
  lemma NextInRank(jobs: map<nat, Job>, now: int, n: nat, m: nat)
    requires |FirstN(jobs, now, n)| == n && m in DueJobs(jobs, now) - FirstN(jobs, now, n)
    requires forall x :: x in DueJobs(jobs, now) - FirstN(jobs, now, n) && x != m ==> Before(jobs, m, x)
    ensures |FirstN(jobs, now, n + 1)| == n + 1
  {
    var s := FirstN(jobs, now, n);
    hide Before;
    BeforeThem(jobs, now, n, m);
    forall j | j in DueJobs(jobs, now)
      ensures j in FirstN(jobs, now, n + 1) <==> j in s + {m}
    {
      if j !in s && j != m {
        RankGrows(jobs, now, m, j);
      }
    }
    assert FirstN(jobs, now, n + 1) == s + {m};
  }

  lemma BeforeThem(jobs: map<nat, Job>, now: int, n: nat, m: nat)
    requires m in DueJobs(jobs, now) - FirstN(jobs, now, n)
    requires forall x :: x in DueJobs(jobs, now) - FirstN(jobs, now, n) && x != m ==> Before(jobs, m, x)
    ensures DueBefore(jobs, now, m) == FirstN(jobs, now, n)
  {
    hide Before;
    forall j | j in DueJobs(jobs, now)
      ensures j in DueBefore(jobs, now, m) <==> j in FirstN(jobs, now, n)
    {
      BeforeIsOrder(jobs, m, j, m);
      if j in FirstN(jobs, now, n) {
        if Before(jobs, m, j) {
          RankGrows(jobs, now, m, j);
        }
      }
    }
  }

  /** If a due job is passed over by a claim, the claim took a full batch from in front of it. */
  lemma FullBatchAhead(jobs: map<nat, Job>, now: int, j: nat)
    requires j in DueJobs(jobs, now) && j !in FirstDue(jobs, now)
    ensures |FirstDue(jobs, now)| == JOB_BATCH_SIZE && FirstDue(jobs, now) <= Ahead(jobs, j)
  {
    hide Before;
    SubsetSize(DueBefore(jobs, now, j), DueJobs(jobs, now));
    FirstNSize(jobs, now, JOB_BATCH_SIZE);
    assert FirstN(jobs, now, JOB_BATCH_SIZE) == FirstDue(jobs, now);
    forall i | i in FirstDue(jobs, now)
      ensures i in Ahead(jobs, j)
    {
      BeforeIsOrder(jobs, i, j, i);
      if Before(jobs, j, i) {
        RankGrows(jobs, now, j, i);
      }
    }
  }

  // ---------- nothing overtakes ----------

  predicate Waits(w: World, j: nat) { j in w.jobs && w.jobs[j].status == JobPending && w.jobs[j].nextRunAt < w.now }

  /** The row was neither claimed nor removed by a deletion. */
  predicate StillWaits(w: World, w': World, j: nat)
    requires j in w.jobs
  {
    j in w'.jobs && w'.jobs[j].attempts == w.jobs[j].attempts
  }

  /** Every pending row of `w'` that is not new was pending at the same place in `w`, or comes
      after now; new ones come after now as well. */
  predicate NoOvertaking(w: World, w': World) {
    forall i :: i in w'.jobs && w'.jobs[i].status == JobPending ==>
      || w'.jobs[i].nextRunAt >= w.now
      || (i in w.jobs && w.jobs[i].status == JobPending && w.jobs[i].nextRunAt == w'.jobs[i].nextRunAt)
  }

  lemma AheadShrinks(w: World, w': World, j: nat)
    requires Waits(w, j) && NoOvertaking(w, w') && j in w'.jobs && w'.jobs[j] == w.jobs[j]
    ensures Ahead(w'.jobs, j) <= Ahead(w.jobs, j)
  {
  }

  lemma RetryDelayPositive(cfg: Config, attempts: int)
    requires cfg.Valid()
    ensures cfg.retryBaseDelay <= RetryDelay(cfg, attempts) <= cfg.retryMaxMultiplier * cfg.retryBaseDelay
    ensures attempts >= 1 ==> RetryDelay(cfg, attempts) <= RetryDelay(cfg, attempts + 1)
  {
    var a := if attempts < 1 then 1 else attempts;
    var k := if a > cfg.retryMaxMultiplier then cfg.retryMaxMultiplier else a;
    Scale(1, k, cfg.retryBaseDelay);
    Scale(k, cfg.retryMaxMultiplier, cfg.retryBaseDelay);
    Scale(k, if a + 1 > cfg.retryMaxMultiplier then cfg.retryMaxMultiplier else a + 1, cfg.retryBaseDelay);
  }

  /** One step: a waiting job that is neither claimed nor removed stays as it is, and nothing gets in
      front of it. */
  lemma StepKeepsPlace(w: World, step: Step, j: nat)
    requires Inv(w) && Waits(w, j) && StillWaits(w, Take(w, step), j)
    ensures Take(w, step).jobs[j] == w.jobs[j] && w.now <= Take(w, step).now && NoOvertaking(w, Take(w, step))
  {
    hide Inv, EnrollHome, ScheduleHomeDeletion, ScheduleHomeDeletions, RequeueStaleClaims, ClaimJobs, ReadHome,
         ClearAccess, GrantAccess, Finish, FinishFails, CanFinish, Blank;
    if Enabled(w, step) {
      match step
      case Enroll(user, account) => EnrollKeepsRows(w, user, account);
      case DeleteHome(h) => DeletionKeepsRows(w, h);
      case DeleteUser(user, order) =>
        assert forall h :: h in order ==> h in HomesOf(w, user);
        DeletionsKeepRows(w, order);
      case Requeue => RequeueKeepsPlace(w, j);
      case Claim => ClaimKeepsPlace(w, j);
      case Read(i, ok) => PhaseKeepsPlace(w, step);
      case Clear(i, fate, devicesCleared) => PhaseKeepsPlace(w, step);
      case Grant(i, fate) => PhaseKeepsPlace(w, step);
      case Commit(i) => CommitKeepsPlace(w, i, j);
      case CommitFails(i) => PhaseKeepsPlace(w, step);
      case Tick(_) =>
      case DevicesUnread(_) =>
      case Crash =>
    }
  }

  lemma PhaseKeepsPlace(w: World, step: Step)
    requires Enabled(w, step) && (step.Read? || step.Clear? || step.Grant? || step.CommitFails?)
    ensures Take(w, step).jobs == w.jobs && Take(w, step).now == w.now
  {
    hide CleanupHomeAccess, ProvisionHomeAccess, Blank;
  }

  /** Rows that remain are as they were, and new ones get in line behind now. */
  predicate RowsKept(w: World, w': World) {
    && w'.now == w.now && w.nextJob <= w'.nextJob
    && forall i :: i in w'.jobs ==>
         if i in w.jobs then w'.jobs[i] == w.jobs[i] else i >= w.nextJob && w'.jobs[i].nextRunAt >= w.now
  }

  lemma EnrollKeepsRows(w: World, user: nat, account: Account)
    requires Inv(w)
    ensures RowsKept(w, EnrollHome(w, user, account))
  {
    FreshHome(w);
    FreshJob(w);
    JobHomes(w);
    EnrollEffect(w, user, account);
    ValidDelays(w);
    hide Inv, EnrollHome, HomeMqttUsername;
  }

  lemma ValidDelays(w: World)
    requires Inv(w)
    ensures w.cfg.Valid()
  {
    hide HomesOk, JobsOk, TasksOk, OneTask;
  }

  lemma DeletionKeepsRows(w: World, h: nat)
    requires Inv(w) && h in w.homes
    ensures RowsKept(w, ScheduleHomeDeletion(w, h))
  {
    FreshJob(w);
    DeletionEffect(w, h);
    ValidDelays(w);
    hide Inv, ScheduleHomeDeletion;
  }

  lemma {:induction false} DeletionsKeepRows(w: World, order: seq<nat>)
    requires Inv(w) && forall h :: h in order ==> h in w.homes
    ensures RowsKept(w, ScheduleHomeDeletions(w, order))
    decreases |order|
  {
    hide Inv, ScheduleHomeDeletion;
    if order != [] {
      var w1 := ScheduleHomeDeletion(w, order[0]);
      DeleteHomeKeeps(w, order[0]);
      DeletionKeepsRows(w, order[0]);
      DeletionsKeepRows(w1, order[1..]);
      OldIds(w);
      RowsKeptTransitive(w, w1, ScheduleHomeDeletions(w1, order[1..]));
    }
  }

  lemma OldIds(w: World)
    requires Inv(w)
    ensures forall j :: j in w.jobs ==> j < w.nextJob
  {
    hide HomesOk, TasksOk, OneTask;
    assert forall j :: j in w.jobs ==> JobOk(w, j);
  }

  lemma RowsKeptTransitive(a: World, b: World, c: World)
    requires RowsKept(a, b) && RowsKept(b, c) && forall j :: j in a.jobs ==> j < a.nextJob
    ensures RowsKept(a, c)
  {
  }

  lemma RequeueKeepsPlace(w: World, j: nat)
    requires Waits(w, j)
    ensures var w' := RequeueStaleClaims(w);
            j in w'.jobs && w'.jobs[j] == w.jobs[j] && w'.now == w.now && NoOvertaking(w, w')
  {
  }

  lemma ClaimKeepsPlace(w: World, j: nat)
    requires Waits(w, j) && StillWaits(w, ClaimJobs(w), j)
    ensures var w' := ClaimJobs(w);
            && j !in FirstDue(w.jobs, w.now)
            && w'.jobs[j] == w.jobs[j] && w'.now == w.now && NoOvertaking(w, w')
  {
    hide FirstDue;
  }

  lemma CommitKeepsPlace(w: World, i: nat, j: nat)
    requires Inv(w) && i in w.tasks && CanFinish(w.tasks[i]) && Waits(w, j)
    ensures var w' := Finish(w, i);
            (j in w'.jobs ==> w'.jobs[j] == w.jobs[j]) && w'.now == w.now && NoOvertaking(w, w')
  {
    RowFacts(w, i);
    TaskRunning(w, i);
    ValidDelays(w);
    FinishWrites(w, i);
    RetryDelayPositive(w.cfg, w.tasks[i].job.attempts);
    hide Inv, Finish, RetryDelay, JobOk;
  }

  lemma TaskRunning(w: World, i: nat)
    requires Inv(w) && i in w.tasks
    ensures w.tasks[i].job.status == JobRunning
  {
    assert TaskOk(w, i);
    hide PhaseOk, HomesOk, JobsOk, OneTask;
  }

  /** Claims that happen in a run: those the worker makes with nothing under way. */
  function Claims(w: World, steps: seq<Step>): nat
    decreases |steps|
  {
    if steps == [] then 0
    else (if steps[0] == Claim && Enabled(w, Claim) then 1 else 0) + Claims(Take(w, steps[0]), steps[1..])
  }

  /** A claim that passes a waiting job over takes a full batch from in front of it. */
  lemma ClaimAdvances(w: World, j: nat)
    requires Waits(w, j) && StillWaits(w, ClaimJobs(w), j)
    ensures |Ahead(ClaimJobs(w).jobs, j)| + JOB_BATCH_SIZE <= |Ahead(w.jobs, j)|
  {
    ClaimKeepsPlace(w, j);
    FullBatchAhead(w.jobs, w.now, j);
    var w' := ClaimJobs(w);
    AheadShrinks(w, w', j);
    var taken := FirstDue(w.jobs, w.now);
    assert forall i :: i in taken ==> i !in Ahead(w'.jobs, j);
    hide FirstDue, Ahead;
    SubsetSize(Ahead(w'.jobs, j), Ahead(w.jobs, j) - taken);
  }

  lemma StepAdvances(w: World, step: Step, j: nat)
    requires Inv(w) && Waits(w, j) && StillWaits(w, Take(w, step), j)
    ensures var w' := Take(w, step);
            && Waits(w', j)
            && |Ahead(w'.jobs, j)| + JOB_BATCH_SIZE * Claims(w, [step]) <= |Ahead(w.jobs, j)|
  {
    hide Inv, Ahead, ClaimJobs, Claims, NoOvertaking, FirstDue;
    StepKeepsPlace(w, step, j);
    AheadShrinks(w, Take(w, step), j);
    SubsetSize(Ahead(Take(w, step).jobs, j), Ahead(w.jobs, j));
    OneClaim(w, step);
    if step == Claim && Enabled(w, Claim) {
      ClaimAdvances(w, j);
    }
    hide Enabled, Take;
  }

  /** Attempts never go down, and a removed row never comes back. */
  predicate AttemptsGrow(w: World, w': World) {
    && w.nextJob <= w'.nextJob
    && forall j :: j in w'.jobs ==>
         if j in w.jobs then w'.jobs[j].attempts >= w.jobs[j].attempts else j >= w.nextJob
  }

  lemma StepGrows(w: World, step: Step)
    requires Inv(w)
    ensures AttemptsGrow(w, Take(w, step))
  {
    hide Inv, EnrollHome, ScheduleHomeDeletion, ScheduleHomeDeletions, RequeueStaleClaims, ClaimJobs, ReadHome,
         ClearAccess, GrantAccess, Finish, FinishFails, CanFinish, Blank;
    if Enabled(w, step) {
      match step
      case Enroll(user, account) => EnrollKeepsRows(w, user, account);
      case DeleteHome(h) => DeletionKeepsRows(w, h);
      case DeleteUser(user, order) =>
        assert forall h :: h in order ==> h in HomesOf(w, user);
        DeletionsKeepRows(w, order);
      case Requeue => RowsStay(w);
      case Claim => RowsStay(w);
      case Commit(i) => FinishWrites(w, i);
      case Tick(_) =>
      case DevicesUnread(_) =>
      case Crash =>
      case _ => PhaseKeepsPlace(w, step); IdsStay(w, step);
    }
  }

  lemma IdsStay(w: World, step: Step)
    requires Enabled(w, step) && (step.Read? || step.Clear? || step.Grant? || step.CommitFails?)
    ensures Take(w, step).nextJob == w.nextJob
  {
    hide CleanupHomeAccess, ProvisionHomeAccess, Blank;
  }

  lemma RowsStay(w: World)
    ensures RequeueStaleClaims(w).nextJob == w.nextJob && RequeueStaleClaims(w).jobs.Keys == w.jobs.Keys
    ensures forall j :: j in w.jobs ==> RequeueStaleClaims(w).jobs[j].attempts >= w.jobs[j].attempts
    ensures ClaimJobs(w).nextJob == w.nextJob && ClaimJobs(w).jobs.Keys == w.jobs.Keys
    ensures forall j :: j in w.jobs ==> ClaimJobs(w).jobs[j].attempts >= w.jobs[j].attempts
  {
    hide FirstDue;
  }

  lemma {:induction false} RunGrows(w: World, steps: seq<Step>)
    requires Inv(w)
    ensures AttemptsGrow(w, Run(w, steps))
    decreases |steps|
  {
    hide Inv, Take, AttemptsGrow;
    GrowsTransitive(w, w, w);
    if steps != [] {
      var w1 := Take(w, steps[0]);
      StepGrows(w, steps[0]);
      StepKeeps(w, steps[0]);
      RunGrows(w1, steps[1..]);
      OldIds(w);
      GrowsTransitive(w, w1, Run(w1, steps[1..]));
    }
  }

  lemma GrowsTransitive(a: World, b: World, c: World)
    ensures AttemptsGrow(a, a)
    ensures AttemptsGrow(a, b) && AttemptsGrow(b, c) && (forall j :: j in a.jobs ==> j < a.nextJob) ==>
              AttemptsGrow(a, c)
  {
  }

  /** The same from any state that satisfies the invariant. */
  lemma {:induction false} WaitingFrom(w: World, steps: seq<Step>, j: nat)
    requires Inv(w) && Waits(w, j)
    ensures var w' := Run(w, steps);
            StillWaits(w, w', j) ==>
              && Waits(w', j)
              && |Ahead(w'.jobs, j)| + JOB_BATCH_SIZE * Claims(w, steps) <= |Ahead(w.jobs, j)|
              && Claims(w, steps) <= |Ahead(w.jobs, j)| / JOB_BATCH_SIZE
    decreases |steps|
  {
    hide Inv, Take, Ahead;
    if steps != [] {
      var w1 := Take(w, steps[0]);
      StepKeeps(w, steps[0]);
      if StillWaits(w, w1, j) {
        StepAdvances(w, steps[0], j);
        OneClaim(w, steps[0]);
        WaitingFrom(w1, steps[1..], j);
      } else {
        OldIds(w);
        StepGrows(w, steps[0]);
        RunGrows(w1, steps[1..]);
      }
    }
  }

  lemma OneClaim(w: World, step: Step)
    ensures Claims(w, [step]) == if step == Claim && Enabled(w, Claim) then 1 else 0
  {
    assert [step][1..] == [];
  }

  /** Bounded waiting. Take any moment after a job has become due, with `k` pending jobs in front of
      it. In every run from there on, as long as it is neither claimed nor removed by a deletion, each
      of the worker's claims has taken 128 of the jobs in front of it; so it takes at most
      `k / 128 + 1` claims until it is claimed itself. */
  lemma BoundedWaiting(start: World, before: seq<Step>, after: seq<Step>, j: nat)
    requires IsStart(start) && Waits(Run(start, before), j)
    ensures var w, w' := Run(start, before), Run(Run(start, before), after);
            StillWaits(w, w', j) ==>
              && Waits(w', j)
              && |Ahead(w'.jobs, j)| + JOB_BATCH_SIZE * Claims(w, after) <= |Ahead(w.jobs, j)|
              && Claims(w, after) <= |Ahead(w.jobs, j)| / JOB_BATCH_SIZE
  {
    hide Waits, StillWaits, Ahead, Run, Claims, Inv;
    StartInv(start);
    RunKeeps(start, before);
    WaitingFrom(Run(start, before), after, j);
  }
}
