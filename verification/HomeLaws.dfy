/**
 What each step about homes and their jobs does, in terms of the rows that an observer of the database
 and the broker sees.
 */
module HomeLaws {
  import opened Strings
  import opened Wrappers
  import opened HomeNames
  import opened Dynsec
  import opened HomeJobs
  import opened HomeJobsInvariant
  import opened HomeJobsSteps

  // ---------- deleting a user ----------

  /** Row ids in use are below the next one. */
  predicate IdsBelow(w: World) { forall j :: j in w.jobs ==> j < w.nextJob }

  /** The home and its rows are the same in both. */
  predicate HomeKept(a: World, b: World, h: nat) {
    && (h in a.homes <==> h in b.homes) && (h in a.homes ==> b.homes[h] == a.homes[h])
    && (h in a.requested <==> h in b.requested)
    && (forall j :: j in a.jobs && a.jobs[j].home == h ==> j in b.jobs && b.jobs[j] == a.jobs[j])
    && (forall j :: j in b.jobs && b.jobs[j].home == h ==> j in a.jobs && a.jobs[j].home == h)
  }

  /** The home is marked as deleting unless it is soft-deleted, and one fresh cleanup row is all it has. */
  ghost predicate BeingDeleted(a: World, b: World, h: nat)
    requires h in a.homes
  {
    && h in b.homes && h in b.requested
    && b.homes[h] == (if a.homes[h].deleted then a.homes[h] else a.homes[h].(state := Deleting))
    && exists j :: (forall i :: i in b.jobs && b.jobs[i].home == h <==> i == j)
                   && b.jobs[j] == Job(h, Cleanup, JobPending, 0, a.now + a.cfg.initialDelay, None, 0)
  }

  lemma OneDeletion(w: World, h: nat)
    requires IdsBelow(w) && h in w.homes
    ensures var w' := ScheduleHomeDeletion(w, h);
            && IdsBelow(w') && w'.homes.Keys == w.homes.Keys && w'.now == w.now && w'.cfg == w.cfg
            && BeingDeleted(w, w', h) && forall g: nat :: g != h ==> HomeKept(w, w', g)
  {
    DeletionEffect(w, h);
    hide ScheduleHomeDeletion;
    var w' := ScheduleHomeDeletion(w, h);
    assert w'.jobs[w.nextJob] == Job(h, Cleanup, JobPending, 0, w.now + w.cfg.initialDelay, None, 0);
    assert forall i :: i in w'.jobs && w'.jobs[i].home == h <==> i == w.nextJob;
  }

  lemma KeptTransitive(a: World, b: World, c: World, h: nat)
    requires HomeKept(a, b, h) && HomeKept(b, c, h)
    ensures HomeKept(a, c, h)
  {
  }

  lemma DeletedThenKept(a: World, b: World, c: World, h: nat)
    requires h in a.homes && BeingDeleted(a, b, h) && HomeKept(b, c, h)
    ensures BeingDeleted(a, c, h)
  {
    var j :| (forall i :: i in b.jobs && b.jobs[i].home == h <==> i == j)
             && b.jobs[j] == Job(h, Cleanup, JobPending, 0, a.now + a.cfg.initialDelay, None, 0);
    assert forall i :: i in c.jobs && c.jobs[i].home == h <==> i == j;
  }

  lemma DeletedAgain(a: World, b: World, c: World, h: nat)
    requires h in a.homes && h in b.homes && BeingDeleted(b, c, h) && b.now == a.now && b.cfg == a.cfg
    requires BeingDeleted(a, b, h) || b.homes[h] == a.homes[h]
    ensures BeingDeleted(a, c, h)
  {
  }

  lemma {:induction false} Deletions(w: World, order: seq<nat>)
    requires IdsBelow(w) && forall h :: h in order ==> h in w.homes
    ensures var w' := ScheduleHomeDeletions(w, order);
            && w'.homes.Keys == w.homes.Keys && w'.now == w.now && w'.cfg == w.cfg
            && (forall h :: h in order ==> BeingDeleted(w, w', h))
            && (forall h: nat :: h !in order ==> HomeKept(w, w', h))
    decreases |order|
  {
    hide ScheduleHomeDeletion, BeingDeleted, HomeKept, IdsBelow;
    if order == [] {
      forall h: nat ensures HomeKept(w, w, h) { KeptItself(w, h); }
    } else {
      var w1 := ScheduleHomeDeletion(w, order[0]);
      var w' := ScheduleHomeDeletions(w1, order[1..]);
      OneDeletion(w, order[0]);
      Deletions(w1, order[1..]);
      forall h | h in order
        ensures BeingDeleted(w, w', h)
      {
        if h !in order[1..] {
          DeletedThenKept(w, w1, w', h);
        } else {
          if h != order[0] { KeptHome(w, w1, h); }
          DeletedAgain(w, w1, w', h);
        }
      }
      forall h: nat | h !in order
        ensures HomeKept(w, w', h)
      {
        KeptTransitive(w, w1, w', h);
      }
    }
  }

  lemma KeptItself(w: World, h: nat)
    ensures HomeKept(w, w, h)
  {
  }

  lemma KeptHome(a: World, b: World, h: nat)
    requires HomeKept(a, b, h) && h in a.homes
    ensures h in b.homes && b.homes[h] == a.homes[h]
  {
  }

  /** Deleting a user: every home of the user that is not soft-deleted is marked as deleting, on record,
      and left with one fresh cleanup row; every other home and its rows stay as they are. */
  lemma UserDeletionExactly(w: World, user: nat, order: seq<nat>)
    requires IdsBelow(w) && Enabled(w, DeleteUser(user, order))
    ensures var w' := Take(w, DeleteUser(user, order));
            && w'.homes.Keys == w.homes.Keys
            && (forall h :: h in w.homes && w.homes[h].user == user && !w.homes[h].deleted ==>
                  && w'.homes[h] == w.homes[h].(state := Deleting) && h in w'.requested
                  && exists j :: (forall i :: i in w'.jobs && w'.jobs[i].home == h <==> i == j)
                                 && w'.jobs[j] == Job(h, Cleanup, JobPending, 0, w.now + w.cfg.initialDelay, None, 0))
            && (forall h: nat :: !(h in w.homes && w.homes[h].user == user && !w.homes[h].deleted) ==>
                  HomeKept(w, w', h))
  {
    hide ScheduleHomeDeletions, HomeKept, IdsBelow;
    assert forall h :: h in order <==> h in HomesOf(w, user);
    Deletions(w, order);
    forall h | h in w.homes && w.homes[h].user == user && !w.homes[h].deleted
      ensures BeingDeleted(w, Take(w, DeleteUser(user, order)), h)
    {
      assert h in HomesOf(w, user);
    }
  }

  /** What the database shows after all the homes of a user have been scheduled: the ids are those of the
      user's homes that are not soft-deleted, these are being deleted, and no other is touched. */
  ghost predicate UserScheduled(a: World, b: World, user: nat, homeIds: seq<nat>) {
    && (forall h :: h in homeIds <==> h in a.homes && a.homes[h].user == user && !a.homes[h].deleted)
    && ((forall j :: j in a.jobs ==> j < a.nextJob) ==>
          && (forall h :: h in homeIds ==>
                && h in b.homes && b.homes[h] == a.homes[h].(state := Deleting) && h in b.requested
                && exists j :: (forall i :: i in b.jobs && b.jobs[i].home == h <==> i == j)
                               && b.jobs[j] == Job(h, Cleanup, JobPending, 0, a.now + a.cfg.initialDelay, None, 0))
          && (forall h: nat :: h !in homeIds ==> HomeKept(a, b, h)))
  }

  lemma ScheduledExactly(w: World, user: nat, homeIds: seq<nat>)
    requires (set h | h in homeIds) == HomesOf(w, user)
    ensures ScheduleHomeDeletions(w, homeIds) == Take(w, DeleteUser(user, homeIds))
    ensures UserScheduled(w, ScheduleHomeDeletions(w, homeIds), user, homeIds)
  {
    hide ScheduleHomeDeletions, HomeKept;
    assert forall h :: h in homeIds <==> h in HomesOf(w, user);
    if IdsBelow(w) {
      UserDeletionExactly(w, user, homeIds);
    }
  }

  /** Deleting one home, likewise. */
  lemma HomeDeletionExactly(w: World, h: nat)
    requires IdsBelow(w) && h in w.homes
    ensures var w' := Take(w, DeleteHome(h));
            && w'.homes.Keys == w.homes.Keys && h in w'.requested
            && w'.homes[h] == (if w.homes[h].deleted then w.homes[h] else w.homes[h].(state := Deleting))
            && (exists j :: (forall i :: i in w'.jobs && w'.jobs[i].home == h <==> i == j)
                            && w'.jobs[j] == Job(h, Cleanup, JobPending, 0, w.now + w.cfg.initialDelay, None, 0))
            && (forall g: nat :: g != h ==> HomeKept(w, w', g))
  {
    hide ScheduleHomeDeletion, HomeKept;
    OneDeletion(w, h);
  }

  /** From every reachable state. */
  lemma UserDeletionsOverRuns(start: World, before: seq<Step>, user: nat, order: seq<nat>, h: nat)
    requires IsStart(start) && Enabled(Run(start, before), DeleteUser(user, order))
    ensures var w := Run(start, before);
            var w' := Take(w, DeleteUser(user, order));
            if h in w.homes && w.homes[h].user == user && !w.homes[h].deleted then
              && h in w'.homes && w'.homes[h] == w.homes[h].(state := Deleting) && h in w'.requested
              && exists j :: (forall i :: i in w'.jobs && w'.jobs[i].home == h <==> i == j)
                             && w'.jobs[j] == Job(h, Cleanup, JobPending, 0, w.now + w.cfg.initialDelay, None, 0)
            else
              HomeKept(w, w', h)
  {
    hide Run, Take, HomeKept, IdsBelow, Inv, Enabled;
    StartInv(start);
    RunKeeps(start, before);
    ReachableIds(Run(start, before));
    UserDeletionExactly(Run(start, before), user, order);
  }

  lemma ReachableIds(w: World)
    requires Inv(w)
    ensures IdsBelow(w)
  {
    forall j | j in w.jobs
      ensures j < w.nextJob
    {
      assert JobOk(w, j);
    }
  }

  // ---------- enrolling ----------

  /** A new home belongs to the user, has its account, is pending, and has one provision row that is due
      after the initial delay. */
  lemma EnrolmentExactly(w: World, user: nat, account: Account)
    requires IdsBelow(w) && w.nextHome !in w.homes && (forall j :: j in w.jobs ==> w.jobs[j].home in w.homes)
    requires Enabled(w, Enroll(user, account))
    ensures var w', h := Take(w, Enroll(user, account)), w.nextHome;
            && h in w'.homes && w'.homes[h].user == user && w'.homes[h].state == Pending && !w'.homes[h].deleted
            && w'.homes[h].username == HomeMqttUsername(user, h, account.suffix)
            && w'.homes[h].password == account.password
            && (exists j :: (forall i :: i in w'.jobs && w'.jobs[i].home == h <==> i == j)
                            && w'.jobs[j] == Job(h, Provision, JobPending, 0, w.now + w.cfg.initialDelay, None, 0))
            && (forall g: nat :: g != h ==> HomeKept(w, w', g))
  {
    EnrollEffect(w, user, account);
    hide EnrollHome, HomeMqttUsername, Blank;
    var w', h := Take(w, Enroll(user, account)), w.nextHome;
    assert w'.jobs[w.nextJob] == Job(h, Provision, JobPending, 0, w.now + w.cfg.initialDelay, None, 0);
    assert forall i :: i in w'.jobs && w'.jobs[i].home == h <==> i == w.nextJob;
  }

  // ---------- the queue ----------

  /** Exactly the rows that have been running for more than two minutes are taken back. */
  lemma RequeueExactly(w: World, j: nat)
    requires w.tasks == map[] && j in w.jobs
    ensures var w' := Take(w, Requeue);
            && w' == w.(jobs := w'.jobs) && w'.jobs.Keys == w.jobs.Keys
            && var row := w.jobs[j];
            if row.status == JobRunning && row.claimedAt.Some? && w.now - row.claimedAt.value > 120_000_000_000 then
              w'.jobs[j] == Job(row.home, row.operation, JobPending, row.attempts, w.now, None, row.requeues + 1)
            else w'.jobs[j] == row
  {
  }

  /** The pending rows that are due and come before this one, by due time and then by id. */
  ghost function Earlier(w: World, j: nat): set<nat>
    requires j in w.jobs
  {
    set i | i in w.jobs && w.jobs[i].status == JobPending && w.jobs[i].nextRunAt <= w.now
            && (w.jobs[i].nextRunAt < w.jobs[j].nextRunAt || (w.jobs[i].nextRunAt == w.jobs[j].nextRunAt && i < j))
  }

  /** A row is claimed exactly if it is pending, due, and one of the first 128 such rows. */
  lemma ClaimExactly(w: World, j: nat)
    requires w.tasks == map[] && j in w.jobs
    ensures var w' := Take(w, Claim);
            && w'.jobs.Keys == w.jobs.Keys && w' == w.(jobs := w'.jobs, tasks := w'.tasks)
            && (j in w'.tasks <==> w.jobs[j].status == JobPending && w.jobs[j].nextRunAt <= w.now
                                   && |Earlier(w, j)| < 128)
            && var row := w.jobs[j];
            if j in w'.tasks then
              && w'.jobs[j] == Job(row.home, row.operation, JobRunning, row.attempts + 1, row.nextRunAt, Some(w.now),
                                   row.requeues)
              && w'.tasks[j] == Task(w'.jobs[j], Claimed)
            else w'.jobs[j] == row
  {
    assert DueBefore(w.jobs, w.now, j) == Earlier(w, j);
  }

  // ---------- an attempt ----------

  /** What a claimed job does once its home has been read. */
  lemma ReadExactly(w: World, j: nat, ok: bool)
    requires InPhase(w, j, Claimed)
    ensures var w', job := Take(w, Read(j, ok)), w.tasks[j].job;
            && w' == w.(tasks := w'.tasks) && w'.tasks == w.tasks[j := Task(job, w'.tasks[j].phase)]
            && var phase := w'.tasks[j].phase;
            if !ok then phase == Failing(false)
            else if job.home !in w.homes then phase == Dropping
            else
              var home := w.homes[job.home];
              if job.operation == Cleanup then phase == Loaded(home)
              else
                && (phase == Dropping <==> home.deleted || home.state == Deleting)
                && (phase == Loaded(home) <==>
                      && !home.deleted && home.state != Deleting
                      && !AllSpace(home.username) && !AllSpace(home.password))
                && (phase == Dropping || phase == Loaded(home) || phase == Failing(true))
  {
    if w.tasks[j].job.home in w.homes {
      BlankExactly(w.homes[w.tasks[j].job.home].username);
      BlankExactly(w.homes[w.tasks[j].job.home].password);
    }
    hide Blank, AllSpace;
  }

  /** Clearing gets on exactly if the broker answers, unless there never was an account to clear, and a
      cleanup's devices are cleared as well. What it has cleared is gone. */
  lemma ClearExactly(w: World, j: nat, fate: Fate, devicesCleared: bool)
    requires IsLoaded(w, j)
    ensures var w', job, home := Take(w, Clear(j, fate, devicesCleared)), w.tasks[j].job, w.tasks[j].phase.copy;
            && w' == w.(tasks := w'.tasks, broker := w'.broker)
            && w'.tasks == w.tasks[j := Task(job, w'.tasks[j].phase)]
            && w'.tasks[j].phase == (
                 if (fate.answered || (job.operation == Cleanup && home.username == ""))
                    && (job.operation == Provision || devicesCleared) then Cleared(home)
                 else Failing(true))
            && (w'.tasks[j].phase.Cleared? && !AllSpace(home.username) ==>
                  home.username !in w'.broker.clients && HomeRoleName(home.user, job.home) !in w'.broker.roles)
  {
    var job, home := w.tasks[j].job, w.tasks[j].phase.copy;
    CleanupSucceeds(w.broker, home.user, job.home, home.username, fate);
    BlankExactly(home.username);
    hide CleanupHomeAccess, Blank, HomeRoleName;
  }

  /** Granting gets on exactly if the broker answers, refuses nothing and knew neither name. */
  lemma GrantExactly(w: World, j: nat, fate: GrantFate)
    requires Enabled(w, Grant(j, fate))
    ensures var w', job, home := Take(w, Grant(j, fate)), w.tasks[j].job, w.tasks[j].phase.copy;
            && w' == w.(tasks := w'.tasks, broker := w'.broker)
            && w'.tasks == w.tasks[j := Task(job, w'.tasks[j].phase)]
            && w'.tasks[j].phase == (
                 if fate.grant.answered && (forall i: nat :: i < 6 ==> i !in fate.grant.refused)
                    && home.username !in w.broker.clients && HomeRoleName(home.user, job.home) !in w.broker.roles then
                   Provisioned(home)
                 else Failing(true))
  {
    var job, home := w.tasks[j].job, w.tasks[j].phase.copy;
    GrantSucceedsIff(w.broker, home.user, job.home, home.username, home.password, fate);
    hide ProvisionHomeAccess, HomeRoleName;
  }

  // ---------- the end of an attempt ----------

  /** A retry waits for as many base delays as there have been attempts, at least one and at most the
      highest multiple. */
  lemma RetryDelayExactly(cfg: Config, attempts: int)
    requires cfg.Valid()
    ensures 1 <= attempts <= cfg.retryMaxMultiplier ==> RetryDelay(cfg, attempts) == attempts * cfg.retryBaseDelay
    ensures attempts < 1 ==> RetryDelay(cfg, attempts) == cfg.retryBaseDelay
    ensures attempts > cfg.retryMaxMultiplier ==>
              RetryDelay(cfg, attempts) == cfg.retryMaxMultiplier * cfg.retryBaseDelay
    ensures 1 <= attempts < cfg.retryMaxMultiplier ==>
              RetryDelay(cfg, attempts + 1) == RetryDelay(cfg, attempts) + cfg.retryBaseDelay
  {
    if 1 <= attempts < cfg.retryMaxMultiplier {
      OneMore(attempts, cfg.retryBaseDelay);
    }
  }

  lemma OneMore(k: int, d: int)
    ensures (k + 1) * d == k * d + d
  {
  }

  /** The last transaction of an attempt: what becomes of the home's row. */
  lemma HomeAfterAttempt(w: World, j: nat)
    requires Enabled(w, Commit(j)) && w.tasks[j].job.home in w.homes
    ensures var w', t := Take(w, Commit(j)), w.tasks[j];
            var home := w.homes[t.job.home];
            && w'.homes.Keys == w.homes.Keys && w'.broker == w.broker && w'.tasks == w.tasks - {j}
            && (forall g :: g in w.homes && g != t.job.home ==> w'.homes[g] == w.homes[g])
            && w'.homes[t.job.home] == (
                 if t.phase.Cleared? then Home(home.user, "", "", Deleting, true)
                 else if t.phase == Failing(true) && t.job.operation == Cleanup then home.(state := Deleting)
                 else if home.deleted then home
                 else if t.phase.Provisioned? then home.(state := Ready)
                 else if t.phase == Failing(true) then home.(state := if t.job.attempts >= 6 then Failed else Pending)
                 else home)
  {
    hide RetriedJob, Strands;
  }

  /** And of its job's row: gone unless the attempt failed, and then given up after a provision's sixth
      attempt, and otherwise due again after the retry delay. */
  lemma JobAfterAttempt(w: World, j: nat)
    requires Enabled(w, Commit(j))
    ensures var w', t := Take(w, Commit(j)), w.tasks[j];
            && (forall i :: i in w.jobs && i != j ==> i in w'.jobs && w'.jobs[i] == w.jobs[i])
            && (forall i :: i in w'.jobs ==> i in w.jobs)
            && (j in w'.jobs <==> j in w.jobs && t.phase.Failing?)
            && (j in w'.jobs ==>
                  w'.jobs[j] == if t.job.operation == Provision && t.job.attempts >= 6 then
                                  w.jobs[j].(status := JobFailed, claimedAt := None)
                                else w.jobs[j].(status := JobPending, claimedAt := None,
                                                nextRunAt := w.now + RetryDelay(w.cfg, t.job.attempts)))
  {
    FinishWrites(w, j);
    hide Finish, RetryDelay, CanFinish;
  }

  /** If that transaction fails, no row changes; a cleanup that got this far is rescheduled next. */
  lemma FailedCommitExactly(w: World, j: nat)
    requires Enabled(w, CommitFails(j))
    ensures var w' := Take(w, CommitFails(j));
            && w' == w.(tasks := w'.tasks)
            && w'.tasks == if w.tasks[j].phase.Cleared? then w.tasks[j := Task(w.tasks[j].job, Failing(true))]
                           else w.tasks - {j}
  {
  }
}
