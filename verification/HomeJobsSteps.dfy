/**
 Every step of the queue keeps the invariant.
 */
module HomeJobsSteps {
  import opened Strings
  import opened HomeNames
  import opened Dynsec
  import opened HomeJobs
  import opened HomeJobsInvariant

  // ---------- facts about one home, row or task ----------

  lemma FreshHome(w: World)
    requires Inv(w)
    ensures w.nextHome !in w.homes && w.nextHome !in w.requested && w.nextHome !in w.stranded
  {
    hide Life, HomeGone, Blank, HomeMqttUsername, JobsOk, TasksOk, OneTask;
    forall h | h in w.homes
      ensures h < w.nextHome
    {
      assert HomeOk(w, h);
    }
  }

  lemma FreshJob(w: World)
    requires Inv(w)
    ensures w.nextJob !in w.jobs && w.nextJob !in w.tasks
  {
    hide PhaseOk, HomesOk, OneTask;
    forall j | j in w.jobs
      ensures j < w.nextJob
    {
      assert JobOk(w, j);
    }
    forall j | j in w.tasks
      ensures j < w.nextJob
    {
      assert TaskOk(w, j);
    }
  }

  lemma JobHomes(w: World)
    requires Inv(w)
    ensures forall j :: j in w.jobs ==>
              w.jobs[j].home in w.homes && w.jobs[j].home in w.latest && w.latest[w.jobs[j].home] == j
  {
    hide HomesOk, TasksOk, OneTask;
    assert forall j :: j in w.jobs ==> JobOk(w, j);
  }

  lemma TaskHomes(w: World)
    requires Inv(w)
    ensures forall j :: j in w.tasks ==> Served(w, w.tasks[j].job.home)
  {
    hide PhaseOk, HomesOk, JobsOk, OneTask;
    assert forall j :: j in w.tasks ==> TaskOk(w, j);
  }

  // ---------- time and crashes ----------

  /** Time passes, or tasks stop: nothing that the invariant speaks about changes. */
  lemma QuietStep(w: World, w': World)
    requires Inv(w) && w' == w.(now := w'.now, tasks := w'.tasks)
    requires forall j :: j in w'.tasks ==> j in w.tasks && w'.tasks[j] == w.tasks[j]
    ensures Inv(w')
  {
    hide HomesOk, JobsOk, TasksOk;
    QuietRows(w, w');
    QuietTasks(w, w');
  }

  lemma QuietRows(w: World, w': World)
    requires HomesOk(w) && JobsOk(w) && w' == w.(now := w'.now, tasks := w'.tasks)
    ensures HomesOk(w') && JobsOk(w')
  {
    hide HomeOk, JobOk;
    forall h | h in w.homes
      ensures HomeOk(w', h)
    {
      QuietHome(w, w', h);
    }
    forall j | j in w.jobs
      ensures JobOk(w', j)
    {
      QuietJob(w, w', j);
    }
  }

  lemma QuietHome(w: World, w': World, h: nat)
    requires h in w.homes && HomeOk(w, h) && w' == w.(now := w'.now, tasks := w'.tasks)
    ensures HomeOk(w', h)
  {
    hide Gone, Granted, HomeMqttUsername, Blank;
  }

  lemma QuietJob(w: World, w': World, j: nat)
    requires j in w.jobs && JobOk(w, j) && w' == w.(now := w'.now, tasks := w'.tasks)
    ensures JobOk(w', j)
  {
  }

  lemma QuietTasks(w: World, w': World)
    requires TasksOk(w) && w' == w.(now := w'.now, tasks := w'.tasks)
    requires forall j :: j in w'.tasks ==> j in w.tasks && w'.tasks[j] == w.tasks[j]
    ensures TasksOk(w')
  {
    hide TaskOk;
    forall j | j in w'.tasks
      ensures TaskOk(w', j)
    {
      QuietTask(w, w', j);
    }
  }

  lemma QuietTask(w: World, w': World, j: nat)
    requires j in w.tasks && TaskOk(w, j) && w' == w.(now := w'.now, tasks := w'.tasks)
    requires j in w'.tasks && w'.tasks[j] == w.tasks[j]
    ensures TaskOk(w', j)
  {
    hide Gone, Granted, HomeMqttUsername;
  }

  // ---------- enqueueing ----------

  lemma EnrollKeeps(w: World, user: nat, account: Account)
    requires Inv(w) && !Blank(account.password)
    ensures Inv(EnrollHome(w, user, account))
  {
    FreshHome(w);
    FreshJob(w);
    JobHomes(w);
    TaskHomes(w);
    assert Registered(w);
    hide Inv, HomeOk, JobOk, TaskOk, EnrollHome, AccessKept, OnlyHome, HomeMqttUsername, Registered, Blank;
    var h, w' := w.nextHome, EnrollHome(w, user, account);
    NewHomeOk(w, user, account);
    EnrollOnlyHome(w, user, account);
    EnrollRegisters(w, user, account);
    SameBrokerKept(w, w', h);
    OneHomeStep(w, w', h);
  }

  lemma EnrollOnlyHome(w: World, user: nat, account: Account)
    requires w.nextHome !in w.homes && w.nextJob !in w.jobs && forall j :: j in w.jobs ==> w.jobs[j].home in w.homes
    ensures OnlyHome(w, EnrollHome(w, user, account), w.nextHome)
  {
    EnrollEffect(w, user, account);
    hide EnrollHome, HomeMqttUsername;
  }

  lemma EnrollRegisters(w: World, user: nat, account: Account)
    requires Registered(w) && w.nextHome !in w.homes && w.nextJob !in w.jobs
    requires forall j :: j in w.jobs ==> w.jobs[j].home in w.homes
    ensures var w' := EnrollHome(w, user, account);
            && Registered(w') && w'.broker == w.broker && w'.tasks == w.tasks
            && forall j :: j in w'.jobs && w'.jobs[j].home == w.nextHome ==> j == w.nextJob
  {
    EnrollEffect(w, user, account);
    hide EnrollHome, HomeMqttUsername;
  }

  lemma EnrollEffect(w: World, user: nat, account: Account)
    requires w.nextHome !in w.homes && forall j :: j in w.jobs ==> w.jobs[j].home in w.homes
    ensures var h := w.nextHome;
            EnrollHome(w, user, account)
            == w.(homes := w.homes[h := Home(user, HomeMqttUsername(user, h, account.suffix), account.password,
                                             Pending, false)],
                  nextHome := h + 1, issued := w.issued[h := account],
                  jobs := w.jobs[w.nextJob := NewJob(h, Provision, InitialNextRunAt(w))], nextJob := w.nextJob + 1,
                  latest := w.latest[h := w.nextJob])
  {
    hide HomeMqttUsername;
  }

  lemma NewHomeOk(w: World, user: nat, account: Account)
    requires w.nextHome !in w.homes && (forall j :: j in w.jobs ==> w.jobs[j].home in w.homes)
    requires !Blank(account.password)
    requires w.nextHome !in w.requested && w.nextHome !in w.stranded
    ensures var w' := EnrollHome(w, user, account);
            && w.nextHome in w'.homes && HomeOk(w', w.nextHome) && w.nextJob in w'.jobs && JobOk(w', w.nextJob)
  {
    EnrollEffect(w, user, account);
    hide EnrollHome, Blank, HomeMqttUsername, HomeGone, HomeGranted;
  }

  /** Requesting a deletion replaces the home's rows by one cleanup row. */
  lemma DeletionEffect(w: World, h: nat)
    requires h in w.homes
    ensures var w' := ScheduleHomeDeletion(w, h);
            w' == w.(homes := w.homes[h := WithState(w.homes[h], Deleting)],
                     jobs := ClearJobs(w, h).jobs[w.nextJob := NewJob(h, Cleanup, InitialNextRunAt(w))],
                     nextJob := w.nextJob + 1, latest := w.latest[h := w.nextJob], requested := w.requested + {h})
  {
  }

  lemma DeleteHomeKeeps(w: World, h: nat)
    requires Inv(w) && h in w.homes
    ensures Inv(ScheduleHomeDeletion(w, h)) && ScheduleHomeDeletion(w, h).homes.Keys == w.homes.Keys
  {
    FreshJob(w);
    assert HomeOk(w, h) && Registered(w);
    DeletionOnlyHome(w, h);
    DeletionRegisters(w, h);
    DeletingTasksOk(w, h);
    hide Inv, HomeOk, JobOk, TaskOk, ScheduleHomeDeletion, AccessKept, OnlyHome, Registered;
    var w' := ScheduleHomeDeletion(w, h);
    DeletingHomeOk(w, h);
    SameBrokerKept(w, w', h);
    OneHomeStep(w, w', h);
  }

  lemma DeletionOnlyHome(w: World, h: nat)
    requires h in w.homes && w.nextJob !in w.jobs
    ensures OnlyHome(w, ScheduleHomeDeletion(w, h), h)
  {
    DeletionEffect(w, h);
    hide ScheduleHomeDeletion;
  }

  lemma DeletionRegisters(w: World, h: nat)
    requires Registered(w) && h in w.homes && w.nextJob !in w.jobs
    ensures var w' := ScheduleHomeDeletion(w, h);
            && Registered(w') && w'.broker == w.broker && w'.tasks == w.tasks && w'.homes.Keys == w.homes.Keys
            && forall j :: j in w'.jobs && w'.jobs[j].home == h ==> j == w.nextJob
  {
    DeletionEffect(w, h);
    hide ScheduleHomeDeletion;
  }

  lemma DeletingHomeOk(w: World, h: nat)
    requires h in w.homes && HomeOk(w, h) && w.nextJob !in w.jobs
    ensures var w' := ScheduleHomeDeletion(w, h);
            h in w'.homes && HomeOk(w', h) && w.nextJob in w'.jobs && JobOk(w', w.nextJob)
  {
    DeletionEffect(w, h);
    hide ScheduleHomeDeletion, Gone, Granted, Blank, HomeMqttUsername;
  }

  /** A task of that home that is under way when the deletion is requested. */
  lemma DeletingTasksOk(w: World, h: nat)
    requires Inv(w) && h in w.homes
    ensures var w' := ScheduleHomeDeletion(w, h);
            forall j :: j in w'.tasks && w'.tasks[j].job.home == h ==> TaskOk(w', j)
  {
    FreshJob(w);
    TaskHomes(w);
    hide ScheduleHomeDeletion, TaskOk, HomesOk, JobsOk, OneTask;
    var w' := ScheduleHomeDeletion(w, h);
    DeletionEffect(w, h);
    forall j | j in w'.tasks && w'.tasks[j].job.home == h
      ensures TaskOk(w', j)
    {
      DeletingTaskOk(w, h, j);
    }
  }

  lemma DeletingTaskOk(w: World, h: nat, j: nat)
    requires h in w.homes && j in w.tasks && w.tasks[j].job.home == h && TaskOk(w, j) && w.nextJob !in w.tasks
    ensures var w' := ScheduleHomeDeletion(w, h); w'.tasks == w.tasks && TaskOk(w', j)
  {
    DeletionEffect(w, h);
    TaskServed(w, j);
    hide ScheduleHomeDeletion, TaskOk, Gone, Granted, HomeMqttUsername;
    TaskFrame(w, ScheduleHomeDeletion(w, h), j);
  }

  lemma {:induction false} DeleteHomesKeeps(w: World, order: seq<nat>)
    requires Inv(w) && forall h :: h in order ==> h in w.homes
    ensures Inv(ScheduleHomeDeletions(w, order))
    decreases |order|
  {
    hide Inv, ScheduleHomeDeletion;
    if order != [] {
      DeleteHomeKeeps(w, order[0]);
      DeleteHomesKeeps(ScheduleHomeDeletion(w, order[0]), order[1..]);
    }
  }

  // ---------- claiming ----------

  /** Rows keep their homes, and failed rows stay failed. */
  predicate SameRows(w: World, w': World) {
    && w'.jobs.Keys == w.jobs.Keys
    && forall j :: j in w.jobs ==>
         w'.jobs[j].home == w.jobs[j].home && (w'.jobs[j].status == JobFailed <==> w.jobs[j].status == JobFailed)
  }

  lemma HomesStay(w: World, w': World)
    requires HomesOk(w) && SameRows(w, w') && w' == w.(jobs := w'.jobs, tasks := w'.tasks)
    ensures HomesOk(w')
  {
    hide HomeOk;
    forall h | h in w.homes
      ensures HomeOk(w', h)
    {
      HomeStays(w, w', h);
    }
  }

  lemma HomeStays(w: World, w': World, h: nat)
    requires h in w.homes && HomeOk(w, h) && SameRows(w, w') && w' == w.(jobs := w'.jobs, tasks := w'.tasks)
    ensures HomeOk(w', h)
  {
    hide Gone, Granted, HomeMqttUsername, Blank;
  }

  /** Stale claims are taken back only while nothing runs. */
  lemma RequeueKeeps(w: World)
    requires Inv(w) && w.tasks == map[]
    ensures Inv(RequeueStaleClaims(w))
  {
    var w' := RequeueStaleClaims(w);
    hide HomeOk, JobOk, TaskOk, Stale, RequeuedJob;
    forall j | j in w'.jobs
      ensures JobOk(w', j) && w'.jobs[j].home == w.jobs[j].home
      ensures w'.jobs[j].status == JobFailed <==> w.jobs[j].status == JobFailed
    {
      RequeuedJobOk(w, j);
    }
    HomesStay(w, w');
  }

  lemma RequeuedJobOk(w: World, j: nat)
    requires j in w.jobs && JobOk(w, j)
    ensures var w' := RequeueStaleClaims(w);
            && JobOk(w', j) && w'.jobs[j].home == w.jobs[j].home
            && (w'.jobs[j].status == JobFailed <==> w.jobs[j].status == JobFailed)
  {
  }

  lemma ClaimKeeps(w: World)
    requires Inv(w) && w.tasks == map[]
    ensures Inv(ClaimJobs(w))
  {
    var w' := ClaimJobs(w);
    ClaimedRowsOk(w);
    ClaimedTasksOk(w);
    hide HomeOk, JobOk, TaskOk, FirstDue, ClaimedJob;
    HomesStay(w, w');
  }

  lemma ClaimedRowsOk(w: World)
    requires JobsOk(w) && forall j :: j in FirstDue(w.jobs, w.now) ==> w.jobs[j].status == JobPending
    ensures JobsOk(ClaimJobs(w)) && SameRows(w, ClaimJobs(w))
  {
    hide JobOk, FirstDue, ClaimedJob;
    forall j | j in w.jobs
      ensures JobOk(ClaimJobs(w), j) && ClaimJobs(w).jobs[j].home == w.jobs[j].home
      ensures ClaimJobs(w).jobs[j].status == JobFailed <==> w.jobs[j].status == JobFailed
    {
      ClaimedJobOk(w, j);
    }
  }

  lemma ClaimedJobOk(w: World, j: nat)
    requires j in w.jobs && JobOk(w, j) && (j in FirstDue(w.jobs, w.now) ==> w.jobs[j].status == JobPending)
    ensures var w' := ClaimJobs(w);
            && JobOk(w', j) && w'.jobs[j].home == w.jobs[j].home
            && (w'.jobs[j].status == JobFailed <==> w.jobs[j].status == JobFailed)
  {
    hide FirstDue;
  }

  lemma ClaimedTasksOk(w: World)
    requires Inv(w)
    ensures TasksOk(ClaimJobs(w)) && OneTask(ClaimJobs(w))
  {
    hide HomeOk, JobOk, TaskOk, FirstDue, ClaimedJob, TasksOk, OneTask;
    JobHomes(w);
    forall j | j in ClaimJobs(w).tasks
      ensures TaskOk(ClaimJobs(w), j) && ClaimJobs(w).tasks[j].job.home == w.jobs[j].home
    {
      ClaimedTaskOk(w, j);
    }
    ClaimedApart(w);
    AllTasksOk(ClaimJobs(w));
  }

  lemma AllTasksOk(w: World)
    requires forall j :: j in w.tasks ==> TaskOk(w, j)
    ensures TasksOk(w)
  {
    hide TaskOk;
  }

  /** Claimed rows are of different homes. */
  lemma ClaimedApart(w: World)
    requires forall j :: j in w.jobs ==> w.jobs[j].home in w.latest && w.latest[w.jobs[j].home] == j
    ensures OneTask(ClaimJobs(w))
  {
    hide FirstDue;
  }

  lemma ClaimedTaskOk(w: World, j: nat)
    requires j in FirstDue(w.jobs, w.now) && j in w.jobs && JobOk(w, j)
    requires w.jobs[j].home in w.homes ==> HomeOk(w, w.jobs[j].home)
    ensures var w' := ClaimJobs(w); j in w'.tasks && TaskOk(w', j) && w'.tasks[j].job.home == w.jobs[j].home
  {
    hide FirstDue, HomeGone, Life, Blank, HomeMqttUsername;
  }

  // ---------- processing ----------

  /** A task moves on, and the broker may have changed what concerns its home. */
  lemma MoveKeeps(w: World, j: nat, phase: Phase, broker: Broker)
    requires Inv(w) && j in w.tasks && Served(w, w.tasks[j].job.home)
    requires var h := w.tasks[j].job.home;
             var w' := SetPhase(w, j, phase).(broker := broker);
             && OnlyTouches(w.broker, broker, IssuedName(w, h), HomeRoleName(w.homes[h].user, h))
             && (w.homes[h].deleted ==> HomeGone(w', h))
             && PhaseOk(w', w'.tasks[j])
    ensures Inv(SetPhase(w, j, phase).(broker := broker))
  {
    hide HomeOk, JobOk, TaskOk, AccessKept, OnlyHome, PhaseOk, OnlyTouches, HomeGone, IssuedName, HomeRoleName;
    var h, w' := w.tasks[j].job.home, SetPhase(w, j, phase).(broker := broker);
    MoveOnlyHome(w, w', h);
    BrokerApart(w, w', h);
    MovedHomeOk(w, j, w');
    MovedJobsOk(w, w');
    MovedTasksOk(w, j, w');
    hide HomesOk, TasksOk, OneTask, HomeOk, JobOk, TaskOk, AccessKept, OnlyHome;
    OneHomeStep(w, w', h);
  }

  lemma MovedJobsOk(w: World, w': World)
    requires JobsOk(w) && w' == w.(tasks := w'.tasks, broker := w'.broker)
    ensures JobsOk(w')
  {
    assert forall j :: j in w.jobs ==> JobOk(w, j) && JobOk(w', j);
  }

  lemma MoveOnlyHome(w: World, w': World, h: nat)
    requires w' == w.(tasks := w'.tasks, broker := w'.broker)
    ensures OnlyHome(w, w', h)
  {
  }

  /** A home whose task is under way is not settled as ready, so its access may change. */
  lemma MovedHomeOk(w: World, j: nat, w': World)
    requires j in w.tasks && TaskOk(w, j) && Served(w, w.tasks[j].job.home) && HomeOk(w, w.tasks[j].job.home)
    requires j in w.jobs ==> JobOk(w, j)
    requires w' == w.(tasks := w'.tasks, broker := w'.broker)
    requires w.homes[w.tasks[j].job.home].deleted ==> HomeGone(w', w.tasks[j].job.home)
    ensures HomeOk(w', w.tasks[j].job.home)
  {
    hide PhaseOk, Gone, Granted, Blank, HomeMqttUsername;
  }

  lemma MovedTasksOk(w: World, j: nat, w': World)
    requires TasksOk(w) && OneTask(w) && j in w.tasks && Served(w, w.tasks[j].job.home)
    requires j in w'.tasks && w' == w.(tasks := w.tasks[j := w'.tasks[j]], broker := w'.broker)
    requires w'.tasks[j].job == w.tasks[j].job && PhaseOk(w', w'.tasks[j])
    ensures forall i :: i in w'.tasks && w'.tasks[i].job.home == w.tasks[j].job.home ==> TaskOk(w', i)
    ensures OneTask(w')
  {
    assert TaskOk(w, j);
    hide PhaseOk;
    assert TaskOk(w', j);
    hide TaskOk;
    forall i | i in w'.tasks && w'.tasks[i].job.home == w.tasks[j].job.home
      ensures i == j
    {
      assert i in w.tasks && w.tasks[i].job.home == w'.tasks[i].job.home;
    }
    assert forall i :: i in w'.tasks ==> i in w.tasks && w'.tasks[i].job == w.tasks[i].job;
  }

  lemma TouchesNothing(b: Broker, username: string, role: string)
    ensures OnlyTouches(b, b, username, role)
  {
  }

  /** A task moves on without the broker. */
  lemma PhaseKeeps(w: World, j: nat, phase: Phase)
    requires Inv(w) && j in w.tasks && Served(w, w.tasks[j].job.home)
    requires PhaseOk(w, w.tasks[j].(phase := phase))
    ensures Inv(SetPhase(w, j, phase))
  {
    var h, w' := w.tasks[j].job.home, SetPhase(w, j, phase).(broker := w.broker);
    assert HomeOk(w, h);
    SamePhase(w, w', w'.tasks[j]);
    hide PhaseOk, Gone, Granted, HomeMqttUsername, Life, HomesOk, JobsOk, TasksOk, OneTask, Registered;
    TouchesNothing(w.broker, IssuedName(w, h), HomeRoleName(w.homes[h].user, h));
    assert w.homes[h].deleted ==> HomeGone(w, h) && HomeGone(w', h);
    hide HomeOk, OnlyTouches, HomeGone, IssuedName, HomeRoleName, Inv;
    assert w' == SetPhase(w, j, phase);
    MoveKeeps(w, j, phase, w.broker);
  }

  lemma SamePhase(w: World, w': World, t: Task)
    requires Served(w, t.job.home) && PhaseOk(w, t) && w' == w.(tasks := w'.tasks)
    ensures PhaseOk(w', t)
  {
    hide Gone, Granted, HomeMqttUsername;
  }

  lemma ReadKeeps(w: World, j: nat, ok: bool)
    requires Inv(w) && j in w.tasks
    ensures Inv(ReadHome(w, j, ok))
  {
    assert TaskOk(w, j);
    TaskServed(w, j);
    var h := w.tasks[j].job.home;
    assert HomeOk(w, h);
    ReadPhaseOk(w, j);
    hide Inv, TaskOk, HomeOk, PhaseOk, Blank, HasMqttCredentials;
    var phase := ReadHome(w, j, ok).tasks[j].phase;
    PhaseKeeps(w, j, phase);
  }

  lemma ReadPhaseOk(w: World, j: nat)
    requires j in w.tasks && TaskOk(w, j) && Served(w, w.tasks[j].job.home) && HomeOk(w, w.tasks[j].job.home)
    ensures forall ok :: var w' := ReadHome(w, j, ok); PhaseOk(w, w.tasks[j].(phase := w'.tasks[j].phase))
  {
    hide Gone, Granted, HomeMqttUsername, Blank;
  }

  lemma TaskFacts(w: World, j: nat)
    requires Inv(w) && j in w.tasks
    ensures TaskOk(w, j) && Served(w, w.tasks[j].job.home) && HomeOk(w, w.tasks[j].job.home)
    ensures PhaseOk(w, w.tasks[j].(phase := Failing(true)))
  {
    hide TaskOk, HomeOk, JobsOk, OneTask, Registered, PhaseOk;
    TaskServed(w, j);
    FailingOk(w, j);
  }

  lemma FailingOk(w: World, j: nat)
    requires j in w.tasks && Served(w, w.tasks[j].job.home)
    ensures PhaseOk(w, w.tasks[j].(phase := Failing(true)))
  {
  }

  lemma DevicesUnreadKeeps(w: World, j: nat)
    requires Inv(w) && j in w.tasks
    ensures Inv(ReadDevicesFails(w, j))
  {
    hide Inv, TaskOk, HomeOk, PhaseOk;
    TaskFacts(w, j);
    PhaseKeeps(w, j, Failing(true));
  }

  lemma ClearKeeps(w: World, j: nat, fate: Fate, devicesCleared: bool)
    requires Inv(w) && j in w.tasks && w.tasks[j].phase.Loaded?
    ensures Inv(ClearAccess(w, j, fate, devicesCleared))
  {
    hide Inv, TaskOk, HomeOk, PhaseOk, CleanupHomeAccess, OnlyTouches, HomeRoleName, HomeMqttUsername, HomeGone, CopyOk;
    TaskFacts(w, j);
    LoadedName(w, j);
    var h, t := w.tasks[j].job.home, w.tasks[j];
    var w' := ClearAccess(w, j, fate, devicesCleared);
    if t.job.operation == Cleanup && t.phase.copy.username == "" {
      NothingToClear(w, j, devicesCleared);
      PhaseKeeps(w, j, w'.tasks[j].phase);
    } else {
      CleanupTouches(w.broker, w.homes[h].user, h, IssuedName(w, h), fate);
      ClearedPhaseOk(w, j, fate, devicesCleared);
      assert w' == SetPhase(w, j, w'.tasks[j].phase).(broker := w'.broker);
      MoveKeeps(w, j, w'.tasks[j].phase, w'.broker);
    }
  }

  lemma NothingToClear(w: World, j: nat, devicesCleared: bool)
    requires j in w.tasks && Served(w, w.tasks[j].job.home) && w.tasks[j].phase.Loaded?
    requires CopyOk(w, w.tasks[j], w.tasks[j].phase.copy) && HomeGone(w, w.tasks[j].job.home)
    ensures PhaseOk(w, w.tasks[j].(phase := if devicesCleared then Cleared(w.tasks[j].phase.copy) else Failing(true)))
  {
    hide HomeGone, IssuedName;
  }

  /** What a task knows about its home's name while it talks to the broker. */
  lemma LoadedName(w: World, j: nat)
    requires j in w.tasks && TaskOk(w, j) && Served(w, w.tasks[j].job.home) && HomeOk(w, w.tasks[j].job.home)
    requires w.tasks[j].phase.Loaded?
    ensures var t, h := w.tasks[j], w.tasks[j].job.home;
            && t.phase.copy.user == w.homes[h].user && CopyOk(w, t, t.phase.copy)
            && (if t.job.operation == Cleanup && t.phase.copy.username == "" then HomeGone(w, h)
                else t.phase.copy.username == IssuedName(w, h))
  {
    UsernameNotBlank(w.homes[w.tasks[j].job.home].user, w.tasks[j].job.home, w.issued[w.tasks[j].job.home].suffix);
    hide HomeGone, HomeMqttUsername, Blank, Life;
  }

  lemma ClearedPhaseOk(w: World, j: nat, fate: Fate, devicesCleared: bool)
    requires j in w.tasks && Served(w, w.tasks[j].job.home) && w.tasks[j].phase.Loaded?
    requires HomeOk(w, w.tasks[j].job.home)
    requires var t, h := w.tasks[j], w.tasks[j].job.home;
             && CopyOk(w, t, t.phase.copy) && t.phase.copy.user == w.homes[h].user
             && t.phase.copy.username == IssuedName(w, h)
             && !(t.job.operation == Cleanup && t.phase.copy.username == "")
    ensures var w' := ClearAccess(w, j, fate, devicesCleared);
            && PhaseOk(w', w'.tasks[j]) && (w.homes[w.tasks[j].job.home].deleted ==> HomeGone(w', w.tasks[j].job.home))
  {
    var h := w.tasks[j].job.home;
    var user, name := w.homes[h].user, IssuedName(w, h);
    UsernameNotBlank(user, h, w.issued[h].suffix);
    CleanupSucceeds(w.broker, user, h, name, fate);
    if HomeGone(w, h) {
      CleanupKeepsGone(w.broker, user, h, name, fate);
    }
    hide CleanupHomeAccess, Gone, Granted, HomeMqttUsername, Blank, Life;
  }

  lemma GrantKeeps(w: World, j: nat, fate: GrantFate)
    requires Inv(w) && j in w.tasks && w.tasks[j].phase.Cleared? && w.tasks[j].job.operation == Provision
    ensures Inv(GrantAccess(w, j, fate))
  {
    hide Inv, TaskOk, HomeOk, PhaseOk, ProvisionHomeAccess, OnlyTouches, HomeRoleName, HomeMqttUsername, HomeGone,
         CopyOk;
    TaskFacts(w, j);
    ClearedFacts(w, j);
    var h, w' := w.tasks[j].job.home, GrantAccess(w, j, fate);
    ProvisionTouches(w.broker, w.homes[h].user, h, IssuedName(w, h), w.issued[h].password, fate);
    GrantedPhaseOk(w, j, fate);
    assert w' == SetPhase(w, j, w'.tasks[j].phase).(broker := w'.broker);
    MoveKeeps(w, j, w'.tasks[j].phase, w'.broker);
  }

  lemma ClearedFacts(w: World, j: nat)
    requires j in w.tasks && TaskOk(w, j) && Served(w, w.tasks[j].job.home)
    requires w.tasks[j].phase.Cleared? && w.tasks[j].job.operation == Provision
    ensures var h, copy := w.tasks[j].job.home, w.tasks[j].phase.copy;
            && !w.homes[h].deleted && copy.user == w.homes[h].user
            && copy.username == IssuedName(w, h) && copy.password == w.issued[h].password
  {
    hide HomeGone, HomeMqttUsername;
  }

  lemma GrantedPhaseOk(w: World, j: nat, fate: GrantFate)
    requires j in w.tasks && Served(w, w.tasks[j].job.home)
    requires w.tasks[j].phase.Cleared? && w.tasks[j].job.operation == Provision
    requires var h, copy := w.tasks[j].job.home, w.tasks[j].phase.copy;
             && copy.user == w.homes[h].user && copy.username == IssuedName(w, h)
             && copy.password == w.issued[h].password
    ensures var w' := GrantAccess(w, j, fate); PhaseOk(w', w'.tasks[j])
  {
    var h := w.tasks[j].job.home;
    GrantSucceeds(w.broker, w.homes[h].user, h, IssuedName(w, h), w.issued[h].password, fate);
    hide ProvisionHomeAccess, Granted, HomeMqttUsername;
  }

  // ---------- the last transaction of a task ----------

  lemma OnlyHomeTransitive(a: World, b: World, c: World, h: nat)
    requires OnlyHome(a, b, h) && OnlyHome(b, c, h)
    ensures OnlyHome(a, c, h)
  {
    forall g: nat | g != h
      ensures HomeUntouched(a, c, g)
    {
      assert HomeUntouched(a, b, g) && HomeUntouched(b, c, g);
    }
    forall j: nat
      ensures JobUntouched(a, c, h, j)
    {
      assert JobUntouched(a, b, h, j) && JobUntouched(b, c, h, j);
    }
  }

  /** Writing a home's own row, its history or the tasks concerns only that home. */
  lemma HomeWrite(w: World, w': World, h: nat)
    requires w' == w.(homes := w'.homes, tasks := w'.tasks, stranded := w'.stranded)
    requires w'.homes == w.homes || (h in w'.homes && w'.homes == w.homes[h := w'.homes[h]])
    requires w'.stranded == w.stranded || w'.stranded == w.stranded + {h}
    ensures OnlyHome(w, w', h)
  {
  }

  lemma JobWrite(w: World, w': World, h: nat, j: nat)
    requires w' == w.(jobs := w'.jobs)
    requires j in w.jobs ==> w.jobs[j].home == h
    requires w'.jobs == w.jobs || w'.jobs == w.jobs - {j}
             || (j in w.jobs && j in w'.jobs && w'.jobs == w.jobs[j := w'.jobs[j]] && w'.jobs[j].home == h)
    ensures OnlyHome(w, w', h)
  {
  }

  lemma WriteHomeOnly(w: World, j: nat)
    requires j in w.tasks
    ensures OnlyHome(w, WriteHome(w.(tasks := w.tasks - {j}), w.tasks[j]), w.tasks[j].job.home)
  {
    hide OnlyHome, HomeAfter, Strands;
    HomeWrite(w, WriteHome(w.(tasks := w.tasks - {j}), w.tasks[j]), w.tasks[j].job.home);
  }

  lemma WriteJobOnly(w: World, j: nat, t: Task)
    requires j in w.jobs ==> w.jobs[j].home == t.job.home
    ensures OnlyHome(w, WriteJob(w, j, t), t.job.home)
  {
    hide OnlyHome, RetryDelay, GivesUp;
    JobWrite(w, WriteJob(w, j, t), t.job.home, j);
  }

  /** Whatever a task writes last concerns its own home and row. */
  lemma FinishOnlyHome(w: World, j: nat)
    requires j in w.tasks && CanFinish(w.tasks[j]) && (j in w.jobs ==> w.jobs[j].home == w.tasks[j].job.home)
    ensures OnlyHome(w, Finish(w, j), w.tasks[j].job.home)
  {
    hide OnlyHome, WriteHome, WriteJob, CanFinish;
    var w1 := WriteHome(w.(tasks := w.tasks - {j}), w.tasks[j]);
    WriteHomeOnly(w, j);
    WriteHomeFrame(w.(tasks := w.tasks - {j}), w.tasks[j]);
    WriteJobOnly(w1, j, w.tasks[j]);
    OnlyHomeTransitive(w, w1, Finish(w, j), w.tasks[j].job.home);
  }

  lemma WriteHomeFrame(w: World, t: Task)
    ensures var w' := WriteHome(w, t);
            && w' == w.(homes := w'.homes, stranded := w'.stranded) && w'.homes.Keys == w.homes.Keys
            && (w'.stranded == w.stranded || w'.stranded == w.stranded + {t.job.home})
  {
    hide HomeAfter, Strands;
  }

  lemma FinishKeeps(w: World, j: nat)
    requires Inv(w) && j in w.tasks && CanFinish(w.tasks[j])
    ensures Inv(Finish(w, j))
  {
    hide Inv, Finish, HomeOk, JobOk, TaskOk, OnlyHome, AccessKept, PhaseOk, CanFinish, Served, Registered;
    TaskFacts(w, j);
    RowFacts(w, j);
    var h, w' := w.tasks[j].job.home, Finish(w, j);
    FinishFrame(w, j);
    FinishedRowsOk(w, j);
    FinishedHomeOk(w, j);
    FinishOnlyHome(w, j);
    NoOtherTask(w, j);
    SameBrokerKept(w, w', h);
    OneHomeStep(w, w', h);
  }

  lemma RowFacts(w: World, j: nat)
    requires Inv(w) && j in w.tasks
    ensures Registered(w) && OneTask(w)
    ensures j in w.jobs ==> JobOk(w, j) && w.jobs[j] == w.tasks[j].job
  {
    assert TaskOk(w, j);
    hide PhaseOk, JobOk;
  }

  lemma FinishFrame(w: World, j: nat)
    requires Registered(w) && j in w.tasks && CanFinish(w.tasks[j]) && Served(w, w.tasks[j].job.home)
    ensures var w' := Finish(w, j);
            w'.tasks == w.tasks - {j} && w'.broker == w.broker && Registered(w') && w'.homes.Keys == w.homes.Keys
  {
    hide WriteHome, RetriedJob;
    WriteHomeFrame(w.(tasks := w.tasks - {j}), w.tasks[j]);
  }

  lemma NoOtherTask(w: World, j: nat)
    requires OneTask(w) && j in w.tasks
    ensures forall i :: i in w.tasks - {j} ==> w.tasks[i].job.home != w.tasks[j].job.home
    ensures OneTask(w.(tasks := w.tasks - {j}))
  {
  }

  /** The home's rows after the last transaction: at most the task's own row, and that one in order. */
  lemma FinishedRowsOk(w: World, j: nat)
    requires Inv(w) && j in w.tasks && CanFinish(w.tasks[j])
    ensures var w' := Finish(w, j);
            forall i :: i in w'.jobs && w'.jobs[i].home == w.tasks[j].job.home ==> JobOk(w', i)
  {
    RowFacts(w, j);
    JobHomes(w);
    TaskFacts(w, j);
    hide Inv, HomeOk, TaskOk, JobOk, Finish;
    var h, w' := w.tasks[j].job.home, Finish(w, j);
    FinishWrites(w, j);
    forall i | i in w'.jobs && w'.jobs[i].home == h
      ensures JobOk(w', i)
    {
      if i == j { FinishedRowOk(w, j); } else { OtherRow(w, i); JobFrame(w, w', i); }
    }
  }

  lemma OtherRow(w: World, i: nat)
    requires Inv(w) && i in w.jobs
    ensures JobOk(w, i) && w.jobs[i].home in w.homes && w.jobs[i].home in w.latest
  {
    assert JobOk(w, i);
  }

  lemma FinishWrites(w: World, j: nat)
    requires j in w.tasks && CanFinish(w.tasks[j])
    ensures var w' := Finish(w, j);
            && w' == w.(homes := w'.homes, jobs := w'.jobs, tasks := w.tasks - {j}, stranded := w'.stranded)
            && w'.homes.Keys == w.homes.Keys
            && (forall i :: i in w'.jobs ==> i in w.jobs && (i != j ==> w'.jobs[i] == w.jobs[i]))
            && (j in w'.jobs <==> j in w.jobs && w.tasks[j].phase.Failing?)
            && (j in w'.jobs ==> w'.jobs[j] == RetriedJob(w.cfg, w.now, w.tasks[j].job, w.jobs[j]))
            && (forall i :: i in w.jobs && i != j ==> i in w'.jobs)
  {
    hide WriteHome, RetriedJob;
    WriteHomeFrame(w.(tasks := w.tasks - {j}), w.tasks[j]);
  }

  lemma FinishedRowOk(w: World, j: nat)
    requires j in w.tasks && CanFinish(w.tasks[j]) && j in w.jobs && JobOk(w, j) && w.jobs[j] == w.tasks[j].job
    ensures j in Finish(w, j).jobs ==> JobOk(Finish(w, j), j)
  {
    FinishWrites(w, j);
    hide Finish, RetryDelay;
  }

  /** The home itself after the last transaction. */
  lemma FinishedHomeOk(w: World, j: nat)
    requires Inv(w) && j in w.tasks && CanFinish(w.tasks[j]) && Served(w, w.tasks[j].job.home)
    ensures w.tasks[j].job.home in Finish(w, j).homes && HomeOk(Finish(w, j), w.tasks[j].job.home)
  {
    hide Inv, Finish, HomeOk, TaskOk, PhaseOk, JobOk, RetriedJob, HomeAfter, Strands;
    RowFacts(w, j);
    TaskFacts(w, j);
    FinishWrites(w, j);
    HomeWritten(w, j);
    HomeAfterOk(w, Finish(w, j), j);
  }

  lemma HomeWritten(w: World, j: nat)
    requires j in w.tasks && CanFinish(w.tasks[j])
    ensures var w', h := Finish(w, j), w.tasks[j].job.home;
            && (h in w.homes ==> h in w'.homes && w'.homes[h] == HomeAfter(w.homes[h], w.tasks[j]))
            && (h in w'.stranded <==> h in w.stranded || Strands(w.tasks[j]))
  {
    hide HomeAfter, Strands;
  }

  /** The home's row and what the invariant says of it, after its task has written both rows. */
  lemma HomeAfterOk(w: World, w': World, j: nat)
    requires j in w.tasks && CanFinish(w.tasks[j]) && TaskOk(w, j) && (j in w.jobs ==> JobOk(w, j))
    requires Served(w, w.tasks[j].job.home) && HomeOk(w, w.tasks[j].job.home)
    requires var h, t := w.tasks[j].job.home, w.tasks[j];
             && w' == w.(homes := w'.homes, jobs := w'.jobs, tasks := w'.tasks, stranded := w'.stranded)
             && h in w'.homes && w'.homes[h] == HomeAfter(w.homes[h], t)
             && (h in w'.stranded <==> h in w.stranded || Strands(t))
             && (forall i :: i in w'.jobs ==> i in w.jobs && (i != j ==> w'.jobs[i] == w.jobs[i]))
             && (j in w'.jobs <==> j in w.jobs && t.phase.Failing?)
             && (j in w'.jobs ==> w'.jobs[j] == RetriedJob(w.cfg, w.now, t.job, w.jobs[j]))
             && (forall i :: i in w.jobs && i != j ==> i in w'.jobs)
    ensures HomeOk(w', w.tasks[j].job.home)
  {
    hide RetryDelay, Gone, Granted, Blank, HomeMqttUsername;
  }

  lemma FinishFailsKeeps(w: World, j: nat)
    requires Inv(w) && j in w.tasks && CanFinish(w.tasks[j])
    ensures Inv(FinishFails(w, j))
  {
    hide Inv, TaskOk, HomeOk, PhaseOk, CanFinish;
    TaskFacts(w, j);
    if w.tasks[j].phase.Cleared? {
      PhaseKeeps(w, j, Failing(true));
    } else {
      QuietStep(w, FinishFails(w, j));
    }
  }

  lemma StepKeeps(w: World, step: Step)
    requires Inv(w)
    ensures Inv(Take(w, step))
  {
    hide Inv, EnrollHome, ScheduleHomeDeletion, ScheduleHomeDeletions, RequeueStaleClaims, ClaimJobs, ReadHome,
         ClearAccess, GrantAccess, Finish, FinishFails, CanFinish, Blank;
    if Enabled(w, step) {
      match step
      case Tick(now) => QuietStep(w, w.(now := now));
      case Enroll(user, account) => EnrollKeeps(w, user, account);
      case DeleteHome(h) => DeleteHomeKeeps(w, h);
      case DeleteUser(user, order) =>
        assert forall h :: h in order ==> h in HomesOf(w, user);
        DeleteHomesKeeps(w, order);
      case Requeue => RequeueKeeps(w);
      case Claim => ClaimKeeps(w);
      case Read(j, ok) => ReadKeeps(w, j, ok);
      case DevicesUnread(j) => DevicesUnreadKeeps(w, j);
      case Clear(j, fate, devicesCleared) => ClearKeeps(w, j, fate, devicesCleared);
      case Grant(j, fate) => GrantKeeps(w, j, fate);
      case Commit(j) => FinishKeeps(w, j);
      case CommitFails(j) => FinishFailsKeeps(w, j);
      case Crash => QuietStep(w, w.(tasks := map[]));
    }
  }

  lemma {:induction false} RunKeeps(w: World, steps: seq<Step>)
    requires Inv(w)
    ensures Inv(Run(w, steps))
    decreases |steps|
  {
    hide Inv, Take;
    if steps != [] {
      StepKeeps(w, steps[0]);
      RunKeeps(Take(w, steps[0]), steps[1..]);
    }
  }
}
