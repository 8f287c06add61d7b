/**
 What holds in every state that homes, their jobs and the broker can reach.
 */
module HomeJobsRuns {
  import opened Strings
  import opened HomeNames
  import opened Dynsec
  import opened HomeJobs
  import opened HomeJobsInvariant
  import opened HomeJobsSteps

  function JobsOf(w: World, h: nat): set<nat> { set j | j in w.jobs && w.jobs[j].home == h }

  /** A soft-deleted home has neither a client nor a role left at the broker, however deletions,
      provisioning under way, lost replies, crashes and stale claims interleave. */
  lemma DeletedHomesHaveNoAccess(start: World, steps: seq<Step>, h: nat)
    requires IsStart(start) && h in Run(start, steps).homes && Run(start, steps).homes[h].deleted
    ensures var w := Run(start, steps);
            && h in w.issued
            && HomeMqttUsername(w.homes[h].user, h, w.issued[h].suffix) !in w.broker.clients
            && HomeRoleName(w.homes[h].user, h) !in w.broker.roles
  {
    StartInv(start);
    RunKeeps(start, steps);
    assert HomeOk(Run(start, steps), h);
    hide Run, HomeMqttUsername, HomeRoleName;
  }

  // ---------- deletions are not lost ----------

  /** Requests are recorded for good. */
  lemma RequestsStay(w: World, step: Step)
    ensures w.requested <= Take(w, step).requested
  {
    hide UpsertJob, ReadHome, ClearAccess, GrantAccess, WriteHome, WriteJob, HomesOf, Blank;
    if Enabled(w, step) {
      match step
      case Enroll(user, account) => EnrollRequests(w, user, account);
      case DeleteHome(h) => RequestRecorded(w, h);
      case DeleteUser(user, order) => RequestsRecorded(w, order);
      case Commit(j) => CommitRequests(w, j);
      case Read(j, ok) => ReadRequests(w, j, ok);
      case Clear(j, fate, devicesCleared) => ClearRequests(w, j, fate, devicesCleared);
      case Grant(j, fate) => GrantRequests(w, j, fate);
      case _ =>
    }
  }

  lemma EnrollRequests(w: World, user: nat, account: Account)
    ensures EnrollHome(w, user, account).requested == w.requested
  {
  }

  lemma CommitRequests(w: World, j: nat)
    requires j in w.tasks && CanFinish(w.tasks[j])
    ensures Finish(w, j).requested == w.requested
  {
    hide HomeAfter, RetriedJob;
  }

  lemma ReadRequests(w: World, j: nat, ok: bool)
    requires j in w.tasks
    ensures ReadHome(w, j, ok).requested == w.requested
  {
  }

  lemma ClearRequests(w: World, j: nat, fate: Fate, devicesCleared: bool)
    requires j in w.tasks && w.tasks[j].phase.Loaded?
    ensures ClearAccess(w, j, fate, devicesCleared).requested == w.requested
  {
    hide CleanupHomeAccess;
  }

  lemma GrantRequests(w: World, j: nat, fate: GrantFate)
    requires j in w.tasks && w.tasks[j].phase.Cleared?
    ensures GrantAccess(w, j, fate).requested == w.requested
  {
    hide ProvisionHomeAccess;
  }

  lemma RequestRecorded(w: World, h: nat)
    ensures ScheduleHomeDeletion(w, h).requested == w.requested + {h}
  {
  }

  /** Deleting a user requests the deletion of every one of the user's homes. */
  lemma {:induction false} RequestsRecorded(w: World, order: seq<nat>)
    ensures ScheduleHomeDeletions(w, order).requested == w.requested + set h | h in order
    decreases |order|
  {
    if order != [] {
      RequestRecorded(w, order[0]);
      hide ScheduleHomeDeletion;
      RequestsRecorded(ScheduleHomeDeletion(w, order[0]), order[1..]);
      assert forall h :: h in order <==> h == order[0] || h in order[1..];
    }
  }

  lemma {:induction false} RunRequests(w: World, steps: seq<Step>)
    ensures w.requested <= Run(w, steps).requested
    decreases |steps|
  {
    hide Take;
    if steps != [] {
      RequestsStay(w, steps[0]);
      RunRequests(Take(w, steps[0]), steps[1..]);
    }
  }

  /** Once a home's deletion has been requested, it is at every later moment either carried out or
      in the queue as a cleanup that is pending or running, whatever a provisioning that was under
      way still writes. */
  lemma DeletionIsNeverLost(start: World, before: seq<Step>, after: seq<Step>, h: nat)
    requires IsStart(start) && h in Run(start, before).requested
    ensures var w := Run(Run(start, before), after);
            && h in w.homes
            && (w.homes[h].deleted || exists j :: JobsOf(w, h) == {j} && w.jobs[j].operation == Cleanup
                                                  && (w.jobs[j].status == JobPending || w.jobs[j].status == JobRunning))
  {
    hide Run, Inv, JobOk;
    StartInv(start);
    RunKeeps(start, before);
    RunKeeps(Run(start, before), after);
    RunRequests(Run(start, before), after);
    var w := Run(Run(start, before), after);
    RequestedHome(w, h);
    OnlyRow(w, h);
    if !w.homes[h].deleted {
      CleanupRow(w, w.latest[h]);
    }
  }

  lemma RequestedHome(w: World, h: nat)
    requires Inv(w) && h in w.requested
    ensures h in w.homes
  {
    hide HomesOk, JobsOk, TasksOk, OneTask;
  }

  lemma CleanupRow(w: World, j: nat)
    requires j in w.jobs && JobOk(w, j) && w.jobs[j].home in w.requested
    ensures w.jobs[j].operation == Cleanup && (w.jobs[j].status == JobPending || w.jobs[j].status == JobRunning)
  {
  }

  /** A home has at most one row, the last one written for it. */
  lemma OnlyRow(w: World, h: nat)
    requires Inv(w) && h in w.homes
    ensures h in w.latest && JobsOf(w, h) == (if w.latest[h] in w.jobs then {w.latest[h]} else {})
    ensures w.latest[h] in w.jobs ==> JobOk(w, w.latest[h]) && w.jobs[w.latest[h]].home == h
    ensures h in w.requested && !w.homes[h].deleted ==> w.latest[h] in w.jobs
  {
    JobHomes(w);
    assert HomeOk(w, h);
    hide HomesOk, TasksOk, OneTask, Registered, HomeGone, HomeGranted, Blank, HomeMqttUsername, JobOk;
  }

  /** Asking for a deletion puts it on record. */
  lemma DeletionsAreRecorded(w: World, h: nat, user: nat, order: seq<nat>)
    ensures h in w.homes ==> h in Take(w, DeleteHome(h)).requested
    ensures Enabled(w, DeleteUser(user, order)) ==>
              forall g :: g in w.homes && w.homes[g].user == user && !w.homes[g].deleted ==>
                g in order && g in Take(w, DeleteUser(user, order)).requested
  {
    if Enabled(w, DeleteUser(user, order)) {
      forall g | g in w.homes && w.homes[g].user == user && !w.homes[g].deleted
        ensures g in order
      {
        assert g in HomesOf(w, user);
      }
    }
    RequestRecorded(w, h);
    RequestsRecorded(w, order);
    hide ScheduleHomeDeletion, ScheduleHomeDeletions, HomesOf;
  }

  // ---------- homes that nobody has asked to delete ----------

  /** Such a home is pending with a provision job in the queue, ready with no job and its client
      bound to its role, or failed with a failed job. The exception is a home whose last attempt
      failed before the home could be read: it stays pending although its job has failed. */
  lemma HomeLifeCycle(start: World, steps: seq<Step>, h: nat)
    requires IsStart(start) && h in Run(start, steps).homes && h !in Run(start, steps).requested
    ensures var w := Run(start, steps);
            && !w.homes[h].deleted && h in w.issued
            && match w.homes[h].state
               case Deleting => false
               case Ready =>
                 && JobsOf(w, h) == {} && h !in w.stranded
                 && w.homes[h].username == HomeMqttUsername(w.homes[h].user, h, w.issued[h].suffix)
                 && Granted(w.broker, w.homes[h].user, h, w.homes[h].username, w.homes[h].password)
               case Failed =>
                 h !in w.stranded
                 && exists j :: JobsOf(w, h) == {j} && w.jobs[j].operation == Provision && w.jobs[j].status == JobFailed
               case Pending =>
                 exists j :: JobsOf(w, h) == {j} && w.jobs[j].operation == Provision
                             && (w.jobs[j].status == JobFailed <==> h in w.stranded)
  {
    StartInv(start);
    RunKeeps(start, steps);
    var w := Run(start, steps);
    hide Run, IsStart;
    OnlyRow(w, h);
    assert HomeOk(w, h);
    hide Granted, HomeMqttUsername, Gone, Blank, HomesOk, JobsOk, TasksOk, OneTask;
  }

  /** No task is about to give up on a home that it could not read. */
  predicate AllRead(w: World) { w.stranded == {} && forall j :: j in w.tasks ==> w.tasks[j].phase != Failing(false) }

  lemma ReadStep(w: World, step: Step)
    requires AllRead(w) && (step.Read? ==> step.ok)
    ensures AllRead(Take(w, step))
  {
    hide ScheduleHomeDeletion, CleanupHomeAccess, ProvisionHomeAccess, HomeAfter, RetriedJob, FirstDue, HomesOf, Blank,
         Before;
    if Enabled(w, step) {
      match step
      case DeleteUser(user, order) => DeletionsLeaveTasks(w, order);
      case DeleteHome(h) => DeletionsLeaveTasks(w, [h]); assert [h][1..] == [];
      case Enroll(user, account) => EnrollLeavesTasks(w, user, account);
      case _ =>
    }
  }

  lemma EnrollLeavesTasks(w: World, user: nat, account: Account)
    ensures EnrollHome(w, user, account).tasks == w.tasks && EnrollHome(w, user, account).stranded == w.stranded
  {
  }

  lemma {:induction false} DeletionsLeaveTasks(w: World, order: seq<nat>)
    ensures ScheduleHomeDeletions(w, order).tasks == w.tasks && ScheduleHomeDeletions(w, order).stranded == w.stranded
    decreases |order|
  {
    if order != [] {
      DeletionLeavesTasks(w, order[0]);
      hide ScheduleHomeDeletion;
      DeletionsLeaveTasks(ScheduleHomeDeletion(w, order[0]), order[1..]);
    }
  }

  lemma DeletionLeavesTasks(w: World, h: nat)
    ensures ScheduleHomeDeletion(w, h).tasks == w.tasks && ScheduleHomeDeletion(w, h).stranded == w.stranded
  {
  }

  /** The exception needs a read that fails: if the database always answers, there is none. */
  lemma {:induction false} ReadsKeepHomesHonest(w: World, steps: seq<Step>)
    requires AllRead(w) && forall s :: s in steps && s.Read? ==> s.ok
    ensures AllRead(Run(w, steps))
    decreases |steps|
  {
    hide Take, AllRead;
    if steps != [] {
      ReadStep(w, steps[0]);
      ReadsKeepHomesHonest(Take(w, steps[0]), steps[1..]);
    }
  }

  lemma CommitStrands(w: World, j: nat)
    requires j in w.tasks && CanFinish(w.tasks[j])
    ensures Finish(w, j).stranded == if Strands(w.tasks[j]) then w.stranded + {w.tasks[j].job.home} else w.stranded
  {
    hide HomeAfter, RetriedJob, Strands;
  }

  /** What makes a home such an exception: the last transaction of a provision that gives up on a home
      it could not read. */
  lemma StrandedExactly(w: World, step: Step, h: nat)
    ensures h in Take(w, step).stranded <==>
              || h in w.stranded
              || (step.Commit? && Enabled(w, step) && w.tasks[step.j].job.home == h && Strands(w.tasks[step.j]))
  {
    hide ScheduleHomeDeletion, CleanupHomeAccess, ProvisionHomeAccess, FirstDue, HomesOf, Blank, Before, Finish,
         Strands;
    if Enabled(w, step) {
      match step
      case DeleteUser(user, order) => DeletionsLeaveTasks(w, order);
      case DeleteHome(g) => DeletionsLeaveTasks(w, [g]); assert [g][1..] == [];
      case Enroll(user, account) => EnrollLeavesTasks(w, user, account);
      case Commit(j) => CommitStrands(w, j);
      case _ =>
    }
  }

  // ---------- rows ----------

  /** A home never has two rows, and a provision is attempted at most six times, not counting claims
      that went stale. */
  lemma RowsAndAttempts(start: World, steps: seq<Step>, j: nat)
    requires IsStart(start) && j in Run(start, steps).jobs
    ensures var w := Run(start, steps);
            && JobsOf(w, w.jobs[j].home) == {j}
            && (w.jobs[j].operation == Provision ==> w.jobs[j].attempts <= MAX_PROVISION_ATTEMPTS + w.jobs[j].requeues)
            && (w.jobs[j].operation == Provision && w.jobs[j].status == JobPending ==>
                  w.jobs[j].attempts < MAX_PROVISION_ATTEMPTS + w.jobs[j].requeues)
  {
    StartInv(start);
    RunKeeps(start, steps);
    var w := Run(start, steps);
    hide Run, IsStart;
    JobHomes(w);
    assert JobOk(w, j);
    OnlyRow(w, w.jobs[j].home);
  }

  // ---------- without crashes ----------

  /** Every running row has its task, and no claim ever went stale. */
  predicate Tidy(w: World) {
    forall j :: j in w.jobs ==> w.jobs[j].requeues == 0 && (w.jobs[j].status == JobRunning ==> j in w.tasks)
  }

  predicate Undisturbed(step: Step) { !step.Crash? && !step.CommitFails? }

  lemma TidyStep(w: World, step: Step)
    requires Inv(w) && Tidy(w) && Undisturbed(step)
    ensures Tidy(Take(w, step))
  {
    hide Inv, EnrollHome, ScheduleHomeDeletion, ScheduleHomeDeletions, Finish, CanFinish, Blank, FirstDue,
         CleanupHomeAccess, ProvisionHomeAccess;
    if Enabled(w, step) {
      match step
      case Enroll(user, account) => TidyEnroll(w, user, account);
      case DeleteHome(h) => TidyDeletion(w, h);
      case DeleteUser(user, order) =>
        assert forall h :: h in order ==> h in HomesOf(w, user);
        TidyDeletions(w, order);
      case Commit(j) => TidyCommit(w, j);
      case Requeue => assert forall j :: j in w.jobs ==> !Stale(w.jobs[j], w.now);
      case _ =>
    }
  }

  lemma TidyEnroll(w: World, user: nat, account: Account)
    requires Inv(w) && Tidy(w)
    ensures Tidy(EnrollHome(w, user, account))
  {
    FreshHome(w);
    JobHomes(w);
    EnrollEffect(w, user, account);
    hide Inv, EnrollHome, HomeMqttUsername;
  }

  lemma TidyDeletion(w: World, h: nat)
    requires h in w.homes && Tidy(w)
    ensures Tidy(ScheduleHomeDeletion(w, h)) && ScheduleHomeDeletion(w, h).homes.Keys == w.homes.Keys
  {
    DeletionEffect(w, h);
    hide ScheduleHomeDeletion;
  }

  lemma {:induction false} TidyDeletions(w: World, order: seq<nat>)
    requires Tidy(w) && forall h :: h in order ==> h in w.homes
    ensures Tidy(ScheduleHomeDeletions(w, order))
    decreases |order|
  {
    hide Tidy, ScheduleHomeDeletion;
    if order != [] {
      TidyDeletion(w, order[0]);
      TidyDeletions(ScheduleHomeDeletion(w, order[0]), order[1..]);
    }
  }

  lemma TidyCommit(w: World, j: nat)
    requires Inv(w) && Tidy(w) && j in w.tasks && CanFinish(w.tasks[j])
    ensures Tidy(Finish(w, j))
  {
    hide Inv, Finish, RetriedJob, CanFinish, HomeAfter;
    FinishWrites(w, j);
    RetriedRow(w, j);
  }

  lemma RetriedRow(w: World, j: nat)
    requires j in w.tasks
    ensures j in w.jobs ==> var row := RetriedJob(w.cfg, w.now, w.tasks[j].job, w.jobs[j]);
                            row.requeues == w.jobs[j].requeues && row.status != JobRunning
  {
    hide RetryDelay;
  }

  lemma {:induction false} TidyRun(w: World, steps: seq<Step>)
    requires Inv(w) && Tidy(w) && forall s :: s in steps ==> Undisturbed(s)
    ensures Tidy(Run(w, steps))
    decreases |steps|
  {
    hide Inv, Tidy, Take, Undisturbed;
    if steps != [] {
      TidyStep(w, steps[0]);
      StepKeeps(w, steps[0]);
      TidyRun(Take(w, steps[0]), steps[1..]);
    }
  }

  /** As long as the server does not crash and its transactions succeed, a provision has ended, one
      way or the other, by its sixth attempt. */
  lemma SixAttempts(start: World, steps: seq<Step>, j: nat)
    requires IsStart(start) && (forall s :: s in steps ==> Undisturbed(s)) && j in Run(start, steps).jobs
    requires Run(start, steps).jobs[j].operation == Provision
    ensures var job := Run(start, steps).jobs[j];
            && job.attempts <= MAX_PROVISION_ATTEMPTS
            && (job.status == JobPending ==> job.attempts < MAX_PROVISION_ATTEMPTS)
  {
    StartInv(start);
    TidyRun(start, steps);
    RowsAndAttempts(start, steps, j);
    hide Run, IsStart, Undisturbed;
  }

  // ---------- what one undisturbed attempt achieves ----------

  lemma ReadEffect(w: World, j: nat)
    requires InPhase(w, j, Claimed) && w.tasks[j].job.home in w.homes
    requires var home := w.homes[w.tasks[j].job.home];
             w.tasks[j].job.operation == Provision ==>
               !home.deleted && home.state != Deleting && HasMqttCredentials(home)
    ensures Take(w, Read(j, true)) == SetPhase(w, j, Loaded(w.homes[w.tasks[j].job.home]))
  {
    hide HasMqttCredentials;
  }

  /** An answered clean-up gets the task past clearing, and nothing is left at the broker. */
  lemma ClearEffect(w: World, j: nat, home: Home, fate: Fate)
    requires InPhase(w, j, Loaded(home)) && fate.answered
    requires home.username != "" ==> !Blank(home.username)
    requires w.tasks[j].job.operation == Provision ==> home.username != ""
    ensures var w' := Take(w, Clear(j, fate, true));
            && w' == SetPhase(w, j, Cleared(home)).(broker := w'.broker)
            && (home.username != "" ==> Gone(w'.broker, home.user, w.tasks[j].job.home, home.username))
  {
    if home.username != "" {
      CleanupSucceeds(w.broker, home.user, w.tasks[j].job.home, home.username, fate);
    }
    hide CleanupHomeAccess, Blank, Gone;
  }

  lemma GrantEffect(w: World, j: nat, home: Home, fate: GrantFate)
    requires InPhase(w, j, Cleared(home)) && w.tasks[j].job.operation == Provision
    requires fate.grant.answered && Willing(fate.grant.refused)
    requires Gone(w.broker, home.user, w.tasks[j].job.home, home.username)
    ensures var w' := Take(w, Grant(j, fate));
            && w' == SetPhase(w, j, Provisioned(home)).(broker := w'.broker)
            && Granted(w'.broker, home.user, w.tasks[j].job.home, home.username, home.password)
  {
    GrantSucceedsIff(w.broker, home.user, w.tasks[j].job.home, home.username, home.password, fate);
    GrantSucceeds(w.broker, home.user, w.tasks[j].job.home, home.username, home.password, fate);
    hide ProvisionHomeAccess, Gone, Granted;
  }

  lemma CommitEffect(w: World, j: nat)
    requires j in w.tasks && CanFinish(w.tasks[j]) && !w.tasks[j].phase.Failing? && w.tasks[j].job.home in w.homes
    ensures var h := w.tasks[j].job.home;
            Take(w, Commit(j)) == w.(tasks := w.tasks - {j}, jobs := w.jobs - {j},
                                     homes := w.homes[h := HomeAfter(w.homes[h], w.tasks[j])])
  {
    hide HomeAfter;
  }

  lemma ProvisionFrom(w: World, j: nat, fate: Fate, grantFate: GrantFate)
    requires Inv(w) && InPhase(w, j, Claimed) && w.tasks[j].job.operation == Provision
    requires w.tasks[j].job.home !in w.requested && fate.answered
    requires grantFate.grant.answered && Willing(grantFate.grant.refused)
    ensures var w' := Run(w, [Read(j, true), Clear(j, fate, true), Grant(j, grantFate), Commit(j)]);
            var h := w.tasks[j].job.home;
            && h in w'.homes && w'.homes[h].state == Ready && JobsOf(w', h) == {} && j !in w'.tasks
            && Granted(w'.broker, w'.homes[h].user, h, w'.homes[h].username, w'.homes[h].password)
  {
    hide Inv, HomeOk, TaskOk, PhaseOk, Blank, HomeMqttUsername, Gone, Granted, Take, Willing;
    LiveHome(w, j);
    var h := w.tasks[j].job.home;
    var home := w.homes[h];
    FourSteps(w, Read(j, true), Clear(j, fate, true), Grant(j, grantFate), Commit(j));
    hide Run;
    ReadEffect(w, j);
    var w1 := SetPhase(w, j, Loaded(home));
    ClearEffect(w1, j, home, fate);
    var w2 := Take(w1, Clear(j, fate, true));
    GrantEffect(w2, j, home, grantFate);
    CommitEffect(Take(w2, Grant(j, grantFate)), j);
  }

  lemma LiveHome(w: World, j: nat)
    requires Inv(w) && j in w.tasks && w.tasks[j].job.operation == Provision && w.tasks[j].job.home !in w.requested
    ensures var h := w.tasks[j].job.home;
            && h in w.homes && !w.homes[h].deleted && w.homes[h].state != Deleting
            && w.homes[h].username != "" && HasMqttCredentials(w.homes[h])
            && JobsOf(w, h) == {j}
  {
    TaskFacts(w, j);
    RowFacts(w, j);
    var h := w.tasks[j].job.home;
    OnlyRow(w, h);
    UsernameNotBlank(w.homes[h].user, h, w.issued[h].suffix);
    hide PhaseOk, HomesOk, JobsOk, TasksOk, OneTask, Blank, HomeMqttUsername, Gone, Granted;
  }

  lemma CleanupFrom(w: World, j: nat, fate: Fate)
    requires Inv(w) && InPhase(w, j, Claimed) && w.tasks[j].job.operation == Cleanup && fate.answered
    ensures var w' := Run(w, [Read(j, true), Clear(j, fate, true), Commit(j)]);
            var h := w.tasks[j].job.home;
            && h in w'.homes && w'.homes[h].deleted && w'.homes[h].username == "" && w'.homes[h].password == ""
            && w'.homes[h].state == Deleting && j !in w'.jobs && j !in w'.tasks
  {
    hide Inv, HomeOk, TaskOk, PhaseOk, Blank, HomeMqttUsername, Gone, Take;
    TaskFacts(w, j);
    var h := w.tasks[j].job.home;
    var home := w.homes[h];
    CleanedName(w, h);
    ThreeSteps(w, Read(j, true), Clear(j, fate, true), Commit(j));
    hide Run;
    ReadEffect(w, j);
    var w1 := SetPhase(w, j, Loaded(home));
    ClearEffect(w1, j, home, fate);
    CommitEffect(Take(w1, Clear(j, fate, true)), j);
  }

  lemma CleanedName(w: World, h: nat)
    requires h in w.homes && HomeOk(w, h)
    ensures w.homes[h].username != "" ==> !Blank(w.homes[h].username)
  {
    UsernameNotBlank(w.homes[h].user, h, w.issued[h].suffix);
    hide Blank, HomeMqttUsername, HomeGone, Life;
  }

  // ---------- what a stale provision may still write ----------

  lemma StaleProvisionFrom(w: World, j: nat)
    requires Inv(w) && j in w.tasks && CanFinish(w.tasks[j])
    requires w.tasks[j].job.operation == Provision && w.tasks[j].job.home in w.requested
    ensures var h, t, w' := w.tasks[j].job.home, w.tasks[j], Take(w, Commit(j));
            && h in w.homes && h in w.latest && w.latest[h] in w.jobs && w.latest[h] in w'.jobs
            && h in w'.homes && !w'.homes[h].deleted
            && w'.homes[h].state == (if t.phase.Provisioned? then Ready
                                     else if t.phase == Failing(true) then (if GivesUp(t.job) then Failed else Pending)
                                     else w.homes[h].state)
            && JobsOf(w', h) == JobsOf(w, h) == {w.latest[h]}
            && w'.jobs[w.latest[h]] == w.jobs[w.latest[h]] && w.jobs[w.latest[h]].operation == Cleanup
  {
    hide Inv, HomeOk, TaskOk, JobOk, Finish, PhaseOk, RetriedJob;
    StaleTask(w, j);
    RowGone(w, j);
    HomeWritten(w, j);
    FinishWrites(w, j);
  }

  /** The row of such a task is gone, and the cleanup row has taken its place. */
  lemma StaleTask(w: World, j: nat)
    requires Inv(w) && j in w.tasks && w.tasks[j].job.operation == Provision && w.tasks[j].job.home in w.requested
    ensures var h := w.tasks[j].job.home;
            && h in w.homes && !w.homes[h].deleted && j !in w.jobs
            && h in w.latest && JobsOf(w, h) == {w.latest[h]} && w.latest[h] in w.jobs
            && w.jobs[w.latest[h]].operation == Cleanup
  {
    TaskFacts(w, j);
    RowFacts(w, j);
    NotDeletedYet(w, j);
    OnlyRow(w, w.tasks[j].job.home);
    hide PhaseOk, HomesOk, JobsOk, TasksOk, OneTask, HomeOk, TaskOk;
  }

  lemma RowGone(w: World, j: nat)
    requires j in w.tasks && CanFinish(w.tasks[j]) && j !in w.jobs
    ensures Take(w, Commit(j)) == Finish(w, j) && Finish(w, j).jobs == w.jobs
  {
    FinishWrites(w, j);
    hide Finish, RetriedJob, CanFinish;
  }

  lemma NotDeletedYet(w: World, j: nat)
    requires j in w.tasks && TaskOk(w, j) && w.tasks[j].job.operation == Provision
    ensures w.tasks[j].job.home in w.homes && !w.homes[w.tasks[j].job.home].deleted
  {
    hide PhaseOk;
  }

  /** "Deleting" is not final: a provision that was under way when the deletion was requested still
      writes its outcome to the home, unless the failure was one to read the home, or the home turned
      out not to need it. The cleanup row is not affected. */
  lemma StaleProvisionOverwrites(start: World, before: seq<Step>, j: nat)
    requires IsStart(start) && j in Run(start, before).tasks && CanFinish(Run(start, before).tasks[j])
    requires Run(start, before).tasks[j].job.operation == Provision
    requires Run(start, before).tasks[j].job.home in Run(start, before).requested
    ensures var w := Run(start, before);
            var h, t, w' := w.tasks[j].job.home, w.tasks[j], Take(w, Commit(j));
            && h in w.homes && h in w.latest && w.latest[h] in w.jobs && w.latest[h] in w'.jobs
            && h in w'.homes && !w'.homes[h].deleted
            && w'.homes[h].state == (if t.phase.Provisioned? then Ready
                                     else if t.phase == Failing(true) then (if GivesUp(t.job) then Failed else Pending)
                                     else w.homes[h].state)
            && JobsOf(w', h) == JobsOf(w, h) == {w.latest[h]}
            && w'.jobs[w.latest[h]] == w.jobs[w.latest[h]] && w.jobs[w.latest[h]].operation == Cleanup
  {
    hide Run, Take, CanFinish, JobsOf, GivesUp, Inv;
    StartInv(start);
    RunKeeps(start, before);
    StaleProvisionFrom(Run(start, before), j);
  }

  /** The last transaction of a provision that has an outcome to write to this home. */
  predicate WritesOutcome(w: World, step: Step, h: nat) {
    && step.Commit? && step.j in w.tasks && w.tasks[step.j].job.home == h
    && w.tasks[step.j].job.operation == Provision
    && (w.tasks[step.j].phase.Provisioned? || w.tasks[step.j].phase == Failing(true))
  }

  lemma DeletingStep(w: World, step: Step, h: nat)
    requires Inv(w) && h in w.homes && w.homes[h].state == Deleting
    ensures h in Take(w, step).homes && (Take(w, step).homes[h].state != Deleting <==> WritesOutcome(w, step, h))
  {
    hide Inv, EnrollHome, ScheduleHomeDeletion, ScheduleHomeDeletions, Finish, FirstDue, Blank, HomesOf,
         CleanupHomeAccess, ProvisionHomeAccess, HasMqttCredentials;
    if Enabled(w, step) {
      match step
      case Enroll(user, account) => EnrollSparesHomes(w, user, account, h);
      case DeleteHome(g) => DeletionKeepsDeleting(w, g, h);
      case DeleteUser(user, order) =>
        assert forall g :: g in order ==> g in HomesOf(w, user);
        HomesOfExist(w, user);
        DeletionsKeepDeleting(w, order, h);
      case Commit(j) => CommitToDeleting(w, j, h);
      case _ =>
    } else {
      Unfinished(w, step, h);
    }
  }

  lemma Unfinished(w: World, step: Step, h: nat)
    requires !Enabled(w, step)
    ensures !WritesOutcome(w, step, h)
  {
  }

  lemma HomesOfExist(w: World, user: nat)
    ensures HomesOf(w, user) <= w.homes.Keys
  {
  }

  lemma EnrollSparesHomes(w: World, user: nat, account: Account, h: nat)
    requires Inv(w) && h in w.homes
    ensures h in EnrollHome(w, user, account).homes && EnrollHome(w, user, account).homes[h] == w.homes[h]
  {
    FreshHome(w);
    JobHomes(w);
    EnrollEffect(w, user, account);
    hide Inv, EnrollHome, HomeMqttUsername;
  }

  lemma DeletionKeepsDeleting(w: World, g: nat, h: nat)
    requires g in w.homes && h in w.homes && w.homes[h].state == Deleting
    ensures var w' := ScheduleHomeDeletion(w, g);
            w'.homes.Keys == w.homes.Keys && w'.homes[h].state == Deleting
  {
    DeletionEffect(w, g);
    hide ScheduleHomeDeletion;
  }

  lemma {:induction false} DeletionsKeepDeleting(w: World, order: seq<nat>, h: nat)
    requires h in w.homes && w.homes[h].state == Deleting && forall g :: g in order ==> g in w.homes
    ensures h in ScheduleHomeDeletions(w, order).homes && ScheduleHomeDeletions(w, order).homes[h].state == Deleting
    decreases |order|
  {
    hide ScheduleHomeDeletion;
    if order != [] {
      DeletionKeepsDeleting(w, order[0], h);
      DeletionsKeepDeleting(ScheduleHomeDeletion(w, order[0]), order[1..], h);
    }
  }

  lemma CommitToDeleting(w: World, j: nat, h: nat)
    requires Inv(w) && h in w.homes && w.homes[h].state == Deleting && j in w.tasks && CanFinish(w.tasks[j])
    ensures h in Finish(w, j).homes
    ensures Finish(w, j).homes[h].state != Deleting <==> WritesOutcome(w, Commit(j), h)
  {
    hide Inv, Finish, HomeAfter, TaskOk, HomeOk, CanFinish;
    if w.tasks[j].job.home == h {
      HomeWritten(w, j);
      TaskOutcome(w, j);
    } else {
      CommitSparesOthers(w, j, h);
    }
  }

  lemma CommitSparesOthers(w: World, j: nat, h: nat)
    requires Inv(w) && h in w.homes && j in w.tasks && CanFinish(w.tasks[j]) && w.tasks[j].job.home != h
    ensures h in Finish(w, j).homes && Finish(w, j).homes[h] == w.homes[h]
  {
    RowFacts(w, j);
    hide Inv, Finish, CanFinish;
    FinishOnlyHome(w, j);
    assert HomeUntouched(w, Finish(w, j), h);
  }

  lemma TaskOutcome(w: World, j: nat)
    requires Inv(w) && j in w.tasks && CanFinish(w.tasks[j])
    requires w.tasks[j].job.home in w.homes && w.homes[w.tasks[j].job.home].state == Deleting
    ensures HomeAfter(w.homes[w.tasks[j].job.home], w.tasks[j]).state != Deleting <==>
              w.tasks[j].job.operation == Provision
              && (w.tasks[j].phase.Provisioned? || w.tasks[j].phase == Failing(true))
  {
    hide HomeAfter, CanFinish, TaskOk, HomeOk;
    TaskFacts(w, j);
    hide Inv;
    ProvisionsLiveHomes(w, j);
    OutcomeAtDeleting(w.homes[w.tasks[j].job.home], w.tasks[j]);
  }

  lemma ProvisionsLiveHomes(w: World, j: nat)
    requires j in w.tasks && TaskOk(w, j)
    ensures w.tasks[j].job.home in w.homes
    ensures w.tasks[j].job.operation == Provision ==> !w.homes[w.tasks[j].job.home].deleted
    ensures w.tasks[j].phase.Provisioned? ==> w.tasks[j].job.operation == Provision
  {
    hide HomeGranted, CopyOk;
  }

  lemma OutcomeAtDeleting(home: Home, t: Task)
    requires home.state == Deleting && CanFinish(t)
    requires t.job.operation == Provision ==> !home.deleted
    requires t.phase.Provisioned? ==> t.job.operation == Provision
    ensures HomeAfter(home, t).state != Deleting <==>
              t.job.operation == Provision && (t.phase.Provisioned? || t.phase == Failing(true))
  {
  }

  /** A home that is marked as deleting leaves that state in one step exactly if a provision that was
      under way writes its outcome: after granting access, or after a failure other than one to read
      the home. */
  lemma LeavesDeleting(start: World, before: seq<Step>, step: Step, h: nat)
    requires IsStart(start) && h in Run(start, before).homes && Run(start, before).homes[h].state == Deleting
    ensures var w := Run(start, before);
            && h in Take(w, step).homes
            && (Take(w, step).homes[h].state != Deleting <==> WritesOutcome(w, step, h))
  {
    hide Run, Take, WritesOutcome, Inv;
    StartInv(start);
    RunKeeps(start, before);
    DeletingStep(Run(start, before), step, h);
  }

  /** A claimed provision job of a home nobody has asked to delete, with a broker that answers and
      does not refuse: the home ends up ready. */
  lemma ProvisionAttemptSucceeds(start: World, before: seq<Step>, j: nat, fate: Fate, grantFate: GrantFate)
    requires IsStart(start) && InPhase(Run(start, before), j, Claimed) && fate.answered
    requires Run(start, before).tasks[j].job.operation == Provision
    requires Run(start, before).tasks[j].job.home !in Run(start, before).requested
    requires grantFate.grant.answered && Willing(grantFate.grant.refused)
    ensures var w := Run(start, before);
            var w' := Run(w, [Read(j, true), Clear(j, fate, true), Grant(j, grantFate), Commit(j)]);
            var h := w.tasks[j].job.home;
            && h in w'.homes && w'.homes[h].state == Ready && JobsOf(w', h) == {} && j !in w'.tasks
            && Granted(w'.broker, w'.homes[h].user, h, w'.homes[h].username, w'.homes[h].password)
  {
    hide Run, InPhase, JobsOf, Granted, Willing, Inv;
    StartInv(start);
    RunKeeps(start, before);
    ProvisionFrom(Run(start, before), j, fate, grantFate);
  }

  /** A claimed cleanup job, with a broker that answers: the home is soft-deleted, its credentials
      are wiped and the row is done with. */
  lemma CleanupAttemptSucceeds(start: World, before: seq<Step>, j: nat, fate: Fate)
    requires IsStart(start) && InPhase(Run(start, before), j, Claimed) && fate.answered
    requires Run(start, before).tasks[j].job.operation == Cleanup
    ensures var w := Run(start, before);
            var w' := Run(w, [Read(j, true), Clear(j, fate, true), Commit(j)]);
            var h := w.tasks[j].job.home;
            && h in w'.homes && w'.homes[h].deleted && w'.homes[h].username == "" && w'.homes[h].password == ""
            && w'.homes[h].state == Deleting && j !in w'.jobs && j !in w'.tasks
  {
    hide Run, InPhase, Inv;
    StartInv(start);
    RunKeeps(start, before);
    CleanupFrom(Run(start, before), j, fate);
  }
}
