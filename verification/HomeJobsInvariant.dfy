/**
 What every step of the home job queue keeps, whatever the order in which requests, the worker's
 steps, crashes and lost replies come.
 */
module HomeJobsInvariant {
  import opened Strings
  import opened Wrappers
  import opened HomeNames
  import opened Dynsec
  import opened HomeJobs

  function IssuedName(w: World, h: nat): string
    requires h in w.homes && h in w.issued
  {
    HomeMqttUsername(w.homes[h].user, h, w.issued[h].suffix)
  }

  predicate HomeGone(w: World, h: nat)
    requires h in w.homes && h in w.issued
  {
    Gone(w.broker, w.homes[h].user, h, IssuedName(w, h))
  }

  predicate HomeGranted(w: World, h: nat)
    requires h in w.homes && h in w.issued
  {
    Granted(w.broker, w.homes[h].user, h, IssuedName(w, h), w.issued[h].password)
  }

  /** The state of a home whose deletion has not been requested, and its job. */
  predicate Life(w: World, h: nat)
    requires h in w.homes && h in w.issued && h in w.latest
  {
    var j := w.latest[h];
    match w.homes[h].state
    case Ready => j !in w.jobs && HomeGranted(w, h) && h !in w.stranded
    case Pending => j in w.jobs && (w.jobs[j].status == JobFailed <==> h in w.stranded)
    case Failed => j in w.jobs && w.jobs[j].status == JobFailed && h !in w.stranded
    case Deleting => false
  }

  predicate HomeOk(w: World, h: nat)
    requires h in w.homes
  {
    && h < w.nextHome && h in w.issued && !Blank(w.issued[h].password)
    && h in w.latest && w.latest[h] < w.nextJob
    && (w.latest[h] in w.jobs ==> w.jobs[w.latest[h]].home == h)
    && (if w.homes[h].deleted then
          h in w.requested && w.homes[h].username == "" && HomeGone(w, h)
        else
          && w.homes[h].username == IssuedName(w, h) && w.homes[h].password == w.issued[h].password
          && (h in w.requested ==> w.latest[h] in w.jobs))
    && (h !in w.requested ==> Life(w, h))
  }

  predicate JobOk(w: World, j: nat)
    requires j in w.jobs
  {
    var job := w.jobs[j];
    && job.home in w.homes && j < w.nextJob && job.home in w.latest && w.latest[job.home] == j
    && (job.operation == Cleanup <==> job.home in w.requested)
    && (job.status == JobRunning <==> job.claimedAt.Some?)
    && (job.operation == Cleanup ==> job.status != JobFailed)
    && (job.operation == Provision ==>
          && job.attempts <= MAX_PROVISION_ATTEMPTS + job.requeues
          && (job.status == JobPending ==> job.attempts < MAX_PROVISION_ATTEMPTS + job.requeues))
  }

  /** What the worker has learnt and done for a job so far is still true. */
  predicate PhaseOk(w: World, t: Task)
    requires t.job.home in w.homes && t.job.home in w.issued
  {
    var h := t.job.home;
    match t.phase
    case Claimed => true
    case Failing(_) => true
    case Dropping => h in w.requested && t.job.operation == Provision
    case Loaded(copy) => CopyOk(w, t, copy)
    case Cleared(copy) => CopyOk(w, t, copy) && (t.job.operation == Cleanup ==> HomeGone(w, h))
    case Provisioned(copy) => t.job.operation == Provision && HomeGranted(w, h)
  }

  predicate CopyOk(w: World, t: Task, copy: Home)
    requires t.job.home in w.homes && t.job.home in w.issued
  {
    var h := t.job.home;
    && copy.user == w.homes[h].user
    && (t.job.operation == Provision ==> copy.password == w.issued[h].password)
    && (copy.username == IssuedName(w, h) || (copy.username == "" && t.job.operation == Cleanup && w.homes[h].deleted))
  }

  predicate TaskOk(w: World, j: nat)
    requires j in w.tasks
  {
    var t := w.tasks[j];
    && t.job.home in w.homes && t.job.home in w.issued && j < w.nextJob && t.job.status == JobRunning
    && (if j in w.jobs then w.jobs[j] == t.job else t.job.home in w.requested)
    && (if t.job.operation == Cleanup then t.job.home in w.requested else !w.homes[t.job.home].deleted)
    && PhaseOk(w, t)
  }

  predicate OneTask(w: World) {
    forall i, j | i in w.tasks && j in w.tasks && w.tasks[i].job.home == w.tasks[j].job.home :: i == j
  }

  predicate Registered(w: World) {
    w.cfg.Valid() && w.requested <= w.homes.Keys && w.stranded <= w.homes.Keys && w.latest.Keys <= w.homes.Keys
  }

  predicate HomesOk(w: World) { forall h :: h in w.homes ==> HomeOk(w, h) }

  predicate JobsOk(w: World) { forall j :: j in w.jobs ==> JobOk(w, j) }

  predicate TasksOk(w: World) { forall j :: j in w.tasks ==> TaskOk(w, j) }

  predicate Inv(w: World) { Registered(w) && HomesOk(w) && JobsOk(w) && TasksOk(w) && OneTask(w) }

  lemma StartInv(w: World)
    requires IsStart(w)
    ensures Inv(w)
  {
  }

  // ---------- what a home, a row and a task depend on ----------

  predicate AccessKept(w: World, w': World, h: nat)
    requires h in w.homes && h in w.issued && h in w'.homes && h in w'.issued
  {
    (HomeGone(w, h) ==> HomeGone(w', h)) && (HomeGranted(w, h) ==> HomeGranted(w', h))
  }

  lemma HomeFrame(w: World, w': World, h: nat)
    requires h in w.homes && HomeOk(w, h) && h in w'.homes && w'.homes[h] == w.homes[h]
    requires h in w'.issued && w'.issued[h] == w.issued[h] && h in w'.latest && w'.latest[h] == w.latest[h]
    requires AccessKept(w, w', h) && w.nextHome <= w'.nextHome && w.nextJob <= w'.nextJob
    requires (h in w'.requested <==> h in w.requested) && (h in w'.stranded <==> h in w.stranded)
    requires w.latest[h] in w'.jobs <==> w.latest[h] in w.jobs
    requires w.latest[h] in w.jobs ==>
               && w'.jobs[w.latest[h]].home == h
               && (w'.jobs[w.latest[h]].status == JobFailed <==> w.jobs[w.latest[h]].status == JobFailed)
    ensures HomeOk(w', h)
  {
    hide Gone, Granted, HomeMqttUsername, Blank;
  }

  lemma JobFrame(w: World, w': World, j: nat)
    requires j in w.jobs && JobOk(w, j) && j in w'.jobs && w'.jobs[j] == w.jobs[j]
    requires w.jobs[j].home in w'.homes && w.nextJob <= w'.nextJob
    requires w.jobs[j].home in w'.latest && w'.latest[w.jobs[j].home] == w.latest[w.jobs[j].home]
    requires w.jobs[j].home in w'.requested <==> w.jobs[j].home in w.requested
    ensures JobOk(w', j)
  {
  }

  /** What a task relies on: its home's name and whether it is deleted, its row, and the access. */
  lemma TaskFrame(w: World, w': World, j: nat)
    requires j in w.tasks && TaskOk(w, j) && j in w'.tasks && w'.tasks[j] == w.tasks[j] && w.nextJob <= w'.nextJob
    requires var h := w.tasks[j].job.home;
             && h in w'.homes && h in w'.issued && w'.issued[h] == w.issued[h]
             && w'.homes[h].user == w.homes[h].user && w'.homes[h].deleted == w.homes[h].deleted
             && (h in w.requested ==> h in w'.requested) && AccessKept(w, w', h)
             && (if j in w'.jobs then j in w.jobs && w'.jobs[j] == w.jobs[j] else j !in w.jobs || h in w'.requested)
    ensures TaskOk(w', j)
  {
    hide Gone, Granted, HomeMqttUsername, Blank;
  }

  predicate SameAt<T(==)>(a: map<nat, T>, b: map<nat, T>, g: nat) {
    (g in a <==> g in b) && (g in a ==> a[g] == b[g])
  }

  predicate HomeUntouched(w: World, w': World, g: nat) {
    && SameAt(w.homes, w'.homes, g) && SameAt(w.issued, w'.issued, g) && SameAt(w.latest, w'.latest, g)
    && (g in w.requested <==> g in w'.requested) && (g in w.stranded <==> g in w'.stranded)
  }

  predicate JobUntouched(w: World, w': World, h: nat, j: nat) {
    if j in w.jobs && w.jobs[j].home != h then j in w'.jobs && w'.jobs[j] == w.jobs[j]
    else j in w'.jobs ==> w'.jobs[j].home == h && (j in w.jobs || j >= w.nextJob)
  }

  /** A step that concerns one home: other homes, their rows and their history stay. */
  ghost predicate OnlyHome(w: World, w': World, h: nat) {
    && w'.cfg == w.cfg && w.nextHome <= w'.nextHome && w.nextJob <= w'.nextJob
    && (forall g: nat :: g != h ==> HomeUntouched(w, w', g))
    && (forall j: nat :: JobUntouched(w, w', h, j))
  }

  lemma OtherHomeOk(w: World, w': World, h: nat, g: nat)
    requires OnlyHome(w, w', h) && g in w'.homes && g != h && g in w.homes && HomeOk(w, g)
    requires g in w.issued && g in w'.issued && AccessKept(w, w', g)
    ensures HomeOk(w', g)
  {
    hide HomeGone, Life, Blank, HomeMqttUsername, AccessKept;
    assert HomeUntouched(w, w', g) && JobUntouched(w, w', h, w.latest[g]);
    HomeFrame(w, w', g);
  }

  lemma OtherJobOk(w: World, w': World, h: nat, j: nat)
    requires OnlyHome(w, w', h) && j in w'.jobs && w'.jobs[j].home != h && (j in w.jobs ==> JobOk(w, j))
    ensures JobOk(w', j)
  {
    assert JobUntouched(w, w', h, j) && HomeUntouched(w, w', w'.jobs[j].home);
    JobFrame(w, w', j);
  }

  lemma OtherTaskOk(w: World, w': World, h: nat, j: nat)
    requires OnlyHome(w, w', h) && j in w.tasks && j in w'.tasks && w'.tasks[j] == w.tasks[j] && TaskOk(w, j)
    requires w.tasks[j].job.home != h
    requires var g := w.tasks[j].job.home;
             g in w.homes && g in w.issued && g in w'.homes && g in w'.issued && AccessKept(w, w', g)
    ensures TaskOk(w', j)
  {
    hide PhaseOk, AccessKept;
    assert JobUntouched(w, w', h, j) && HomeUntouched(w, w', w.tasks[j].job.home);
    TaskFrame(w, w', j);
  }

  predicate Served(w: World, h: nat) { h in w.homes && h in w.issued }

  /** All homes but one carry over. */
  lemma OtherHomesOk(w: World, w': World, h: nat)
    requires OnlyHome(w, w', h) && HomesOk(w)
    requires forall g :: Served(w, g) && g != h && Served(w', g) ==> AccessKept(w, w', g)
    ensures forall g :: g in w'.homes && g != h ==> HomeOk(w', g)
  {
    hide OnlyHome, HomeOk, AccessKept;
    forall g | g in w'.homes && g != h
      ensures HomeOk(w', g)
    {
      OtherHomeServed(w, w', h, g);
      OtherHomeOk(w, w', h, g);
    }
  }

  lemma OtherHomeServed(w: World, w': World, h: nat, g: nat)
    requires OnlyHome(w, w', h) && g != h && (g in w.homes ==> HomeOk(w, g))
    ensures g in w.homes <==> g in w'.homes
    ensures g in w.homes ==> Served(w, g) && Served(w', g)
  {
    hide HomeGone, Life, Blank, HomeMqttUsername;
    assert HomeUntouched(w, w', g);
  }

  lemma OtherJobsOk(w: World, w': World, h: nat)
    requires OnlyHome(w, w', h) && JobsOk(w)
    ensures forall j :: j in w'.jobs && w'.jobs[j].home != h ==> JobOk(w', j)
  {
    hide OnlyHome, JobOk;
    forall j | j in w'.jobs && w'.jobs[j].home != h
      ensures JobOk(w', j)
    {
      OtherJobOk(w, w', h, j);
    }
  }

  /** All tasks of other homes carry over; some may have stopped. */
  lemma OtherTasksOk(w: World, w': World, h: nat)
    requires OnlyHome(w, w', h) && TasksOk(w) && HomesOk(w)
    requires forall j :: j in w'.tasks ==> j in w.tasks && w'.tasks[j].job == w.tasks[j].job
    requires forall j :: j in w'.tasks && w'.tasks[j].job.home != h ==> w'.tasks[j] == w.tasks[j]
    requires forall g :: Served(w, g) && g != h && Served(w', g) ==> AccessKept(w, w', g)
    ensures forall j :: j in w'.tasks && w'.tasks[j].job.home != h ==> TaskOk(w', j)
  {
    hide OnlyHome, TaskOk, HomeOk, AccessKept;
    forall j | j in w'.tasks && w'.tasks[j].job.home != h
      ensures TaskOk(w', j)
    {
      TaskServed(w, j);
      OtherHomeServed(w, w', h, w.tasks[j].job.home);
      OtherTaskOk(w, w', h, j);
    }
  }

  lemma TaskServed(w: World, j: nat)
    requires j in w.tasks && TaskOk(w, j)
    ensures Served(w, w.tasks[j].job.home)
  {
    hide PhaseOk;
  }

  /** A step that concerns one home keeps everything if it leaves that home, its rows and its tasks
      in order. */
  lemma OneHomeStep(w: World, w': World, h: nat)
    requires Inv(w) && OnlyHome(w, w', h) && Registered(w')
    requires forall j :: j in w'.tasks ==> j in w.tasks && w'.tasks[j].job == w.tasks[j].job
    requires forall j :: j in w'.tasks && w'.tasks[j].job.home != h ==> w'.tasks[j] == w.tasks[j]
    requires forall g :: Served(w, g) && g != h && Served(w', g) ==> AccessKept(w, w', g)
    requires h in w'.homes ==> HomeOk(w', h)
    requires forall j :: j in w'.jobs && w'.jobs[j].home == h ==> JobOk(w', j)
    requires forall j :: j in w'.tasks && w'.tasks[j].job.home == h ==> TaskOk(w', j)
    ensures Inv(w')
  {
    hide OnlyHome, TaskOk, HomeOk, JobOk, AccessKept, Registered;
    OtherHomesOk(w, w', h);
    OtherJobsOk(w, w', h);
    OtherTasksOk(w, w', h);
  }

  lemma SameBrokerKept(w: World, w': World, h: nat)
    requires OnlyHome(w, w', h) && w'.broker == w.broker
    ensures forall g :: Served(w, g) && g != h && Served(w', g) ==> AccessKept(w, w', g)
  {
    hide Gone, Granted, HomeMqttUsername;
    forall g | Served(w, g) && g != h && Served(w', g)
      ensures AccessKept(w, w', g)
    {
      assert HomeUntouched(w, w', g);
    }
  }

  /** What the broker does for one home leaves all other homes' access as it was. */
  lemma BrokerApart(w: World, w': World, h: nat)
    requires OnlyHome(w, w', h) && Served(w, h) && Served(w', h)
    requires OnlyTouches(w.broker, w'.broker, IssuedName(w, h), HomeRoleName(w.homes[h].user, h))
    ensures forall g :: Served(w, g) && g != h && Served(w', g) ==> AccessKept(w, w', g)
  {
    hide Gone, Granted, HomeMqttUsername, HomeRoleName, OnlyTouches;
    forall g | Served(w, g) && g != h && Served(w', g)
      ensures AccessKept(w, w', g)
    {
      assert HomeUntouched(w, w', g);
      OthersUntouched(w.broker, w'.broker, w.homes[h].user, h, w.issued[h].suffix, w.homes[g].user, g,
                      w.issued[g].suffix, w.issued[g].password);
    }
  }
}
