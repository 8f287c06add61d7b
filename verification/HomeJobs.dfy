/**
 Homes, the database queue of jobs that give and take their broker access, the worker that
 processes it, and the deletions that may arrive at any time. Every database transaction and
 every call to the broker is one step.
 */
module HomeJobs {
  import opened Strings
  import opened Wrappers
  import opened HomeNames
  import opened Dynsec

  datatype MqttState = Pending | Ready | Failed | Deleting

  datatype Home = Home(user: nat, username: string, password: string, state: MqttState, deleted: bool)

  datatype Operation = Provision | Cleanup

  datatype JobStatus = JobPending | JobRunning | JobFailed

  /** `requeues` is history: how often the row was taken back from a claim that went stale. */
  datatype Job = Job(home: nat, operation: Operation, status: JobStatus, attempts: nat, nextRunAt: int,
                     claimedAt: Option<int>, requeues: nat)

  /** How far the worker has got with a claimed job. `Dropping` and `Failing` are what is left to
      write to the database; `known` tells whether the home could be read. */
  datatype Phase =
    | Claimed
    | Loaded(copy: Home)
    | Cleared(copy: Home)
    | Provisioned(copy: Home)
    | Dropping
    | Failing(known: bool)

  datatype Task = Task(job: Job, phase: Phase)

  datatype Config = Config(initialDelay: int, retryBaseDelay: int, retryMaxMultiplier: int) {
    predicate Valid() { initialDelay > 0 && retryBaseDelay > 0 && retryMaxMultiplier > 0 }
  }

  datatype Account = Account(suffix: string, password: string)

  /** The last four fields are history: the homes whose deletion was requested, the account each
      home was given, the last job row written for each home, and the homes whose last provision
      attempt failed without the home having been read. */
  datatype World = World(
    cfg: Config, now: int, homes: map<nat, Home>, nextHome: nat, jobs: map<nat, Job>, nextJob: nat,
    tasks: map<nat, Task>, broker: Broker,
    requested: set<nat>, issued: map<nat, Account>, latest: map<nat, nat>, stranded: set<nat>)

  const JOB_BATCH_SIZE: nat := 128
  const MAX_PROVISION_ATTEMPTS: nat := 6
  const STALE_CLAIM_AFTER: int := 120_000_000_000

  // ---------- homes ----------

  predicate HasMqttCredentials(home: Home) { !Blank(home.username) && !Blank(home.password) }

  function PutHome(w: World, h: nat, home: Home): World { w.(homes := w.homes[h := home]) }

  /** A change of state that does not touch soft-deleted homes. */
  function WithState(home: Home, state: MqttState): Home { if home.deleted then home else home.(state := state) }

  function SetState(w: World, h: nat, state: MqttState): World {
    if h in w.homes then PutHome(w, h, WithState(w.homes[h], state)) else w
  }

  // ---------- enqueueing ----------

  function NewJob(h: nat, operation: Operation, nextRunAt: int): Job {
    Job(h, operation, JobPending, 0, nextRunAt, None, 0)
  }

  function InitialNextRunAt(w: World): int { w.now + w.cfg.initialDelay }

  function RowsFor(w: World, h: nat, operation: Operation): set<nat> {
    set j | j in w.jobs && w.jobs[j].home == h && w.jobs[j].operation == operation
  }

  /** Resets the home's row for this operation if there is one, and inserts one otherwise. */
  function UpsertJob(w: World, h: nat, operation: Operation): World {
    var row := NewJob(h, operation, InitialNextRunAt(w));
    if RowsFor(w, h, operation) == {} then
      w.(jobs := w.jobs[w.nextJob := row], nextJob := w.nextJob + 1, latest := w.latest[h := w.nextJob])
    else
      w.(jobs := map j | j in w.jobs :: if j in RowsFor(w, h, operation) then row else w.jobs[j])
  }

  function ClearJobs(w: World, h: nat): World {
    w.(jobs := map j | j in w.jobs && w.jobs[j].home != h :: w.jobs[j])
  }

  function ReplaceWithCleanupJob(w: World, h: nat): World { UpsertJob(ClearJobs(w, h), h, Cleanup) }

  function EnrollHome(w: World, user: nat, account: Account): World {
    var h := w.nextHome;
    var home := Home(user, HomeMqttUsername(user, h, account.suffix), account.password, Pending, false);
    UpsertJob(PutHome(w, h, home).(nextHome := h + 1, issued := w.issued[h := account]), h, Provision)
  }

  function ScheduleHomeDeletion(w: World, h: nat): World {
    ReplaceWithCleanupJob(SetState(w, h, Deleting), h).(requested := w.requested + {h})
  }

  function HomesOf(w: World, user: nat): set<nat> {
    set h | h in w.homes && w.homes[h].user == user && !w.homes[h].deleted
  }

  function ScheduleHomeDeletions(w: World, order: seq<nat>): World
    decreases |order|
  {
    if order == [] then w else ScheduleHomeDeletions(ScheduleHomeDeletion(w, order[0]), order[1..])
  }

  // ---------- claiming ----------

  predicate Stale(job: Job, now: int) {
    job.status == JobRunning && job.claimedAt.Some? && job.claimedAt.value < now - STALE_CLAIM_AFTER
  }

  function RequeuedJob(job: Job, now: int): Job {
    job.(status := JobPending, claimedAt := None, nextRunAt := now, requeues := job.requeues + 1)
  }

  function RequeueStaleClaims(w: World): World {
    w.(jobs := map j | j in w.jobs :: if Stale(w.jobs[j], w.now) then RequeuedJob(w.jobs[j], w.now) else w.jobs[j])
  }

  function DueJobs(jobs: map<nat, Job>, now: int): set<nat> {
    set j | j in jobs && jobs[j].status == JobPending && jobs[j].nextRunAt <= now
  }

  /** The order in which jobs are claimed. */
  predicate Before(jobs: map<nat, Job>, i: nat, j: nat)
    requires i in jobs && j in jobs
  {
    jobs[i].nextRunAt < jobs[j].nextRunAt || (jobs[i].nextRunAt == jobs[j].nextRunAt && i < j)
  }

  function DueBefore(jobs: map<nat, Job>, now: int, j: nat): set<nat>
    requires j in jobs
  {
    set i | i in DueJobs(jobs, now) && Before(jobs, i, j)
  }

  /** The first so many due jobs. */
  function FirstDue(jobs: map<nat, Job>, now: int): (due: set<nat>)
    ensures forall j :: j in due ==> j in jobs && jobs[j].status == JobPending && jobs[j].nextRunAt <= now
  {
    set j | j in DueJobs(jobs, now) && |DueBefore(jobs, now, j)| < JOB_BATCH_SIZE
  }

  function ClaimedJob(job: Job, now: int): Job {
    job.(status := JobRunning, claimedAt := Some(now), attempts := job.attempts + 1)
  }

  function ClaimJobs(w: World): World {
    var claimed := FirstDue(w.jobs, w.now);
    w.(jobs := map j | j in w.jobs :: if j in claimed then ClaimedJob(w.jobs[j], w.now) else w.jobs[j],
       tasks := map j | j in claimed :: Task(ClaimedJob(w.jobs[j], w.now), Claimed))
  }

  // ---------- processing ----------

  function SetPhase(w: World, j: nat, phase: Phase): World
    requires j in w.tasks
  {
    w.(tasks := w.tasks[j := w.tasks[j].(phase := phase)])
  }

  /** The worker reads the home; `ok` is false if the database does not answer. */
  function ReadHome(w: World, j: nat, ok: bool): World
    requires j in w.tasks
  {
    var job := w.tasks[j].job;
    SetPhase(w, j,
      if !ok then Failing(false)
      else if job.home !in w.homes then Dropping
      else
        var home := w.homes[job.home];
        if job.operation == Cleanup then Loaded(home)
        else if home.deleted || home.state == Deleting then Dropping
        else if !HasMqttCredentials(home) then Failing(true)
        else Loaded(home))
  }

  /** For a cleanup: the home's device list could not be read. */
  function ReadDevicesFails(w: World, j: nat): World
    requires j in w.tasks
  {
    SetPhase(w, j, Failing(true))
  }

  /** Removes whatever access the home has; for a cleanup this includes the devices' retained
      messages, which may fail as well. */
  function ClearAccess(w: World, j: nat, fate: Fate, devicesCleared: bool): World
    requires j in w.tasks && w.tasks[j].phase.Loaded?
  {
    var job, home := w.tasks[j].job, w.tasks[j].phase.copy;
    if job.operation == Cleanup && home.username == "" then
      SetPhase(w, j, if devicesCleared then Cleared(home) else Failing(true))
    else
      var (broker, ok) := CleanupHomeAccess(w.broker, home.user, job.home, home.username, fate);
      var done := ok && (job.operation == Provision || devicesCleared);
      SetPhase(w, j, if done then Cleared(home) else Failing(true)).(broker := broker)
  }

  function GrantAccess(w: World, j: nat, fate: GrantFate): World
    requires j in w.tasks && w.tasks[j].phase.Cleared?
  {
    var job, home := w.tasks[j].job, w.tasks[j].phase.copy;
    var (broker, ok) := ProvisionHomeAccess(w.broker, home.user, job.home, home.username, home.password, fate);
    SetPhase(w, j, if ok then Provisioned(home) else Failing(true)).(broker := broker)
  }

  function RetryDelay(cfg: Config, attempts: int): int {
    var a := if attempts < 1 then 1 else attempts;
    (if a > cfg.retryMaxMultiplier then cfg.retryMaxMultiplier else a) * cfg.retryBaseDelay
  }

  /** The last transaction of a task, after which the worker is done with it. */
  predicate CanFinish(t: Task) {
    t.phase.Dropping? || t.phase.Failing? || t.phase.Provisioned? || (t.phase.Cleared? && t.job.operation == Cleanup)
  }

  predicate GivesUp(job: Job) { job.operation == Provision && job.attempts >= MAX_PROVISION_ATTEMPTS }

  /** The home's row after the last transaction. Only a cleanup writes to soft-deleted homes. */
  function HomeAfter(home: Home, t: Task): Home {
    match t.phase
    case Provisioned(_) => WithState(home, Ready)
    case Cleared(_) => home.(username := "", password := "", state := Deleting, deleted := true)
    case Failing(known) =>
      if !known then home
      else if t.job.operation == Cleanup then home.(state := Deleting)
      else WithState(home, if GivesUp(t.job) then Failed else Pending)
    case _ => home
  }

  /** The attempts are used up, and the home could not even be read to record it there. */
  predicate Strands(t: Task) { t.phase == Failing(false) && GivesUp(t.job) }

  function WriteHome(w: World, t: Task): World {
    var h := t.job.home;
    w.(homes := if h in w.homes then w.homes[h := HomeAfter(w.homes[h], t)] else w.homes,
       stranded := if Strands(t) then w.stranded + {h} else w.stranded)
  }

  /** The row of a failed attempt: given up, or due again after a while. */
  function RetriedJob(cfg: Config, now: int, job: Job, row: Job): Job {
    if GivesUp(job) then row.(status := JobFailed, claimedAt := None)
    else row.(status := JobPending, claimedAt := None, nextRunAt := now + RetryDelay(cfg, job.attempts))
  }

  /** What it writes to its row, which may be gone by now. */
  function WriteJob(w: World, j: nat, t: Task): World {
    if !t.phase.Failing? then w.(jobs := w.jobs - {j})
    else if j in w.jobs then w.(jobs := w.jobs[j := RetriedJob(w.cfg, w.now, t.job, w.jobs[j])])
    else w
  }

  function Finish(w: World, j: nat): World
    requires j in w.tasks && CanFinish(w.tasks[j])
  {
    WriteJob(WriteHome(w.(tasks := w.tasks - {j}), w.tasks[j]), j, w.tasks[j])
  }

  /** The last transaction fails: a cleanup that got this far is rescheduled, anything else is left
      behind with its row as it is. */
  function FinishFails(w: World, j: nat): World
    requires j in w.tasks && CanFinish(w.tasks[j])
  {
    if w.tasks[j].phase.Cleared? then SetPhase(w, j, Failing(true)) else w.(tasks := w.tasks - {j})
  }

  // ---------- runs ----------

  datatype Step =
    | Tick(now: int)
    | Enroll(user: nat, account: Account)
    | DeleteHome(h: nat)
    | DeleteUser(user: nat, order: seq<nat>)
    | Requeue
    | Claim
    | Read(j: nat, ok: bool)
    | DevicesUnread(j: nat)
    | Clear(j: nat, fate: Fate, devicesCleared: bool)
    | Grant(j: nat, grantFate: GrantFate)
    | Commit(j: nat)
    | CommitFails(j: nat)
    | Crash

  predicate InPhase(w: World, j: nat, phase: Phase) { j in w.tasks && w.tasks[j].phase == phase }

  predicate IsLoaded(w: World, j: nat) { j in w.tasks && w.tasks[j].phase.Loaded? }

  /** Nothing runs while the worker claims: it waits for its whole batch first. */
  predicate Enabled(w: World, step: Step) {
    match step
    case Tick(now) => w.now <= now
    case Enroll(_, account) => !Blank(account.password)
    case DeleteHome(h) => h in w.homes
    case DeleteUser(user, order) => (set h | h in order) == HomesOf(w, user)
    case Requeue => w.tasks == map[]
    case Claim => w.tasks == map[]
    case Read(j, _) => InPhase(w, j, Claimed)
    case DevicesUnread(j) => IsLoaded(w, j) && w.tasks[j].job.operation == Cleanup
    case Clear(j, _, _) => IsLoaded(w, j)
    case Grant(j, _) => j in w.tasks && w.tasks[j].phase.Cleared? && w.tasks[j].job.operation == Provision
    case Commit(j) => j in w.tasks && CanFinish(w.tasks[j])
    case CommitFails(j) => j in w.tasks && CanFinish(w.tasks[j])
    case Crash => true
  }

  function Act(w: World, step: Step): World
    requires Enabled(w, step)
  {
    match step
    case Tick(now) => w.(now := now)
    case Enroll(user, account) => EnrollHome(w, user, account)
    case DeleteHome(h) => ScheduleHomeDeletion(w, h)
    case DeleteUser(_, order) => ScheduleHomeDeletions(w, order)
    case Requeue => RequeueStaleClaims(w)
    case Claim => ClaimJobs(w)
    case Read(j, ok) => ReadHome(w, j, ok)
    case DevicesUnread(j) => ReadDevicesFails(w, j)
    case Clear(j, fate, devicesCleared) => ClearAccess(w, j, fate, devicesCleared)
    case Grant(j, fate) => GrantAccess(w, j, fate)
    case Commit(j) => Finish(w, j)
    case CommitFails(j) => FinishFails(w, j)
    case Crash => w.(tasks := map[])
  }

  /** A step that is not possible leaves everything as it is. */
  function Take(w: World, step: Step): World { if Enabled(w, step) then Act(w, step) else w }

  function Run(w: World, steps: seq<Step>): World
    decreases |steps|
  {
    if steps == [] then w else Run(Take(w, steps[0]), steps[1..])
  }

  lemma TwoSteps(w: World, a: Step, b: Step)
    ensures Run(w, [a, b]) == Take(Take(w, a), b)
  {
    hide Take;
    assert [a, b][1..] == [b] && [b][1..] == [];
    assert Run(w, [a, b]) == Run(Take(w, a), [b]);
  }

  lemma FourSteps(w: World, a: Step, b: Step, c: Step, d: Step)
    ensures Run(w, [a, b, c, d]) == Take(Take(Take(Take(w, a), b), c), d)
  {
    hide Take;
    assert [a, b, c, d][1..] == [b, c, d];
    ThreeSteps(Take(w, a), b, c, d);
  }

  lemma ThreeSteps(w: World, a: Step, b: Step, c: Step)
    ensures Run(w, [a, b, c]) == Take(Take(Take(w, a), b), c)
  {
    hide Take;
    assert [a, b, c][1..] == [b, c] && [b, c][1..] == [c] && [c][1..] == [];
    var w1 := Take(w, a);
    assert Run(w, [a, b, c]) == Run(w1, [b, c]) == Run(Take(w1, b), [c]);
  }

  lemma {:induction false} RunConcat(w: World, a: seq<Step>, b: seq<Step>)
    ensures Run(w, a + b) == Run(Run(w, a), b)
    decreases |a|
  {
    hide Take;
    if a == [] {
      assert a + b == b;
    } else {
      RunConcat(Take(w, a[0]), a[1..], b);
      assert (a + b)[1..] == a[1..] + b && (a + b)[0] == a[0];
    }
  }

  predicate IsStart(w: World) {
    && w.cfg.Valid() && w.homes == map[] && w.jobs == map[] && w.tasks == map[]
    && w.requested == {} && w.issued == map[] && w.latest == map[] && w.stranded == {}
  }
}
