/**
 The queue as the server runs it, row by row on its database. Every method is shown to take exactly
 the steps of HomeJobs, so all that holds of their runs holds of the server.
 */
module JobWorker {
  import opened Sets
  import opened Wrappers
  import opened HomeNames
  import opened Dynsec
  import opened HomeJobs
  import D = DynsecClient
  import L = HomeLaws

  /** How the outside world treats one job: whether the database answers, and what becomes of the
      messages to the broker. */
  datatype Weather = Weather(readOk: bool, devicesRead: bool, clear: Fate, devicesCleared: bool, grant: GrantFate,
                             commitOk: bool, retryOk: bool)

  /** The database, and what the worker's goroutines hold. */
  class Worker {
    const cfg: Config
    const mqtt: D.Client
    var now: int
    var homes: map<nat, Home>
    var nextHome: nat
    var jobs: map<nat, Job>
    var nextJob: nat
    ghost var tasks: map<nat, Task>
    ghost var requested: set<nat>
    ghost var issued: map<nat, Account>
    ghost var latest: map<nat, nat>
    ghost var stranded: set<nat>

    ghost function State(): World
      reads this, mqtt
    {
      World(cfg, now, homes, nextHome, jobs, nextJob, tasks, mqtt.broker, requested, issued, latest, stranded)
    }

    constructor (cfg: Config, mqtt: D.Client, now: int)
      requires cfg.Valid()
      ensures IsStart(State()) && this.cfg == cfg && this.mqtt == mqtt && this.now == now
    {
      this.cfg, this.mqtt, this.now := cfg, mqtt, now;
      homes, nextHome, jobs, nextJob := map[], 1, map[], 1;
      tasks, requested, issued, latest, stranded := map[], {}, map[], map[], {};
    }

    // ---------- enqueueing ----------

    method UpsertJob(h: nat, operation: Operation)
      modifies this`jobs, this`nextJob, this`latest
      ensures State() == HomeJobs.UpsertJob(old(State()), h, operation)
    {
      var row := Job(h, operation, JobPending, 0, now + cfg.initialDelay, None, 0);
      var conflicting := set j | j in jobs && jobs[j].home == h && jobs[j].operation == operation;
      assert conflicting == RowsFor(State(), h, operation);
      if conflicting == {} {
        jobs := jobs[nextJob := row];
        latest := latest[h := nextJob];
        nextJob := nextJob + 1;
      } else {
        jobs := map j | j in jobs :: if j in conflicting then row else jobs[j];
      }
    }

    method EnqueueProvision(h: nat)
      modifies this`jobs, this`nextJob, this`latest
      ensures State() == HomeJobs.UpsertJob(old(State()), h, Provision)
    {
      UpsertJob(h, Provision);
    }

    method ReplaceWithCleanupJob(h: nat)
      modifies this`jobs, this`nextJob, this`latest
      ensures State() == HomeJobs.ReplaceWithCleanupJob(old(State()), h)
    {
      jobs := map j | j in jobs && jobs[j].home != h :: jobs[j];
      UpsertJob(h, Cleanup);
    }

    method EnrollHome(user: nat, suffix: string, password: string) returns (h: nat)
      modifies this
      ensures State() == HomeJobs.EnrollHome(old(State()), user, Account(suffix, password)) && h == old(nextHome)
    {
      hide HomeMqttUsername, HomeJobs.UpsertJob;
      h := CreateHome(user, suffix, password);
      EnqueueProvision(h);
    }

    /** Inserts the home's row, and then gives it its account. */
    method CreateHome(user: nat, suffix: string, password: string) returns (h: nat)
      modifies this`homes, this`nextHome, this`issued
      ensures h == old(nextHome)
      ensures State() == PutHome(old(State()), h,
                                 Home(user, HomeMqttUsername(user, h, suffix), password, Pending, false)).(
                           nextHome := h + 1, issued := old(issued)[h := Account(suffix, password)])
    {
      hide HomeMqttUsername;
      h := nextHome;
      nextHome := nextHome + 1;
      homes := homes[h := Home(user, "", "", Pending, false)];
      homes := homes[h := homes[h].(username := HomeMqttUsername(user, h, suffix), password := password)];
      issued := issued[h := Account(suffix, password)];
    }

    method ScheduleHomeDeletion(h: nat)
      modifies this
      ensures State() == HomeJobs.ScheduleHomeDeletion(old(State()), h)
    {
      if h in homes && !homes[h].deleted {
        homes := homes[h := homes[h].(state := Deleting)];
      } else if h in homes {
        assert homes[h := homes[h]] == homes;
      }
      ReplaceWithCleanupJob(h);
      requested := requested + {h};
    }

    /** Schedules the deletion of every home of the user, in the order of their ids. */
    method ScheduleUserDeletion(user: nat) returns (homeIds: seq<nat>)
      modifies this
      ensures (set h | h in homeIds) == HomesOf(old(State()), user)
      ensures forall i, j :: 0 <= i < j < |homeIds| ==> homeIds[i] < homeIds[j]
      ensures State() == Take(old(State()), DeleteUser(user, homeIds))
      ensures L.UserScheduled(old(State()), State(), user, homeIds)
    {
      ghost var w := State();
      homeIds := ListHomes(user);
      assert homeIds[0..] == homeIds;
      hide HomeJobs.ScheduleHomeDeletion;
      for i := 0 to |homeIds|
        invariant ScheduleHomeDeletions(w, homeIds) == ScheduleHomeDeletions(State(), homeIds[i..])
      {
        assert homeIds[i..][1..] == homeIds[i + 1..];
        ScheduleHomeDeletion(homeIds[i]);
      }
      assert homeIds[|homeIds|..] == [];
      hide ScheduleHomeDeletions, HomesOf, L.UserScheduled;
      L.ScheduledExactly(w, user, homeIds);
    }

    method ListHomes(user: nat) returns (homeIds: seq<nat>)
      ensures (set h | h in homeIds) == HomesOf(State(), user)
      ensures forall i, j :: 0 <= i < j < |homeIds| ==> homeIds[i] < homeIds[j]
    {
      homeIds := [];
      var left := set h | h in homes && homes[h].user == user && !homes[h].deleted;
      while left != {}
        invariant left <= HomesOf(State(), user)
        invariant forall h :: h in homeIds <==> h in HomesOf(State(), user) && h !in left
        invariant forall i, j :: 0 <= i < j < |homeIds| ==> homeIds[i] < homeIds[j]
        invariant forall g, h | g in homeIds && h in left :: g < h
      {
        var h := Least(left);
        assert forall i :: 0 <= i < |homeIds| ==> homeIds[i] in homeIds;
        assert forall g :: g in homeIds + [h] <==> g in homeIds || g == h;
        homeIds := homeIds + [h];
        left := left - {h};
      }
    }

    // ---------- claiming ----------

    method RequeueStaleClaims()
      requires tasks == map[]
      modifies this`jobs
      ensures State() == Take(old(State()), Requeue)
    {
      jobs := map j | j in jobs ::
        if jobs[j].status == JobRunning && jobs[j].claimedAt.Some?
          && jobs[j].claimedAt.value < now - STALE_CLAIM_AFTER then
          jobs[j].(status := JobPending, claimedAt := None, nextRunAt := now, requeues := jobs[j].requeues + 1)
        else jobs[j];
    }

    /** Returns the claimed rows as they are after the update. */
    method ClaimJobs() returns (claimed: map<nat, Job>)
      requires tasks == map[]
      modifies this`jobs, this`tasks
      ensures State() == Take(old(State()), Claim)
      ensures tasks == map j | j in claimed :: Task(claimed[j], Claimed)
    {
      hide FirstDue;
      var candidates := FirstDue(jobs, now);
      claimed := map j | j in candidates :: jobs[j].(status := JobRunning, claimedAt := Some(now),
                                                     attempts := jobs[j].attempts + 1);
      ClaimedRows(State(), claimed);
      jobs := map j | j in jobs :: if j in claimed then claimed[j] else jobs[j];
      tasks := map j | j in claimed :: Task(claimed[j], Claimed);
    }

    // ---------- the last transaction of a job ----------

    method DeleteJob(j: nat, job: Job, ok: bool)
      requires j in tasks && tasks[j] == Task(job, Dropping)
      modifies this`jobs, this`tasks
      ensures State() == Take(old(State()), Last(j, ok)) && tasks == old(tasks) - {j}
    {
      CommitForm(State(), j);
      if ok {
        jobs := jobs - {j};
      }
      tasks := tasks - {j};
    }

    method CommitReady(j: nat, job: Job, copy: Home, ok: bool)
      requires j in tasks && tasks[j] == Task(job, Provisioned(copy))
      modifies this`homes, this`jobs, this`tasks
      ensures State() == Take(old(State()), Last(j, ok)) && tasks == old(tasks) - {j}
    {
      CommitForm(State(), j);
      if ok {
        if job.home in homes && !homes[job.home].deleted {
          homes := homes[job.home := homes[job.home].(state := Ready)];
        }
        jobs := jobs - {j};
      }
      tasks := tasks - {j};
    }

    method RescheduleProvision(j: nat, job: Job, known: bool, ok: bool)
      requires j in tasks && tasks[j] == Task(job, Failing(known)) && job.operation == Provision
      modifies this`homes, this`jobs, this`tasks, this`stranded
      ensures State() == Take(old(State()), Last(j, ok)) && tasks == old(tasks) - {j}
    {
      CommitForm(State(), j);
      if ok {
        var giveUp := job.attempts >= MAX_PROVISION_ATTEMPTS;
        if known && job.home in homes && !homes[job.home].deleted {
          homes := homes[job.home := homes[job.home].(state := if giveUp then Failed else Pending)];
        }
        if j in jobs {
          var row := jobs[j].(claimedAt := None);
          if giveUp {
            row := row.(status := JobFailed);
          } else {
            row := row.(status := JobPending, nextRunAt := now + RetryDelay(cfg, job.attempts));
          }
          jobs := jobs[j := row];
        }
        if giveUp && !known {
          stranded := stranded + {job.home};
        }
      }
      tasks := tasks - {j};
    }

    method RescheduleCleanup(j: nat, job: Job, known: bool, ok: bool)
      requires j in tasks && tasks[j] == Task(job, Failing(known)) && job.operation == Cleanup
      modifies this`homes, this`jobs, this`tasks
      ensures State() == Take(old(State()), Last(j, ok)) && tasks == old(tasks) - {j}
    {
      CommitForm(State(), j);
      if ok {
        if known && job.home in homes {
          homes := homes[job.home := homes[job.home].(state := Deleting)];
        }
        if j in jobs {
          jobs := jobs[j := jobs[j].(status := JobPending, claimedAt := None,
                                     nextRunAt := now + RetryDelay(cfg, job.attempts))];
        }
      }
      tasks := tasks - {j};
    }

    /** A cleanup that cannot be committed is rescheduled, in a transaction of its own. */
    method CommitDeleted(j: nat, job: Job, copy: Home, ok: bool, retryOk: bool)
      requires j in tasks && tasks[j] == Task(job, Cleared(copy)) && job.operation == Cleanup
      modifies this`homes, this`jobs, this`tasks
      ensures tasks == old(tasks) - {j}
      ensures ok ==> State() == Take(old(State()), Last(j, true))
      ensures !ok ==> State() == Take(Take(old(State()), Last(j, false)), Last(j, retryOk))
    {
      CommitForm(State(), j);
      if ok {
        if job.home in homes {
          homes := homes[job.home := homes[job.home].(username := "", password := "", state := Deleting)];
          homes := homes[job.home := homes[job.home].(deleted := true)];
        }
        jobs := jobs - {j};
        tasks := tasks - {j};
      } else {
        tasks := tasks[j := tasks[j].(phase := Failing(true))];
        RescheduleCleanup(j, job, true, retryOk);
      }
    }

    // ---------- processing a claimed job ----------

    method ProcessProvisionJob(j: nat, job: Job, weather: Weather)
      requires j in tasks && tasks[j] == Task(job, Claimed) && job.operation == Provision
      modifies this, mqtt
      ensures now == old(now) && tasks == old(tasks) - {j}
      ensures State() == Run(old(State()), ProvisionSteps(j, weather))
    {
      FourSteps(State(), Read(j, weather.readOk), Clear(j, weather.clear, true), Grant(j, weather.grant),
                Last(j, weather.commitOk));
      hide Run, Take, Last;
      var phase := LoadHome(j, job, weather.readOk);
      if phase.Loaded? {
        Reprovision(j, job, phase.copy, weather);
      } else {
        NoBroker(State(), j, weather);
        if phase.Failing? {
          RescheduleProvision(j, job, phase.known, weather.commitOk);
        } else {
          DeleteJob(j, job, weather.commitOk);
        }
      }
    }

    /** Reads the home, and decides whether there is anything to do for it. */
    method LoadHome(j: nat, job: Job, ok: bool) returns (phase: Phase)
      requires j in tasks && tasks[j] == Task(job, Claimed)
      modifies this`tasks
      ensures State() == Take(old(State()), Read(j, ok))
      ensures tasks == old(tasks)[j := Task(job, phase)]
      ensures phase.Loaded? || phase.Failing? || phase.Dropping?
    {
      ReadForm(State(), j, ok);
      hide Take, HasMqttCredentials;
      if !ok {
        phase := Failing(false);
      } else if job.home !in homes {
        phase := Dropping;
      } else {
        var home := homes[job.home];
        if job.operation == Provision && (home.deleted || home.state == Deleting) {
          phase := Dropping;
        } else if job.operation == Provision && !HasMqttCredentials(home) {
          phase := Failing(true);
        } else {
          phase := Loaded(home);
        }
      }
      tasks := tasks[j := tasks[j].(phase := phase)];
    }

    /** Clears whatever access there may be, and grants it anew. */
    method Reprovision(j: nat, job: Job, home: Home, weather: Weather)
      requires j in tasks && tasks[j] == Task(job, Loaded(home)) && job.operation == Provision
      modifies this, mqtt
      ensures now == old(now) && tasks == old(tasks) - {j}
      ensures State() == Take(Take(Take(old(State()), Clear(j, weather.clear, true)), Grant(j, weather.grant)),
                              Last(j, weather.commitOk))
    {
      hide Take, Last;
      var cleared := ClearStaleAccess(j, job, home, weather.clear);
      if !cleared {
        NoBroker(State(), j, weather);
        RescheduleProvision(j, job, true, weather.commitOk);
        return;
      }
      var granted := GrantHome(j, job, home, weather.grant);
      if granted {
        CommitReady(j, job, home, weather.commitOk);
      } else {
        RescheduleProvision(j, job, true, weather.commitOk);
      }
    }

    method ClearStaleAccess(j: nat, job: Job, home: Home, fate: Fate) returns (ok: bool)
      requires j in tasks && tasks[j] == Task(job, Loaded(home)) && job.operation == Provision
      modifies this`tasks, mqtt
      ensures State() == Take(old(State()), Clear(j, fate, true))
      ensures tasks == old(tasks)[j := Task(job, if ok then Cleared(home) else Failing(true))]
    {
      ClearForm(State(), j, fate, true);
      hide Take, Dynsec.CleanupHomeAccess;
      ok := mqtt.CleanupHomeAccess(home.user, job.home, home.username, fate);
      tasks := tasks[j := tasks[j].(phase := if ok then Cleared(home) else Failing(true))];
    }

    method GrantHome(j: nat, job: Job, home: Home, fate: GrantFate) returns (ok: bool)
      requires j in tasks && tasks[j] == Task(job, Cleared(home)) && job.operation == Provision
      modifies this`tasks, mqtt
      ensures State() == Take(old(State()), Grant(j, fate))
      ensures tasks == old(tasks)[j := Task(job, if ok then Provisioned(home) else Failing(true))]
    {
      GrantForm(State(), j, fate);
      hide Take, Dynsec.ProvisionHomeAccess;
      ok := mqtt.ProvisionHomeAccess(home.user, job.home, home.username, home.password, fate);
      tasks := tasks[j := tasks[j].(phase := if ok then Provisioned(home) else Failing(true))];
    }

    method ProcessCleanupJob(j: nat, job: Job, weather: Weather)
      requires j in tasks && tasks[j] == Task(job, Claimed) && job.operation == Cleanup
      modifies this, mqtt
      ensures now == old(now) && tasks == old(tasks) - {j}
      ensures State() == Run(old(State()), CleanupSteps(j, weather))
    {
      CleanupRun(State(), j, weather);
      hide Run, Take, CleanupSteps, Last, Retry;
      var phase := LoadHome(j, job, weather.readOk);
      if phase.Loaded? {
        RemoveHome(j, job, phase.copy, weather);
      } else {
        NoCleanup(State(), j, weather);
        if phase.Failing? {
          RescheduleCleanup(j, job, phase.known, weather.commitOk);
        } else {
          DeleteJob(j, job, weather.commitOk);
        }
        NoRetry(State(), j, weather);
      }
    }

    method RemoveHome(j: nat, job: Job, home: Home, weather: Weather)
      requires j in tasks && tasks[j] == Task(job, Loaded(home)) && job.operation == Cleanup
      modifies this, mqtt
      ensures now == old(now) && tasks == old(tasks) - {j}
      ensures var w2 := if weather.devicesRead then old(State()) else Take(old(State()), DevicesUnread(j));
              State() == Take(Take(Take(w2, Clear(j, weather.clear, weather.devicesCleared)),
                                   Last(j, weather.commitOk)),
                              Retry(j, weather))
    {
      DevicesForm(State(), j, weather);
      hide Take, Last, Retry;
      if !weather.devicesRead {
        tasks := tasks[j := tasks[j].(phase := Failing(true))];
        NoCleanup(State(), j, weather);
        RescheduleCleanup(j, job, true, weather.commitOk);
        NoRetry(State(), j, weather);
        return;
      }
      var cleared := ClearHome(j, job, home, weather);
      if cleared {
        RetryForm(j, weather);
        CommitDeleted(j, job, home, weather.commitOk, weather.retryOk);
        if weather.commitOk {
          NoRetry(State(), j, weather);
        }
      } else {
        RescheduleCleanup(j, job, true, weather.commitOk);
        NoRetry(State(), j, weather);
      }
    }

    /** Removes the access, if there ever was any, and the devices' retained messages. */
    method ClearHome(j: nat, job: Job, home: Home, weather: Weather) returns (ok: bool)
      requires j in tasks && tasks[j] == Task(job, Loaded(home)) && job.operation == Cleanup
      modifies this`tasks, mqtt
      ensures State() == Take(old(State()), Clear(j, weather.clear, weather.devicesCleared))
      ensures tasks == old(tasks)[j := Task(job, if ok then Cleared(home) else Failing(true))]
    {
      ClearForm(State(), j, weather.clear, weather.devicesCleared);
      hide Take, Dynsec.CleanupHomeAccess;
      ok := true;
      if home.username != "" {
        ok := mqtt.CleanupHomeAccess(home.user, job.home, home.username, weather.clear);
      }
      ok := ok && weather.devicesCleared;
      tasks := tasks[j := tasks[j].(phase := if ok then Cleared(home) else Failing(true))];
    }

    // ---------- a round of the worker ----------

    /** Takes back stale claims, claims a batch, and processes all of it before it returns. The whole
        round is a run of the steps of HomeJobs, and nothing is left under way after it. */
    method RunOnce(requeueOk: bool, claimOk: bool, weather: nat -> Weather) returns (ghost steps: seq<Step>)
      requires tasks == map[]
      modifies this, mqtt
      ensures State() == Run(old(State()), steps) && tasks == map[]
    {
      ghost var w := State();
      steps := [];
      hide Take;
      if requeueOk {
        RequeueStaleClaims();
        steps := [Requeue];
      }
      assert State() == Run(w, steps);
      if !claimOk {
        return;
      }
      RunAppend(w, steps, [Claim]);
      var claimed := ClaimJobs();
      steps := steps + [Claim];
      var left := claimed.Keys;
      hide Run;
      while left != {}
        invariant left <= claimed.Keys
        invariant tasks == map j | j in left :: Task(claimed[j], Claimed)
        invariant State() == Run(w, steps)
      {
        var j :| j in left;
        ghost var more := ProcessJob(j, claimed[j], weather(j));
        RunAppend(w, steps, more);
        steps := steps + more;
        left := left - {j};
      }
    }

    method ProcessJob(j: nat, job: Job, weather: Weather) returns (ghost steps: seq<Step>)
      requires j in tasks && tasks[j] == Task(job, Claimed)
      modifies this, mqtt
      ensures State() == Run(old(State()), steps) && tasks == old(tasks) - {j}
    {
      match job.operation {
        case Provision =>
          ProcessProvisionJob(j, job, weather);
          return ProvisionSteps(j, weather);
        case Cleanup =>
          ProcessCleanupJob(j, job, weather);
          return CleanupSteps(j, weather);
      }
    }
  }

  lemma {:induction false} RunAppend(w: World, a: seq<Step>, b: seq<Step>)
    ensures Run(w, a + b) == Run(Run(w, a), b)
    ensures |b| == 1 ==> Run(w, a + b) == Take(Run(w, a), b[0])
    decreases |a|
  {
    hide Take;
    if a == [] {
      assert a + b == b;
      assert |b| == 1 ==> b[1..] == [];
    } else {
      assert (a + b)[1..] == a[1..] + b;
      RunAppend(Take(w, a[0]), a[1..], b);
    }
  }

  function Last(j: nat, ok: bool): Step { if ok then Commit(j) else CommitFails(j) }

  /** After a cleanup that could not be committed: the transaction that reschedules it. */
  function Retry(j: nat, weather: Weather): Step {
    if weather.commitOk then CommitFails(j) else Last(j, weather.retryOk)
  }

  lemma RetryForm(j: nat, weather: Weather)
    ensures !weather.commitOk ==> Retry(j, weather) == Last(j, weather.retryOk)
  {
  }

  /** The steps a provision job takes; those that its outcome so far rules out change nothing. */
  function ProvisionSteps(j: nat, weather: Weather): seq<Step> {
    [Read(j, weather.readOk), Clear(j, weather.clear, true), Grant(j, weather.grant), Last(j, weather.commitOk)]
  }

  function CleanupSteps(j: nat, weather: Weather): seq<Step> {
    [Read(j, weather.readOk)] + (if weather.devicesRead then [] else [DevicesUnread(j)])
    + [Clear(j, weather.clear, weather.devicesCleared), Last(j, weather.commitOk), Retry(j, weather)]
  }

  lemma ReadForm(w: World, j: nat, ok: bool)
    requires InPhase(w, j, Claimed)
    ensures var job := w.tasks[j].job;
            Take(w, Read(j, ok)) == SetPhase(w, j,
              if !ok then Failing(false)
              else if job.home !in w.homes then Dropping
              else if job.operation == Cleanup then Loaded(w.homes[job.home])
              else if w.homes[job.home].deleted || w.homes[job.home].state == Deleting then Dropping
              else if !HasMqttCredentials(w.homes[job.home]) then Failing(true)
              else Loaded(w.homes[job.home]))
  {
    hide HasMqttCredentials;
  }

  lemma ClearForm(w: World, j: nat, fate: Fate, devicesCleared: bool)
    requires IsLoaded(w, j)
    ensures var job, home := w.tasks[j].job, w.tasks[j].phase.copy;
            var (broker, ok) := if job.operation == Cleanup && home.username == "" then (w.broker, true)
                                else CleanupHomeAccess(w.broker, home.user, job.home, home.username, fate);
            Take(w, Clear(j, fate, devicesCleared))
            == SetPhase(w, j,
                 if ok && (job.operation == Provision || devicesCleared) then Cleared(home) else Failing(true)).(
                 broker := broker)
  {
    hide Dynsec.CleanupHomeAccess;
  }

  lemma GrantForm(w: World, j: nat, fate: GrantFate)
    requires j in w.tasks && w.tasks[j].phase.Cleared? && w.tasks[j].job.operation == Provision
    ensures var job, home := w.tasks[j].job, w.tasks[j].phase.copy;
            var (broker, ok) := ProvisionHomeAccess(w.broker, home.user, job.home, home.username, home.password, fate);
            Take(w, Grant(j, fate))
            == SetPhase(w, j, if ok then Provisioned(home) else Failing(true)).(broker := broker)
  {
    hide Dynsec.ProvisionHomeAccess;
  }

  /** A task with nothing left but its last transaction does not talk to the broker. */
  lemma NoBroker(w: World, j: nat, weather: Weather)
    requires j in w.tasks && (w.tasks[j].phase.Dropping? || w.tasks[j].phase.Failing?)
    ensures Take(w, Clear(j, weather.clear, true)) == w && Take(w, Grant(j, weather.grant)) == w
  {
  }

  lemma NoCleanup(w: World, j: nat, weather: Weather)
    requires j in w.tasks && (w.tasks[j].phase.Dropping? || w.tasks[j].phase.Failing?)
    ensures Take(w, DevicesUnread(j)) == w && Take(w, Clear(j, weather.clear, weather.devicesCleared)) == w
  {
  }

  lemma NoRetry(w: World, j: nat, weather: Weather)
    requires j !in w.tasks
    ensures Take(w, Retry(j, weather)) == w
  {
  }

  lemma DevicesForm(w: World, j: nat, weather: Weather)
    requires IsLoaded(w, j) && w.tasks[j].job.operation == Cleanup
    ensures Take(w, DevicesUnread(j)) == SetPhase(w, j, Failing(true))
  {
  }

  lemma CleanupRun(w: World, j: nat, weather: Weather)
    ensures var w1 := Take(w, Read(j, weather.readOk));
            var w2 := if weather.devicesRead then w1 else Take(w1, DevicesUnread(j));
            Run(w, CleanupSteps(j, weather))
            == Take(Take(Take(w2, Clear(j, weather.clear, weather.devicesCleared)), Last(j, weather.commitOk)),
                    Retry(j, weather))
  {
    hide Take, Last, Retry;
    var rest := [Clear(j, weather.clear, weather.devicesCleared), Last(j, weather.commitOk), Retry(j, weather)];
    if weather.devicesRead {
      assert CleanupSteps(j, weather) == [Read(j, weather.readOk), rest[0], rest[1], rest[2]];
      FourSteps(w, Read(j, weather.readOk), rest[0], rest[1], rest[2]);
    } else {
      assert CleanupSteps(j, weather)[1..] == [DevicesUnread(j), rest[0], rest[1], rest[2]];
      FourSteps(Take(w, Read(j, weather.readOk)), DevicesUnread(j), rest[0], rest[1], rest[2]);
    }
  }

  /** The last transaction of a task, field by field. */
  lemma CommitForm(w: World, j: nat)
    requires j in w.tasks && CanFinish(w.tasks[j])
    ensures var t, h := w.tasks[j], w.tasks[j].job.home;
            && Take(w, Commit(j)) == w.(tasks := w.tasks - {j}, jobs := WriteJob(w, j, t).jobs,
                                        homes := if h !in w.homes then w.homes
                                                 else w.homes[h := HomeAfter(w.homes[h], t)],
                                        stranded := if Strands(t) then w.stranded + {h} else w.stranded)
            && (h in w.homes ==> w.homes[h := w.homes[h]] == w.homes)
            && Take(w, CommitFails(j))
               == (if t.phase.Cleared? then SetPhase(w, j, Failing(true)) else w.(tasks := w.tasks - {j}))
  {
    hide HomeAfter, Strands, RetriedJob;
  }

  lemma ClaimedRows(w: World, claimed: map<nat, Job>)
    requires w.tasks == map[]
    requires claimed == map j | j in FirstDue(w.jobs, w.now) :: ClaimedJob(w.jobs[j], w.now)
    ensures Take(w, Claim)
            == w.(jobs := map j | j in w.jobs :: if j in claimed then claimed[j] else w.jobs[j],
                  tasks := map j | j in claimed :: Task(claimed[j], Claimed))
  {
    hide FirstDue, ClaimedJob;
  }
}
