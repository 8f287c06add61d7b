/**
 Every run of the rollout server: any sequence of handlers, device reports, manual triggers,
 cancellations and broker failures, with time passing in between.
 */
module RolloutRuns {
  import opened Arithmetic
  import opened Wrappers
  import opened BatchAssignment
  import opened Rollout
  import opened RolloutWorld

  datatype Step =
    | Tick(now: int)
    | PutProduct(product: nat, as_: Product)
    | PutDevice(d: nat, is_: Device)
    | DropRetained(d: nat, delivery: Delivery)
    | Create(product: nat, net: Net)
    | DispatchBatch(r: nat, net: Net)
    | Report(d: nat, version: string, order: seq<nat>, attempts: seq<Delivery>)
    | Trigger(d: nat, delivery: Delivery)

  /** A step that is not possible in a world leaves it as it is. */
  ghost function Take(key: SortKey, w: World, step: Step): World {
    match step
    case Tick(now) => if now < w.now then w else w.(now := now)
    case PutProduct(product, p) => w.(products := w.products[product := p])
    case PutDevice(d, device) => w.(devices := w.devices[d := device])
    case DropRetained(d, delivery) => Clear(w, d, delivery)
    case Create(product, net) => CreateRollout(key, w, product, net)
    case DispatchBatch(r, net) => DispatchNextBatch(w, r, net)
    case Report(d, version, order, attempts) =>
      if Distinct(order) && Elements(order) == Matches(w, d) then HandleStatus(w, d, version, order, attempts) else w
    case Trigger(d, delivery) => TriggerDeviceUpdate(w, d, delivery)
  }

  ghost function Run(key: SortKey, w: World, steps: seq<Step>): World
    decreases |steps|
  {
    if steps == [] then w else Run(key, Take(key, w, steps[0]), steps[1..])
  }

  /** No rollouts yet; retained commands can only be manual ones. */
  predicate IsStart(w: World) {
    w.rollouts == map[] && w.nextRollout > 0 && forall d :: d in w.retained ==> w.retained[d].rollout == 0
  }

  /** What a rollout may have become after any number of steps. */
  ghost predicate Outlives(a: Rollout, b: Rollout) {
    && a.rows.Keys == b.rows.Keys
    && (forall d :: d in a.rows ==> RowAdvances(a.rows[d], b.rows[d]))
    && a.product == b.product && a.targetVersion == b.targetVersion
    && a.percentage == b.percentage && a.intervalMinutes == b.intervalMinutes
    && (!Active(a) ==> a == b) && a.exposed <= b.exposed
    && 0 <= b.dispatches - a.dispatches <= b.lastBatch - a.lastBatch
  }

  ghost predicate Later(a: World, b: World) {
    forall r :: r in a.rollouts ==> r in b.rollouts && Outlives(a.rollouts[r], b.rollouts[r])
  }

  // ---------- every step keeps the invariant ----------

  lemma TickKeeps(w: World, now: int)
    requires Inv(w) && w.now <= now
    ensures Inv(w.(now := now)) && Moves(w, w.(now := now))
  {
    hide Sound, Advances;
    forall r | r in w.rollouts
      ensures Sound(w.rollouts[r], now)
    {
      SoundLater(w.rollouts[r], w.now, now);
    }
  }

  lemma EnvironmentKeeps(w: World, w': World)
    requires Inv(w) && w' == w.(products := w'.products, devices := w'.devices)
    ensures Inv(w') && Moves(w, w')
  {
    hide Sound, Advances, MayRetain;
  }

  lemma StepKeeps(key: SortKey, w: World, step: Step)
    requires Inv(w)
    ensures Inv(Take(key, w, step)) && Moves(w, Take(key, w, step))
  {
    hide Inv, Moves;
    StandStill(w);
    match step
    case Tick(now) => if now >= w.now { TickKeeps(w, now); }
    case PutProduct(product, p) => EnvironmentKeeps(w, w.(products := w.products[product := p]));
    case PutDevice(d, device) => EnvironmentKeeps(w, w.(devices := w.devices[d := device]));
    case DropRetained(d, delivery) => ClearKeeps(w, d, delivery);
    case Create(product, net) => CreateKeeps(key, w, product, net);
    case DispatchBatch(r, net) => DispatchKeeps(w, r, net);
    case Report(d, version, order, attempts) =>
      if Distinct(order) && Elements(order) == Matches(w, d) {
        HandleStatusKeeps(w, d, version, order, attempts);
      }
    case Trigger(d, delivery) => TriggerKeeps(w, d, delivery);
  }

  lemma OneMoveOutlives(a: World, b: World)
    requires Moves(a, b)
    ensures Later(a, b)
  {
  }

  lemma OutlivesTransitive(a: Rollout, b: Rollout, c: Rollout)
    requires Outlives(a, b) && Outlives(b, c)
    ensures Outlives(a, c)
  {
  }

  lemma LaterTransitive(a: World, b: World, c: World)
    requires Later(a, b) && Later(b, c)
    ensures Later(a, c)
  {
    hide Outlives;
    forall r | r in a.rollouts
      ensures r in c.rollouts && Outlives(a.rollouts[r], c.rollouts[r])
    {
      OutlivesTransitive(a.rollouts[r], b.rollouts[r], c.rollouts[r]);
    }
  }

  /** Over any run: the invariant holds throughout, rows are neither lost nor added, keep their
      batch, and only move forward, a rollout that has ended never changes again, and between any
      two points it has been dispatched at most as often as its batch number has grown. */
  lemma {:induction false} RunKeeps(key: SortKey, w: World, steps: seq<Step>)
    requires Inv(w)
    ensures Inv(Run(key, w, steps)) && Later(w, Run(key, w, steps))
    decreases |steps|
  {
    hide Inv, Moves, Later, Take;
    StandStill(w);
    OneMoveOutlives(w, w);
    if steps != [] {
      var w1 := Take(key, w, steps[0]);
      StepKeeps(key, w, steps[0]);
      OneMoveOutlives(w, w1);
      RunKeeps(key, w1, steps[1..]);
      LaterTransitive(w, w1, Run(key, w1, steps[1..]));
    }
  }

  lemma StartInv(w: World)
    requires IsStart(w)
    ensures Inv(w)
  {
  }

  // ---------- the promises, over every run ----------

  /** How many batches can have gone out by now: one, and one more per interval since the first. */
  function BatchesAllowed(ro: Rollout, now: int): int
    requires ro.firstDispatch.Some? && ro.intervalMinutes >= 1
  {
    1 + (now - ro.firstDispatch.value) / Interval(ro)
  }

  lemma QuotientBound(x: int, k: int, interval: int)
    requires interval > 0 && k * interval <= x
    ensures k <= x / interval
  {
    var q := x / interval;
    assert x < (q + 1) * interval;
    if k > q {
      Scale(q + 1, k, interval);
      assert false;
    }
  }

  lemma BudgetMonotone(size: nat, k: nat, m: nat)
    requires k <= m
    ensures Budget(size, k) <= size * m
  {
    assert size * m == size * k + size * (m - k);
  }

  /** Never has the worker sent commands to more devices of a rollout than the batches that the
      interval allowed since its first dispatch can hold. */
  lemma ExposureBound(key: SortKey, start: World, steps: seq<Step>, r: nat)
    requires IsStart(start) && r in Run(key, start, steps).rollouts
    ensures var w := Run(key, start, steps);
            var ro := w.rollouts[r];
            && ro.intervalMinutes >= 1
            && (ro.firstDispatch.None? ==> ro.exposed == {})
            && (ro.firstDispatch.Some? ==>
                  && ro.firstDispatch.value <= w.now
                  && |ro.exposed| <= BatchSize(|ro.rows|, ro.percentage) * BatchesAllowed(ro, w.now))
  {
    StartInv(start);
    RunKeeps(key, start, steps);
    var w := Run(key, start, steps);
    hide Run, WellBatched, LifeCycle, Progress, BatchSize, CeilDiv;
    PacedExposure(w.rollouts[r], w.now);
  }

  lemma PacedExposure(ro: Rollout, now: int)
    requires Paced(ro, now) && ro.intervalMinutes >= 1
    ensures ro.firstDispatch.None? ==> ro.exposed == {}
    ensures ro.firstDispatch.Some? ==>
              && ro.firstDispatch.value <= now
              && |ro.exposed| <= Size(ro) * BatchesAllowed(ro, now)
  {
    hide Size;
    if ro.firstDispatch.Some? {
      QuotientBound(now - ro.firstDispatch.value, ro.dispatches - 1, Interval(ro));
      BudgetMonotone(Size(ro), ro.dispatches, BatchesAllowed(ro, now));
    }
  }

  /** A rollout's command is left at the broker only for a device whose row is sent, is updated
      without its command having been cleared, or, after a publish that failed although it took
      effect, is pending in a failed rollout. In particular not for a cancelled row, and not for a
      row that records the clearing. */
  lemma RetainedCommands(key: SortKey, start: World, steps: seq<Step>, d: nat)
    requires IsStart(start) && d in Run(key, start, steps).retained
    requires Run(key, start, steps).retained[d].rollout != 0
    ensures var w := Run(key, start, steps);
            var r := w.retained[d].rollout;
            && r in w.rollouts && d in w.rollouts[r].rows
            && d in w.rollouts[r].exposed
            && var row := w.rollouts[r].rows[d];
            && row.retainedClearedAt.None?
            && (row.state == DeviceSent || row.state == DeviceUpdated
                || (row.state == DevicePending && w.rollouts[r].status == Failed))
  {
    StartInv(start);
    RunKeeps(key, start, steps);
    var w := Run(key, start, steps);
    hide Run;
    assert MayRetain(w.rollouts[w.retained[d].rollout], d);
    assert Sound(w.rollouts[w.retained[d].rollout], w.now);
    hide WellBatched, Progress, Paced;
  }

  /** An active rollout still has a pending or sent row, is the only active one of its product,
      and a completed rollout has every device updated; dispatches never outnumber batches, nor
      batches the percentage. */
  lemma LifeCycleOverRuns(key: SortKey, start: World, steps: seq<Step>, r: nat)
    requires IsStart(start) && r in Run(key, start, steps).rollouts
    ensures var w := Run(key, start, steps);
            var ro := w.rollouts[r];
            && ro.rows != map[]
            && (Active(ro) ==> Open(ro) != {} && ActiveOf(w, ro.product) == {r})
            && (ro.status == Completed ==> forall d :: d in ro.rows ==> ro.rows[d].state == DeviceUpdated)
            && (Active(ro) ==> forall d :: d in ro.rows ==> ro.rows[d].state != DeviceCancelled)
            && (Active(ro) ==> forall d :: d in Waiting(ro) ==> ro.rows[d].batch > ro.lastBatch)
            && ro.dispatches <= ro.lastBatch <= TotalBatches(ro)
  {
    hide Run, Inv, TotalBatches, ActiveOf;
    StartInv(start);
    RunKeeps(key, start, steps);
    var w := Run(key, start, steps);
    SoundRollout(w, r);
    if Active(w.rollouts[r]) {
      OnlyActive(w, r);
    }
    hide WellBatched, Paced;
  }

  lemma SoundRollout(w: World, r: nat)
    requires Inv(w) && r in w.rollouts
    ensures Sound(w.rollouts[r], w.now)
  {
    hide Sound;
  }

  lemma OnlyActive(w: World, r: nat)
    requires Inv(w) && r in w.rollouts && Active(w.rollouts[r])
    ensures ActiveOf(w, w.rollouts[r].product) == {r}
  {
    hide Sound, AllSound, Retains, Active;
  }

  // ---------- how many dispatches a rollout gets ----------

  /** The first batch never shrinks the room left: a run can dispatch a rollout only as often as
      there are batches above the last one it has dispatched. */
  lemma DispatchesLeft(key: SortKey, start: World, before: seq<Step>, further: seq<Step>, r: nat)
    requires IsStart(start) && r in Run(key, start, before).rollouts
    ensures r in Run(key, Run(key, start, before), further).rollouts
    ensures var a := Run(key, start, before).rollouts[r];
            var b := Run(key, Run(key, start, before), further).rollouts[r];
            a.rows != map[] && b.dispatches - a.dispatches <= TotalBatches(a) - a.lastBatch
  {
    StartInv(start);
    RunKeeps(key, start, before);
    var w := Run(key, start, before);
    RunKeeps(key, w, further);
    var w' := Run(key, w, further);
    hide Run;
    assert Sound(w.rollouts[r], w.now) && Sound(w'.rollouts[r], w'.now);
    SameBatches(w.rollouts[r], w'.rollouts[r]);
    hide TotalBatches, Paced, LifeCycle, WellBatched;
  }

  /** One dispatch that happens and does not fail leaves no pending row at or below its batch. */
  lemma DispatchEmptiesBatch(key: SortKey, start: World, steps: seq<Step>, r: nat, net: Net)
    requires IsStart(start) && r in Run(key, start, steps).rollouts
    ensures r in DispatchNextBatch(Run(key, start, steps), r, net).rollouts
    ensures var a := Run(key, start, steps).rollouts[r];
            var b := DispatchNextBatch(Run(key, start, steps), r, net).rollouts[r];
            b.dispatches > a.dispatches ==>
              && b.dispatches == a.dispatches + 1
              && IsNextBatch(a, b.lastBatch) && b.lastBatch > a.lastBatch
              && (b.status != Failed ==>
                    && (forall d :: d in Waiting(b) ==> b.rows[d].batch > b.lastBatch)
                    && Waiting(b) < Waiting(a))
  {
    StartInv(start);
    RunKeeps(key, start, steps);
    hide Run;
    OneDispatch(Run(key, start, steps), r, net);
  }

  lemma OneDispatch(w: World, r: nat, net: Net)
    requires Inv(w) && r in w.rollouts
    ensures r in DispatchNextBatch(w, r, net).rollouts
    ensures var a := w.rollouts[r];
            var b := DispatchNextBatch(w, r, net).rollouts[r];
            b.dispatches > a.dispatches ==>
              && b.dispatches == a.dispatches + 1
              && IsNextBatch(a, b.lastBatch) && b.lastBatch > a.lastBatch
              && (b.status != Failed ==>
                    && (forall d :: d in Waiting(b) ==> b.rows[d].batch > b.lastBatch)
                    && Waiting(b) < Waiting(a))
  {
    hide Sound, Dispatch, OneActive, Retains, IsNextBatch, UpToDate, InState;
    var a, b := w.rollouts[r], DispatchNextBatch(w, r, net).rollouts[r];
    if b.dispatches > a.dispatches {
      assert Due(w, r) && b == Dispatch(a, UpToDate(w, a.targetVersion), net, w.now);
      DispatchSound(a, UpToDate(w, a.targetVersion), net, w.now);
      FewerWaiting(a, b);
    }
  }

  lemma FewerWaiting(a: Rollout, b: Rollout)
    requires Advances(a, b) && Waiting(a) != {} && IsNextBatch(a, b.lastBatch)
    ensures (forall d :: d in Waiting(b) ==> b.rows[d].batch > b.lastBatch) ==> Waiting(b) < Waiting(a)
  {
    var d :| d in Waiting(a) && a.rows[d].batch == b.lastBatch;
    if forall e :: e in Waiting(b) ==> b.rows[e].batch > b.lastBatch {
      assert d !in Waiting(b);
      assert forall e :: e in Waiting(b) ==> e in Waiting(a);
    }
  }
}
