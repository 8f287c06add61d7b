/**
 How one step of a run may change a rollout: only its own dispatch adds to its history, and only a
 device's report takes it off the schedule with rows still pending.
 */
module RolloutHistory {
  import opened BatchAssignment
  import opened Rollout
  import opened RolloutWorld
  import opened RolloutReports
  import opened RolloutRuns

  predicate SameHistory(a: Rollout, b: Rollout) {
    && b.exposed == a.exposed && b.dispatches == a.dispatches && b.lastBatch == a.lastBatch
    && b.firstDispatch == a.firstDispatch
  }

  /** The rollout ends, or stays on its schedule with no more rows waiting than before. */
  predicate Quiet(a: Rollout, b: Rollout) {
    && SameHistory(a, b)
    && (Active(b) ==> Active(a) && b.nextBatchAt == a.nextBatchAt && Waiting(b) <= Waiting(a))
  }

  /** The step is a dispatch of this rollout, or a device report. */
  predicate Concerns(step: Step, r: nat) { (step.DispatchBatch? && step.r == r) || step.Report? }

  lemma OtherStepsAreQuiet(key: SortKey, w: World, step: Step, r: nat)
    requires Inv(w) && r in w.rollouts && !Concerns(step, r)
    ensures r in Take(key, w, step).rollouts && Quiet(w.rollouts[r], Take(key, w, step).rollouts[r])
  {
    hide Inv, CreateRollout, DispatchNextBatch, TriggerDeviceUpdate, InState;
    match step
    case Create(product, net) => CreateIsQuiet(key, w, product, net, r);
    case DispatchBatch(s, net) => DispatchOthersStay(w, s, net);
    case Trigger(d, delivery) => TriggerIsQuiet(w, d, delivery, r);
    case Tick(_) =>
    case PutProduct(_, _) =>
    case PutDevice(_, _) =>
    case DropRetained(_, _) =>
  }

  lemma CreateIsQuiet(key: SortKey, w: World, product: nat, net: Net, r: nat)
    requires Inv(w) && r in w.rollouts
    ensures var w' := CreateRollout(key, w, product, net); r in w'.rollouts && Quiet(w.rollouts[r], w'.rollouts[r])
  {
    hide Sound, MayRetain, NewRollout, Eligible, CanRollOut, InState, CancelledRows;
    assert r != w.nextRollout;
  }

  lemma TriggerIsQuiet(w: World, d: nat, delivery: Delivery, r: nat)
    requires r in w.rollouts
    ensures var w' := TriggerDeviceUpdate(w, d, delivery); r in w'.rollouts && Quiet(w.rollouts[r], w'.rollouts[r])
  {
    hide CanRollOut;
    if r in w.rollouts && d in w.rollouts[r].rows {
      MarkSentWaiting(w.rollouts[r], d, w.now);
    }
    hide InState, MarkSent;
  }

  lemma MarkSentWaiting(ro: Rollout, d: nat, now: int)
    requires d in ro.rows
    ensures Quiet(ro, MarkSent(ro, d, now))
  {
  }

  /** What a report does to one rollout, depending on whether the device was open in it. */
  lemma ReportSeenBy(w: World, d: nat, version: string, order: seq<nat>, attempts: seq<Delivery>, r: nat)
    requires r in w.rollouts && Distinct(order) && Elements(order) == Matches(w, d)
    ensures var w' := HandleStatus(w, d, version, order, attempts);
            && r in w'.rollouts && w'.rollouts.Keys == w.rollouts.Keys
            && (r in order ==> d in w.rollouts[r].rows && Noted(w.rollouts[r], w'.rollouts[r], d, version, w.now))
            && (r !in order ==> w'.rollouts[r] == w.rollouts[r])
  {
    hide ReportAll, Noted, Distinct;
    OrderMatches(w, d, order);
    MatchRows(w, d, order);
    hide Elements, Matches;
    if RunsCurrent(w, d, version) {
      ReportAllNoted(Clear(w, d, Next(attempts)), d, version, order, Rest(attempts), Next(attempts) == Delivered);
    } else {
      ReportAllNoted(w, d, version, order, attempts, false);
    }
  }

  lemma ReportKeys(w: World, d: nat, version: string, order: seq<nat>, attempts: seq<Delivery>)
    requires Distinct(order) && Elements(order) == Matches(w, d)
    ensures HandleStatus(w, d, version, order, attempts).rollouts.Keys == w.rollouts.Keys
  {
    hide ReportAll, Noted, Distinct;
    OrderMatches(w, d, order);
    MatchRows(w, d, order);
    hide Elements, Matches;
    if RunsCurrent(w, d, version) {
      ReportAllNoted(Clear(w, d, Next(attempts)), d, version, order, Rest(attempts), Next(attempts) == Delivered);
    } else {
      ReportAllNoted(w, d, version, order, attempts, false);
    }
  }

  lemma MatchOpen(w: World, d: nat, order: seq<nat>, r: nat)
    requires r in order && Elements(order) == Matches(w, d)
    ensures r in w.rollouts && d in Open(w.rollouts[r])
  {
    assert r in Elements(order);
  }

  lemma ReportHistory(w: World, d: nat, version: string, order: seq<nat>, attempts: seq<Delivery>, r: nat)
    requires r in w.rollouts && Distinct(order) && Elements(order) == Matches(w, d)
    ensures var w' := HandleStatus(w, d, version, order, attempts);
            r in w'.rollouts && SameHistory(w.rollouts[r], w'.rollouts[r])
  {
    ReportSeenBy(w, d, version, order, attempts, r);
    hide HandleStatus, Distinct, Elements, Matches, InState;
  }

  /** A rollout that a step adds has sent nothing yet and is on the schedule. */
  lemma AddedRollout(key: SortKey, w: World, step: Step, r: nat)
    requires r !in w.rollouts && r in Take(key, w, step).rollouts
    ensures Take(key, w, step).rollouts[r].exposed == {} && Take(key, w, step).rollouts[r].nextBatchAt.Some?
  {
    hide CreateRollout, DispatchNextBatch, TriggerDeviceUpdate, HandleStatus, Distinct, Elements, Matches;
    match step
    case Create(product, net) => CreatedRollout(key, w, product, net, r);
    case DispatchBatch(s, net) => DispatchKeys(w, s, net);
    case Trigger(d, delivery) => TriggerKeys(w, d, delivery);
    case Report(d, version, order, attempts) =>
      if Distinct(order) && Elements(order) == Matches(w, d) {
        ReportKeys(w, d, version, order, attempts);
      }
    case Tick(_) =>
    case PutProduct(_, _) =>
    case PutDevice(_, _) =>
    case DropRetained(_, _) =>
  }

  lemma CreatedRollout(key: SortKey, w: World, product: nat, net: Net, r: nat)
    requires r !in w.rollouts
    ensures var w' := CreateRollout(key, w, product, net);
            r in w'.rollouts ==> w'.rollouts[r].exposed == {} && w'.rollouts[r].nextBatchAt.Some?
  {
    hide CancelActive, NewRows, Eligible, CanRollOut;
  }

  lemma DispatchKeys(w: World, s: nat, net: Net)
    ensures DispatchNextBatch(w, s, net).rollouts.Keys == w.rollouts.Keys
  {
    hide Dispatch, RefreshCompletion, Published, WithCommands;
  }

  lemma TriggerKeys(w: World, d: nat, delivery: Delivery)
    ensures TriggerDeviceUpdate(w, d, delivery).rollouts.Keys == w.rollouts.Keys
  {
    hide MarkSent, CanRollOut;
  }

  // ---------- commands at the broker for rows that are still pending ----------

  /** The device has been sent the rollout's command, and its row does not show it. */
  predicate PendingExposed(w: World, r: nat, d: nat) {
    && r in w.rollouts && d in w.rollouts[r].rows
    && d in w.rollouts[r].exposed && w.rollouts[r].rows[d].state == DevicePending
  }

  /** The rollout's dispatch publishes to this device, the publish takes effect, and the server is told
      that it failed: the first failure of the dispatch, and the last device it gets to. */
  ghost predicate LeavesPending(w: World, step: Step, r: nat, d: nat) {
    && step.DispatchBatch? && step.r == r && Due(w, r) && Waiting(w.rollouts[r]) != {}
    && w.rollouts[r].product in w.products && w.products[w.rollouts[r].product].complete
    && var ro := w.rollouts[r];
    && var upToDate := UpToDate(w, ro.targetVersion);
    d in Failing(ro, upToDate, step.net) && d in Reached(ro, upToDate, step.net) && d !in step.net.lost
  }

  /** Somewhere in the run there is such a dispatch. */
  ghost predicate LeftPending(key: SortKey, w: World, steps: seq<Step>, r: nat, d: nat)
    decreases |steps|
  {
    steps != [] && (LeavesPending(w, steps[0], r, d) || LeftPending(key, Take(key, w, steps[0]), steps[1..], r, d))
  }

  /** What a dispatch does about a device to which it had not published before. */
  lemma DispatchExposes(ro: Rollout, upToDate: set<nat>, net: Net, now: int, d: nat)
    requires Waiting(ro) != {} && d !in ro.exposed
    ensures var after := Dispatch(ro, upToDate, net, now);
            && after.exposed == ro.exposed + Published(ro, upToDate, net)
            && (d in Published(ro, upToDate, net) ==>
                  d in after.rows && (after.rows[d].state == DevicePending <==> d in Failing(ro, upToDate, net)))
            && (Failing(ro, upToDate, net) != {} ==> after.status == Failed)
  {
    hide NextBatch, Settle;
    SettleKeepsRows(Dispatched(ro, upToDate, net, now), now);
  }

  lemma PublishedFailures(ro: Rollout, upToDate: set<nat>, net: Net, d: nat)
    requires Waiting(ro) != {}
    ensures d in Published(ro, upToDate, net) && d in Failing(ro, upToDate, net)
       <==> d in Failing(ro, upToDate, net) && d in Reached(ro, upToDate, net) && d !in net.lost
    ensures d in Failing(ro, upToDate, net) ==> d in Waiting(ro)
  {
    hide NextBatch, Waiting;
  }

  lemma OwnDispatch(w: World, r: nat, net: Net, d: nat)
    requires r in w.rollouts && Active(w.rollouts[r]) && d !in w.rollouts[r].exposed
    ensures var w' := DispatchNextBatch(w, r, net);
            && (PendingExposed(w', r, d) <==> LeavesPending(w, DispatchBatch(r, net), r, d))
            && (PendingExposed(w', r, d) ==> !Active(w'.rollouts[r]))
  {
    var ro := w.rollouts[r];
    if Due(w, r) && Waiting(ro) != {} {
      DispatchExposes(ro, UpToDate(w, ro.targetVersion), net, w.now, d);
      PublishedFailures(ro, UpToDate(w, ro.targetVersion), net, d);
    }
    hide Dispatch, InState, WithCommands, Published, Failing, Reached, UpToDate;
  }

  lemma FailingWaits(w: World, step: Step, r: nat, d: nat)
    requires LeavesPending(w, step, r, d)
    ensures Active(w.rollouts[r]) && d in w.rollouts[r].rows && w.rollouts[r].rows[d].state == DevicePending
  {
    PublishedFailures(w.rollouts[r], UpToDate(w, w.rollouts[r].targetVersion), step.net, d);
    hide Failing, Reached, UpToDate;
  }

  lemma StillShown(a: Rollout, b: Rollout, d: nat)
    requires a == b || Advances(a, b)
    requires d in a.rows ==> a.rows[d].state != DevicePending
    ensures d in b.rows ==> b.rows[d].state != DevicePending
    ensures !Active(a) ==> b == a
  {
    assert a != b && d in a.rows ==> RowAdvances(a.rows[d], b.rows[d]);
  }

  lemma ShownStep(key: SortKey, w: World, step: Step, r: nat, d: nat)
    requires Inv(w) && r in w.rollouts && (!Active(w.rollouts[r]) || d in w.rollouts[r].exposed)
    requires PendingExposed(w, r, d) ==> !Active(w.rollouts[r])
    ensures r in Take(key, w, step).rollouts && !LeavesPending(w, step, r, d)
    ensures PendingExposed(Take(key, w, step), r, d) <==> PendingExposed(w, r, d)
    ensures PendingExposed(w, r, d) ==> Take(key, w, step).rollouts[r] == w.rollouts[r]
  {
    hide Inv, Advances, Take, LeavesPending;
    StepKeeps(key, w, step);
    var a, b := w.rollouts[r], Take(key, w, step).rollouts[r];
    if LeavesPending(w, step, r, d) {
      FailingWaits(w, step, r, d);
    }
    if Active(a) { StillShown(a, b, d); } else { EndedStays(a, b); }
  }

  lemma EndedStays(a: Rollout, b: Rollout)
    requires (a == b || Advances(a, b)) && !Active(a)
    ensures a == b
  {
  }

  lemma FreshStep(key: SortKey, w: World, step: Step, r: nat, d: nat)
    requires Inv(w) && r in w.rollouts && Active(w.rollouts[r]) && d !in w.rollouts[r].exposed
    ensures r in Take(key, w, step).rollouts
    ensures PendingExposed(Take(key, w, step), r, d) <==> LeavesPending(w, step, r, d)
    ensures PendingExposed(Take(key, w, step), r, d) ==> !Active(Take(key, w, step).rollouts[r])
  {
    hide Inv, DispatchNextBatch, HandleStatus, Distinct, Elements, Matches, LeavesPending;
    if !Concerns(step, r) {
      OtherStepsAreQuiet(key, w, step, r);
      OnlyDispatches(w, step, r, d);
    } else if step.Report? {
      OnlyDispatches(w, step, r, d);
      if Distinct(step.order) && Elements(step.order) == Matches(w, step.d) {
        ReportHistory(w, step.d, step.version, step.order, step.attempts, r);
      }
    } else {
      DispatchKeys(w, r, step.net);
      OwnDispatch(w, r, step.net, d);
    }
    hide InState;
  }

  lemma OnlyDispatches(w: World, step: Step, r: nat, d: nat)
    requires !step.DispatchBatch? || step.r != r
    ensures !LeavesPending(w, step, r, d)
  {
  }

  /** One step. The rollout has ended where such a row is left, so it is left for good. */
  lemma PendingStep(key: SortKey, w: World, step: Step, r: nat, d: nat)
    requires Inv(w) && r in w.rollouts && (PendingExposed(w, r, d) ==> !Active(w.rollouts[r]))
    ensures r in Take(key, w, step).rollouts
    ensures PendingExposed(Take(key, w, step), r, d) <==> PendingExposed(w, r, d) || LeavesPending(w, step, r, d)
    ensures PendingExposed(Take(key, w, step), r, d) ==> !Active(Take(key, w, step).rollouts[r])
  {
    if Active(w.rollouts[r]) && d !in w.rollouts[r].exposed {
      FreshStep(key, w, step, r, d);
    } else {
      ShownStep(key, w, step, r, d);
    }
    hide Take, LeavesPending, Inv;
  }

  lemma {:induction false} PendingFrom(key: SortKey, w: World, steps: seq<Step>, r: nat, d: nat)
    requires Inv(w) && (PendingExposed(w, r, d) ==> !Active(w.rollouts[r]))
    ensures PendingExposed(Run(key, w, steps), r, d) <==> PendingExposed(w, r, d) || LeftPending(key, w, steps, r, d)
    ensures PendingExposed(Run(key, w, steps), r, d) ==> !Active(Run(key, w, steps).rollouts[r])
    decreases |steps|
  {
    hide Inv, Take, Moves, LeavesPending, Active;
    if steps != [] {
      var w1 := Take(key, w, steps[0]);
      StepKeeps(key, w, steps[0]);
      if r in w.rollouts {
        PendingStep(key, w, steps[0], r, d);
      } else {
        Unborn(w, steps[0], r, d);
        if r in w1.rollouts { AddedRollout(key, w, steps[0], r); }
      }
      PendingFrom(key, w1, steps[1..], r, d);
    }
  }

  lemma Unborn(w: World, step: Step, r: nat, d: nat)
    requires r !in w.rollouts
    ensures !LeavesPending(w, step, r, d)
  {
  }

  /** In every reachable state: a step leaves a rollout's command at the broker for a row that stays
      pending exactly if it is a dispatch of this rollout whose publish to this device takes effect
      although it is reported as failed. The rollout has then ended. */
  lemma LeavesPendingExactly(key: SortKey, start: World, before: seq<Step>, step: Step, r: nat, d: nat)
    requires IsStart(start) && r in Run(key, start, before).rollouts && !PendingExposed(Run(key, start, before), r, d)
    ensures var w := Run(key, start, before);
            && r in Take(key, w, step).rollouts
            && (PendingExposed(Take(key, w, step), r, d) <==> LeavesPending(w, step, r, d))
            && (PendingExposed(Take(key, w, step), r, d) ==> !Active(Take(key, w, step).rollouts[r]))
  {
    hide Run, Take, LeavesPending, PendingExposed, Inv;
    StartInv(start);
    RunKeeps(key, start, before);
    PendingStep(key, Run(key, start, before), step, r, d);
  }

  /** Over runs: a rollout's command is at the broker for a row that is still pending exactly if such a
      dispatch has occurred; in all other cases the row is sent, or updated and not cleared. */
  lemma PendingCommands(key: SortKey, start: World, steps: seq<Step>, d: nat)
    requires IsStart(start) && d in Run(key, start, steps).retained
    requires Run(key, start, steps).retained[d].rollout != 0
    ensures var w := Run(key, start, steps);
            var r := w.retained[d].rollout;
            && r in w.rollouts && d in w.rollouts[r].rows
            && var row := w.rollouts[r].rows[d];
            && row.retainedClearedAt.None?
            && (if LeftPending(key, start, steps, r, d) then
                  row.state == DevicePending && w.rollouts[r].status == Failed
                else row.state == DeviceSent || row.state == DeviceUpdated)
  {
    hide Run, LeftPending, Inv;
    RetainedCommands(key, start, steps, d);
    StartInv(start);
    PendingFrom(key, start, steps, Run(key, start, steps).retained[d].rollout, d);
  }

  /** The step does not leave this command unconfirmed. */
  predicate Certain(step: Step, r: nat, d: nat) {
    step.DispatchBatch? && step.r == r ==> d !in step.net.unconfirmed
  }

  lemma CertainStep(w: World, step: Step, r: nat, d: nat)
    requires Certain(step, r, d)
    ensures !LeavesPending(w, step, r, d)
  {
    hide Reached, Targets, UpToDate;
  }

  lemma {:induction false} CertainRun(key: SortKey, w: World, steps: seq<Step>, r: nat, d: nat)
    requires forall s :: s in steps ==> Certain(s, r, d)
    ensures !LeftPending(key, w, steps, r, d)
    decreases |steps|
  {
    hide Take, Certain, LeavesPending;
    if steps != [] {
      CertainStep(w, steps[0], r, d);
      CertainRun(key, Take(key, w, steps[0]), steps[1..], r, d);
    }
  }

  /** In particular the row is not pending if every publish of this command to this device was
      confirmed or lost. */
  lemma CertainCommands(key: SortKey, start: World, steps: seq<Step>, d: nat)
    requires IsStart(start) && d in Run(key, start, steps).retained
    requires Run(key, start, steps).retained[d].rollout != 0
    requires forall s :: s in steps ==> Certain(s, Run(key, start, steps).retained[d].rollout, d)
    ensures var w := Run(key, start, steps);
            var r := w.retained[d].rollout;
            && r in w.rollouts && d in w.rollouts[r].rows && w.rollouts[r].rows[d].retainedClearedAt.None?
            && (w.rollouts[r].rows[d].state == DeviceSent || w.rollouts[r].rows[d].state == DeviceUpdated)
  {
    hide Run, Certain, Inv, LeftPending;
    PendingCommands(key, start, steps, d);
    CertainRun(key, start, steps, Run(key, start, steps).retained[d].rollout, d);
  }
}
