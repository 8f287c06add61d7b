/**
 A report of the target version takes a rollout off the worker's schedule even while rows are
 still pending, and nothing ever puts it back: the batches that are left are never sent. Nothing
 else strands pending rows of an active rollout.
 */
module RolloutStall {
  import opened BatchAssignment
  import opened Rollout
  import opened RolloutWorld
  import opened RolloutReports
  import opened RolloutRuns
  import opened RolloutHistory

  /** The worker will not pick this rollout up. */
  predicate OffSchedule(ro: Rollout) { !Active(ro) || ro.nextBatchAt.None? }

  /** Rows are waiting for a dispatch that will not come. */
  predicate Stuck(ro: Rollout) { Active(ro) && Waiting(ro) != {} && ro.nextBatchAt.None? }

  /** Off the schedule, and as far as the worker goes unchanged. */
  predicate StaysOff(a: Rollout, b: Rollout) { OffSchedule(b) && SameHistory(a, b) }

  /** A device in which the rollout is open reports the rollout's target version. */
  predicate ReportsTarget(w: World, step: Step, r: nat) {
    && step.Report? && Distinct(step.order) && Elements(step.order) == Matches(w, step.d)
    && r in step.order && r in w.rollouts && step.version == w.rollouts[r].targetVersion
  }

  /** Somewhere in the run there is such a report. */
  ghost predicate TargetReported(key: SortKey, w: World, steps: seq<Step>, r: nat)
    decreases |steps|
  {
    steps != [] && (ReportsTarget(w, steps[0], r) || TargetReported(key, Take(key, w, steps[0]), steps[1..], r))
  }

  // ---------- off the schedule for good ----------

  lemma OffScheduleStep(key: SortKey, w: World, step: Step, r: nat)
    requires Inv(w) && r in w.rollouts && OffSchedule(w.rollouts[r])
    ensures r in Take(key, w, step).rollouts && StaysOff(w.rollouts[r], Take(key, w, step).rollouts[r])
  {
    hide Inv, DispatchNextBatch, HandleStatus, Distinct, Elements, Matches;
    if !Concerns(step, r) {
      OtherStepsAreQuiet(key, w, step, r);
    } else if step.DispatchBatch? {
      NotDue(w, r, step.net);
    } else if Distinct(step.order) && Elements(step.order) == Matches(w, step.d) {
      ReportSeenBy(w, step.d, step.version, step.order, step.attempts, r);
    }
    hide InState;
  }

  lemma NotDue(w: World, r: nat, net: Net)
    requires r in w.rollouts && OffSchedule(w.rollouts[r])
    ensures DispatchNextBatch(w, r, net) == w
  {
    assert !Due(w, r);
  }

  lemma {:induction false} OffScheduleForGood(key: SortKey, w: World, steps: seq<Step>, r: nat)
    requires Inv(w) && r in w.rollouts && OffSchedule(w.rollouts[r])
    ensures r in Run(key, w, steps).rollouts && StaysOff(w.rollouts[r], Run(key, w, steps).rollouts[r])
    decreases |steps|
  {
    hide Inv, Take, Moves;
    if steps != [] {
      StepKeeps(key, w, steps[0]);
      OffScheduleStep(key, w, steps[0], r);
      OffScheduleForGood(key, Take(key, w, steps[0]), steps[1..], r);
    }
  }

  // ---------- one step ----------

  lemma NotedOpen(a: Rollout, b: Rollout, d: nat, now: int)
    requires d in Open(a) && d in a.rows && Noted(a, b, d, a.targetVersion, now)
    ensures Waiting(b) == Waiting(a) - {d} && Open(b) == Open(a) - {d} && OffSchedule(b)
    ensures Active(b) <==> Open(a) != {d}
    ensures SameHistory(a, b)
  {
  }

  lemma NotedOther(a: Rollout, b: Rollout, d: nat, version: string, now: int)
    requires d in a.rows && Noted(a, b, d, version, now) && version != a.targetVersion
    ensures Quiet(a, b)
  {
  }

  /** The rollout's own dispatch sets the next time as long as rows are waiting. */
  lemma DispatchSchedules(w: World, r: nat, net: Net)
    requires r in w.rollouts && !Stuck(w.rollouts[r])
    ensures r in DispatchNextBatch(w, r, net).rollouts && !Stuck(DispatchNextBatch(w, r, net).rollouts[r])
  {
    var ro := w.rollouts[r];
    if Waiting(ro) == {} {
      RefreshStuck(ro);
    } else if Due(w, r) {
      SettleSchedules(ro, UpToDate(w, ro.targetVersion), net, w.now);
    }
    hide Dispatch, RefreshCompletion, InState, Published, UpToDate, WithCommands;
  }

  lemma RefreshStuck(ro: Rollout)
    requires Waiting(ro) == {}
    ensures !Stuck(RefreshCompletion(ro))
  {
    assert Waiting(RefreshCompletion(ro)) == Waiting(ro);
  }

  lemma SettleSchedules(ro: Rollout, upToDate: set<nat>, net: Net, now: int)
    requires Waiting(ro) != {}
    ensures !Stuck(Dispatch(ro, upToDate, net, now))
  {
    hide DispatchedRows, NextBatch, Published, Failing, InState;
    SettleWaiting(Dispatched(ro, upToDate, net, now), now);
  }

  lemma ReportStuck(w: World, d: nat, version: string, order: seq<nat>, attempts: seq<Delivery>, r: nat)
    requires r in w.rollouts && Distinct(order) && Elements(order) == Matches(w, d) && !Stuck(w.rollouts[r])
    ensures var w' := HandleStatus(w, d, version, order, attempts);
            && r in w'.rollouts
            && (Stuck(w'.rollouts[r]) <==>
                  r in order && version == w.rollouts[r].targetVersion && Waiting(w.rollouts[r]) - {d} != {})
  {
    ReportSeenBy(w, d, version, order, attempts, r);
    var w' := HandleStatus(w, d, version, order, attempts);
    hide HandleStatus, Distinct;
    if r in order {
      MatchOpen(w, d, order, r);
      if version == w.rollouts[r].targetVersion {
        NotedOpen(w.rollouts[r], w'.rollouts[r], d, w.now);
      } else {
        NotedOther(w.rollouts[r], w'.rollouts[r], d, version, w.now);
      }
    }
    hide Elements, Matches, Noted, InState;
  }

  /** What gets a rollout stuck in one step. */
  lemma StuckStep(key: SortKey, w: World, step: Step, r: nat)
    requires Inv(w) && r in w.rollouts && !Stuck(w.rollouts[r])
    ensures r in Take(key, w, step).rollouts
    ensures Stuck(Take(key, w, step).rollouts[r]) <==>
              ReportsTarget(w, step, r) && Waiting(w.rollouts[r]) - {step.d} != {}
  {
    hide Inv, DispatchNextBatch, HandleStatus, Distinct, Elements, Matches, InState;
    if !Concerns(step, r) {
      OtherStepsAreQuiet(key, w, step, r);
    } else if step.DispatchBatch? {
      DispatchSchedules(w, r, step.net);
    } else if Distinct(step.order) && Elements(step.order) == Matches(w, step.d) {
      ReportStuck(w, step.d, step.version, step.order, step.attempts, r);
    }
  }

  /** A step strands pending rows of an active rollout exactly if it is a report of the target
      version by a device that is open in the rollout, and another device is still pending. */
  lemma StuckByReportOnly(key: SortKey, start: World, before: seq<Step>, step: Step, r: nat)
    requires IsStart(start) && r in Run(key, start, before).rollouts && !Stuck(Run(key, start, before).rollouts[r])
    ensures var w := Run(key, start, before);
            && r in Take(key, w, step).rollouts
            && (Stuck(Take(key, w, step).rollouts[r]) <==>
                  ReportsTarget(w, step, r) && Waiting(w.rollouts[r]) - {step.d} != {})
  {
    hide Run, Take, ReportsTarget, Stuck, Waiting, Inv;
    StartInv(start);
    RunKeeps(key, start, before);
    StuckStep(key, Run(key, start, before), step, r);
  }

  // ---------- whole runs ----------

  /** Such a report takes the rollout off the schedule. */
  lemma TargetReportEnds(key: SortKey, w: World, step: Step, r: nat)
    requires ReportsTarget(w, step, r)
    ensures r in Take(key, w, step).rollouts && OffSchedule(Take(key, w, step).rollouts[r])
  {
    var w' := HandleStatus(w, step.d, step.version, step.order, step.attempts);
    ReportSeenBy(w, step.d, step.version, step.order, step.attempts, r);
    MatchOpen(w, step.d, step.order, r);
    NotedOpen(w.rollouts[r], w'.rollouts[r], step.d, w.now);
    hide HandleStatus, Distinct, Elements, Matches, Noted, InState;
  }

  lemma {:induction false} ScheduleFrom(key: SortKey, w: World, steps: seq<Step>, r: nat)
    requires Inv(w) && r in Run(key, w, steps).rollouts && (r in w.rollouts ==> !Stuck(w.rollouts[r]))
    ensures var ro := Run(key, w, steps).rollouts[r];
            Active(ro) && Waiting(ro) != {} ==> (ro.nextBatchAt.None? <==> TargetReported(key, w, steps, r))
    decreases |steps|
  {
    hide Inv, Take, Moves, ReportsTarget, Waiting;
    if steps != [] {
      var w1 := Take(key, w, steps[0]);
      StepKeeps(key, w, steps[0]);
      if ReportsTarget(w, steps[0], r) {
        TargetReportEnds(key, w, steps[0], r);
        OffScheduleForGood(key, w1, steps[1..], r);
      } else {
        if r in w.rollouts {
          StuckStep(key, w, steps[0], r);
        } else if r in w1.rollouts {
          AddedRollout(key, w, steps[0], r);
        }
        ScheduleFrom(key, w1, steps[1..], r);
      }
    }
  }

  /** After any run: an active rollout that still has pending rows is on the worker's schedule,
      unless one of its devices has reported the target version while open in it, and then it is not. */
  lemma ScheduledUntilTargetReport(key: SortKey, start: World, steps: seq<Step>, r: nat)
    requires IsStart(start) && r in Run(key, start, steps).rollouts
    ensures var ro := Run(key, start, steps).rollouts[r];
            Active(ro) && Waiting(ro) != {} ==> (ro.nextBatchAt.Some? <==> !TargetReported(key, start, steps, r))
  {
    hide Run, TargetReported, Active, Waiting, Inv;
    StartInv(start);
    ScheduleFrom(key, start, steps, r);
  }

  lemma StuckFrom(key: SortKey, w: World, d: nat, order: seq<nat>, attempts: seq<Delivery>, steps: seq<Step>,
                  r: nat)
    requires Inv(w) && r in w.rollouts && r in order && Distinct(order) && Elements(order) == Matches(w, d)
    ensures d in w.rollouts[r].rows
    ensures var mid := HandleStatus(w, d, w.rollouts[r].targetVersion, order, attempts);
            && r in mid.rollouts && r in Run(key, mid, steps).rollouts
            && Waiting(mid.rollouts[r]) == Waiting(w.rollouts[r]) - {d}
            && (Active(mid.rollouts[r]) <==> Open(w.rollouts[r]) != {d})
            && var end := Run(key, mid, steps).rollouts[r];
            && end.exposed == w.rollouts[r].exposed
            && end.dispatches == w.rollouts[r].dispatches
  {
    var version := w.rollouts[r].targetVersion;
    var mid := HandleStatus(w, d, version, order, attempts);
    ReportSeenBy(w, d, version, order, attempts, r);
    HandleStatusKeeps(w, d, version, order, attempts);
    MatchOpen(w, d, order, r);
    hide HandleStatus, Inv, Run, Elements, Matches, Distinct, Moves;
    NotedOpen(w.rollouts[r], mid.rollouts[r], d, w.now);
    OffScheduleForGood(key, mid, steps, r);
  }

  /** Once a device has reported the target version, the worker never dispatches the rollout again,
      in any run. The other devices that were pending keep their pending rows, and the rollout stays
      active exactly if there was another open device: with pending ones among them it is stuck. */
  lemma ReportEndsDispatching(key: SortKey, start: World, before: seq<Step>, d: nat, order: seq<nat>,
                              attempts: seq<Delivery>, after: seq<Step>, r: nat)
    requires IsStart(start) && r in Run(key, start, before).rollouts
    requires r in order && Distinct(order) && Elements(order) == Matches(Run(key, start, before), d)
    ensures var w := Run(key, start, before);
            var ro := w.rollouts[r];
            var mid := HandleStatus(w, d, ro.targetVersion, order, attempts);
            && d in ro.rows && r in mid.rollouts && r in Run(key, mid, after).rollouts
            && Waiting(mid.rollouts[r]) == Waiting(ro) - {d}
            && (Active(mid.rollouts[r]) <==> Open(ro) != {d})
            && var end := Run(key, mid, after).rollouts[r];
            end.exposed == ro.exposed && end.dispatches == ro.dispatches
  {
    hide Run, HandleStatus, Elements, Matches, Distinct, Active, Open, Waiting, Inv;
    StartInv(start);
    RunKeeps(key, start, before);
    StuckFrom(key, Run(key, start, before), d, order, attempts, after, r);
  }
}
