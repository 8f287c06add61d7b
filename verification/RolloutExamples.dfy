/**
 Two short runs that reach what the rollout promises do not rule out: pending rows that no dispatch
 will serve, and a command at the broker for a row that is still pending.
 */
module RolloutExamples {
  import opened Sets
  import opened BatchAssignment
  import opened Rollout
  import opened RolloutWorld
  import opened RolloutRuns
  import opened RolloutStall

  const PRODUCT: Product := Product("2", true, 50, 60)

  const QUIET_NET: Net := Net({}, {})

  /** Two devices of unknown version, and a product whose rollouts take half of them at a time. */
  function TwoDevices(): (w: World)
    ensures IsStart(w)
  {
    World(0, map[1 := PRODUCT], map[1 := Device(1, "", false), 2 := Device(1, "", false)], map[], 1, map[])
  }

  /** The rollout that is created for them. */
  function Fresh(key: SortKey): Rollout { NewRollout(key, 1, 1, "2", 50, 60, {1, 2}, 0) }

  lemma FreshFacts(key: SortKey)
    ensures var ro := Fresh(key);
            Waiting(ro) == {1, 2} && ro.rows.Keys == {1, 2} && Size(ro) == 1 && ro.dispatches == 0
  {
    hide BatchOf;
    var ro := Fresh(key);
    var pair: set<nat> := {1, 2};
    assert ro.rows.Keys == pair;
    assert |ro.rows| == |ro.rows.Keys| == |pair|;
  }

  lemma Created(key: SortKey)
    ensures Take(key, TwoDevices(), Create(1, QUIET_NET))
         == TwoDevices().(rollouts := map[1 := Fresh(key)], nextRollout := 2)
  {
    hide NewRollout, InState;
    assert Eligible(TwoDevices(), 1) == {1, 2};
    assert CancelActive(TwoDevices(), 1, QUIET_NET) == TwoDevices();
  }

  lemma Outside(large: set<nat>, small: set<nat>) returns (x: nat)
    requires |small| < |large|
    ensures x in large && x !in small
  {
    if large <= small { SubsetSize(large, small); }
    x :| x in large && x !in small;
  }

  /** The first batch is one device. */
  lemma OneLeft(ro: Rollout) returns (other: nat)
    requires WellBatched(ro) && Waiting(ro) == {1, 2} && Size(ro) == 1
    ensures other in {1, 2} && other !in Targets(ro)
  {
    SubsetSize(Targets(ro), RowsInBatch(ro, NextBatch(ro)));
    hide Targets, RowsInBatch, Waiting, Size, NextBatch;
    var pair: set<nat> := {1, 2};
    other := Outside(pair, Targets(ro));
  }

  lemma NoFailures(ro: Rollout, now: int)
    requires Waiting(ro) != {}
    ensures Failing(ro, {}, QUIET_NET) == {}
    ensures forall d :: d in ro.rows ==>
              DispatchedRows(ro, {}, QUIET_NET, now)[d]
              == if d in Targets(ro) then SentRow(ro.rows[d], now) else ro.rows[d]
  {
    hide Targets, SentRow;
  }

  /** The first dispatch leaves both devices open, and one of them pending. */
  lemma FirstHalf(ro: Rollout, now: int) returns (other: nat)
    requires WellBatched(ro) && Waiting(ro) == ro.rows.Keys == {1, 2} && Size(ro) == 1
    ensures var after := Dispatch(ro, {}, QUIET_NET, now);
            && other in Waiting(after) && Open(after) == {1, 2} && after.targetVersion == ro.targetVersion
            && Active(after) && !Stuck(after) && after.dispatches == ro.dispatches + 1
  {
    other := OneLeft(ro);
    NoFailures(ro, now);
    hide WellBatched, Size, Targets, Failing, Published, NextBatch, DispatchedRows;
    var mid := Dispatched(ro, {}, QUIET_NET, now);
    StillOpen(ro, mid, now);
    Settled(mid, now, other);
    hide InState;
  }

  lemma StillOpen(ro: Rollout, mid: Rollout, now: int)
    requires Waiting(ro) == ro.rows.Keys == mid.rows.Keys != {}
    requires forall d :: d in ro.rows ==>
               mid.rows[d] == if d in Targets(ro) then SentRow(ro.rows[d], now) else ro.rows[d]
    ensures Open(mid) == ro.rows.Keys && forall d :: d in ro.rows && d !in Targets(ro) ==> d in Waiting(mid)
  {
    hide Targets;
    assert forall d :: d in ro.rows ==> d in Waiting(ro);
  }

  lemma Settled(mid: Rollout, now: int, other: nat)
    requires other in Waiting(mid)
    ensures var after := Settle(mid, now);
            && after == mid.(status := Running, nextBatchAt := after.nextBatchAt)
            && other in Waiting(after) && Open(after) == Open(mid) && Active(after) && !Stuck(after)
  {
  }

  /** The world after the creation, with what its dispatch comes down to. */
  lemma SecondStep(key: SortKey, w: World, net: Net)
    requires w == TwoDevices().(rollouts := map[1 := Fresh(key)], nextRollout := 2) && Waiting(Fresh(key)) != {}
    ensures var w' := Take(key, w, DispatchBatch(1, net));
            && w'.rollouts == map[1 := Dispatch(Fresh(key), {}, net, 0)]
            && w'.retained == WithCommands(map[], Published(Fresh(key), {}, net), Command(1, "2"))
  {
    hide Dispatch, NewRows, Published, WithCommands, InState;
    assert UpToDate(w, "2") == {};
  }

  lemma OnlyMatch(w: World, ro: Rollout, d: nat)
    requires w.rollouts.Keys == {1} && w.rollouts[1] == ro && Active(ro) && d in Open(ro)
    ensures Distinct([1]) && Elements([1]) == Matches(w, d)
  {
  }

  /** Created and dispatched once. */
  ghost function HalfSent(key: SortKey): World {
    Take(key, Take(key, TwoDevices(), Create(1, QUIET_NET)), DispatchBatch(1, QUIET_NET))
  }

  lemma HalfSentFacts(key: SortKey) returns (other: nat)
    ensures var w := HalfSent(key);
            && Inv(w) && w.rollouts.Keys == {1} && w.rollouts[1].targetVersion == "2"
            && Active(w.rollouts[1]) && !Stuck(w.rollouts[1]) && w.rollouts[1].dispatches == 1
            && other in Waiting(w.rollouts[1]) && Open(w.rollouts[1]) == {1, 2}
  {
    hide Take, Moves, InState, Dispatch, WellBatched, LifeCycle, Progress, Paced, NewRows, Inv, Size, Stuck;
    StartInv(TwoDevices());
    Created(key);
    FreshFacts(key);
    StepKeeps(key, TwoDevices(), Create(1, QUIET_NET));
    var w1 := Take(key, TwoDevices(), Create(1, QUIET_NET));
    SoundRollout(w1, 1);
    other := FirstHalf(Fresh(key), 0);
    SecondStep(key, w1, QUIET_NET);
    StepKeeps(key, w1, DispatchBatch(1, QUIET_NET));
  }

  lemma HalfSentRun(key: SortKey, last: Step)
    ensures Run(key, TwoDevices(), [Create(1, QUIET_NET), DispatchBatch(1, QUIET_NET), last])
         == Take(key, HalfSent(key), last)
  {
    hide Take, Run;
    ThreeSteps(key, TwoDevices(), Create(1, QUIET_NET), DispatchBatch(1, QUIET_NET), last);
  }

  /** Half of the devices have been sent the command, one reports the target version, and the row
      of the other will stay pending: the rollout is active and has no next dispatch. */
  lemma StuckIsReachable(key: SortKey) returns (d: nat)
    ensures var steps := [Create(1, QUIET_NET), DispatchBatch(1, QUIET_NET), Report(d, "2", [1], [])];
            var w := Run(key, TwoDevices(), steps);
            1 in w.rollouts && Stuck(w.rollouts[1])
  {
    hide HalfSent, Take, Inv, Elements, Matches, Distinct, InState, Run, TwoDevices, Stuck;
    var other := HalfSentFacts(key);
    d := if other == 1 then 2 else 1;
    var w := HalfSent(key);
    OnlyMatch(w, w.rollouts[1], d);
    HalfSentRun(key, Report(d, "2", [1], []));
    assert other in Waiting(w.rollouts[1]) - {d};
    StuckStep(key, w, Report(d, "2", [1], []), 1);
  }

  /** A publish that takes effect although it is reported as failed. */
  lemma FailedPublish(ro: Rollout, now: int) returns (d: nat)
    requires Waiting(ro) != {} && Waiting(ro) <= {1, 2}
    ensures var net := Net({}, {1, 2});
            var after := Dispatch(ro, {}, net, now);
            && d in Published(ro, {}, net) && after.status == Failed
            && d in after.rows && after.rows[d].state == DevicePending
  {
    d := FirstOf(ro);
    assert d in Failing(ro, {}, Net({}, {1, 2}));
    hide NextBatch, Targets;
  }

  lemma FirstOf(ro: Rollout) returns (d: nat)
    requires Waiting(ro) != {}
    ensures d in Targets(ro) && d in Waiting(ro) && forall e :: e in Targets(ro) ==> d <= e
  {
    var b := NextBatch(ro);
    var any :| any in Waiting(ro) && ro.rows[any].batch == b;
    assert any in Targets(ro);
    hide NextBatch, InState;
    d := Smallest(Targets(ro));
  }

  /** The one kind of command at the broker that no sent or updated row accounts for. */
  lemma PendingCommandIsReachable(key: SortKey) returns (d: nat)
    ensures var w := Run(key, TwoDevices(), [Create(1, QUIET_NET), DispatchBatch(1, Net({}, {1, 2}))]);
            && d in w.retained && w.retained[d].rollout == 1 && 1 in w.rollouts && d in w.rollouts[1].rows
            && w.rollouts[1].rows[d].state == DevicePending && w.rollouts[1].status == Failed
  {
    Created(key);
    FreshFacts(key);
    d := FailedPublish(Fresh(key), 0);
    SecondStep(key, Take(key, TwoDevices(), Create(1, QUIET_NET)), Net({}, {1, 2}));
    TwoSteps(key, TwoDevices(), Create(1, QUIET_NET), DispatchBatch(1, Net({}, {1, 2})));
    hide Take, Dispatch, Published, InState, Run, Fresh, TwoDevices;
  }

  lemma TwoSteps(key: SortKey, w: World, a: Step, b: Step)
    ensures Run(key, w, [a, b]) == Take(key, Take(key, w, a), b)
  {
    hide Take;
    assert [a, b][1..] == [b] && [b][1..] == [];
    assert Run(key, w, [a, b]) == Run(key, Take(key, w, a), [b]);
  }

  lemma ThreeSteps(key: SortKey, w: World, a: Step, b: Step, c: Step)
    ensures Run(key, w, [a, b, c]) == Take(key, Take(key, Take(key, w, a), b), c)
  {
    hide Take;
    assert [a, b, c][1..] == [b, c] && [b, c][1..] == [c] && [c][1..] == [];
    var w1 := Take(key, w, a);
    assert Run(key, w, [a, b, c]) == Run(key, w1, [b, c]) == Run(key, Take(key, w1, b), [c]);
  }
}
