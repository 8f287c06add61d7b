/**
 The rollout handlers as the server runs them, row by row, on its database and the broker. Each
 is shown to do what its description in Rollout and RolloutWorld says.
 */
module OtaService {
  import opened Sets
  import opened Arithmetic
  import opened Wrappers
  import opened BatchAssignment
  import opened Rollout
  import opened RolloutWorld
  import L = RolloutLaws

  class Service {
    const key: SortKey
    var now: int
    var products: map<nat, Product>
    var devices: map<nat, Device>
    var rollouts: map<nat, Rollout>
    var nextRollout: nat
    var retained: map<nat, Command>

    function State(): World
      reads this
    {
      World(now, products, devices, rollouts, nextRollout, retained)
    }

    constructor (key: SortKey, now: int)
      ensures this.key == key && State() == World(now, map[], map[], map[], 1, map[])
    {
      this.key, this.now := key, now;
      products, devices, rollouts, retained := map[], map[], map[], map[];
      nextRollout := 1;
    }

    // ---------- the broker ----------

    method PublishRetained(d: nat, command: Command, net: Net) returns (ok: bool)
      modifies this`retained
      ensures ok == (d !in Bad(net))
      ensures retained == if d in net.lost then old(retained) else old(retained)[d := command]
    {
      if d !in net.lost {
        retained := retained[d := command];
      }
      ok := d !in net.lost && d !in net.unconfirmed;
    }

    method ClearRetained(d: nat, delivery: Delivery) returns (ok: bool)
      modifies this`retained
      ensures ok == (delivery == Delivered)
      ensures State() == Clear(old(State()), d, delivery)
    {
      if delivery != Lost {
        retained := retained - {d};
      }
      ok := delivery == Delivered;
    }

    function Fate(d: nat, net: Net): Delivery {
      if d in net.lost then Lost else if d in net.unconfirmed then Unconfirmed else Delivered
    }

    // ---------- cancelling and creating ----------

    /** Clears the open devices of a rollout in whatever order the database lists them. */
    method ClearRetainedForRollout(r: nat, net: Net)
      requires r in rollouts
      modifies this`rollouts, this`retained
      ensures rollouts == old(rollouts)[r := old(rollouts[r]).(
                            rows := CancelledRows(old(rollouts[r]).rows, Open(old(rollouts[r])) - Bad(net), now))]
      ensures retained == old(retained) - Wiped(old(rollouts[r]), net)
    {
      ghost var ro := rollouts[r];
      var targets := Open(rollouts[r]);
      var left := targets;
      assert targets - left - Bad(net) == {} && CancelledRows(ro.rows, {}, now) == ro.rows;
      hide CancelledRows, InState, Clear;
      while left != {}
        invariant left <= targets
        invariant rollouts == old(rollouts)[r := ro.(rows := CancelledRows(ro.rows, targets - left - Bad(net), now))]
        invariant retained == old(retained) - (targets - left - net.lost)
      {
        var d :| d in left;
        ghost var before := targets - left - Bad(net);
        var ok := ClearRetained(d, Fate(d, net));
        ClearEffect(d, net);
        left := left - {d};
        if ok {
          OpenRows(ro, d);
          CancelOneMore(ro.rows, before, d, now);
          rollouts := rollouts[r := rollouts[r].(
            rows := rollouts[r].rows[d := CancelledRow(rollouts[r].rows[d], now)])];
          assert targets - left - Bad(net) == before + {d};
        } else {
          assert targets - left - Bad(net) == before;
        }
      }
      assert targets - left == targets;
    }

    method CancelRollout(r: nat, net: Net)
      requires r in rollouts
      modifies this`rollouts, this`retained
      ensures rollouts == old(rollouts)[r := Cancel(old(rollouts[r]), net, now)]
      ensures retained == old(retained) - Wiped(old(rollouts[r]), net)
    {
      rollouts := rollouts[r := rollouts[r].(status := Cancelled, nextBatchAt := None)];
      ClearRetainedForRollout(r, net);
    }

    method CancelActiveRolloutsForProduct(product: nat, net: Net)
      modifies this`rollouts, this`retained
      ensures State() == CancelActive(old(State()), product, net)
    {
      ghost var w := State();
      var active := ActiveOf(State(), product);
      var left := active;
      CancelNone(w, net);
      assert active - left == {};
      hide Cancel, Wiped, CancelThese, ActiveOf;
      while left != {}
        invariant left <= active <= w.rollouts.Keys && active == ActiveOf(w, product)
        invariant State() == CancelThese(w, active - left, net)
      {
        var r :| r in left;
        ghost var before := active - left;
        CancelledSoFar(w, before, r, net);
        CancelRollout(r, net);
        CancelThisToo(w, before, r, net);
        left := left - {r};
        assert active - left == before + {r};
      }
      assert active - left == active;
    }

    /** Whatever order the database lists the devices in, each gets the batch of its rank. */
    method CreateRollout(product: nat, net: Net) returns (created: bool)
      modifies this`rollouts, this`retained, this`nextRollout
      ensures State() == RolloutWorld.CreateRollout(key, old(State()), product, net)
      ensures created == L.NeedsRollout(old(State()), product)
    {
      L.EligibleExactly(State(), product);
      hide L.NeedsRollout;
      if !CanRollOut(State(), product) {
        return false;
      }
      var p := products[product];
      var eligible := ListEligible(product);
      if eligible == [] {
        NoElements();
        return false;
      }
      assert eligible[0] in Elements(eligible);
      CancelActiveRolloutsForProduct(product, net);
      var percentage := EffectiveRolloutPercentage(p);
      var id := nextRollout;
      nextRollout := nextRollout + 1;
      var rows := BuildRows(id, eligible, percentage);
      rollouts := rollouts[id := Rollout(product, p.version, percentage, EffectiveRolloutIntervalMinutes(p), Pending,
                                         Some(now), rows, None, 0, 0, {})];
      return true;
    }

    method ListEligible(product: nat) returns (eligible: seq<nat>)
      requires product in products
      ensures Distinct(eligible) && Elements(eligible) == Eligible(State(), product)
    {
      eligible := [];
      NoElements();
      var left := devices.Keys;
      while left != {}
        invariant left <= devices.Keys && Distinct(eligible)
        invariant Elements(eligible) == Eligible(State(), product) - left
      {
        var d :| d in left;
        var device := devices[d];
        if device.product == product && !device.deleted && device.current != products[product].version {
          DistinctCons(d, eligible);
          ElementsCons(d, eligible);
          eligible := [d] + eligible;
        }
        left := left - {d};
      }
    }

    method BuildRows(id: nat, eligible: seq<nat>, percentage: int) returns (rows: map<nat, Row>)
      requires Distinct(eligible) && eligible != [] && 1 <= percentage <= 100
      ensures Elements(eligible) != {} && rows == NewRows(key, id, Elements(eligible), percentage)
    {
      var ordered := SortDevices(key, id, eligible);
      assert eligible[0] in Elements(eligible);
      OrderedIsDistinct(key, id, ordered);
      ElementsCount(ordered);
      BatchCountBound(|ordered|, percentage);
      hide BatchOf, Ordered, Distinct, BatchSize, CeilDiv, SortDevices, Elements;
      rows := FillRows(id, ordered, BatchSize(|ordered|, percentage));
    }

    method FillRows(id: nat, ordered: seq<nat>, size: nat) returns (rows: map<nat, Row>)
      requires Ordered(key, id, ordered) && size > 0
      ensures rows == map d | d in Elements(ordered) :: NewRow(BatchOf(key, id, Elements(ordered), size, d))
    {
      rows := map[];
      NoElements();
      assert ordered[..0] == [] && ordered[..|ordered|] == ordered;
      hide BatchOf, Ordered, Elements;
      for idx := 0 to |ordered|
        invariant rows == map d | d in Elements(ordered[..idx]) :: NewRow(BatchOf(key, id, Elements(ordered), size, d))
      {
        BatchOfIndex(key, id, ordered, size, idx);
        ElementsSnoc(ordered, idx);
        rows := rows[ordered[idx] := Row(idx / size + 1, DevicePending, None, None, "")];
      }
    }

    // ---------- the worker ----------

    /** The rollouts that are due when the worker wakes up, one after the other. */
    method ProcessDueRollouts(due: seq<nat>, nets: map<nat, Net>)
      requires Distinct(due) && (forall r :: r in due <==> Due(State(), r)) && (forall r :: r in due ==> r in nets)
      modifies this`rollouts, this`retained
      ensures State() == DispatchAll(old(State()), due, nets)
    {
      ghost var w := State();
      assert due[0..] == due;
      hide RolloutWorld.DispatchNextBatch;
      for i := 0 to |due|
        invariant forall j :: i <= j < |due| ==> Due(State(), due[j])
        invariant DispatchAll(w, due, nets) == DispatchAll(State(), due[i..], nets)
      {
        ghost var before := State();
        DispatchNextBatch(due[i], nets[due[i]]);
        DispatchOthersStay(before, due[i], nets[due[i]]);
        assert due[i..][1..] == due[i + 1..];
      }
    }

    method DispatchNextBatch(r: nat, net: Net)
      requires Due(State(), r)
      modifies this`rollouts, this`retained
      ensures State() == RolloutWorld.DispatchNextBatch(old(State()), r, net)
      ensures forall b: nat, d: nat :: L.CanDispatch(old(State()), r) && L.LowestPending(old(rollouts)[r], b) ==>
                L.DeviceServed(old(State()), State(), r, net, b, d)
    {
      L.DispatchServes(State(), r, net);
      hide L.CanDispatch, L.LowestPending, L.DeviceServed;
      var ro := rollouts[r];
      if Waiting(ro) == {} {
        RefreshRolloutCompletion(r);
        return;
      }
      if ro.product !in products || !products[ro.product].complete {
        rollouts := rollouts[r := ro.(status := Failed)];
        return;
      }
      ghost var upToDate := UpToDate(State(), ro.targetVersion);
      ghost var w := State();
      hide Dispatched, Published, InState, NextBatch, Failing, Settle, UpToDate, Due, WithCommands;
      var ok := SendBatch(r, net);
      if ok {
        FinishDispatch(r);
      } else {
        rollouts := rollouts[r := rollouts[r].(status := Failed)];
      }
      assert w.rollouts[r := Dispatched(ro, upToDate, net, now)][r := Dispatch(ro, upToDate, net, now)]
          == w.rollouts[r := Dispatch(ro, upToDate, net, now)];
    }

    /** The lowest batch with a pending row. */
    method FirstPendingBatch(r: nat) returns (batch: nat)
      requires r in rollouts && Waiting(rollouts[r]) != {}
      ensures batch == NextBatch(rollouts[r])
    {
      var ro := rollouts[r];
      var left := Waiting(ro);
      var first :| first in left;
      batch := ro.rows[first].batch;
      left := left - {first};
      while left != {}
        invariant left <= Waiting(ro)
        invariant exists d :: d in Waiting(ro) && ro.rows[d].batch == batch
        invariant forall d :: d in Waiting(ro) - left ==> batch <= ro.rows[d].batch
      {
        var d :| d in left;
        if ro.rows[d].batch < batch {
          batch := ro.rows[d].batch;
        }
        left := left - {d};
      }
      OnlyNextBatch(ro, batch, NextBatch(ro));
    }

    /** Sends to the devices of the next batch in device order, and stops at the first failure. */
    method SendBatch(r: nat, net: Net) returns (ok: bool)
      requires r in rollouts && Waiting(rollouts[r]) != {}
      modifies this`rollouts, this`retained
      ensures var ro, w := old(rollouts[r]), old(State());
              var upToDate := UpToDate(w, ro.targetVersion);
              && rollouts == w.rollouts[r := Dispatched(ro, upToDate, net, now)]
              && retained == WithCommands(w.retained, Published(ro, upToDate, net), Command(r, ro.targetVersion))
              && ok == (Failing(ro, upToDate, net) == {})
    {
      var ro := rollouts[r];
      ghost var w := State();
      ghost var upToDate := UpToDate(w, ro.targetVersion);
      var batch := FirstPendingBatch(r);
      var left := set d | d in Waiting(ro) && ro.rows[d].batch == batch;
      rollouts := rollouts[r := ro.(dispatches := ro.dispatches + 1, lastBatch := batch,
                                    firstDispatch := if ro.firstDispatch.None? then Some(now) else ro.firstDispatch)];
      NothingSent(ro, upToDate, net, now);
      ghost var sent: set<nat> := {};
      assert SoFar(ro, sent, left, upToDate, net) && Midway(w, r, sent, net);
      hide SoFar, Midway, Targets, InState, NextBatch, Dispatched, Published, Failing, UpToDate, Bad, WithCommands;
      while left != {}
        invariant SoFar(ro, sent, left, upToDate, net) && Midway(w, r, sent, net)
      {
        var d := Least(left);
        NextInLine(ro, sent, left, d, upToDate, net);
        var done := SendOne(w, r, d, net, sent);
        if !done {
          StoppedThere(ro, sent, left, d, upToDate, net);
          MidwayThrough(w, r, sent + {d}, net);
          return false;
        }
        sent, left := sent + {d}, left - {d};
      }
      SentAll(ro, sent, upToDate, net);
      MidwayThrough(w, r, sent, net);
      return true;
    }

    /** The dispatch of rollout `r` that began in `w` has dealt with the devices in `sent`. */
    ghost predicate Midway(w: World, r: nat, sent: set<nat>, net: Net)
      requires r in w.rollouts && Waiting(w.rollouts[r]) != {}
      reads this
    {
      var ro := w.rollouts[r];
      var upToDate := UpToDate(w, ro.targetVersion);
      && rollouts == w.rollouts[r := PartDispatched(ro, sent, upToDate, net, now)]
      && retained == PartRetained(w.retained, r, ro, sent, upToDate, net)
      && now == w.now && devices == w.devices
    }

    lemma MidwayThrough(w: World, r: nat, sent: set<nat>, net: Net)
      requires r in w.rollouts && Waiting(w.rollouts[r]) != {} && Midway(w, r, sent, net)
      requires sent == Reached(w.rollouts[r], UpToDate(w, w.rollouts[r].targetVersion), net)
      ensures var ro := w.rollouts[r];
              var upToDate := UpToDate(w, ro.targetVersion);
              && rollouts == w.rollouts[r := Dispatched(ro, upToDate, net, now)]
              && retained == WithCommands(w.retained, Published(ro, upToDate, net), Command(r, ro.targetVersion))
    {
      hide WithCommands, UpToDate, InState, NextBatch;
      var ro := w.rollouts[r];
      PartIsWhole(w.retained, r, ro, UpToDate(w, ro.targetVersion), net, now);
      hide Dispatched, PartDispatched, PartRetained, Published, Reached;
    }

    /** One device of a batch: already up to date, sent to, or the failure that stops the dispatch. */
    method SendOne(ghost w: World, r: nat, d: nat, net: Net, ghost sent: set<nat>) returns (ok: bool)
      requires r in w.rollouts && Waiting(w.rollouts[r]) != {} && Midway(w, r, sent, net)
      requires d in Targets(w.rollouts[r]) && d !in sent
      modifies this`rollouts, this`retained
      ensures Midway(w, r, sent + {d}, net)
      ensures ok == (d in UpToDate(w, w.rollouts[r].targetVersion) || d !in Bad(net))
    {
      ghost var ro := w.rollouts[r];
      ghost var upToDate := UpToDate(w, ro.targetVersion);
      TargetsAreRows(ro);
      PartRows(ro, sent, upToDate, net, now);
      SendOneStep(w.retained, r, ro, sent, d, upToDate, net, now);
      hide PartDispatched, PartRetained, Targets, InState, NextBatch, SentTo, Bad;
      var version := rollouts[r].targetVersion;
      var current := if d in devices then devices[d].current else "";
      var done := current != "" && current == version;
      assert done == (d in upToDate);
      hide UpToDate;
      ok := MarkOrSend(r, d, net, done, version, upToDate);
    }

    method MarkOrSend(r: nat, d: nat, net: Net, done: bool, version: string, ghost upToDate: set<nat>)
      returns (ok: bool)
      requires r in rollouts && d in rollouts[r].rows && version == rollouts[r].targetVersion && done == (d in upToDate)
      modifies this`rollouts, this`retained
      ensures rollouts == old(rollouts)[r := SentTo(old(rollouts[r]), d, upToDate, net, now)]
      ensures retained == if done || d in net.lost then old(retained) else old(retained)[d := Command(r, version)]
      ensures ok == (done || d !in Bad(net))
    {
      if done {
        rollouts := rollouts[r := rollouts[r].(
          rows := rollouts[r].rows[d := FoundUpdatedRow(rollouts[r].rows[d], version)])];
        return true;
      }
      ok := PublishRetained(d, Command(r, version), net);
      if d !in net.lost {
        rollouts := rollouts[r := rollouts[r].(exposed := rollouts[r].exposed + {d})];
      }
      if ok {
        rollouts := rollouts[r := rollouts[r].(rows := rollouts[r].rows[d := SentRow(rollouts[r].rows[d], now)])];
      }
    }

    /** Counts what is left and schedules the next batch. */
    method FinishDispatch(r: nat)
      requires r in rollouts
      modifies this`rollouts
      ensures rollouts == old(rollouts)[r := Settle(old(rollouts[r]), now)]
    {
      var ro := rollouts[r];
      var pendingCount := |Waiting(ro)|;
      var sentCount := |InState(ro, DeviceSent)|;
      ro := ro.(status := Running);
      if pendingCount > 0 {
        ro := ro.(nextBatchAt := Some(now + ro.intervalMinutes * NANOS_PER_MINUTE));
      } else {
        ro := ro.(nextBatchAt := None);
        if sentCount == 0 {
          ro := ro.(status := Completed);
        }
      }
      rollouts := rollouts[r := ro];
    }

    method RefreshRolloutCompletion(r: nat)
      requires r in rollouts
      modifies this`rollouts
      ensures rollouts == old(rollouts)[r := RefreshCompletion(old(rollouts[r]))]
    {
      var ro := rollouts[r];
      var pendingCount := |Waiting(ro)|;
      var sentCount := |InState(ro, DeviceSent)|;
      var status := Running;
      if pendingCount == 0 && sentCount == 0 {
        status := Completed;
      }
      rollouts := rollouts[r := ro.(status := status, nextBatchAt := None)];
    }

    // ---------- device reports and manual triggers ----------

    method HandleDeviceStatusUpdate(d: nat, version: string, order: seq<nat>, attempts: seq<Delivery>)
      requires Distinct(order) && Elements(order) == Matches(State(), d)
      modifies this`rollouts, this`retained
      ensures State() == HandleStatus(old(State()), d, version, order, attempts)
      ensures attempts == [] ==> forall e :: L.CommandAfterReport(old(State()), State(), d, version, e)
    {
      ghost var w := State();
      L.ReportsClear(w, d, version, order);
      hide L.CommandAfterReport;
      var retainedCleared := false;
      var tries := attempts;
      OrderMatches(w, d, order);
      if RunsCurrent(State(), d, version) {
        retainedCleared := ClearRetained(d, Next(tries));
        tries := Rest(tries);
      }
      assert order[0..] == order;
      MatchRows(w, d, order);
      hide ReportOne, RunsCurrent, Matches, Elements, AllMatch;
      for i := 0 to |order|
        invariant forall j :: i <= j < |order| ==> order[j] in rollouts && d in rollouts[order[j]].rows
        invariant forall r :: r in order[i..] ==> r in rollouts && d in rollouts[r].rows
        invariant HandleStatus(w, d, version, order, attempts)
               == ReportAll(State(), d, version, order[i..], tries, retainedCleared)
      {
        var r := order[i];
        ghost var before, triesBefore, clearedBefore := State(), tries, retainedCleared;
        ReportOneFrame(before, r, d, version, Next(tries), retainedCleared);
        assert order[i..][1..] == order[i + 1..] && order[i..][0] == r;
        retainedCleared, tries := NoteReport(r, d, version, tries, retainedCleared);
        assert State() == ReportOne(before, r, d, version, Next(triesBefore), clearedBefore);
      }
      assert order[|order|..] == [];
    }

    /** The loop body of a report. */
    method NoteReport(r: nat, d: nat, version: string, attempts: seq<Delivery>, cleared: bool)
      returns (clearedAfter: bool, rest: seq<Delivery>)
      requires r in rollouts && d in rollouts[r].rows
      modifies this`rollouts, this`retained
      ensures State() == ReportOne(old(State()), r, d, version, Next(attempts), cleared)
      ensures if version != old(rollouts[r]).targetVersion || cleared then clearedAfter == cleared && rest == attempts
              else clearedAfter == (Next(attempts) == Delivered) && rest == Rest(attempts)
    {
      clearedAfter, rest := cleared, attempts;
      rollouts := rollouts[r := rollouts[r].(
        rows := rollouts[r].rows[d := rollouts[r].rows[d].(lastReportedVersion := version)])];
      if version != rollouts[r].targetVersion {
        return;
      }
      if !cleared {
        clearedAfter := ClearRetained(d, Next(attempts));
        rest := Rest(attempts);
      }
      var row := rollouts[r].rows[d].(state := DeviceUpdated, lastReportedVersion := version);
      if clearedAfter {
        row := row.(retainedClearedAt := Some(now));
      }
      hide InState;
      rollouts := rollouts[r := rollouts[r].(rows := rollouts[r].rows[d := row])];
      RefreshRolloutCompletion(r);
    }

    method TriggerDeviceUpdate(d: nat, delivery: Delivery) returns (ok: bool)
      modifies this`rollouts, this`retained
      ensures State() == RolloutWorld.TriggerDeviceUpdate(old(State()), d, delivery)
      ensures ok ==> d in retained && retained[d].rollout == 0
    {
      if d !in devices || devices[d].deleted || !CanRollOut(State(), devices[d].product) {
        return false;
      }
      var version := products[devices[d].product].version;
      if devices[d].current == version {
        return false;
      }
      if delivery != Lost {
        retained := retained[d := Command(0, version)];
      }
      if delivery != Delivered {
        return false;
      }
      MarkDeviceRolloutSent(d);
      return true;
    }

    method MarkDeviceRolloutSent(d: nat)
      modifies this`rollouts
      ensures State() == RolloutWorld.MarkDeviceRolloutSent(old(State()), d)
    {
      var candidates := Candidates(State(), d);
      if candidates == {} {
        return;
      }
      ghost var some := Greatest(candidates);
      assert IsNewest(State(), d, some);
      var r :| r in candidates && forall other :: other in candidates ==> other <= r;
      OneNewest(State(), d, r);
      rollouts := rollouts[r := rollouts[r].(rows := rollouts[r].rows[d := SentRow(rollouts[r].rows[d], now)])];
    }
  }

  lemma OneNewest(w: World, d: nat, r: nat)
    requires IsNewest(w, d, r)
    ensures forall s :: IsNewest(w, d, s) ==> s == r
  {
  }

  /** A round of the worker. */
  ghost function DispatchAll(w: World, due: seq<nat>, nets: map<nat, Net>): World
    requires forall r :: r in due ==> r in nets
    decreases |due|
  {
    if due == [] then w else DispatchAll(RolloutWorld.DispatchNextBatch(w, due[0], nets[due[0]]), due[1..], nets)
  }

  // ---------- a dispatch, part of the way ----------

  lemma OnlyNextBatch(ro: Rollout, a: nat, b: nat)
    requires IsNextBatch(ro, a) && IsNextBatch(ro, b)
    ensures a == b
  {
  }

  lemma TargetsAreRows(ro: Rollout)
    requires Waiting(ro) != {}
    ensures Targets(ro) <= ro.rows.Keys
  {
  }

  /** One more device handled. */
  function SentTo(ro: Rollout, d: nat, upToDate: set<nat>, net: Net, now: int): Rollout
    requires d in ro.rows
  {
    if d in upToDate then ro.(rows := ro.rows[d := FoundUpdatedRow(ro.rows[d], ro.targetVersion)])
    else
      ro.(exposed := if d in net.lost then ro.exposed else ro.exposed + {d},
          rows := if d in Bad(net) then ro.rows else ro.rows[d := SentRow(ro.rows[d], now)])
  }

  /** The rollout once the devices in `handled` have had their turn. */
  ghost function PartDispatched(ro: Rollout, handled: set<nat>, upToDate: set<nat>, net: Net, now: int): Rollout
    requires Waiting(ro) != {}
  {
    ro.(rows := map d | d in ro.rows ::
          if d !in handled || (d in Bad(net) && d !in upToDate) then ro.rows[d]
          else if d in upToDate then FoundUpdatedRow(ro.rows[d], ro.targetVersion)
          else SentRow(ro.rows[d], now),
        firstDispatch := if ro.firstDispatch.None? then Some(now) else ro.firstDispatch,
        dispatches := ro.dispatches + 1,
        lastBatch := NextBatch(ro),
        exposed := ro.exposed + (handled - upToDate - net.lost))
  }

  ghost function PartRetained(retained: map<nat, Command>, r: nat, ro: Rollout, handled: set<nat>, upToDate: set<nat>,
                              net: Net): map<nat, Command> {
    WithCommands(retained, handled - upToDate - net.lost, Command(r, ro.targetVersion))
  }

  lemma NothingSent(ro: Rollout, upToDate: set<nat>, net: Net, now: int)
    requires Waiting(ro) != {}
    ensures PartDispatched(ro, {}, upToDate, net, now)
            == ro.(dispatches := ro.dispatches + 1, lastBatch := NextBatch(ro),
                   firstDispatch := if ro.firstDispatch.None? then Some(now) else ro.firstDispatch)
    ensures forall retained, r :: PartRetained(retained, r, ro, {}, upToDate, net) == retained
  {
    hide NextBatch, InState;
    assert ro.exposed + ({} - upToDate - net.lost) == ro.exposed;
    assert (map d | d in ro.rows :: ro.rows[d]) == ro.rows;
    assert {} - upToDate - net.lost == {};
  }

  lemma PartRows(ro: Rollout, handled: set<nat>, upToDate: set<nat>, net: Net, now: int)
    requires Waiting(ro) != {}
    ensures var part := PartDispatched(ro, handled, upToDate, net, now);
            part.rows.Keys == ro.rows.Keys && part.targetVersion == ro.targetVersion
  {
  }

  lemma SendOneStep(retained: map<nat, Command>, r: nat, ro: Rollout, sent: set<nat>, d: nat, upToDate: set<nat>,
                    net: Net, now: int)
    requires Waiting(ro) != {} && d in ro.rows && d !in sent
    ensures SentTo(PartDispatched(ro, sent, upToDate, net, now), d, upToDate, net, now)
            == PartDispatched(ro, sent + {d}, upToDate, net, now)
    ensures (if d in upToDate || d in net.lost then PartRetained(retained, r, ro, sent, upToDate, net)
             else PartRetained(retained, r, ro, sent, upToDate, net)[d := Command(r, ro.targetVersion)])
            == PartRetained(retained, r, ro, sent + {d}, upToDate, net)
  {
    OneMoreCommand(retained, r, ro, sent, d, upToDate, net);
    hide NextBatch, InState, PartRetained, WithCommands;
    var a, b := sent - upToDate - net.lost, sent + {d} - upToDate - net.lost;
    assert b == if d in upToDate || d in net.lost then a else a + {d};
  }

  lemma OneMoreCommand(retained: map<nat, Command>, r: nat, ro: Rollout, sent: set<nat>, d: nat, upToDate: set<nat>,
                       net: Net)
    requires d !in sent
    ensures (if d in upToDate || d in net.lost then PartRetained(retained, r, ro, sent, upToDate, net)
             else PartRetained(retained, r, ro, sent, upToDate, net)[d := Command(r, ro.targetVersion)])
            == PartRetained(retained, r, ro, sent + {d}, upToDate, net)
  {
    var a, b := sent - upToDate - net.lost, sent + {d} - upToDate - net.lost;
    assert b == if d in upToDate || d in net.lost then a else a + {d};
  }

  /** Whichever devices had their turn, if they are the ones the description says, the state is too. */
  lemma PartIsWhole(retained: map<nat, Command>, r: nat, ro: Rollout, upToDate: set<nat>, net: Net, now: int)
    requires Waiting(ro) != {}
    ensures PartDispatched(ro, Reached(ro, upToDate, net), upToDate, net, now) == Dispatched(ro, upToDate, net, now)
    ensures PartRetained(retained, r, ro, Reached(ro, upToDate, net), upToDate, net)
            == WithCommands(retained, Published(ro, upToDate, net), Command(r, ro.targetVersion))
  {
    hide NextBatch, InState;
  }

  /** The targets in `sent` have had their turn without a failure, those in `left` come after them. */
  ghost predicate SoFar(ro: Rollout, sent: set<nat>, left: set<nat>, upToDate: set<nat>, net: Net)
    requires Waiting(ro) != {}
  {
    && sent + left == Targets(ro)
    && (forall p, q | p in sent && q in left :: p < q)
    && (sent - upToDate) * Bad(net) == {}
  }

  lemma NextInLine(ro: Rollout, sent: set<nat>, left: set<nat>, d: nat, upToDate: set<nat>, net: Net)
    requires Waiting(ro) != {} && SoFar(ro, sent, left, upToDate, net)
    requires d in left && forall x :: x in left ==> d <= x
    ensures d in Targets(ro) && d !in sent
    ensures d in upToDate || d !in Bad(net) ==> SoFar(ro, sent + {d}, left - {d}, upToDate, net)
  {
    hide Targets, Bad;
  }

  lemma SentAll(ro: Rollout, sent: set<nat>, upToDate: set<nat>, net: Net)
    requires Waiting(ro) != {} && SoFar(ro, sent, {}, upToDate, net)
    ensures Failing(ro, upToDate, net) == {} && Reached(ro, upToDate, net) == sent
  {
    hide Targets, Bad;
    assert sent == Targets(ro);
  }

  lemma StoppedThere(ro: Rollout, sent: set<nat>, left: set<nat>, d: nat, upToDate: set<nat>, net: Net)
    requires Waiting(ro) != {} && SoFar(ro, sent, left, upToDate, net)
    requires d in left && (forall q :: q in left ==> d <= q) && d !in upToDate && d in Bad(net)
    ensures Failing(ro, upToDate, net) != {} && Reached(ro, upToDate, net) == sent + {d}
  {
    hide Targets;
    assert d in Failing(ro, upToDate, net);
    forall e | e in Failing(ro, upToDate, net)
      ensures e !in sent && d <= e
    {
      assert e in sent ==> e in (sent - upToDate) * Bad(net);
    }
  }

  // ---------- cancelling and creating, part of the way ----------

  lemma BatchOfIndex(key: SortKey, id: nat, ordered: seq<nat>, size: nat, idx: nat)
    requires Ordered(key, id, ordered) && idx < |ordered| && size > 0
    ensures BatchOf(key, id, Elements(ordered), size, ordered[idx]) == idx / size + 1
  {
    RankIsIndex(key, id, ordered, idx);
  }

  lemma ElementsSnoc(s: seq<nat>, i: nat)
    requires i < |s|
    ensures Elements(s[..i + 1]) == Elements(s[..i]) + {s[i]}
  {
    assert s[..i + 1] == s[..i] + [s[i]];
  }

  lemma ClearEffect(d: nat, net: Net)
    ensures d in net.lost || d in net.unconfirmed <==> d in Bad(net)
  {
  }

  lemma CancelOneMore(rows: map<nat, Row>, which: set<nat>, d: nat, now: int)
    requires d in rows && d !in which
    ensures CancelledRows(rows, which, now)[d := CancelledRow(CancelledRows(rows, which, now)[d], now)]
            == CancelledRows(rows, which + {d}, now)
  {
  }

  lemma CancelNone(w: World, net: Net)
    ensures CancelThese(w, {}, net) == w
  {
    assert w.rollouts == map r | r in w.rollouts :: w.rollouts[r];
  }

  lemma CancelledSoFar(w: World, before: set<nat>, r: nat, net: Net)
    requires before <= w.rollouts.Keys && r in w.rollouts && r !in before
    ensures CancelThese(w, before, net).rollouts[r] == w.rollouts[r]
  {
  }

  lemma CancelThisToo(w: World, before: set<nat>, r: nat, net: Net)
    requires before <= w.rollouts.Keys && r in w.rollouts && r !in before
    ensures CancelThese(w, before, net).(
              rollouts := CancelThese(w, before, net).rollouts[r := Cancel(w.rollouts[r], net, w.now)],
              retained := CancelThese(w, before, net).retained - Wiped(w.rollouts[r], net))
            == CancelThese(w, before + {r}, net)
  {
    hide Cancel, Wiped;
    var a := set s, d | s in before && d in Wiped(w.rollouts[s], net) :: d;
    var b := set s, d | s in before + {r} && d in Wiped(w.rollouts[s], net) :: d;
    assert a + Wiped(w.rollouts[r], net) == b;
    assert w.retained - a - Wiped(w.rollouts[r], net) == w.retained - b;
  }
}
