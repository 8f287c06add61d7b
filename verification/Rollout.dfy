/**
 One firmware rollout: its rows, one per device, and what dispatching, cancelling, device
 reports and manual triggers do to it.
 */
module Rollout {
  import opened Sets
  import opened Arithmetic
  import opened Wrappers
  import opened BatchAssignment

  datatype Status = Pending | Running | Completed | Cancelled | Failed

  datatype DeviceState = DevicePending | DeviceSent | DeviceUpdated | DeviceCancelled

  datatype Row = Row(batch: nat, state: DeviceState, sentAt: Option<int>, retainedClearedAt: Option<int>,
                     lastReportedVersion: string)

  const NANOS_PER_MINUTE: int := 60_000_000_000

  /** The last four fields are history: when the worker first dispatched, how often, up to which
      batch, and the devices to which it has sent this rollout's command. */
  datatype Rollout = Rollout(
    product: nat, targetVersion: string, percentage: int, intervalMinutes: int,
    status: Status, nextBatchAt: Option<int>, rows: map<nat, Row>,
    firstDispatch: Option<int>, dispatches: nat, lastBatch: nat, exposed: set<nat>)

  /** The broker's part in one handler: a command to a device in `lost` has no effect, one in
      `unconfirmed` takes effect although the server is told it failed. */
  datatype Net = Net(lost: set<nat>, unconfirmed: set<nat>)

  function Bad(net: Net): set<nat> { net.lost + net.unconfirmed }

  predicate Active(ro: Rollout) { ro.status == Pending || ro.status == Running }

  function InState(ro: Rollout, state: DeviceState): set<nat> {
    set d | d in ro.rows && ro.rows[d].state == state
  }

  function Waiting(ro: Rollout): set<nat> { InState(ro, DevicePending) }

  function Open(ro: Rollout): set<nat> { InState(ro, DevicePending) + InState(ro, DeviceSent) }

  // ---------- creation ----------

  function NewRow(batch: nat): Row { Row(batch, DevicePending, None, None, "") }

  function NewRows(key: SortKey, id: nat, devices: set<nat>, percentage: int): map<nat, Row>
    requires devices != {}
  {
    map d | d in devices :: NewRow(BatchOf(key, id, devices, BatchSize(|devices|, percentage), d))
  }

  function NewRollout(key: SortKey, id: nat, product: nat, version: string, percentage: int, intervalMinutes: int,
                      devices: set<nat>, now: int): (ro: Rollout)
    requires devices != {}
    ensures ro.product == product && Active(ro)
  {
    Rollout(product, version, percentage, intervalMinutes, Pending, Some(now), NewRows(key, id, devices, percentage),
            None, 0, 0, {})
  }

  // ---------- cancelling ----------

  function CancelledRow(row: Row, now: int): Row {
    row.(state := DeviceCancelled, retainedClearedAt := Some(now))
  }

  function CancelledRows(rows: map<nat, Row>, which: set<nat>, now: int): map<nat, Row> {
    map d | d in rows :: if d in which then CancelledRow(rows[d], now) else rows[d]
  }

  /** The rollout ends, and every open row whose retained command could be cleared is cancelled. */
  function Cancel(ro: Rollout, net: Net, now: int): (after: Rollout)
    ensures after.product == ro.product && !Active(after)
  {
    ro.(status := Cancelled, nextBatchAt := None, rows := CancelledRows(ro.rows, Open(ro) - Bad(net), now))
  }

  // ---------- dispatching ----------

  /** `b` is the lowest batch that still has a pending row. */
  ghost predicate IsNextBatch(ro: Rollout, b: nat) {
    && (exists d :: d in Waiting(ro) && ro.rows[d].batch == b)
    && (forall d :: d in Waiting(ro) ==> b <= ro.rows[d].batch)
  }

  lemma NextBatchExists(ro: Rollout)
    requires Waiting(ro) != {}
    ensures exists b :: IsNextBatch(ro, b)
  {
    var batches := set d | d in Waiting(ro) :: ro.rows[d].batch;
    var d :| d in Waiting(ro);
    assert ro.rows[d].batch in batches;
    var b := Smallest(batches);
    assert forall e :: e in Waiting(ro) ==> ro.rows[e].batch in batches;
    assert IsNextBatch(ro, b);
  }

  ghost function NextBatch(ro: Rollout): (b: nat)
    requires Waiting(ro) != {}
    ensures IsNextBatch(ro, b)
  {
    NextBatchExists(ro);
    var b :| IsNextBatch(ro, b);
    b
  }

  ghost function Targets(ro: Rollout): set<nat>
    requires Waiting(ro) != {}
  {
    set d | d in Waiting(ro) && ro.rows[d].batch == NextBatch(ro)
  }

  /** The commands that the server believes to have failed. */
  ghost function Failing(ro: Rollout, upToDate: set<nat>, net: Net): set<nat>
    requires Waiting(ro) != {}
  {
    (Targets(ro) - upToDate) * Bad(net)
  }

  /** The targets handled before the first failure, in device order, and the failure itself. */
  ghost function Reached(ro: Rollout, upToDate: set<nat>, net: Net): set<nat>
    requires Waiting(ro) != {}
  {
    set d | d in Targets(ro) && forall e :: e in Failing(ro, upToDate, net) ==> d <= e
  }

  /** The devices that get this rollout's command. */
  ghost function Published(ro: Rollout, upToDate: set<nat>, net: Net): set<nat>
    requires Waiting(ro) != {}
  {
    Reached(ro, upToDate, net) - upToDate - net.lost
  }

  function SentRow(row: Row, now: int): Row { row.(state := DeviceSent, sentAt := Some(now)) }

  function FoundUpdatedRow(row: Row, version: string): Row {
    row.(state := DeviceUpdated, lastReportedVersion := version)
  }

  ghost function DispatchedRows(ro: Rollout, upToDate: set<nat>, net: Net, now: int): map<nat, Row>
    requires Waiting(ro) != {}
  {
    var reached, failing := Reached(ro, upToDate, net), Failing(ro, upToDate, net);
    map d | d in ro.rows ::
      if d !in reached || d in failing then ro.rows[d]
      else if d in upToDate then FoundUpdatedRow(ro.rows[d], ro.targetVersion)
      else SentRow(ro.rows[d], now)
  }

  /** The status and the next dispatch time after a batch has gone out. */
  function Settle(ro: Rollout, now: int): Rollout {
    if Waiting(ro) != {} then
      ro.(status := Running, nextBatchAt := Some(now + ro.intervalMinutes * NANOS_PER_MINUTE))
    else
      ro.(status := if InState(ro, DeviceSent) == {} then Completed else Running, nextBatchAt := None)
  }

  /** After the publishes of one dispatch. */
  ghost function Dispatched(ro: Rollout, upToDate: set<nat>, net: Net, now: int): Rollout
    requires Waiting(ro) != {}
  {
    ro.(rows := DispatchedRows(ro, upToDate, net, now),
        firstDispatch := if ro.firstDispatch.None? then Some(now) else ro.firstDispatch,
        dispatches := ro.dispatches + 1,
        lastBatch := NextBatch(ro),
        exposed := ro.exposed + Published(ro, upToDate, net))
  }

  /** One dispatch of the next batch: publish, mark, and settle; a failing publish fails the rollout. */
  ghost function Dispatch(ro: Rollout, upToDate: set<nat>, net: Net, now: int): Rollout
    requires Waiting(ro) != {}
  {
    var after := Dispatched(ro, upToDate, net, now);
    if Failing(ro, upToDate, net) != {} then after.(status := Failed) else Settle(after, now)
  }

  function RefreshCompletion(ro: Rollout): Rollout {
    ro.(status := if Waiting(ro) == {} && InState(ro, DeviceSent) == {} then Completed else Running,
        nextBatchAt := None)
  }

  // ---------- reports and manual triggers ----------

  function Reported(ro: Rollout, d: nat, version: string): Rollout
    requires d in ro.rows
  {
    ro.(rows := ro.rows[d := ro.rows[d].(lastReportedVersion := version)])
  }

  function UpdatedRow(row: Row, version: string, clearedAt: Option<int>): Row {
    row.(state := DeviceUpdated, lastReportedVersion := version,
         retainedClearedAt := if clearedAt.Some? then clearedAt else row.retainedClearedAt)
  }

  /** The device runs the target version; `clearedAt` is set if its retained command was cleared. */
  function ReportTarget(ro: Rollout, d: nat, version: string, clearedAt: Option<int>): Rollout
    requires d in ro.rows
  {
    RefreshCompletion(ro.(rows := ro.rows[d := UpdatedRow(ro.rows[d], version, clearedAt)]))
  }

  function MarkSent(ro: Rollout, d: nat, now: int): Rollout
    requires d in ro.rows
  {
    ro.(rows := ro.rows[d := SentRow(ro.rows[d], now)])
  }

  // ---------- what holds of every rollout ----------

  function Size(ro: Rollout): nat { BatchSize(|ro.rows|, ro.percentage) }

  function TotalBatches(ro: Rollout): nat
    requires ro.rows != map[]
  {
    if Size(ro) == 0 then 0 else CeilDiv(|ro.rows|, Size(ro))
  }

  function RowsInBatch(ro: Rollout, b: nat): set<nat> { set d | d in ro.rows && ro.rows[d].batch == b }

  /** Batches are numbered 1 to the last and hold at most a batch size of devices each. */
  ghost predicate WellBatched(ro: Rollout) {
    && ro.rows != map[] && ro.intervalMinutes >= 1
    && (forall d :: d in ro.rows ==> 1 <= ro.rows[d].batch <= TotalBatches(ro))
    && (forall b :: |RowsInBatch(ro, b)| <= Size(ro))
  }

  /** Status and rows agree. */
  ghost predicate LifeCycle(ro: Rollout) {
    && (Active(ro) ==> Open(ro) != {})
    && (ro.status == Completed ==> forall d :: d in ro.rows ==> ro.rows[d].state == DeviceUpdated)
    && (forall d :: d in ro.rows && ro.rows[d].state == DeviceCancelled ==> ro.status == Cancelled)
    && (forall d :: d in Open(ro) ==> ro.rows[d].retainedClearedAt.None?)
  }

  /** The worker moves strictly upwards through the batches. */
  ghost predicate Progress(ro: Rollout)
    requires ro.rows != map[]
  {
    && ro.dispatches <= ro.lastBatch <= TotalBatches(ro)
    && (Active(ro) ==> forall d :: d in Waiting(ro) ==> ro.rows[d].batch > ro.lastBatch)
  }

  function Interval(ro: Rollout): int { ro.intervalMinutes * NANOS_PER_MINUTE }

  /** `k` intervals after `t`. */
  function After(t: int, k: int, interval: int): int { t + k * interval }

  /** What `k` batches can hold. */
  function Budget(size: nat, k: nat): nat { size * k }

  /** Dispatches are at least an interval apart and expose at most a batch size of devices each. */
  ghost predicate Paced(ro: Rollout, now: int) {
    && |ro.exposed| <= Budget(Size(ro), ro.dispatches)
    && (ro.firstDispatch.None? <==> ro.dispatches == 0)
    && (ro.dispatches > 0 ==>
          && After(ro.firstDispatch.value, ro.dispatches - 1, Interval(ro)) <= now
          && (Active(ro) && ro.nextBatchAt.Some? ==>
                After(ro.firstDispatch.value, ro.dispatches, Interval(ro)) <= ro.nextBatchAt.value))
  }

  ghost predicate Sound(ro: Rollout, now: int) {
    WellBatched(ro) && LifeCycle(ro) && Progress(ro) && Paced(ro, now)
  }

  /** How a rollout may change: rows stay, keep their batch, and their state only moves forward;
      a finished rollout does not become active again. */
  function Stage(state: DeviceState): nat {
    match state
    case DevicePending => 0
    case DeviceSent => 1
    case DeviceUpdated => 2
    case DeviceCancelled => 2
  }

  predicate RowAdvances(a: Row, b: Row) {
    a.batch == b.batch && (a.state == b.state || Stage(a.state) < Stage(b.state))
  }

  ghost predicate Advances(a: Rollout, b: Rollout) {
    && a.rows.Keys == b.rows.Keys
    && (forall d :: d in a.rows ==> RowAdvances(a.rows[d], b.rows[d]))
    && a.product == b.product && a.targetVersion == b.targetVersion
    && a.percentage == b.percentage && a.intervalMinutes == b.intervalMinutes
    && (!Active(a) ==> a == b)
    && a.dispatches <= b.dispatches <= a.dispatches + 1
    && a.exposed <= b.exposed
    && (if b.dispatches > a.dispatches then b.lastBatch > a.lastBatch else b.lastBatch == a.lastBatch)
  }

  // ---------- preservation ----------

  /** Sizes and batches depend only on what never changes. */
  lemma SameBatches(a: Rollout, b: Rollout)
    requires WellBatched(a) && a.rows.Keys == b.rows.Keys && a.percentage == b.percentage
    requires a.intervalMinutes == b.intervalMinutes
    requires forall d :: d in a.rows ==> a.rows[d].batch == b.rows[d].batch
    ensures WellBatched(b) && Size(a) == Size(b) && TotalBatches(a) == TotalBatches(b)
    ensures forall n :: RowsInBatch(a, n) == RowsInBatch(b, n)
  {
    assert |a.rows| == |a.rows.Keys| && |b.rows| == |b.rows.Keys|;
    forall n
      ensures RowsInBatch(a, n) == RowsInBatch(b, n)
    {
    }
  }

  lemma NewRolloutSound(key: SortKey, id: nat, product: nat, version: string, percentage: int, intervalMinutes: int,
                        order: seq<nat>, now: int)
    requires order != [] && Ordered(key, id, order) && 1 <= percentage <= 100 && intervalMinutes >= 1
    ensures Elements(order) != {}
    ensures var ro := NewRollout(key, id, product, version, percentage, intervalMinutes, Elements(order), now);
            && Sound(ro, now) && Active(ro)
            && TotalBatches(ro) <= CeilDiv(100, percentage)
  {
    assert order[0] in Elements(order);
    var ro := NewRollout(key, id, product, version, percentage, intervalMinutes, Elements(order), now);
    NewRowsBatched(key, id, order, percentage, ro);
    hide BatchSize, CeilDiv, BatchOf, Ordered, Size, TotalBatches, WellBatched;
    assert order[0] in Waiting(ro);
  }

  lemma NewRowsBatched(key: SortKey, id: nat, order: seq<nat>, percentage: int, ro: Rollout)
    requires order != [] && Ordered(key, id, order) && 1 <= percentage <= 100 && ro.intervalMinutes >= 1
    requires Elements(order) != {} && ro.percentage == percentage
    requires ro.rows == NewRows(key, id, Elements(order), percentage)
    ensures WellBatched(ro) && 0 <= TotalBatches(ro) <= CeilDiv(100, percentage)
    ensures forall d :: d in ro.rows ==> ro.rows[d] == NewRow(ro.rows[d].batch)
  {
    var devices := Elements(order);
    OrderedIsDistinct(key, id, order);
    ElementsCount(order);
    assert ro.rows.Keys == devices;
    assert |ro.rows| == |ro.rows.Keys| == |order|;
    BatchCountBound(|order|, percentage);
    BatchesPartition(key, id, order, Size(ro));
    hide BatchSize, CeilDiv, BatchOf, Ordered, InBatch;
    assert forall d :: d in ro.rows ==> ro.rows[d] == NewRow(BatchOf(key, id, devices, Size(ro), d));
    NewRowCounts(key, id, devices, ro);
  }

  lemma NewRowCounts(key: SortKey, id: nat, devices: set<nat>, ro: Rollout)
    requires ro.rows != map[] && ro.rows.Keys == devices && Size(ro) > 0
    requires forall d :: d in ro.rows ==> ro.rows[d] == NewRow(BatchOf(key, id, devices, Size(ro), d))
    requires forall d :: d in devices ==> 1 <= BatchOf(key, id, devices, Size(ro), d) <= TotalBatches(ro)
    requires forall b :: 1 <= b <= TotalBatches(ro) ==> |InBatch(key, id, devices, Size(ro), b)| <= Size(ro)
    ensures forall b :: |RowsInBatch(ro, b)| <= Size(ro)
  {
    hide Size, TotalBatches, BatchOf;
    forall b: nat
      ensures |RowsInBatch(ro, b)| <= Size(ro)
    {
      if 1 <= b <= TotalBatches(ro) {
        assert RowsInBatch(ro, b) == InBatch(key, id, devices, Size(ro), b);
      } else {
        assert RowsInBatch(ro, b) == {};
      }
    }
  }

  /** A change that touches neither the history nor the schedule of an active rollout. */
  lemma PacedCarriesOver(a: Rollout, b: Rollout, now: int)
    requires Paced(a, now) && Size(a) == Size(b) && a.intervalMinutes == b.intervalMinutes
    requires a.exposed == b.exposed && a.dispatches == b.dispatches && a.firstDispatch == b.firstDispatch
    requires Active(b) && b.nextBatchAt.Some? ==> Active(a) && a.nextBatchAt == b.nextBatchAt
    ensures Paced(b, now)
  {
    hide Size, After, Budget;
  }

  lemma CancelSound(ro: Rollout, net: Net, now: int)
    requires Sound(ro, now)
    ensures Sound(Cancel(ro, net, now), now)
    ensures Active(ro) ==> Advances(ro, Cancel(ro, net, now))
  {
    SameBatches(ro, Cancel(ro, net, now));
    PacedCarriesOver(ro, Cancel(ro, net, now), now);
    hide WellBatched, Paced, Size, TotalBatches;
  }

  /** What replacing the state of one row does to the sets of rows and to the batches. */
  lemma RowUpdate(ro: Rollout, d: nat, row: Row)
    requires WellBatched(ro) && d in ro.rows && row.batch == ro.rows[d].batch
    ensures var after := ro.(rows := ro.rows[d := row]);
            && WellBatched(after) && Size(after) == Size(ro) && TotalBatches(after) == TotalBatches(ro)
            && after.rows.Keys == ro.rows.Keys
            && (forall state :: InState(after, state)
                  == if row.state == state then InState(ro, state) + {d} else InState(ro, state) - {d})
  {
    SameBatches(ro, ro.(rows := ro.rows[d := row]));
    hide WellBatched, Size, TotalBatches;
  }

  /** Replacing one row by a later one is an advance, as long as nothing else but the schedule changes. */
  lemma RowAdvance(ro: Rollout, d: nat, after: Rollout)
    requires Active(ro) && d in ro.rows && d in after.rows && after.rows == ro.rows[d := after.rows[d]]
    requires RowAdvances(ro.rows[d], after.rows[d])
    requires after == ro.(rows := after.rows, status := after.status, nextBatchAt := after.nextBatchAt)
    ensures Advances(ro, after)
  {
  }

  lemma MarkSentSound(ro: Rollout, d: nat, now: int)
    requires Sound(ro, now) && Active(ro) && d in Waiting(ro)
    ensures Sound(MarkSent(ro, d, now), now) && Advances(ro, MarkSent(ro, d, now))
  {
    hide WellBatched, Paced, Size, TotalBatches, InState, Advances;
    OpenRows(ro, d);
    WaitingRow(ro, d);
    RowAdvance(ro, d, MarkSent(ro, d, now));
    RowUpdate(ro, d, SentRow(ro.rows[d], now));
    PacedCarriesOver(ro, MarkSent(ro, d, now), now);
    assert d in Open(MarkSent(ro, d, now));
  }

  lemma WaitingRow(ro: Rollout, d: nat)
    requires d in Waiting(ro)
    ensures d in ro.rows && ro.rows[d].state == DevicePending
  {
  }

  lemma RefreshSound(ro: Rollout, now: int)
    requires WellBatched(ro) && Progress(ro) && Paced(ro, now) && Active(ro)
    requires forall d :: d in ro.rows ==> ro.rows[d].state != DeviceCancelled
    requires forall d :: d in Open(ro) ==> ro.rows[d].retainedClearedAt.None?
    ensures Sound(RefreshCompletion(ro), now)
  {
    SameBatches(ro, RefreshCompletion(ro));
    PacedCarriesOver(ro, RefreshCompletion(ro), now);
    hide WellBatched, Paced, Size, TotalBatches;
    var after := RefreshCompletion(ro);
    assert Waiting(after) == Waiting(ro) && InState(after, DeviceSent) == InState(ro, DeviceSent);
    forall d | d in ro.rows && after.status == Completed
      ensures ro.rows[d].state == DeviceUpdated
    {
      assert d !in Waiting(ro) && d !in InState(ro, DeviceSent);
    }
  }

  lemma ReportSound(ro: Rollout, d: nat, version: string, clearedAt: Option<int>, now: int)
    requires Sound(ro, now) && Active(ro) && d in Open(ro)
    ensures Sound(Reported(ro, d, version), now) && Advances(ro, Reported(ro, d, version))
    ensures Sound(ReportTarget(ro, d, version, clearedAt), now)
    ensures Advances(ro, ReportTarget(ro, d, version, clearedAt))
  {
    OpenRows(ro, d);
    ReportedSound(ro, d, version, now);
    TargetSound(ro, d, version, clearedAt, now);
    hide Sound, Advances, ReportTarget, Reported, InState;
  }

  lemma TargetSound(ro: Rollout, d: nat, version: string, clearedAt: Option<int>, now: int)
    requires Sound(ro, now) && Active(ro) && d in Open(ro) && d in ro.rows
    ensures Sound(ReportTarget(ro, d, version, clearedAt), now)
    ensures Advances(ro, ReportTarget(ro, d, version, clearedAt))
  {
    hide WellBatched, Paced, Size, TotalBatches, InState, Advances;
    OpenRows(ro, d);
    RowAdvance(ro, d, ReportTarget(ro, d, version, clearedAt));
    var row := UpdatedRow(ro.rows[d], version, clearedAt);
    RowUpdate(ro, d, row);
    var mid := ro.(rows := ro.rows[d := row]);
    PacedCarriesOver(ro, mid, now);
    UpdatedMid(ro, d, row);
    hide Progress, LifeCycle, RefreshCompletion;
    RefreshSound(mid, now);
  }

  /** Replacing an open row by an updated one. */
  lemma UpdatedMid(ro: Rollout, d: nat, row: Row)
    requires ro.rows != map[] && LifeCycle(ro) && Progress(ro) && Active(ro) && d in ro.rows
    requires row.state == DeviceUpdated && row.batch == ro.rows[d].batch
    requires TotalBatches(ro.(rows := ro.rows[d := row])) == TotalBatches(ro)
    ensures var mid := ro.(rows := ro.rows[d := row]);
            && Progress(mid)
            && (forall e :: e in mid.rows ==> mid.rows[e].state != DeviceCancelled)
            && (forall e :: e in Open(mid) ==> mid.rows[e].retainedClearedAt.None?)
  {
    hide TotalBatches, WellBatched;
  }

  lemma OpenRows(ro: Rollout, d: nat)
    requires d in Open(ro)
    ensures d in ro.rows && Stage(ro.rows[d].state) < Stage(DeviceUpdated)
  {
  }

  lemma ReportedSound(ro: Rollout, d: nat, version: string, now: int)
    requires Sound(ro, now) && Active(ro) && d in Open(ro)
    ensures Sound(Reported(ro, d, version), now) && Advances(ro, Reported(ro, d, version))
  {
    hide WellBatched, Paced, Size, TotalBatches, InState, Advances, LifeCycle, Progress;
    OpenRows(ro, d);
    var after := Reported(ro, d, version);
    SameStates(ro, d);
    RowAdvance(ro, d, after);
    RowUpdate(ro, d, after.rows[d]);
    PacedCarriesOver(ro, after, now);
    SameWaiting(ro, after);
  }

  /** Life cycle and progress look only at batches, states and the clearing times. */
  lemma SameWaiting(a: Rollout, b: Rollout)
    requires LifeCycle(a) && a.rows != map[] && b.rows != map[] && Progress(a) && b == a.(rows := b.rows)
    requires a.rows.Keys == b.rows.Keys && TotalBatches(b) == TotalBatches(a)
    requires forall d :: d in a.rows ==> b.rows[d].(lastReportedVersion := "") == a.rows[d].(lastReportedVersion := "")
    requires forall state :: InState(a, state) == InState(b, state)
    ensures LifeCycle(b) && Progress(b)
  {
    hide TotalBatches;
    assert Open(a) == Open(b) && Waiting(a) == Waiting(b);
  }

  lemma SameStates(ro: Rollout, d: nat)
    requires d in ro.rows
    ensures forall state :: (if ro.rows[d].state == state then InState(ro, state) + {d} else InState(ro, state) - {d})
                            == InState(ro, state)
  {
  }

  // ---------- dispatching keeps a rollout sound ----------

  /** A dispatch sends to at most a batch size of devices. */
  lemma DispatchWithinBatch(ro: Rollout, upToDate: set<nat>, net: Net)
    requires WellBatched(ro) && Waiting(ro) != {}
    ensures |Published(ro, upToDate, net)| <= Size(ro)
    ensures |ro.exposed + Published(ro, upToDate, net)| <= |ro.exposed| + Size(ro)
    ensures 1 <= NextBatch(ro) <= TotalBatches(ro)
  {
    var published := Published(ro, upToDate, net);
    SubsetSize(published, RowsInBatch(ro, NextBatch(ro)));
    hide Published, Size, TotalBatches;
    var added := published - ro.exposed;
    SubsetSize(added, published);
    assert ro.exposed + published == ro.exposed + added;
  }

  /** What a dispatch does to the rows; without a failure it empties the batch. */
  lemma DispatchRows(ro: Rollout, upToDate: set<nat>, net: Net, now: int)
    requires Waiting(ro) != {}
    ensures var rows := DispatchedRows(ro, upToDate, net, now);
            && rows.Keys == ro.rows.Keys
            && (forall d :: d in rows ==> RowAdvances(ro.rows[d], rows[d]))
            && (forall d :: d in rows && rows[d].state == DeviceCancelled ==> ro.rows[d].state == DeviceCancelled)
            && (forall d :: d in Open(ro.(rows := rows)) ==>
                  d in Open(ro) && rows[d].retainedClearedAt == ro.rows[d].retainedClearedAt)
            && (Failing(ro, upToDate, net) == {} ==>
                  Waiting(ro.(rows := rows)) == Waiting(ro) - Targets(ro))
  {
    var rows := DispatchedRows(ro, upToDate, net, now);
    if Failing(ro, upToDate, net) == {} {
      assert Reached(ro, upToDate, net) == Targets(ro);
      hide NextBatch;
      forall d | d in rows
        ensures d in Waiting(ro.(rows := rows)) <==> d in Waiting(ro) - Targets(ro)
      {
      }
    }
  }

  lemma SettleLifeCycle(ro: Rollout, now: int)
    requires forall d :: d in ro.rows ==> ro.rows[d].state != DeviceCancelled
    requires forall d :: d in Open(ro) ==> ro.rows[d].retainedClearedAt.None?
    ensures LifeCycle(Settle(ro, now))
  {
    var after := Settle(ro, now);
    assert Waiting(after) == Waiting(ro) && InState(after, DeviceSent) == InState(ro, DeviceSent);
    forall d | d in ro.rows && after.status == Completed
      ensures ro.rows[d].state == DeviceUpdated
    {
      assert d !in Waiting(ro) && d !in InState(ro, DeviceSent);
    }
  }

  lemma BudgetStep(size: nat, k: nat)
    ensures Budget(size, k + 1) == Budget(size, k) + size
  {
  }

  lemma AfterStep(t: int, k: int, interval: int)
    ensures After(t, k + 1, interval) == After(t, k, interval) + interval
    ensures After(t, 0, interval) == t
  {
  }

  /** A due dispatch comes at least an interval after the previous one. */
  lemma DispatchPaced(a: Rollout, b: Rollout, now: int)
    requires Paced(a, now) && Active(a) && a.nextBatchAt.Some? && a.nextBatchAt.value <= now
    requires Size(b) == Size(a) && b.intervalMinutes == a.intervalMinutes
    requires |b.exposed| <= |a.exposed| + Size(a) && b.dispatches == a.dispatches + 1
    requires b.firstDispatch == if a.firstDispatch.None? then Some(now) else a.firstDispatch
    requires Active(b) && b.nextBatchAt.Some? ==> b.nextBatchAt.value >= now + Interval(a)
    ensures Paced(b, now)
  {
    BudgetStep(Size(a), a.dispatches);
    AfterStep(b.firstDispatch.value, a.dispatches, Interval(a));
    hide Size, Budget, After;
  }

  /** A dispatch in the abstract: what its parts have to deliver for the whole to be sound. */
  lemma DispatchCore(a: Rollout, b: Rollout, now: int)
    requires Sound(a, now) && Active(a)
    requires a.rows.Keys == b.rows.Keys && (forall d :: d in a.rows ==> RowAdvances(a.rows[d], b.rows[d]))
    requires a.product == b.product && a.targetVersion == b.targetVersion
    requires a.percentage == b.percentage && a.intervalMinutes == b.intervalMinutes
    requires b.dispatches == a.dispatches + 1 && a.lastBatch < b.lastBatch <= TotalBatches(a) && a.exposed <= b.exposed
    requires Active(b) ==> forall d :: d in Waiting(b) ==> b.rows[d].batch > b.lastBatch
    requires LifeCycle(b) && Paced(b, now)
    ensures Sound(b, now) && Advances(a, b)
  {
    SameBatches(a, b);
    hide WellBatched, LifeCycle, Paced, Size, TotalBatches;
  }

  /** Dispatching a due rollout keeps everything, moves to a strictly higher batch, and unless a
      publish fails leaves no pending row at or below that batch. */
  lemma DispatchSound(ro: Rollout, upToDate: set<nat>, net: Net, now: int)
    requires Sound(ro, now) && Active(ro) && Waiting(ro) != {}
    requires ro.nextBatchAt.Some? && ro.nextBatchAt.value <= now
    ensures var after := Dispatch(ro, upToDate, net, now);
            && Sound(after, now) && Advances(ro, after)
            && after.lastBatch == NextBatch(ro) > ro.lastBatch
            && (after.status != Failed ==> forall d :: d in Waiting(after) ==> after.rows[d].batch > after.lastBatch)
  {
    hide WellBatched, DispatchedRows, Published, Size, TotalBatches, Reached, Targets, NextBatch, InState, LifeCycle;
    var after := Dispatch(ro, upToDate, net, now);
    assert Active(ro) && LifeCycle(ro);
    DispatchRows(ro, upToDate, net, now);
    DispatchWithinBatch(ro, upToDate, net);
    SameBatches(ro, after);
    DispatchShape(ro, upToDate, net, now);
    FirstTarget(ro);
    hide Dispatch, Failing;
    DispatchPaced(ro, after, now);
    DispatchCore(ro, after, now);
  }

  lemma FirstTarget(ro: Rollout)
    requires ro.rows != map[] && Progress(ro) && Active(ro) && Waiting(ro) != {}
    ensures NextBatch(ro) > ro.lastBatch
  {
  }

  lemma DispatchShape(ro: Rollout, upToDate: set<nat>, net: Net, now: int)
    requires LifeCycle(ro) && Active(ro) && Waiting(ro) != {}
    ensures var after := Dispatch(ro, upToDate, net, now);
            && LifeCycle(after)
            && (after.status != Failed ==> forall d :: d in Waiting(after) ==> after.rows[d].batch > NextBatch(ro))
            && (Active(after) && after.nextBatchAt.Some? ==> after.nextBatchAt.value >= now + Interval(ro))
  {
    hide DispatchedRows, Published, Reached, NextBatch, Targets, Failing;
    BeyondTargets(ro);
    DispatchRows(ro, upToDate, net, now);
    var mid := Dispatched(ro, upToDate, net, now);
    SettleLifeCycle(mid, now);
    SettleWaiting(mid, now);
    hide Settle;
    assert Waiting(mid) == Waiting(ro.(rows := mid.rows));
  }

  lemma BeyondTargets(ro: Rollout)
    requires Waiting(ro) != {}
    ensures forall d :: d in Waiting(ro) - Targets(ro) ==> ro.rows[d].batch > NextBatch(ro)
  {
  }

  lemma SettleWaiting(ro: Rollout, now: int)
    ensures Settle(ro, now).rows == ro.rows && Waiting(Settle(ro, now)) == Waiting(ro)
    ensures Settle(ro, now).status != Failed
    ensures Settle(ro, now).nextBatchAt.Some? ==> Settle(ro, now).nextBatchAt.value == now + Interval(ro)
  {
  }
}
