/**
 What each handler of the rollouts does, in terms of the devices, rows and retained commands that an
 observer of the database and the broker sees.
 */
module RolloutLaws {
  import opened Wrappers
  import opened BatchAssignment
  import opened Rollout
  import opened RolloutWorld
  import opened RolloutReports
  import opened RolloutHistory

  // ---------- creating a rollout ----------

  /** The firmware is complete, and a live device of the product is known to run another version, or
      none is known. */
  predicate NeedsRollout(w: World, product: nat) {
    && product in w.products && w.products[product].version != "" && w.products[product].complete
    && exists d :: d in w.devices && w.devices[d].product == product && !w.devices[d].deleted
                   && w.devices[d].current != w.products[product].version
  }

  lemma EligibleExactly(w: World, product: nat)
    ensures CanRollOut(w, product) && Eligible(w, product) != {} <==> NeedsRollout(w, product)
  {
    if NeedsRollout(w, product) {
      var d :| d in w.devices && w.devices[d].product == product && !w.devices[d].deleted
               && w.devices[d].current != w.products[product].version;
      assert d in Eligible(w, product);
    }
  }

  /** A rollout is created exactly if one is needed. It has a pending row for exactly the live devices of
      the product that are not known to run its version, and the product's settings. */
  lemma CreatesExactly(key: SortKey, w: World, product: nat, net: Net)
    ensures var w', id := CreateRollout(key, w, product, net), w.nextRollout;
            if !NeedsRollout(w, product) then w' == w
            else
              && id in w'.rollouts && w'.nextRollout == id + 1
              && var ro, p := w'.rollouts[id], w.products[product];
              && (forall d :: d in ro.rows <==>
                    d in w.devices && w.devices[d].product == product && !w.devices[d].deleted
                    && w.devices[d].current != p.version)
              && (forall d :: d in ro.rows ==> ro.rows[d] == Row(ro.rows[d].batch, DevicePending, None, None, ""))
              && ro.product == product && ro.targetVersion == p.version
              && ro.status == Pending && ro.nextBatchAt == Some(w.now)
              && ro.firstDispatch == None && ro.dispatches == 0 && ro.lastBatch == 0 && ro.exposed == {}
              && ro.percentage == (if 1 <= p.rolloutPercentage <= 100 then p.rolloutPercentage else 20)
              && ro.intervalMinutes == (if p.rolloutIntervalMinutes > 0 then p.rolloutIntervalMinutes else 60)
  {
    EligibleExactly(w, product);
    if NeedsRollout(w, product) {
      NewRowsExactly(key, w, product);
    }
    hide NewRows, CancelActive, NeedsRollout;
  }

  lemma NewRowsExactly(key: SortKey, w: World, product: nat)
    requires product in w.products && Eligible(w, product) != {}
    ensures forall percentage :: var rows := NewRows(key, w.nextRollout, Eligible(w, product), percentage);
              && (forall d :: d in rows <==>
                    d in w.devices && w.devices[d].product == product && !w.devices[d].deleted
                    && w.devices[d].current != w.products[product].version)
              && (forall d :: d in rows ==> rows[d] == Row(rows[d].batch, DevicePending, None, None, ""))
  {
    hide BatchOf, BatchSize;
  }

  /** How a product's settings are read. */
  lemma SettingsExactly(p: Product)
    ensures 1 <= p.rolloutPercentage <= 100 ==> EffectiveRolloutPercentage(p) == p.rolloutPercentage
    ensures !(1 <= p.rolloutPercentage <= 100) ==> EffectiveRolloutPercentage(p) == 20
    ensures p.rolloutIntervalMinutes >= 1 ==> EffectiveRolloutIntervalMinutes(p) == p.rolloutIntervalMinutes
    ensures p.rolloutIntervalMinutes < 1 ==> EffectiveRolloutIntervalMinutes(p) == 60
  {
  }

  /** The devices that come before `d` when sorted by key, then by id. */
  ghost function Sooner(key: SortKey, id: nat, devices: set<nat>, d: nat): set<nat> {
    set e | e in devices && (key(id, e) < key(id, d) || (key(id, e) == key(id, d) && e < d))
  }

  /** Batches are filled in the order of the keys, with the least number of devices that makes up the
      percentage: the number of devices before it decides a device's batch. */
  lemma BatchesExactly(key: SortKey, id: nat, devices: set<nat>, percentage: int, d: nat)
    requires d in devices && 1 <= percentage <= 100
    ensures var n, size := |devices|, BatchSize(|devices|, percentage);
            && size >= 1 && size * 100 >= n * percentage && (size == 1 || (size - 1) * 100 < n * percentage)
            && NewRows(key, id, devices, percentage)[d].batch == |Sooner(key, id, devices, d)| / size + 1
  {
    assert devices != {};
    SizeCovers(|devices|, percentage);
    hide BatchSize;
    assert Sooner(key, id, devices, d) == set e | e in devices && BatchAssignment.Before(key, id, e, d);
  }

  // ---------- cancelling ----------

  predicate IsOpen(row: Row) { row.state == DevicePending || row.state == DeviceSent }

  /** Creating a rollout ends exactly the product's active ones: a row is cancelled if it is open and its
      command could be cleared, and stays as it is otherwise. */
  lemma CancelsExactly(key: SortKey, w: World, product: nat, net: Net, r: nat)
    requires NeedsRollout(w, product) && r in w.rollouts && r != w.nextRollout
    ensures var w' := CreateRollout(key, w, product, net);
            && r in w'.rollouts
            && var a, b := w.rollouts[r], w'.rollouts[r];
            if a.product == product && (a.status == Pending || a.status == Running) then
              && b == a.(status := Cancelled, nextBatchAt := None, rows := b.rows) && b.rows.Keys == a.rows.Keys
              && forall d :: d in a.rows ==>
                   b.rows[d] == if IsOpen(a.rows[d]) && d !in net.lost && d !in net.unconfirmed then
                                  a.rows[d].(state := DeviceCancelled, retainedClearedAt := Some(w.now))
                                else a.rows[d]
            else b == a
  {
    EligibleExactly(w, product);
    CancelOneExactly(w.rollouts[r], net, w.now);
    hide NewRollout, Cancel, Eligible, CanRollOut, NeedsRollout;
  }

  lemma CancelOneExactly(a: Rollout, net: Net, now: int)
    ensures var b := Cancel(a, net, now);
            && b == a.(status := Cancelled, nextBatchAt := None, rows := b.rows) && b.rows.Keys == a.rows.Keys
            && forall d :: d in a.rows ==>
                 b.rows[d] == if IsOpen(a.rows[d]) && d !in net.lost && d !in net.unconfirmed then
                                a.rows[d].(state := DeviceCancelled, retainedClearedAt := Some(now))
                              else a.rows[d]
  {
  }

  /** It clears exactly the commands of devices that are open in such a rollout, unless the message is
      lost. */
  lemma CreationClearsExactly(key: SortKey, w: World, product: nat, net: Net, d: nat)
    requires NeedsRollout(w, product)
    ensures var w' := CreateRollout(key, w, product, net);
            && (d in w'.retained ==> d in w.retained && w'.retained[d] == w.retained[d])
            && (d in w.retained && d !in w'.retained <==>
                  && d in w.retained && d !in net.lost
                  && exists r :: r in w.rollouts && w.rollouts[r].product == product
                                 && (w.rollouts[r].status == Pending || w.rollouts[r].status == Running)
                                 && d in w.rollouts[r].rows && IsOpen(w.rollouts[r].rows[d]))
  {
    EligibleExactly(w, product);
    hide NewRollout, Cancel, Eligible, CanRollOut, NeedsRollout;
    WipedExactly(w, product, net, d);
  }

  lemma WipedExactly(w: World, product: nat, net: Net, d: nat)
    ensures d in (set r, e | r in ActiveOf(w, product) && e in Wiped(w.rollouts[r], net) :: e) <==>
              && d !in net.lost
              && exists r :: r in w.rollouts && w.rollouts[r].product == product
                             && (w.rollouts[r].status == Pending || w.rollouts[r].status == Running)
                             && d in w.rollouts[r].rows && IsOpen(w.rollouts[r].rows[d])
  {
    forall r | r in w.rollouts
      ensures r in ActiveOf(w, product) && d in Wiped(w.rollouts[r], net) <==>
                && d !in net.lost && w.rollouts[r].product == product
                && (w.rollouts[r].status == Pending || w.rollouts[r].status == Running)
                && d in w.rollouts[r].rows && IsOpen(w.rollouts[r].rows[d])
    {
    }
    hide ActiveOf, Wiped, IsOpen;
  }

  // ---------- dispatching ----------

  /** The batch that is dispatched next. */
  ghost predicate LowestPending(ro: Rollout, b: nat) {
    && (exists d :: d in ro.rows && ro.rows[d].state == DevicePending && ro.rows[d].batch == b)
    && (forall d :: d in ro.rows && ro.rows[d].state == DevicePending ==> b <= ro.rows[d].batch)
  }

  /** The server knows the device to run this version. */
  predicate KnownToRun(w: World, d: nat, version: string) {
    d in w.devices && w.devices[d].current != "" && w.devices[d].current == version
  }

  /** A device of batch `b` that has to be sent the command, and whose publish is reported as failed. */
  predicate PublishFails(w: World, ro: Rollout, b: nat, net: Net, d: nat) {
    && d in ro.rows && ro.rows[d].state == DevicePending && ro.rows[d].batch == b
    && !KnownToRun(w, d, ro.targetVersion) && (d in net.lost || d in net.unconfirmed)
  }

  /** A dispatch gets to the devices up to and including the first whose publish fails. */
  ghost predicate GetsTo(w: World, ro: Rollout, b: nat, net: Net, d: nat) {
    && d in ro.rows && ro.rows[d].state == DevicePending && ro.rows[d].batch == b
    && forall e :: PublishFails(w, ro, b, net, e) ==> d <= e
  }

  predicate CanDispatch(w: World, r: nat) {
    && r in w.rollouts && (w.rollouts[r].status == Pending || w.rollouts[r].status == Running)
    && w.rollouts[r].nextBatchAt.Some? && w.rollouts[r].nextBatchAt.value <= w.now
    && w.rollouts[r].product in w.products && w.products[w.rollouts[r].product].complete
  }

  lemma SameBatch(ro: Rollout, b: nat)
    requires LowestPending(ro, b)
    ensures Waiting(ro) != {} && NextBatch(ro) == b
  {
    var d :| d in ro.rows && ro.rows[d].state == DevicePending && ro.rows[d].batch == b;
    assert d in Waiting(ro);
    assert forall e :: e in Waiting(ro) <==> e in ro.rows && ro.rows[e].state == DevicePending;
    hide Waiting;
  }

  lemma SameFailures(w: World, ro: Rollout, b: nat, net: Net)
    requires LowestPending(ro, b)
    ensures Waiting(ro) != {}
    ensures forall d :: d in Failing(ro, UpToDate(w, ro.targetVersion), net) <==> PublishFails(w, ro, b, net, d)
    ensures forall d :: d in Reached(ro, UpToDate(w, ro.targetVersion), net) <==> GetsTo(w, ro, b, net, d)
    ensures forall d :: d in UpToDate(w, ro.targetVersion) <==> KnownToRun(w, d, ro.targetVersion)
  {
    SameBatch(ro, b);
    hide NextBatch, LowestPending;
    var upToDate := UpToDate(w, ro.targetVersion);
    assert forall d :: d in upToDate <==> KnownToRun(w, d, ro.targetVersion);
    hide UpToDate, KnownToRun;
    assert forall d :: d in Failing(ro, upToDate, net) <==> PublishFails(w, ro, b, net, d);
    hide Failing, PublishFails;
  }

  /** What a dispatch does to one device's row and retained command. Devices known to run the version are
      marked updated and sent nothing; the others of the batch are sent the command and marked sent, up
      to the first failure. */
  ghost predicate DeviceServed(w: World, w': World, r: nat, net: Net, b: nat, d: nat)
    requires r in w.rollouts
  {
    && r in w'.rollouts && w'.rollouts[r].rows.Keys == w.rollouts[r].rows.Keys
    && var ro, command := w.rollouts[r], Command(r, w.rollouts[r].targetVersion);
    && (d in ro.rows ==>
          w'.rollouts[r].rows[d] == (
            if !GetsTo(w, ro, b, net, d) || PublishFails(w, ro, b, net, d) then ro.rows[d]
            else if KnownToRun(w, d, ro.targetVersion) then
              ro.rows[d].(state := DeviceUpdated, lastReportedVersion := ro.targetVersion)
            else ro.rows[d].(state := DeviceSent, sentAt := Some(w.now))))
    && (d in w'.rollouts[r].exposed <==>
          || d in ro.exposed
          || (GetsTo(w, ro, b, net, d) && !KnownToRun(w, d, ro.targetVersion) && d !in net.lost))
    && (if GetsTo(w, ro, b, net, d) && !KnownToRun(w, d, ro.targetVersion) && d !in net.lost then
          d in w'.retained && w'.retained[d] == command
        else (d in w'.retained <==> d in w.retained) && (d in w.retained ==> w'.retained[d] == w.retained[d]))
  }

  lemma DispatchedForm(w: World, r: nat, net: Net)
    requires CanDispatch(w, r) && Waiting(w.rollouts[r]) != {}
    ensures var ro, w' := w.rollouts[r], DispatchNextBatch(w, r, net);
            var upToDate := UpToDate(w, ro.targetVersion);
            && r in w'.rollouts && w'.rollouts[r].rows == DispatchedRows(ro, upToDate, net, w.now)
            && w'.rollouts[r].exposed == ro.exposed + Published(ro, upToDate, net)
            && w'.retained == WithCommands(w.retained, Published(ro, upToDate, net), Command(r, ro.targetVersion))
  {
    var ro := w.rollouts[r];
    var upToDate := UpToDate(w, ro.targetVersion);
    SettleKeepsRows(Dispatched(ro, upToDate, net, w.now), w.now);
    hide UpToDate, NextBatch, Failing, Reached, Waiting, Settle, DispatchedRows, Published, WithCommands;
  }

  lemma DispatchesExactly(w: World, r: nat, net: Net, b: nat, d: nat)
    requires CanDispatch(w, r) && LowestPending(w.rollouts[r], b)
    ensures DeviceServed(w, DispatchNextBatch(w, r, net), r, net, b, d)
  {
    hide UpToDate, KnownToRun, GetsTo, PublishFails, LowestPending, NextBatch, Failing, Reached, Waiting,
         DispatchNextBatch;
    SameFailures(w, w.rollouts[r], b, net);
    DispatchedForm(w, r, net);
  }

  lemma DispatchServes(w: World, r: nat, net: Net)
    ensures forall b: nat, d: nat :: CanDispatch(w, r) && LowestPending(w.rollouts[r], b) ==>
              DeviceServed(w, DispatchNextBatch(w, r, net), r, net, b, d)
  {
    hide DispatchNextBatch, DeviceServed, LowestPending;
    forall b: nat, d: nat | CanDispatch(w, r) && LowestPending(w.rollouts[r], b)
      ensures DeviceServed(w, DispatchNextBatch(w, r, net), r, net, b, d)
    {
      DispatchesExactly(w, r, net, b, d);
    }
  }

  /** Without failures: every row of the lowest pending batch is updated if the device is known to run the
      version and sent otherwise, and only in that case is the command published. */
  lemma DispatchesWholeBatch(w: World, r: nat, net: Net, b: nat, d: nat)
    requires CanDispatch(w, r) && LowestPending(w.rollouts[r], b)
    requires forall e :: !PublishFails(w, w.rollouts[r], b, net, e)
    ensures var w' := DispatchNextBatch(w, r, net);
            && r in w'.rollouts && w'.rollouts[r].rows.Keys == w.rollouts[r].rows.Keys
            && var ro := w.rollouts[r];
            var current := d in w.devices && w.devices[d].current != "" && w.devices[d].current == ro.targetVersion;
            if d in ro.rows && ro.rows[d].state == DevicePending && ro.rows[d].batch == b then
              if current then
                && w'.rollouts[r].rows[d]
                     == ro.rows[d].(state := DeviceUpdated, lastReportedVersion := ro.targetVersion)
                && (d in w'.retained <==> d in w.retained) && (d in w.retained ==> w'.retained[d] == w.retained[d])
              else
                && w'.rollouts[r].rows[d] == ro.rows[d].(state := DeviceSent, sentAt := Some(w.now))
                && d in w'.retained && w'.retained[d] == Command(r, ro.targetVersion)
            else
              && (d in ro.rows ==> w'.rollouts[r].rows[d] == ro.rows[d])
              && (d in w'.retained <==> d in w.retained) && (d in w.retained ==> w'.retained[d] == w.retained[d])
  {
    DispatchesExactly(w, r, net, b, d);
    assert !PublishFails(w, w.rollouts[r], b, net, d);
    hide DispatchNextBatch, LowestPending;
  }

  /** What becomes of a rollout that dispatches batch `b`: failed if a publish failed; otherwise due again
      after the interval if rows are pending, and off the schedule if not, completed exactly if none is
      sent. */
  ghost predicate DispatchedTo(a: Rollout, ro: Rollout, b: nat, failed: bool, now: int) {
    && ro.dispatches == a.dispatches + 1 && ro.lastBatch == b
    && ro.firstDispatch == (if a.firstDispatch.None? then Some(now) else a.firstDispatch)
    && ro.targetVersion == a.targetVersion && ro.product == a.product
    && ro.percentage == a.percentage && ro.intervalMinutes == a.intervalMinutes
    && if failed then ro.status == Failed && ro.nextBatchAt == a.nextBatchAt
       else if exists e :: e in ro.rows && ro.rows[e].state == DevicePending then
         ro.status == Running && ro.nextBatchAt == Some(now + a.intervalMinutes * 60_000_000_000)
       else
         && ro.nextBatchAt == None
         && ro.status == (if exists e :: e in ro.rows && ro.rows[e].state == DeviceSent then Running else Completed)
  }

  /** It does nothing to any other rollout. */
  lemma DispatchSettles(w: World, r: nat, net: Net, b: nat)
    requires CanDispatch(w, r) && LowestPending(w.rollouts[r], b)
    ensures var w' := DispatchNextBatch(w, r, net);
            && r in w'.rollouts && w'.rollouts.Keys == w.rollouts.Keys
            && (forall s :: s in w.rollouts && s != r ==> w'.rollouts[s] == w.rollouts[s])
            && DispatchedTo(w.rollouts[r], w'.rollouts[r], b, exists e :: PublishFails(w, w.rollouts[r], b, net, e),
                            w.now)
  {
    var ro := w.rollouts[r];
    hide UpToDate, KnownToRun, PublishFails, LowestPending, NextBatch, Failing, Reached, Dispatch, Waiting, Published,
         WithCommands, DispatchedTo;
    SomeFailure(w, ro, b, net);
    SameBatch(ro, b);
    OutcomeExactly(ro, UpToDate(w, ro.targetVersion), net, w.now);
    DispatchIs(w, r, net);
    hide DispatchNextBatch, CanDispatch;
  }

  lemma OutcomeExactly(a: Rollout, upToDate: set<nat>, net: Net, now: int)
    requires Waiting(a) != {}
    ensures DispatchedTo(a, Dispatch(a, upToDate, net, now), NextBatch(a), Failing(a, upToDate, net) != {}, now)
  {
    hide NextBatch, Failing, Reached, Waiting, Published, DispatchedRows, Settle;
    SettlesExactly(Dispatched(a, upToDate, net, now), now);
  }

  lemma SomeFailure(w: World, ro: Rollout, b: nat, net: Net)
    requires LowestPending(ro, b)
    ensures Waiting(ro) != {}
    ensures Failing(ro, UpToDate(w, ro.targetVersion), net) != {} <==> exists e :: PublishFails(w, ro, b, net, e)
  {
    SameFailures(w, ro, b, net);
    hide UpToDate, PublishFails, LowestPending, Failing, Reached, GetsTo, KnownToRun;
    if e :| PublishFails(w, ro, b, net, e) {
      assert e in Failing(ro, UpToDate(w, ro.targetVersion), net);
    }
  }

  lemma DispatchIs(w: World, r: nat, net: Net)
    requires CanDispatch(w, r) && Waiting(w.rollouts[r]) != {}
    ensures DispatchNextBatch(w, r, net).rollouts
         == w.rollouts[r := Dispatch(w.rollouts[r], UpToDate(w, w.rollouts[r].targetVersion), net, w.now)]
  {
    hide Dispatch, UpToDate, Waiting, Published, WithCommands;
  }

  lemma SettlesExactly(ro: Rollout, now: int)
    ensures var after := Settle(ro, now);
            && after == ro.(status := after.status, nextBatchAt := after.nextBatchAt)
            && if exists e :: e in ro.rows && ro.rows[e].state == DevicePending then
                 after.status == Running && after.nextBatchAt == Some(now + ro.intervalMinutes * 60_000_000_000)
               else
                 && after.nextBatchAt == None
                 && after.status == (if exists e :: e in ro.rows && ro.rows[e].state == DeviceSent then Running
                                     else Completed)
  {
    InStateExactly(ro, DevicePending);
    InStateExactly(ro, DeviceSent);
    hide InState;
  }

  lemma InStateExactly(ro: Rollout, state: DeviceState)
    ensures InState(ro, state) != {} <==> exists e :: e in ro.rows && ro.rows[e].state == state
  {
    if e :| e in ro.rows && ro.rows[e].state == state {
      assert e in InState(ro, state);
    }
  }

  /** Nothing happens to a rollout that is not due; one without pending rows leaves the schedule, and one
      whose firmware is not complete fails. */
  lemma OtherwiseDispatched(w: World, r: nat, net: Net)
    ensures var w' := DispatchNextBatch(w, r, net);
            if !(r in w.rollouts && (w.rollouts[r].status == Pending || w.rollouts[r].status == Running)
                 && w.rollouts[r].nextBatchAt.Some? && w.rollouts[r].nextBatchAt.value <= w.now) then w' == w
            else
              var ro := w.rollouts[r];
              if forall d :: d in ro.rows ==> ro.rows[d].state != DevicePending then
                w' == w.(rollouts := w.rollouts[r := ro.(nextBatchAt := None,
                  status := if exists d :: d in ro.rows && ro.rows[d].state == DeviceSent then Running else Completed)])
              else !CanDispatch(w, r) ==> w' == w.(rollouts := w.rollouts[r := ro.(status := Failed)])
  {
    if r in w.rollouts {
      InStateExactly(w.rollouts[r], DevicePending);
      InStateExactly(w.rollouts[r], DeviceSent);
    }
    hide InState, Dispatch, Published;
  }

  // ---------- device reports ----------

  /** The rollout is active, and the device's row in it is pending or sent. */
  predicate OpenIn(w: World, r: nat, d: nat) {
    && r in w.rollouts && (w.rollouts[r].status == Pending || w.rollouts[r].status == Running)
    && d in w.rollouts[r].rows && IsOpen(w.rollouts[r].rows[d])
  }

  lemma MatchesExactly(w: World, d: nat, order: seq<nat>)
    ensures Elements(order) == Matches(w, d) <==> forall r :: r in order <==> OpenIn(w, r, d)
  {
    assert forall r :: r in Matches(w, d) <==> OpenIn(w, r, d);
    hide OpenIn, Matches;
    if forall r :: r in order <==> OpenIn(w, r, d) {
      assert Elements(order) == Matches(w, d);
    } else {
      var r :| !(r in order <==> OpenIn(w, r, d));
      assert r in Elements(order) <==> r in order;
    }
  }

  /** With a broker that clears: a report clears the device's command, whoever sent it, exactly if the
      device reports its live product's version, or the target of a rollout in which it is open. Nothing
      else is cleared. */
  ghost predicate CommandAfterReport(w: World, w': World, d: nat, version: string, e: nat) {
    if e == d
       && ((version != "" && d in w.devices && !w.devices[d].deleted && w.devices[d].product in w.products
            && w.products[w.devices[d].product].version == version)
           || exists r :: OpenIn(w, r, d) && w.rollouts[r].targetVersion == version) then
      e !in w'.retained
    else (e in w'.retained <==> e in w.retained) && (e in w.retained ==> w'.retained[e] == w.retained[e])
  }

  lemma ReportsClearExactly(w: World, d: nat, version: string, order: seq<nat>, e: nat)
    requires Distinct(order) && forall r :: r in order <==> OpenIn(w, r, d)
    ensures Elements(order) == Matches(w, d)
    ensures CommandAfterReport(w, HandleStatus(w, d, version, order, []), d, version, e)
  {
    MatchesExactly(w, d, order);
    hide HandleStatus, Distinct, Elements, Matches, OpenIn, Hits;
    HitsExactly(w, d, version, order);
    RetainedAfter(w, d, version, order);
  }

  lemma RetainedAfter(w: World, d: nat, version: string, order: seq<nat>)
    requires Distinct(order) && Elements(order) == Matches(w, d)
    ensures Matches(w, d) <= w.rollouts.Keys
    ensures HandleStatus(w, d, version, order, []).retained
         == if RunsCurrent(w, d, version) || Hits(w, version, Matches(w, d)) then w.retained - {d} else w.retained
  {
    SettledReports(w, d, version, order);
    assert Matches(w, d) <= w.rollouts.Keys;
    var w1 := if RunsCurrent(w, d, version) then Clear(w, d, Delivered) else w;
    assert Hits(w1, version, Matches(w, d)) == Hits(w, version, Matches(w, d));
    hide HandleStatus, Distinct, Elements, Matches, Hits, SettleThese, RunsCurrent;
  }

  lemma ReportsClear(w: World, d: nat, version: string, order: seq<nat>)
    requires Distinct(order) && Elements(order) == Matches(w, d)
    ensures forall e :: CommandAfterReport(w, HandleStatus(w, d, version, order, []), d, version, e)
  {
    MatchesExactly(w, d, order);
    hide HandleStatus, CommandAfterReport, Distinct, Elements, Matches, OpenIn;
    forall e
      ensures CommandAfterReport(w, HandleStatus(w, d, version, order, []), d, version, e)
    {
      ReportsClearExactly(w, d, version, order, e);
    }
  }

  lemma HitsExactly(w: World, d: nat, version: string, order: seq<nat>)
    requires Elements(order) == Matches(w, d) && forall r :: r in order <==> OpenIn(w, r, d)
    ensures Hits(w, version, Matches(w, d)) <==> exists r :: OpenIn(w, r, d) && w.rollouts[r].targetVersion == version
  {
    assert forall r :: r in Matches(w, d) <==> OpenIn(w, r, d);
    hide Matches, OpenIn, Elements;
    if r :| OpenIn(w, r, d) && w.rollouts[r].targetVersion == version {
      assert r in Matches(w, d);
    }
  }

  /** Whatever becomes of the clears: a report is noted in the device's row of exactly the rollouts in
      which it is open. Where it reports the target, the row is updated, the rollout leaves the schedule,
      and it is completed exactly if no row is open any more. */
  lemma ReportsMarkExactly(w: World, d: nat, version: string, order: seq<nat>, attempts: seq<Delivery>, r: nat)
    requires Distinct(order) && (forall r :: r in order <==> OpenIn(w, r, d)) && r in w.rollouts
    ensures Elements(order) == Matches(w, d)
    ensures var w' := HandleStatus(w, d, version, order, attempts);
            && r in w'.rollouts && w'.rollouts.Keys == w.rollouts.Keys
            && var a, b := w.rollouts[r], w'.rollouts[r];
            if !OpenIn(w, r, d) then b == a
            else
              && d in a.rows && b.rows.Keys == a.rows.Keys
              && (forall e :: e in a.rows && e != d ==> b.rows[e] == a.rows[e])
              && if version != a.targetVersion then
                   b == a.(rows := b.rows) && b.rows[d] == a.rows[d].(lastReportedVersion := version)
                 else
                   && b == a.(rows := b.rows, status := b.status, nextBatchAt := None)
                   && b.rows[d].state == DeviceUpdated && b.rows[d].lastReportedVersion == version
                   && b.rows[d].batch == a.rows[d].batch
                   && b.status == (if exists e :: e in b.rows && IsOpen(b.rows[e]) then Running else Completed)
  {
    MatchesExactly(w, d, order);
    ReportSeenBy(w, d, version, order, attempts, r);
    var b := HandleStatus(w, d, version, order, attempts).rollouts[r];
    OpenExactly(b);
    hide HandleStatus, Distinct, Elements, Matches, OpenIn, Open, IsOpen;
  }

  lemma OpenExactly(ro: Rollout)
    ensures Open(ro) == {} <==> !exists e :: e in ro.rows && IsOpen(ro.rows[e])
  {
    if e :| e in ro.rows && IsOpen(ro.rows[e]) {
      assert e in Open(ro);
    }
  }

  // ---------- manual triggers ----------

  /** A manual trigger is possible. */
  predicate CanTrigger(w: World, d: nat) {
    && d in w.devices && !w.devices[d].deleted && w.devices[d].product in w.products
    && var p := w.products[w.devices[d].product];
    p.version != "" && p.complete && w.devices[d].current != p.version
  }

  /** It leaves exactly the product's version as the device's command, and no other command changes. */
  lemma TriggersExactly(w: World, d: nat, delivery: Delivery)
    ensures var w' := TriggerDeviceUpdate(w, d, delivery);
            && (!CanTrigger(w, d) || delivery == Lost ==> w' == w)
            && (CanTrigger(w, d) && delivery != Lost ==>
                  w'.retained == w.retained[d := Command(0, w.products[w.devices[d].product].version)])
            && (delivery != Delivered ==> w'.rollouts == w.rollouts)
            && w' == w.(retained := w'.retained, rollouts := w'.rollouts)
  {
    hide MarkSent;
  }

  predicate WaitsIn(w: World, r: nat, d: nat) {
    && r in w.rollouts && (w.rollouts[r].status == Pending || w.rollouts[r].status == Running)
    && d in w.rollouts[r].rows && w.rollouts[r].rows[d].state == DevicePending
  }

  /** The newest active rollout in which the device's row is pending. */
  ghost predicate NewestWaiting(w: World, r: nat, d: nat) {
    WaitsIn(w, r, d) && forall s: nat :: WaitsIn(w, s, d) ==> s <= r
  }

  /** A confirmed one marks the device's pending row in the newest active rollout sent, and nothing else. */
  lemma TriggersMarkExactly(w: World, d: nat, r: nat)
    requires CanTrigger(w, d) && r in w.rollouts
    ensures var w' := TriggerDeviceUpdate(w, d, Delivered);
            && r in w'.rollouts
            && var a, b := w.rollouts[r], w'.rollouts[r];
            if NewestWaiting(w, r, d) then
              b == a.(rows := a.rows[d := a.rows[d].(state := DeviceSent, sentAt := Some(w.now))])
            else b == a
  {
    var w1 := w.(retained := w.retained[d := Command(0, w.products[w.devices[d].product].version)]);
    hide MarkDeviceRolloutSent;
    assert TriggerDeviceUpdate(w, d, Delivered) == MarkDeviceRolloutSent(w1, d);
    hide TriggerDeviceUpdate, CanTrigger;
    MarksExactly(w1, d, r);
    assert forall s: nat :: WaitsIn(w1, s, d) == WaitsIn(w, s, d);
    hide WaitsIn;
  }

  lemma MarksExactly(w: World, d: nat, r: nat)
    requires r in w.rollouts
    ensures var w' := MarkDeviceRolloutSent(w, d);
            && r in w'.rollouts
            && var a, b := w.rollouts[r], w'.rollouts[r];
            if NewestWaiting(w, r, d) then
              b == a.(rows := a.rows[d := a.rows[d].(state := DeviceSent, sentAt := Some(w.now))])
            else b == a
  {
    NewestExactly(w, d, r);
    hide IsNewest, NewestWaiting, MarkDeviceRolloutSent;
    if s :| IsNewest(w, d, s) {
      var marked := MarkedOne(w, d);
      NewestExactly(w, d, marked);
      OnlyNewest(w, d, r, marked);
    } else {
      NoneMarked(w, d);
    }
  }

  lemma NewestExactly(w: World, d: nat, r: nat)
    ensures IsNewest(w, d, r) <==> NewestWaiting(w, r, d)
    ensures NewestWaiting(w, r, d) ==> r in w.rollouts && d in w.rollouts[r].rows
  {
    assert forall s: nat :: s in Candidates(w, d) <==> WaitsIn(w, s, d);
    hide Candidates;
  }

  lemma OnlyNewest(w: World, d: nat, r: nat, s: nat)
    requires NewestWaiting(w, s, d)
    ensures NewestWaiting(w, r, d) <==> r == s
  {
    hide WaitsIn;
  }

  lemma MarkedOne(w: World, d: nat) returns (r: nat)
    requires exists s :: IsNewest(w, d, s)
    ensures IsNewest(w, d, r) && r in w.rollouts && d in w.rollouts[r].rows
    ensures MarkDeviceRolloutSent(w, d) == w.(rollouts := w.rollouts[r :=
              w.rollouts[r].(rows := w.rollouts[r].rows[d :=
                w.rollouts[r].rows[d].(state := DeviceSent, sentAt := Some(w.now))])])
  {
    r :| IsNewest(w, d, r) && MarkDeviceRolloutSent(w, d) == Put(w, r, MarkSent(w.rollouts[r], d, w.now));
  }

  lemma NoneMarked(w: World, d: nat)
    requires !exists s :: IsNewest(w, d, s)
    ensures MarkDeviceRolloutSent(w, d) == w
  {
  }
}
