/**
 All rollouts together with products, devices and the broker's retained commands, and what
 each handler of the server does to them.
 */
module RolloutWorld {
  import opened Sets
  import opened Wrappers
  import opened BatchAssignment
  import opened Rollout

  /** `complete` says that both firmware URLs can be derived. */
  datatype Product = Product(version: string, complete: bool, rolloutPercentage: int, rolloutIntervalMinutes: int)

  /** `current` is the firmware version the server believes the device runs, empty if unknown. */
  datatype Device = Device(product: nat, current: string, deleted: bool)

  /** A retained update command; rollout 0 marks a manual one. */
  datatype Command = Command(rollout: nat, version: string)

  datatype World = World(
    now: int, products: map<nat, Product>, devices: map<nat, Device>,
    rollouts: map<nat, Rollout>, nextRollout: nat, retained: map<nat, Command>)

  /** What becomes of one command sent to the broker. */
  datatype Delivery = Delivered | Lost | Unconfirmed

  const DEFAULT_ROLLOUT_PERCENTAGE: int := 20
  const DEFAULT_ROLLOUT_INTERVAL_MINUTES: int := 60

  function EffectiveRolloutPercentage(p: Product): (r: int)
    ensures 1 <= r <= 100
  {
    if 1 <= p.rolloutPercentage <= 100 then p.rolloutPercentage else DEFAULT_ROLLOUT_PERCENTAGE
  }

  function EffectiveRolloutIntervalMinutes(p: Product): (r: int)
    ensures r >= 1
  {
    if p.rolloutIntervalMinutes > 0 then p.rolloutIntervalMinutes else DEFAULT_ROLLOUT_INTERVAL_MINUTES
  }

  // ---------- creating a rollout ----------

  predicate CanRollOut(w: World, product: nat) {
    product in w.products && w.products[product].version != "" && w.products[product].complete
  }

  function Eligible(w: World, product: nat): set<nat>
    requires product in w.products
  {
    set d | d in w.devices && w.devices[d].product == product && !w.devices[d].deleted
            && w.devices[d].current != w.products[product].version
  }

  function ActiveOf(w: World, product: nat): set<nat> {
    set r | r in w.rollouts && w.rollouts[r].product == product && Active(w.rollouts[r])
  }

  /** The devices whose retained command one cancellation wipes. */
  function Wiped(ro: Rollout, net: Net): set<nat> { Open(ro) - net.lost }

  function CancelThese(w: World, these: set<nat>, net: Net): (w': World)
    requires these <= w.rollouts.Keys
    ensures w' == w.(rollouts := w'.rollouts, retained := w'.retained) && w'.rollouts.Keys == w.rollouts.Keys
  {
    w.(rollouts := map r | r in w.rollouts :: if r in these then Cancel(w.rollouts[r], net, w.now) else w.rollouts[r],
       retained := w.retained - (set r, d | r in these && d in Wiped(w.rollouts[r], net) :: d))
  }

  function CancelActive(w: World, product: nat, net: Net): (w': World)
    ensures w' == w.(rollouts := w'.rollouts, retained := w'.retained) && w'.rollouts.Keys == w.rollouts.Keys
  {
    CancelThese(w, ActiveOf(w, product), net)
  }

  function CreateRollout(key: SortKey, w: World, product: nat, net: Net): World {
    if !CanRollOut(w, product) || Eligible(w, product) == {} then w
    else
      var p := w.products[product];
      var ro := NewRollout(key, w.nextRollout, product, p.version, EffectiveRolloutPercentage(p),
                           EffectiveRolloutIntervalMinutes(p), Eligible(w, product), w.now);
      var w1 := CancelActive(w, product, net);
      w1.(rollouts := w1.rollouts[w.nextRollout := ro], nextRollout := w.nextRollout + 1)
  }

  // ---------- the worker ----------

  predicate Due(w: World, r: nat) {
    && r in w.rollouts && Active(w.rollouts[r])
    && w.rollouts[r].nextBatchAt.Some? && w.rollouts[r].nextBatchAt.value <= w.now
  }

  /** Devices known to run the version already. */
  function UpToDate(w: World, version: string): set<nat> {
    set d | d in w.devices && w.devices[d].current != "" && w.devices[d].current == version
  }

  function Put(w: World, r: nat, ro: Rollout): World { w.(rollouts := w.rollouts[r := ro]) }

  function WithCommands(retained: map<nat, Command>, devices: set<nat>, command: Command): map<nat, Command> {
    retained + map d | d in devices :: command
  }

  ghost function DispatchNextBatch(w: World, r: nat, net: Net): World {
    if !Due(w, r) then w
    else
      var ro := w.rollouts[r];
      if Waiting(ro) == {} then Put(w, r, RefreshCompletion(ro))
      else if ro.product !in w.products || !w.products[ro.product].complete then Put(w, r, ro.(status := Failed))
      else
        var upToDate := UpToDate(w, ro.targetVersion);
        Put(w, r, Dispatch(ro, upToDate, net, w.now)).(
          retained := WithCommands(w.retained, Published(ro, upToDate, net), Command(r, ro.targetVersion)))
  }

  // ---------- device reports ----------

  function Matches(w: World, d: nat): set<nat> {
    set r | r in w.rollouts && Active(w.rollouts[r]) && d in Open(w.rollouts[r])
  }

  /** One attempt to clear a device's retained command. */
  function Clear(w: World, d: nat, delivery: Delivery): World {
    if delivery.Lost? then w else w.(retained := w.retained - {d})
  }

  /** The next attempt's fate; attempts beyond the given ones succeed. */
  function Next(attempts: seq<Delivery>): Delivery { if attempts == [] then Delivered else attempts[0] }

  function Rest(attempts: seq<Delivery>): seq<Delivery> { if attempts == [] then [] else attempts[1..] }

  /** One match of a report: note the version, and if it is the target, clear and mark updated. */
  function ReportOne(w: World, r: nat, d: nat, version: string, delivery: Delivery, cleared: bool): World
    requires r in w.rollouts && d in w.rollouts[r].rows
  {
    var w1 := Put(w, r, Reported(w.rollouts[r], d, version));
    if version != w.rollouts[r].targetVersion then w1
    else
      var w2 := if cleared then w1 else Clear(w1, d, delivery);
      var done := cleared || delivery == Delivered;
      Put(w2, r, ReportTarget(w2.rollouts[r], d, version, if done then Some(w.now) else None))
  }

  /** The matches in the order the database returns them; once a clear has succeeded no other is tried. */
  function ReportAll(w: World, d: nat, version: string, order: seq<nat>, attempts: seq<Delivery>, cleared: bool): World
    requires forall r :: r in order ==> r in w.rollouts && d in w.rollouts[r].rows
    decreases |order|
  {
    if order == [] then w
    else
      var r, delivery := order[0], Next(attempts);
      var w1 := ReportOne(w, r, d, version, delivery, cleared);
      if version != w.rollouts[r].targetVersion || cleared then
        ReportAll(w1, d, version, order[1..], attempts, cleared)
      else
        ReportAll(w1, d, version, order[1..], Rest(attempts), delivery == Delivered)
  }

  /** The device runs its product's current firmware. */
  predicate RunsCurrent(w: World, d: nat, version: string) {
    && d in w.devices && !w.devices[d].deleted && w.devices[d].product in w.products
    && w.products[w.devices[d].product].version != "" && w.products[w.devices[d].product].version == version
  }

  function HandleStatus(w: World, d: nat, version: string, order: seq<nat>, attempts: seq<Delivery>): World
    requires Distinct(order) && Elements(order) == Matches(w, d)
  {
    assert forall r :: r in order ==> r in Elements(order);
    if RunsCurrent(w, d, version) then
      ReportAll(Clear(w, d, Next(attempts)), d, version, order, Rest(attempts), Next(attempts) == Delivered)
    else ReportAll(w, d, version, order, attempts, false)
  }

  // ---------- manual triggers ----------

  function Candidates(w: World, d: nat): set<nat> {
    set r | r in w.rollouts && Active(w.rollouts[r]) && d in Waiting(w.rollouts[r])
  }

  /** The newest active rollout that has yet to reach the device. */
  predicate IsNewest(w: World, d: nat, r: nat) {
    r in Candidates(w, d) && forall other :: other in Candidates(w, d) ==> other <= r
  }

  ghost function MarkDeviceRolloutSent(w: World, d: nat): World {
    if exists r :: IsNewest(w, d, r) then
      var r :| IsNewest(w, d, r);
      Put(w, r, MarkSent(w.rollouts[r], d, w.now))
    else w
  }

  ghost function TriggerDeviceUpdate(w: World, d: nat, delivery: Delivery): World {
    if d !in w.devices || w.devices[d].deleted || !CanRollOut(w, w.devices[d].product) then w
    else
      var version := w.products[w.devices[d].product].version;
      if w.devices[d].current == version || delivery.Lost? then w
      else
        var w1 := w.(retained := w.retained[d := Command(0, version)]);
        if delivery.Unconfirmed? then w1 else MarkDeviceRolloutSent(w1, d)
  }

  // ---------- what every handler keeps ----------

  ghost predicate AllSound(w: World) {
    forall r :: r in w.rollouts ==> 0 < r < w.nextRollout && Sound(w.rollouts[r], w.now)
  }

  /** At most one rollout of a product is active. */
  ghost predicate OneActive(w: World) {
    forall r, s | r in w.rollouts && s in w.rollouts && Active(w.rollouts[r]) && Active(w.rollouts[s])
                  && w.rollouts[r].product == w.rollouts[s].product :: r == s
  }

  /** A row whose rollout's command may still be at the broker. */
  predicate MayRetain(ro: Rollout, d: nat) {
    d in ro.rows && d in ro.exposed &&
    var row := ro.rows[d];
    || row.state == DeviceSent
    || (row.state == DeviceUpdated && row.retainedClearedAt.None?)
    || (row.state == DevicePending && ro.status == Failed)
  }

  /** A retained command tagged with a rollout has such a row in it. */
  ghost predicate Retains(w: World) {
    forall d :: d in w.retained && w.retained[d].rollout != 0 ==>
      w.retained[d].rollout in w.rollouts && MayRetain(w.rollouts[w.retained[d].rollout], d)
  }

  ghost predicate Inv(w: World) {
    w.nextRollout > 0 && AllSound(w) && OneActive(w) && Retains(w)
  }

  /** One handler's effect on the rollouts there were. */
  ghost predicate Moves(a: World, b: World) {
    forall r :: r in a.rollouts ==>
      r in b.rollouts && (a.rollouts[r] == b.rollouts[r] || Advances(a.rollouts[r], b.rollouts[r]))
  }

  lemma {:induction false} SoundLater(ro: Rollout, now: int, later: int)
    requires Sound(ro, now) && now <= later
    ensures Sound(ro, later)
  {
    hide WellBatched, LifeCycle, Progress, After, Size;
  }

  /** Replacing one active rollout by a sound successor. */
  lemma PutKeeps(w: World, r: nat, ro: Rollout, retained: map<nat, Command>)
    requires Inv(w) && r in w.rollouts && Active(w.rollouts[r])
    requires Sound(ro, w.now) && Advances(w.rollouts[r], ro)
    requires forall d :: d in retained ==>
               if retained[d].rollout == r then MayRetain(ro, d)
               else d in w.retained && w.retained[d] == retained[d]
    ensures Inv(Put(w, r, ro).(retained := retained)) && Moves(w, Put(w, r, ro).(retained := retained))
  {
    hide Sound, MayRetain;
    var w' := Put(w, r, ro).(retained := retained);
    assert Active(ro) ==> Active(w.rollouts[r]);
    assert OneActive(w');
  }

  lemma CreateKeeps(key: SortKey, w: World, product: nat, net: Net)
    requires Inv(w)
    ensures Inv(CreateRollout(key, w, product, net)) && Moves(w, CreateRollout(key, w, product, net))
  {
    hide Inv, CancelActive, NewRollout, Eligible, Moves, Sound, Ordered, Distinct, Elements;
    CancelActiveKeeps(w, product, net);
    StandStill(w);
    if CanRollOut(w, product) && Eligible(w, product) != {} {
      var p := w.products[product];
      var ro := NewRollout(key, w.nextRollout, product, p.version, EffectiveRolloutPercentage(p),
                           EffectiveRolloutIntervalMinutes(p), Eligible(w, product), w.now);
      CreatedSound(key, w, product);
      AddRollout(CancelActive(w, product, net), ro);
      MovesThenAdds(w, CancelActive(w, product, net), ro);
    }
  }

  lemma StandStill(w: World)
    ensures Moves(w, w)
  {
  }

  lemma CreatedSound(key: SortKey, w: World, product: nat)
    requires product in w.products && Eligible(w, product) != {}
    ensures var p := w.products[product];
            Sound(NewRollout(key, w.nextRollout, product, p.version, EffectiveRolloutPercentage(p),
                             EffectiveRolloutIntervalMinutes(p), Eligible(w, product), w.now), w.now)
  {
    hide Sound, NewRollout, Ordered, Distinct, Eligible;
    var p := w.products[product];
    var load := SetSequence(Eligible(w, product));
    var order := SortDevices(key, w.nextRollout, load);
    assert order != [];
    NewRolloutSound(key, w.nextRollout, product, p.version, EffectiveRolloutPercentage(p),
                    EffectiveRolloutIntervalMinutes(p), order, w.now);
  }

  lemma AddRollout(w: World, ro: Rollout)
    requires Inv(w) && Sound(ro, w.now) && ActiveOf(w, ro.product) == {}
    ensures Inv(w.(rollouts := w.rollouts[w.nextRollout := ro], nextRollout := w.nextRollout + 1))
  {
    hide Sound, MayRetain;
    assert w.nextRollout !in w.rollouts;
    forall r | r in w.rollouts && Active(w.rollouts[r])
      ensures w.rollouts[r].product != ro.product
    {
      assert r !in ActiveOf(w, ro.product);
    }
  }

  lemma MovesThenAdds(a: World, b: World, ro: Rollout)
    requires Inv(b) && Moves(a, b) && a.rollouts.Keys == b.rollouts.Keys
    ensures Moves(a, b.(rollouts := b.rollouts[b.nextRollout := ro], nextRollout := b.nextRollout + 1))
  {
    hide Sound, MayRetain, Advances;
  }

  /** Any finite set can be loaded in some order. */
  lemma {:induction false} SetSequence(s: set<nat>) returns (load: seq<nat>)
    ensures Distinct(load) && Elements(load) == s
    decreases |s|
  {
    hide Distinct, Elements;
    if s == {} {
      load := [];
      NoElements();
    } else {
      var x :| x in s;
      var rest := SetSequence(s - {x});
      DistinctCons(x, rest);
      ElementsCons(x, rest);
      load := [x] + rest;
    }
  }

  lemma NoElements()
    ensures Distinct([]) && Elements([]) == {}
  {
  }

  lemma DistinctCons(x: nat, s: seq<nat>)
    requires Distinct(s) && x !in Elements(s)
    ensures Distinct([x] + s)
  {
  }

  lemma CancelActiveKeeps(w: World, product: nat, net: Net)
    requires Inv(w)
    ensures Inv(CancelActive(w, product, net)) && Moves(w, CancelActive(w, product, net))
    ensures ActiveOf(CancelActive(w, product, net), product) == {}
  {
    CancelActiveMoves(w, product, net);
    CancelActiveRetains(w, product, net);
    hide Sound, MayRetain, Advances, Cancel;
  }

  lemma CancelActiveMoves(w: World, product: nat, net: Net)
    requires Inv(w)
    ensures var w' := CancelActive(w, product, net);
            && AllSound(w') && Moves(w, w')
            && ActiveOf(w', product) == {}
            && forall r :: r in w.rollouts && Active(w'.rollouts[r]) ==> w'.rollouts[r] == w.rollouts[r]
  {
    hide Sound, Advances, Retains, Cancel, OneActive, Wiped;
    var w' := CancelActive(w, product, net);
    forall r | r in w.rollouts
      ensures Sound(w'.rollouts[r], w.now)
      ensures w'.rollouts[r] == w.rollouts[r] || Advances(w.rollouts[r], w'.rollouts[r])
      ensures Active(w'.rollouts[r]) ==> w'.rollouts[r] == w.rollouts[r] && r !in ActiveOf(w, product)
    {
      CancelSound(w.rollouts[r], net, w.now);
    }
  }

  lemma CancelActiveRetains(w: World, product: nat, net: Net)
    requires Inv(w)
    ensures Retains(CancelActive(w, product, net))
  {
    hide Sound, AllSound, OneActive;
    var w' := CancelActive(w, product, net);
    forall d | d in w'.retained && w'.retained[d].rollout != 0
      ensures w'.retained[d].rollout in w'.rollouts && MayRetain(w'.rollouts[w'.retained[d].rollout], d)
    {
      var r := w.retained[d].rollout;
      assert MayRetain(w.rollouts[r], d);
      if r in ActiveOf(w, product) {
        CancelledRetains(w.rollouts[r], net, w.now, d);
      }
    }
  }

  lemma CancelledRetains(ro: Rollout, net: Net, now: int, d: nat)
    requires MayRetain(ro, d) && Active(ro) && d !in Wiped(ro, net)
    ensures MayRetain(Cancel(ro, net, now), d)
  {
  }

  lemma DispatchKeeps(w: World, r: nat, net: Net)
    requires Inv(w)
    ensures Inv(DispatchNextBatch(w, r, net)) && Moves(w, DispatchNextBatch(w, r, net))
  {
    if Due(w, r) {
      var ro := w.rollouts[r];
      if Waiting(ro) == {} {
        RefreshDue(ro, w.now);
        RetainUnchanged(w, r, RefreshCompletion(ro));
        PutKeeps(w, r, RefreshCompletion(ro), w.retained);
      } else if ro.product !in w.products || !w.products[ro.product].complete {
        FailSound(ro, w.now);
        RetainUnchanged(w, r, ro.(status := Failed));
        PutKeeps(w, r, ro.(status := Failed), w.retained);
      } else {
        var upToDate := UpToDate(w, ro.targetVersion);
        DispatchSound(ro, upToDate, net, w.now);
        DispatchRetains(w, r, net);
        PutKeeps(w, r, Dispatch(ro, upToDate, net, w.now),
                 WithCommands(w.retained, Published(ro, upToDate, net), Command(r, ro.targetVersion)));
      }
      hide Sound, MayRetain, Advances;
    }
  }

  lemma DispatchOthersStay(w: World, r: nat, net: Net)
    ensures var w' := DispatchNextBatch(w, r, net);
            && w'.now == w.now
            && forall s :: s in w.rollouts && s != r ==> s in w'.rollouts && w'.rollouts[s] == w.rollouts[s]
  {
    hide Dispatch, RefreshCompletion, Published;
  }

  lemma RefreshDue(ro: Rollout, now: int)
    requires Sound(ro, now) && Active(ro)
    ensures Sound(RefreshCompletion(ro), now) && Advances(ro, RefreshCompletion(ro))
  {
    RefreshSound(ro, now);
  }

  lemma FailSound(ro: Rollout, now: int)
    requires Sound(ro, now) && Active(ro)
    ensures Sound(ro.(status := Failed), now) && Advances(ro, ro.(status := Failed))
  {
    SameBatches(ro, ro.(status := Failed));
    PacedCarriesOver(ro, ro.(status := Failed), now);
    hide WellBatched, Paced, TotalBatches;
  }

  /** Changes that leave rows, exposure and failure alone keep the retained commands accounted for. */
  lemma RetainUnchanged(w: World, r: nat, ro: Rollout)
    requires Retains(w) && r in w.rollouts && r > 0 && Active(w.rollouts[r])
    requires ro.rows == w.rollouts[r].rows && ro.exposed == w.rollouts[r].exposed
    ensures forall d :: d in w.retained && w.retained[d].rollout == r ==> MayRetain(ro, d)
  {
  }

  lemma DispatchRetains(w: World, r: nat, net: Net)
    requires Inv(w) && Due(w, r) && Waiting(w.rollouts[r]) != {}
    ensures var ro := w.rollouts[r];
            var upToDate := UpToDate(w, ro.targetVersion);
            var retained := WithCommands(w.retained, Published(ro, upToDate, net), Command(r, ro.targetVersion));
            forall d :: d in retained ==>
              if retained[d].rollout == r then MayRetain(Dispatch(ro, upToDate, net, w.now), d)
              else d in w.retained && w.retained[d] == retained[d]
  {
    var ro := w.rollouts[r];
    var upToDate := UpToDate(w, ro.targetVersion);
    var published := Published(ro, upToDate, net);
    var after := Dispatch(ro, upToDate, net, w.now);
    hide Dispatch, Published, Sound, AllSound, OneActive, UpToDate;
    forall d | d in published
      ensures MayRetain(after, d)
    {
      PublishedRow(ro, upToDate, net, w.now, d);
    }
    forall d | d in w.retained && d !in published && w.retained[d].rollout == r
      ensures MayRetain(after, d)
    {
      assert MayRetain(ro, d);
      UnpublishedRow(ro, upToDate, net, w.now, d);
    }
    hide MayRetain;
  }

  lemma PublishedRow(ro: Rollout, upToDate: set<nat>, net: Net, now: int, d: nat)
    requires Waiting(ro) != {} && d in Published(ro, upToDate, net)
    ensures MayRetain(Dispatch(ro, upToDate, net, now), d)
  {
    hide NextBatch, Settle;
    assert d in ro.rows && d in Targets(ro) && d !in upToDate;
    var mid := Dispatched(ro, upToDate, net, now);
    SettleKeepsRows(mid, now);
  }

  lemma SettleKeepsRows(ro: Rollout, now: int)
    ensures Settle(ro, now).rows == ro.rows && Settle(ro, now).exposed == ro.exposed
  {
  }

  lemma UnpublishedRow(ro: Rollout, upToDate: set<nat>, net: Net, now: int, d: nat)
    requires Waiting(ro) != {} && MayRetain(ro, d) && Active(ro)
    ensures MayRetain(Dispatch(ro, upToDate, net, now), d)
  {
    hide NextBatch, Settle, Published;
    assert d !in Targets(ro);
    var mid := Dispatched(ro, upToDate, net, now);
    SettleKeepsRows(mid, now);
  }

  // ---------- reports and triggers keep the invariant ----------

  lemma ClearKeeps(w: World, d: nat, delivery: Delivery)
    requires Inv(w)
    ensures Inv(Clear(w, d, delivery)) && Moves(w, Clear(w, d, delivery))
  {
    hide Sound, MayRetain, Advances;
  }

  /** One match: the invariant is kept, and a row is flagged as cleared only when the device has
      no retained command any more. */
  lemma ReportOneKeeps(w: World, r: nat, d: nat, version: string, delivery: Delivery, cleared: bool)
    requires Inv(w) && r in w.rollouts && Active(w.rollouts[r]) && d in Open(w.rollouts[r])
    requires cleared ==> d !in w.retained
    ensures var w' := ReportOne(w, r, d, version, delivery, cleared);
            && Inv(w') && Moves(w, w')
            && (version == w.rollouts[r].targetVersion && delivery == Delivered ==> cleared || d !in w'.retained)
            && (cleared ==> d !in w'.retained)
  {
    OpenRows(w.rollouts[r], d);
    hide Sound, Advances, InState, ReportTarget, Reported, MayRetain, OneActive;
    var ro := w.rollouts[r];
    var at := if cleared || delivery == Delivered then Some(w.now) else None;
    ReportSound(ro, d, version, at, w.now);
    if version != ro.targetVersion {
      RetainedReported(w, r, d, version);
      PutKeeps(w, r, Reported(ro, d, version), w.retained);
    } else {
      var retained := if cleared || delivery.Lost? then w.retained else w.retained - {d};
      RetainedTarget(w, r, d, version, at, retained);
      PutKeeps(w, r, ReportTarget(ro, d, version, at), retained);
      ReportTargetEffect(w, r, d, version, delivery, cleared);
    }
    hide Inv, Moves;
  }

  /** For a match of the target version, one match amounts to these two changes. */
  lemma ReportTargetEffect(w: World, r: nat, d: nat, version: string, delivery: Delivery, cleared: bool)
    requires r in w.rollouts && d in w.rollouts[r].rows && version == w.rollouts[r].targetVersion
    ensures var at := if cleared || delivery == Delivered then Some(w.now) else None;
            ReportOne(w, r, d, version, delivery, cleared)
            == Put(w, r, ReportTarget(w.rollouts[r], d, version, at)).(
                 retained := if cleared || delivery.Lost? then w.retained else w.retained - {d})
  {
    var at := if cleared || delivery == Delivered then Some(w.now) else None;
    ReportTwice(w.rollouts[r], d, version, at);
    hide ReportTarget, Reported;
    assert w.rollouts[r := Reported(w.rollouts[r], d, version)][r := ReportTarget(w.rollouts[r], d, version, at)]
        == w.rollouts[r := ReportTarget(w.rollouts[r], d, version, at)];
  }

  lemma ReportTwice(ro: Rollout, d: nat, version: string, at: Option<int>)
    requires d in ro.rows
    ensures ReportTarget(Reported(ro, d, version), d, version, at) == ReportTarget(ro, d, version, at)
  {
    var rows := ro.rows[d := ro.rows[d].(lastReportedVersion := version)];
    assert rows[d := UpdatedRow(rows[d], version, at)] == ro.rows[d := UpdatedRow(ro.rows[d], version, at)];
  }

  lemma RetainedReported(w: World, r: nat, d: nat, version: string)
    requires Inv(w) && r in w.rollouts && d in w.rollouts[r].rows
    ensures forall e :: e in w.retained && w.retained[e].rollout == r ==>
              MayRetain(Reported(w.rollouts[r], d, version), e)
  {
    hide Sound;
  }

  lemma RetainedTarget(w: World, r: nat, d: nat, version: string, at: Option<int>, retained: map<nat, Command>)
    requires AllSound(w) && Retains(w) && r in w.rollouts && Active(w.rollouts[r]) && d in Open(w.rollouts[r])
    requires retained == w.retained || retained == w.retained - {d}
    requires at.Some? ==> d !in retained
    ensures forall e :: e in retained && retained[e].rollout == r ==>
              MayRetain(ReportTarget(w.rollouts[r], d, version, at), e)
  {
    var ro := w.rollouts[r];
    OpenNotCleared(ro, w.now);
    hide Sound, InState, ReportTarget;
    forall e | e in retained && retained[e].rollout == r
      ensures MayRetain(ReportTarget(ro, d, version, at), e)
    {
      assert MayRetain(ro, e);
      TargetMayRetain(ro, d, version, at, e);
    }
  }

  lemma OpenNotCleared(ro: Rollout, now: int)
    requires Sound(ro, now)
    ensures forall x :: x in Open(ro) ==> ro.rows[x].retainedClearedAt.None?
  {
  }

  lemma TargetMayRetain(ro: Rollout, d: nat, version: string, at: Option<int>, e: nat)
    requires Active(ro) && d in Open(ro) && MayRetain(ro, e) && (e == d ==> at.None?)
    requires forall x :: x in Open(ro) ==> ro.rows[x].retainedClearedAt.None?
    ensures MayRetain(ReportTarget(ro, d, version, at), e)
  {
  }

  /** One match concerns only its own rollout. */
  lemma ReportOneFrame(w: World, r: nat, d: nat, version: string, delivery: Delivery, cleared: bool)
    requires r in w.rollouts && d in w.rollouts[r].rows
    ensures var w' := ReportOne(w, r, d, version, delivery, cleared);
            && w'.rollouts.Keys == w.rollouts.Keys && w'.now == w.now
            && forall s :: s in w.rollouts && s != r ==> w'.rollouts[s] == w.rollouts[s]
  {
    hide Reported, ReportTarget;
  }

  predicate AllMatch(w: World, d: nat, order: seq<nat>) {
    forall r :: r in order ==> r in w.rollouts && Active(w.rollouts[r]) && d in Open(w.rollouts[r])
  }

  ghost predicate OnlyThese(a: World, b: World, order: seq<nat>) {
    forall r :: r in a.rollouts && r !in order ==> r in b.rollouts && a.rollouts[r] == b.rollouts[r]
  }

  lemma {:induction false} ReportAllKeeps(w: World, d: nat, version: string, order: seq<nat>, attempts: seq<Delivery>,
                                          cleared: bool)
    requires Inv(w) && Distinct(order) && AllMatch(w, d, order) && (cleared ==> d !in w.retained)
    ensures forall r :: r in order ==> r in w.rollouts && d in w.rollouts[r].rows
    ensures var w' := ReportAll(w, d, version, order, attempts, cleared);
            Inv(w') && Moves(w, w') && OnlyThese(w, w', order)
    decreases |order|
  {
    hide Inv, ReportOne, Active, Open, Advances;
    MatchRows(w, d, order);
    StandStill(w);
    if order != [] {
      var r, delivery := order[0], Next(attempts);
      var w1 := ReportOne(w, r, d, version, delivery, cleared);
      ReportOneKeeps(w, r, d, version, delivery, cleared);
      ReportOneFrame(w, r, d, version, delivery, cleared);
      if version != w.rollouts[r].targetVersion || cleared {
        ReportAllKeeps(w1, d, version, order[1..], attempts, cleared);
        OneThenRest(w, w1, ReportAll(w1, d, version, order[1..], attempts, cleared), order);
      } else {
        ReportAllKeeps(w1, d, version, order[1..], Rest(attempts), delivery == Delivered);
        OneThenRest(w, w1, ReportAll(w1, d, version, order[1..], Rest(attempts), delivery == Delivered), order);
      }
    }
  }

  lemma MatchRows(w: World, d: nat, order: seq<nat>)
    requires AllMatch(w, d, order)
    ensures forall r :: r in order ==> r in w.rollouts && d in w.rollouts[r].rows
  {
  }

  lemma OneThenRest(a: World, b: World, c: World, order: seq<nat>)
    requires order != [] && Distinct(order) && Moves(a, b) && Moves(b, c)
    requires OnlyThese(a, b, order[..1]) && OnlyThese(b, c, order[1..])
    ensures Moves(a, c) && OnlyThese(a, c, order)
  {
    hide Advances;
    forall r | r in a.rollouts
      ensures a.rollouts[r] == b.rollouts[r] || b.rollouts[r] == c.rollouts[r]
    {
      if r in order[1..] {
        assert r !in order[..1];
      }
    }
  }

  lemma HandleStatusKeeps(w: World, d: nat, version: string, order: seq<nat>, attempts: seq<Delivery>)
    requires Inv(w) && Distinct(order) && Elements(order) == Matches(w, d)
    ensures Inv(HandleStatus(w, d, version, order, attempts)) && Moves(w, HandleStatus(w, d, version, order, attempts))
  {
    hide Inv, Moves, ReportAll, Distinct;
    OrderMatches(w, d, order);
    hide Elements, Matches;
    if RunsCurrent(w, d, version) {
      var w1 := Clear(w, d, Next(attempts));
      ClearKeeps(w, d, Next(attempts));
      ReportAllKeeps(w1, d, version, order, Rest(attempts), Next(attempts) == Delivered);
      SameRolloutsMove(w, w1, HandleStatus(w, d, version, order, attempts));
    } else {
      ReportAllKeeps(w, d, version, order, attempts, false);
    }
  }

  lemma OrderMatches(w: World, d: nat, order: seq<nat>)
    requires Elements(order) == Matches(w, d)
    ensures AllMatch(w, d, order)
    ensures forall delivery :: AllMatch(Clear(w, d, delivery), d, order)
  {
    assert forall r :: r in order ==> r in Elements(order);
  }

  lemma SameRolloutsMove(a: World, b: World, c: World)
    requires a.rollouts == b.rollouts && Moves(b, c)
    ensures Moves(a, c)
  {
  }

  lemma MarkKeeps(w: World, d: nat)
    requires Inv(w) && (d in w.retained ==> w.retained[d].rollout == 0)
    ensures Inv(MarkDeviceRolloutSent(w, d)) && Moves(w, MarkDeviceRolloutSent(w, d))
    ensures Candidates(w, d) != {} ==> exists r :: IsNewest(w, d, r)
  {
    StandStill(w);
    hide Sound;
    if Candidates(w, d) != {} {
      var best := Greatest(Candidates(w, d));
      assert IsNewest(w, d, best);
    }
    hide Advances, InState, OneActive, MarkSent;
    if exists r :: IsNewest(w, d, r) {
      var r :| IsNewest(w, d, r) && MarkDeviceRolloutSent(w, d) == Put(w, r, MarkSent(w.rollouts[r], d, w.now));
      var ro := w.rollouts[r];
      MarkSentSound(ro, d, w.now);
      MarkRetains(w, r, d);
      PutKeeps(w, r, MarkSent(ro, d, w.now), w.retained);
      hide Inv, Moves;
    }
  }

  lemma MarkRetains(w: World, r: nat, d: nat)
    requires Retains(w) && r in w.rollouts && r > 0 && d in w.rollouts[r].rows
    requires d in w.retained ==> w.retained[d].rollout == 0
    ensures forall e :: e in w.retained && w.retained[e].rollout == r ==>
              MayRetain(MarkSent(w.rollouts[r], d, w.now), e)
  {
  }

  lemma TriggerKeeps(w: World, d: nat, delivery: Delivery)
    requires Inv(w)
    ensures Inv(TriggerDeviceUpdate(w, d, delivery)) && Moves(w, TriggerDeviceUpdate(w, d, delivery))
  {
    hide Inv, Moves, MarkDeviceRolloutSent;
    StandStill(w);
    if d in w.devices && CanRollOut(w, w.devices[d].product) {
      var version := w.products[w.devices[d].product].version;
      var w1 := w.(retained := w.retained[d := Command(0, version)]);
      ManualKeeps(w, d, version);
      MarkKeeps(w1, d);
      SameRolloutsMove(w, w1, MarkDeviceRolloutSent(w1, d));
    }
  }

  lemma ManualKeeps(w: World, d: nat, version: string)
    requires Inv(w)
    ensures var w1 := w.(retained := w.retained[d := Command(0, version)]); Inv(w1) && Moves(w, w1)
  {
    hide Sound, MayRetain, Advances;
  }
}
