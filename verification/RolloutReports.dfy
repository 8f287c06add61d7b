/**
 What one device report amounts to, and how creating a rollout leaves the others: the handlers'
 effects, stated without following their loops.
 */
module RolloutReports {
  import opened Wrappers
  import opened BatchAssignment
  import opened Rollout
  import opened RolloutWorld

  /** A report of `version` by device `d`, as seen by a rollout that had the device open. */
  ghost predicate Noted(a: Rollout, b: Rollout, d: nat, version: string, now: int)
    requires d in a.rows
  {
    && b.rows.Keys == a.rows.Keys
    && (forall e :: e in a.rows && e != d ==> b.rows[e] == a.rows[e])
    && b.rows[d].lastReportedVersion == version && b.rows[d].batch == a.rows[d].batch
    && (if version != a.targetVersion then
          b == a.(rows := b.rows) && b.rows[d] == a.rows[d].(lastReportedVersion := version)
        else
          && b == a.(rows := b.rows, status := b.status, nextBatchAt := None)
          && b.rows[d].state == DeviceUpdated
          && (b.rows[d].retainedClearedAt == a.rows[d].retainedClearedAt || b.rows[d].retainedClearedAt == Some(now))
          && b.status == (if Open(b) == {} then Completed else Running))
  }

  lemma OneNoted(w: World, r: nat, d: nat, version: string, delivery: Delivery, cleared: bool)
    requires r in w.rollouts && d in w.rollouts[r].rows
    ensures var w' := ReportOne(w, r, d, version, delivery, cleared);
            && r in w'.rollouts
            && Noted(w.rollouts[r], w'.rollouts[r], d, version, w.now)
            && (w'.retained == w.retained || w'.retained == w.retained - {d})
            && (version == w.rollouts[r].targetVersion && !cleared && delivery != Lost ==> d !in w'.retained)
  {
    var ro := w.rollouts[r];
    if version == ro.targetVersion {
      ReportTargetEffect(w, r, d, version, delivery, cleared);
      var at := if cleared || delivery == Delivered then Some(w.now) else None;
      TargetNoted(ro, d, version, at, w.now);
    }
    hide InState, ReportTarget;
  }

  lemma TargetNoted(ro: Rollout, d: nat, version: string, at: Option<int>, now: int)
    requires d in ro.rows && version == ro.targetVersion && (at.None? || at == Some(now))
    ensures Noted(ro, ReportTarget(ro, d, version, at), d, version, now)
  {
    var after := ReportTarget(ro, d, version, at);
    var mid := ro.(rows := ro.rows[d := UpdatedRow(ro.rows[d], version, at)]);
    assert Waiting(after) == Waiting(mid) && InState(after, DeviceSent) == InState(mid, DeviceSent);
  }

  /** The matching rollouts have noted the report; everything else but this device's retained
      command is as it was. */
  ghost predicate AllNoted(a: World, b: World, d: nat, version: string, order: seq<nat>)
    requires forall r :: r in order ==> r in a.rollouts && d in a.rollouts[r].rows
  {
    && b == a.(rollouts := b.rollouts, retained := b.retained) && b.rollouts.Keys == a.rollouts.Keys
    && (forall r :: r in order ==> Noted(a.rollouts[r], b.rollouts[r], d, version, a.now))
    && (forall r :: r in a.rollouts && r !in order ==> b.rollouts[r] == a.rollouts[r])
    && (b.retained == a.retained || b.retained == a.retained - {d})
  }

  /** A report reaches every rollout that had the device open, touches only that device's row in
      each, and leaves all other rollouts and all other devices' retained commands alone. */
  lemma {:induction false} ReportAllNoted(w: World, d: nat, version: string, order: seq<nat>, attempts: seq<Delivery>,
                                          cleared: bool)
    requires Distinct(order) && forall r :: r in order ==> r in w.rollouts && d in w.rollouts[r].rows
    ensures AllNoted(w, ReportAll(w, d, version, order, attempts, cleared), d, version, order)
    decreases |order|
  {
    if order != [] {
      hide Noted, ReportOne, AllNoted;
      var r, delivery := order[0], Next(attempts);
      var w1 := ReportOne(w, r, d, version, delivery, cleared);
      OneNoted(w, r, d, version, delivery, cleared);
      ReportOneFrame(w, r, d, version, delivery, cleared);
      assert r !in order[1..];
      if version != w.rollouts[r].targetVersion || cleared {
        ReportAllNoted(w1, d, version, order[1..], attempts, cleared);
        NotedThenRest(w, w1, ReportAll(w1, d, version, order[1..], attempts, cleared), d, version, order);
      } else {
        ReportAllNoted(w1, d, version, order[1..], Rest(attempts), delivery == Delivered);
        NotedThenRest(w, w1, ReportAll(w1, d, version, order[1..], Rest(attempts), delivery == Delivered), d,
                      version, order);
      }
    }
  }

  lemma NotedThenRest(a: World, b: World, c: World, d: nat, version: string, order: seq<nat>)
    requires order != [] && Distinct(order) && forall r :: r in order ==> r in a.rollouts && d in a.rollouts[r].rows
    requires b == a.(rollouts := b.rollouts, retained := b.retained) && b.rollouts.Keys == a.rollouts.Keys
    requires Noted(a.rollouts[order[0]], b.rollouts[order[0]], d, version, a.now)
    requires forall r :: r in a.rollouts && r != order[0] ==> b.rollouts[r] == a.rollouts[r]
    requires b.retained == a.retained || b.retained == a.retained - {d}
    requires forall r :: r in order[1..] ==> r in b.rollouts && d in b.rollouts[r].rows
    requires AllNoted(b, c, d, version, order[1..])
    ensures AllNoted(a, c, d, version, order)
  {
    hide Noted;
    assert order[0] !in order[1..];
    assert forall r :: r in order <==> r == order[0] || r in order[1..];
  }

  /** The order in which the database returns the matches does not matter to the rows, as long as
      the broker clears whatever it is asked to. */
  lemma {:induction false} ReportsCommute(w: World, d: nat, version: string, first: seq<nat>, second: seq<nat>)
    requires Distinct(first) && Distinct(second) && Elements(first) == Elements(second) == Matches(w, d)
    ensures HandleStatus(w, d, version, first, []) == HandleStatus(w, d, version, second, [])
  {
    SettledReports(w, d, version, first);
    SettledReports(w, d, version, second);
  }

  /** With every clear succeeding, a report updates exactly the matching rollouts that target the
      version, and the device's retained command is gone if there is one or it runs its product's
      current firmware. */
  function Settled(ro: Rollout, d: nat, version: string, now: int): Rollout
    requires d in ro.rows
  {
    if version == ro.targetVersion then ReportTarget(ro, d, version, Some(now)) else Reported(ro, d, version)
  }

  function AfterReports(w: World, d: nat, version: string, matched: set<nat>): World
    requires forall r :: r in matched ==> r in w.rollouts && d in w.rollouts[r].rows
  {
    w.(rollouts := SettleThese(w, d, version, matched),
       retained := if Hits(w, version, matched) then w.retained - {d} else w.retained)
  }

  function SettleThese(w: World, d: nat, version: string, matched: set<nat>): map<nat, Rollout>
    requires forall r :: r in matched ==> r in w.rollouts && d in w.rollouts[r].rows
  {
    map r | r in w.rollouts :: if r in matched then Settled(w.rollouts[r], d, version, w.now) else w.rollouts[r]
  }

  predicate Hits(w: World, version: string, matched: set<nat>)
    requires matched <= w.rollouts.Keys
  {
    exists r :: r in matched && w.rollouts[r].targetVersion == version
  }

  lemma SettledReports(w: World, d: nat, version: string, order: seq<nat>)
    requires Distinct(order) && Elements(order) == Matches(w, d)
    ensures forall r :: r in Matches(w, d) ==> r in w.rollouts && d in w.rollouts[r].rows
    ensures HandleStatus(w, d, version, order, [])
            == AfterReports(if RunsCurrent(w, d, version) then Clear(w, d, Delivered) else w, d, version, Matches(w, d))
  {
    OrderMatches(w, d, order);
    assert forall r :: r in order <==> r in Matches(w, d);
    MatchRows(w, d, order);
    hide Settled, Matches, ReportAll, AfterReports;
    if RunsCurrent(w, d, version) {
      SettledAll(Clear(w, d, Delivered), d, version, order, true);
    } else {
      SettledAll(w, d, version, order, false);
    }
  }

  lemma {:induction false} SettledAll(w: World, d: nat, version: string, order: seq<nat>, cleared: bool)
    requires Distinct(order) && AllMatch(w, d, order) && (cleared ==> d !in w.retained)
    ensures forall r :: r in Elements(order) ==> r in w.rollouts && d in w.rollouts[r].rows
    ensures forall r :: r in order ==> r in w.rollouts && d in w.rollouts[r].rows
    ensures ReportAll(w, d, version, order, [], cleared) == AfterReports(w, d, version, Elements(order))
    decreases |order|
  {
    MatchRows(w, d, order);
    if order == [] {
      assert SettleThese(w, d, version, {}) == w.rollouts;
    } else {
      hide Settled, ReportOne, ReportTarget, Reported, Open, Active, AfterReports;
      var r := order[0];
      var w1 := ReportOne(w, r, d, version, Delivered, cleared);
      ReportOneFrame(w, r, d, version, Delivered, cleared);
      SettledOne(w, r, d, version, cleared);
      var hit := cleared || version == w.rollouts[r].targetVersion;
      assert order == [r] + order[1..] && r !in order[1..];
      ElementsCons(r, order[1..]);
      SettledAll(w1, d, version, order[1..], hit);
      SettledFirst(w, w1, d, version, r, Elements(order[1..]));
    }
  }

  lemma SettledFirst(w: World, w1: World, d: nat, version: string, r: nat, others: set<nat>)
    requires r in w.rollouts && d in w.rollouts[r].rows && r !in others
    requires forall s :: s in others ==> s in w.rollouts && d in w.rollouts[s].rows
    requires w1 == Put(w, r, Settled(w.rollouts[r], d, version, w.now)).(
                     retained := if version == w.rollouts[r].targetVersion then w.retained - {d} else w.retained)
    ensures AfterReports(w, d, version, {r} + others) == AfterReports(w1, d, version, others)
  {
    hide Settled, SettleThese;
    SettleTheseFirst(w, w1, d, version, r, others);
    assert forall s :: s in others ==> w1.rollouts[s] == w.rollouts[s];
    assert Hits(w1, version, others) == Hits(w, version, others);
    assert Hits(w, version, {r} + others) == (w.rollouts[r].targetVersion == version || Hits(w, version, others));
    assert w.retained - {d} - {d} == w.retained - {d};
  }

  lemma SettleTheseFirst(w: World, w1: World, d: nat, version: string, r: nat, others: set<nat>)
    requires r in w.rollouts && d in w.rollouts[r].rows && r !in others && w1.now == w.now
    requires forall s :: s in others ==> s in w.rollouts && d in w.rollouts[s].rows
    requires w1.rollouts == w.rollouts[r := Settled(w.rollouts[r], d, version, w.now)]
    ensures SettleThese(w, d, version, {r} + others) == SettleThese(w1, d, version, others)
  {
    hide Settled;
  }

  lemma SettledOne(w: World, r: nat, d: nat, version: string, cleared: bool)
    requires r in w.rollouts && d in w.rollouts[r].rows && (cleared ==> d !in w.retained)
    ensures ReportOne(w, r, d, version, Delivered, cleared)
            == Put(w, r, Settled(w.rollouts[r], d, version, w.now)).(
                 retained := if version == w.rollouts[r].targetVersion then w.retained - {d} else w.retained)
  {
    if version == w.rollouts[r].targetVersion {
      ReportTargetEffect(w, r, d, version, Delivered, cleared);
    }
    hide ReportTarget, Reported;
    assert cleared ==> w.retained - {d} == w.retained;
  }
}
