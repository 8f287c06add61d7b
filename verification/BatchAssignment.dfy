/**
 How a rollout spreads its devices over batches: devices are ordered by a key derived from
 the rollout and device ids, and cut into batches of a fixed percentage.
 */
module BatchAssignment {
  import opened Arithmetic

  /** The sort key of (rollout, device); a digest compared as a number. */
  type SortKey = (nat, nat) -> nat

  /** Rounds up, and never below one device. */
  function BatchSize(total: int, percentage: int): nat {
    if total <= 0 then 0
    else
      var p := if percentage < 1 then 1 else if percentage > 100 then 100 else percentage;
      var size := CeilDiv(total * p, 100);
      if size < 1 then 1 else size
  }

  predicate Before(key: SortKey, rollout: nat, a: nat, b: nat) {
    key(rollout, a) < key(rollout, b) || (key(rollout, a) == key(rollout, b) && a < b)
  }

  predicate Ordered(key: SortKey, rollout: nat, s: seq<nat>) {
    forall i, j :: 0 <= i < j < |s| ==> Before(key, rollout, s[i], s[j])
  }

  function Elements(s: seq<nat>): set<nat> { set x | x in s }

  predicate Distinct(s: seq<nat>) {
    forall i, j :: 0 <= i < j < |s| ==> s[i] != s[j]
  }

  // ---------- sorting ----------

  function Insert(key: SortKey, rollout: nat, s: seq<nat>, x: nat): (r: seq<nat>)
    ensures Elements(r) == Elements(s) + {x}
    ensures |r| == |s| + 1
    ensures Ordered(key, rollout, s) && x !in s ==> Ordered(key, rollout, r)
  {
    if s == [] then [x]
    else if Before(key, rollout, x, s[0]) then
      ElementsCons(x, s);
      [x] + s
    else
      var rest := Insert(key, rollout, s[1..], x);
      assert s == [s[0]] + s[1..];
      ElementsCons(s[0], s[1..]);
      ElementsCons(s[0], rest);
      assert Ordered(key, rollout, s) && x !in s ==> Ordered(key, rollout, [s[0]] + rest) by {
        if Ordered(key, rollout, s) && x !in s {
          FollowersStayBehind(key, rollout, s, x, rest);
        }
      }
      [s[0]] + rest
  }

  lemma ElementsCons(x: nat, s: seq<nat>)
    ensures Elements([x] + s) == {x} + Elements(s)
  {
    assert forall y :: y in [x] + s <==> y == x || y in s;
  }

  lemma FollowersStayBehind(key: SortKey, rollout: nat, s: seq<nat>, x: nat, rest: seq<nat>)
    requires s != [] && Ordered(key, rollout, s) && x !in s && !Before(key, rollout, x, s[0])
    requires Ordered(key, rollout, rest) && Elements(rest) == Elements(s[1..]) + {x}
    ensures Ordered(key, rollout, [s[0]] + rest)
  {
    assert x != s[0];
    forall j | 0 <= j < |rest|
      ensures Before(key, rollout, s[0], rest[j])
    {
      assert rest[j] in Elements(rest);
      if rest[j] != x {
        assert rest[j] in s[1..];
      }
    }
  }

  /** The devices in key order: a permutation of the input, strictly ordered. */
  function SortDevices(key: SortKey, rollout: nat, devices: seq<nat>): (r: seq<nat>)
    requires Distinct(devices)
    ensures Elements(r) == Elements(devices) && |r| == |devices|
    ensures Ordered(key, rollout, r)
  {
    if devices == [] then []
    else
      var rest := SortDevices(key, rollout, devices[1..]);
      assert devices == [devices[0]] + devices[1..];
      assert devices[0] !in rest by {
        assert devices[0] !in devices[1..];
        assert devices[0] !in Elements(rest);
      }
      Insert(key, rollout, rest, devices[0])
  }

  // ---------- rank and batch ----------

  /** How many of the devices come before `d`. */
  function Rank(key: SortKey, rollout: nat, devices: set<nat>, d: nat): nat {
    |set e | e in devices && Before(key, rollout, e, d)|
  }

  /** The batch of a device: a function of the rollout id and the set of devices alone. */
  function BatchOf(key: SortKey, rollout: nat, devices: set<nat>, size: nat, d: nat): nat
    requires size > 0
  {
    Rank(key, rollout, devices, d) / size + 1
  }

  lemma {:induction false} ElementsCount(s: seq<nat>)
    requires Distinct(s)
    ensures |Elements(s)| == |s|
  {
    if s != [] {
      var front := s[..|s| - 1];
      ElementsCount(front);
      assert s == front + [s[|s| - 1]];
      assert Elements(s) == Elements(front) + {s[|s| - 1]};
    }
  }

  lemma OrderedIsDistinct(key: SortKey, rollout: nat, s: seq<nat>)
    requires Ordered(key, rollout, s)
    ensures Distinct(s)
  {
  }

  /** In the sorted sequence the rank of a device is its index. */
  lemma RankIsIndex(key: SortKey, rollout: nat, s: seq<nat>, i: nat)
    requires Ordered(key, rollout, s) && i < |s|
    ensures Rank(key, rollout, Elements(s), s[i]) == i
  {
    OrderedIsDistinct(key, rollout, s);
    var earlier := set e | e in Elements(s) && Before(key, rollout, e, s[i]);
    assert earlier == Elements(s[..i]) by {
      forall e | e in earlier
        ensures e in s[..i]
      {
        var j :| 0 <= j < |s| && s[j] == e;
        assert j < i;
        assert s[..i][j] == e;
      }
      forall e | e in s[..i]
        ensures e in earlier
      {
        var j :| 0 <= j < i && s[..i][j] == e;
        assert s[j] == e;
      }
    }
    assert Distinct(s[..i]);
    ElementsCount(s[..i]);
  }

  /** The devices of batch `b`. */
  function InBatch(key: SortKey, rollout: nat, devices: set<nat>, size: nat, b: nat): set<nat>
    requires size > 0
  {
    set d | d in devices && BatchOf(key, rollout, devices, size, d) == b
  }

  /** A batch is a slice of the sorted devices. */
  lemma BatchIsSlice(key: SortKey, rollout: nat, s: seq<nat>, size: nat, b: nat)
    requires Ordered(key, rollout, s) && size > 0 && 1 <= b <= CeilDiv(|s|, size)
    ensures var lo, hi := Start(b, size), Min(Start(b + 1, size), |s|);
            && lo < hi <= |s|
            && InBatch(key, rollout, Elements(s), size, b) == Elements(s[lo..hi])
            && |InBatch(key, rollout, Elements(s), size, b)| == hi - lo
  {
    StartBounds(|s|, size, b);
    var lo, hi := Start(b, size), Min(Start(b + 1, size), |s|);
    OrderedIsDistinct(key, rollout, s);
    hide CeilDiv, Start, Ordered, InBatch;
    SliceOfBatch(key, rollout, s, size, b, lo, hi);
    assert Distinct(s[lo..hi]);
    ElementsCount(s[lo..hi]);
  }

  lemma SliceOfBatch(key: SortKey, rollout: nat, s: seq<nat>, size: nat, b: nat, lo: nat, hi: nat)
    requires Ordered(key, rollout, s) && size > 0 && b > 0 && lo <= hi <= |s|
    requires lo == Start(b, size) && hi == Min(Start(b + 1, size), |s|)
    ensures InBatch(key, rollout, Elements(s), size, b) == Elements(s[lo..hi])
  {
    hide Start, Ordered, Rank, Before;
    var slice := s[lo..hi];
    forall d | d in InBatch(key, rollout, Elements(s), size, b)
      ensures d in slice
    {
      var i :| 0 <= i < |s| && s[i] == d;
      RankIsIndex(key, rollout, s, i);
      IndexInBatch(i, size, b);
      assert slice[i - lo] == d;
    }
    forall d | d in slice
      ensures d in InBatch(key, rollout, Elements(s), size, b)
    {
      var j :| 0 <= j < |slice| && slice[j] == d;
      assert s[lo + j] == d;
      RankIsIndex(key, rollout, s, lo + j);
      IndexInBatch(lo + j, size, b);
    }
  }

  /** Where batch `b` starts in the sorted devices. */
  function Start(b: nat, size: nat): nat
    requires b > 0
  {
    (b - 1) * size
  }

  lemma IndexInBatch(i: nat, size: nat, b: nat)
    requires size > 0 && b > 0
    ensures i / size + 1 == b <==> Start(b, size) <= i < Start(b + 1, size)
  {
    var q := i / size;
    assert q * size <= i < q * size + size;
    if q + 1 < b {
      Scale(q + 1, b - 1, size);
    } else if q + 1 > b {
      Scale(b, q, size);
    }
  }

  lemma StartBounds(n: nat, size: nat, b: nat)
    requires size > 0 && 1 <= b <= CeilDiv(n, size)
    ensures Start(b, size) < n && Start(b, size) < Start(b + 1, size)
    ensures b < CeilDiv(n, size) ==> Start(b + 1, size) == Start(b, size) + size < n
    ensures b == CeilDiv(n, size) ==> n <= Start(b + 1, size)
  {
    var t := CeilDiv(n, size);
    DivisionBounds(n + size - 1, size);
    hide CeilDiv;
    Scale(b, t, size);
    assert b * size == (b - 1) * size + size;
    if b < t {
      Scale(b + 1, t, size);
      assert (b + 1) * size == b * size + size;
    }
  }

  /** Every device has exactly one batch between 1 and the last; all batches up to the last are
      non-empty, and all but the last have exactly `size` devices. */
  lemma BatchesPartition(key: SortKey, rollout: nat, s: seq<nat>, size: nat)
    requires Ordered(key, rollout, s) && size > 0
    ensures forall d :: d in s ==> 1 <= BatchOf(key, rollout, Elements(s), size, d) <= CeilDiv(|s|, size)
    ensures forall b :: 1 <= b < CeilDiv(|s|, size) ==> |InBatch(key, rollout, Elements(s), size, b)| == size
    ensures forall b :: 1 <= b <= CeilDiv(|s|, size) ==> 0 < |InBatch(key, rollout, Elements(s), size, b)| <= size
  {
    hide CeilDiv, Ordered, Rank, BatchOf, InBatch, Start;
    forall d | d in s
      ensures 1 <= BatchOf(key, rollout, Elements(s), size, d) <= CeilDiv(|s|, size)
    {
      BatchInRange(key, rollout, s, size, d);
    }
    forall b | 1 <= b <= CeilDiv(|s|, size)
      ensures 0 < |InBatch(key, rollout, Elements(s), size, b)| <= size
      ensures b < CeilDiv(|s|, size) ==> |InBatch(key, rollout, Elements(s), size, b)| == size
    {
      BatchIsSlice(key, rollout, s, size, b);
      StartBounds(|s|, size, b);
      StartStep(b, size);
    }
  }

  lemma StartStep(b: nat, size: nat)
    requires b > 0
    ensures Start(b + 1, size) == Start(b, size) + size
  {
  }

  lemma BatchInRange(key: SortKey, rollout: nat, s: seq<nat>, size: nat, d: nat)
    requires Ordered(key, rollout, s) && size > 0 && d in s
    ensures 1 <= BatchOf(key, rollout, Elements(s), size, d) <= CeilDiv(|s|, size)
  {
    var i :| 0 <= i < |s| && s[i] == d;
    RankIsIndex(key, rollout, s, i);
    hide Ordered, Rank;
    QuotientBelow(i, |s|, size);
  }

  lemma QuotientBelow(i: nat, n: nat, size: nat)
    requires i < n && size > 0
    ensures i / size + 1 <= CeilDiv(n, size)
  {
    DivisionBounds(i, size);
    DivisionBounds(n + size - 1, size);
    var q, t := i / size, CeilDiv(n, size);
    hide CeilDiv;
    if t <= q {
      Scale(t, q, size);
    }
  }

  /** A rollout needs at most as many batches as its percentage fits into one hundred. */
  lemma BatchCountBound(total: nat, percentage: nat)
    requires total > 0 && 1 <= percentage <= 100
    ensures BatchSize(total, percentage) > 0
    ensures CeilDiv(total, BatchSize(total, percentage)) <= CeilDiv(100, percentage)
  {
    var size := BatchSize(total, percentage);
    var k := CeilDiv(100, percentage);
    SizeCovers(total, percentage);
    DivisionBounds(100 + percentage - 1, percentage);
    assert k * percentage >= 100;
    hide BatchSize;
    assert size * k >= total by {
      CoverAlgebra(size, total, percentage, k);
    }
    CeilDivBound(total, size, k);
  }

  /** The batch size is the least number of devices that makes up the percentage. */
  lemma SizeCovers(total: nat, percentage: nat)
    requires total > 0 && 1 <= percentage <= 100
    ensures 0 < BatchSize(total, percentage) <= total
    ensures forall size: nat :: size >= BatchSize(total, percentage) <==> size * 100 >= total * percentage
  {
    Positive(total, percentage);
    DivisionBounds(total * percentage + 99, 100);
    Scale(percentage, 100, total);
  }

  lemma Positive(a: nat, b: nat)
    requires a > 0 && b > 0
    ensures a * b > 0
  {
  }

  lemma CoverAlgebra(size: nat, total: nat, p: nat, k: nat)
    requires size * 100 >= total * p && k * p >= 100 && p > 0
    ensures size * k >= total
  {
    Scale(100, k * p, size);
    assert size * (k * p) == (size * k) * p;
    assert (size * k + 1) * p == (size * k) * p + p;
    if size * k < total {
      Scale(size * k + 1, total, p);
    }
  }

  lemma CeilDivBound(n: nat, size: nat, k: nat)
    requires size > 0 && size * k >= n
    ensures CeilDiv(n, size) <= k
  {
    var t := CeilDiv(n, size);
    DivisionBounds(n + size - 1, size);
    hide CeilDiv;
    assert (k + 1) * size == size * k + size;
    if t > k {
      Scale(k + 1, t, size);
    }
  }
}
