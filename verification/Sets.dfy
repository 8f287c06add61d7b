/** Finite sets of numbers: sizes and extremes. */
module Sets {

  lemma SubsetSize(a: set<nat>, b: set<nat>)
    requires a <= b
    ensures |a| <= |b|
  {
    assert b == a + (b - a);
  }

  lemma {:induction false} Greatest(s: set<nat>) returns (top: nat)
    requires s != {}
    ensures top in s && forall x :: x in s ==> x <= top
    decreases |s|
  {
    var any :| any in s;
    if s == {any} {
      top := any;
    } else {
      var rest := Greatest(s - {any});
      top := if any > rest then any else rest;
      assert forall x :: x in s ==> x == any || x in s - {any};
    }
  }

  lemma {:induction false} Smallest(s: set<nat>) returns (m: nat)
    requires s != {}
    ensures m in s && forall x :: x in s ==> m <= x
    decreases |s|
  {
    var any :| any in s;
    if s == {any} {
      m := any;
    } else {
      var rest := Smallest(s - {any});
      m := if any < rest then any else rest;
      assert forall x :: x in s ==> x == any || x in s - {any};
    }
  }

  method Least(s: set<nat>) returns (m: nat)
    requires s != {}
    ensures m in s && forall x :: x in s ==> m <= x
  {
    m :| m in s;
    var left := s - {m};
    while left != {}
      invariant left <= s && m in s
      invariant forall x :: x in s - left ==> m <= x
    {
      var x :| x in left;
      assert forall y :: y in s - (left - {x}) ==> y == x || y in s - left;
      if x < m { m := x; }
      left := left - {x};
    }
    assert s - left == s;
  }
}
