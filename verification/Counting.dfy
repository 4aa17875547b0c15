/** Sets of thread numbers and their sizes. */
module Counting {

  lemma AddOne(a: set<nat>, b: set<nat>, x: nat)
    requires x !in a && x in b && forall y :: y != x ==> (y in a <==> y in b)
    ensures |b| == |a| + 1
  {
    assert b == a + {x};
  }

  lemma {:induction false} SubsetSize(a: set<nat>, b: set<nat>)
    requires a <= b
    ensures |a| <= |b|
    decreases |a|
  {
    if x :| x in a {
      SubsetSize(a - {x}, b - {x});
    }
  }

  /** A set of thread numbers of full size holds every thread. */
  lemma {:induction false} FullSet(a: set<nat>, n: nat, y: nat)
    requires forall z :: z in a ==> z < n
    requires y < n
    ensures |a| <= n && (|a| == n ==> y in a)
    decreases n
  {
    if n == 1 {
      assert a <= {0};
      SubsetSize(a, {0});
    } else if y == n - 1 {
      FullSet(a - {n - 1}, n - 1, 0);
    } else {
      FullSet(a - {n - 1}, n - 1, y);
    }
  }

  lemma {:induction false} HoldsAll(a: set<nat>, n: nat)
    requires forall z: nat :: z < n ==> z in a
    ensures |a| >= n
    decreases n
  {
    if n == 0 {
    } else {
      HoldsAll(a - {n - 1}, n - 1);
    }
  }
}
