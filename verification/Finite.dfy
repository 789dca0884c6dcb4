/** Finite sets of indices. */
module Finite {
  /** The numbers below `n`. */
  function Indices(n: nat): (r: set<nat>)
    ensures |r| == n
    ensures forall i: nat :: i in r <==> i < n
  {
    if n == 0 then {} else Indices(n - 1) + {n - 1}
  }

  /** The numbers from `lo` on, below `hi`. */
  function Between(lo: nat, hi: nat): (r: set<int>)
    requires lo <= hi
    ensures |r| == hi - lo
    ensures forall i :: i in r <==> lo <= i < hi
    decreases hi
  {
    if lo == hi then {} else Between(lo, hi - 1) + {hi - 1}
  }

  lemma SubsetCardinality<T>(a: set<T>, b: set<T>)
    requires a <= b
    ensures |a| <= |b|
    ensures |a| == |b| <==> a == b
  {
    assert b == a + (b - a);
  }
}
