/** Majorities of a cluster whose servers are numbered 0 .. n-1. */
module Quorums {

  ghost predicate IsQuorum(n: nat, q: set<nat>) {
    && (forall v | v in q :: v < n)
    && 2 * |q| > n
  }

  ghost function Range(n: nat): (r: set<nat>)
    ensures forall v: nat :: v in r <==> v < n
    ensures |r| == n
  {
    if n == 0 then {} else
      var r0 := Range(n - 1);
      r0 + {n - 1}
  }

  lemma SubsetSize(a: set<nat>, b: set<nat>)
    requires a <= b
    ensures |a| <= |b|
  {
    assert b == a + (b - a);
  }

  /** Any two majorities share a server. */
  lemma QuorumsMeet(n: nat, p: set<nat>, q: set<nat>) returns (v: nat)
    requires IsQuorum(n, p) && IsQuorum(n, q)
    ensures v in p && v in q && v < n
  {
    if p * q == {} {
      assert |p + q| == |p| + |q|;
      SubsetSize(p + q, Range(n));
      assert false;
    }
    v :| v in p * q;
  }

  lemma QuorumGrows(n: nat, p: set<nat>, q: set<nat>)
    requires IsQuorum(n, p) && p <= q
    requires forall v | v in q :: v < n
    ensures IsQuorum(n, q)
  {
    SubsetSize(p, q);
  }
}
