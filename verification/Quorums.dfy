/** Majorities of a cluster of n servers, and why two of them always meet. */
module Quorums {

  ghost predicate Quorum(n: nat, q: set<nat>) {
    (forall v :: v in q ==> v < n) && |q| >= n / 2 + 1
  }

  lemma {:induction false} AtMost(n: nat, q: set<nat>)
    requires forall v :: v in q ==> v < n
    ensures |q| <= n
  {
    if n == 0 {
      assert q == {};
    } else {
      AtMost(n - 1, q - {n - 1});
    }
  }

  lemma QuorumsMeet(n: nat, p: set<nat>, q: set<nat>) returns (v: nat)
    requires Quorum(n, p) && Quorum(n, q)
    ensures v in p && v in q && v < n
  {
    if p * q == {} {
      assert |p + q| == |p| + |q|;
      AtMost(n, p + q);
      assert false;
    }
    v :| v in p * q;
  }

  function Everyone(n: nat): (q: set<nat>)
    ensures forall v: nat :: v in q <==> v < n
    ensures |q| == n
  {
    if n == 0 then {} else Everyone(n - 1) + {n - 1}
  }
}
