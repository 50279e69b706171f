/** Sets of worker numbers. */
module WorkerSets {

  /** The workers 0, ..., n - 1. */
  function Everyone(n: nat): (all: set<nat>)
    ensures |all| == n
    ensures forall i: nat :: i in all <==> i < n
  {
    if n == 0 then {} else Everyone(n - 1) + {n - 1}
  }

  lemma {:induction false} SubsetSize(a: set<nat>, b: set<nat>)
    requires a <= b
    ensures |a| <= |b|
    ensures |a| == |b| ==> a == b
  {
    if a != {} {
      var x :| x in a;
      SubsetSize(a - {x}, b - {x});
    }
  }

  /** A set that is too small misses somebody. */
  lemma Missing(a: set<nat>, n: nat) returns (x: nat)
    requires a <= Everyone(n) && |a| < n
    ensures x < n && x !in a
  {
    var rest := Everyone(n) - a;
    if rest == {} {
      SubsetSize(Everyone(n), a);
    }
    x :| x in rest;
  }
}
