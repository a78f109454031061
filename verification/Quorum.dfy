/** Majorities of a cluster of n servers numbered 0..n-1, and why two of them meet. */
module Quorum {

  ghost function Servers(n: nat): (s: set<nat>)
    ensures forall i :: i in s <==> 0 <= i < n
  {
    if n == 0 then {} else Servers(n - 1) + {n - 1}
  }

  lemma {:induction false} ServersSize(n: nat)
    ensures |Servers(n)| == n
  {
    if n > 0 {
      ServersSize(n - 1);
    }
  }

  ghost predicate Majority(n: nat, q: set<nat>) {
    q <= Servers(n) && |q| >= n / 2 + 1
  }

  lemma Intersect(n: nat, a: set<nat>, b: set<nat>) returns (i: nat)
    requires Majority(n, a) && Majority(n, b)
    ensures i in a && i in b
  {
    if a * b == {} {
      assert a + b <= Servers(n);
      SubsetSize(a + b, Servers(n));
      ServersSize(n);
      assert false;
    }
    i :| i in a * b;
  }

  lemma {:induction false} SubsetSize<T>(a: set<T>, b: set<T>)
    requires a <= b
    ensures |a| <= |b|
  {
    assert b == a + (b - a);
    assert |b| == |a| + |b - a|;
  }
}
