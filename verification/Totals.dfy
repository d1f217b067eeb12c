/**
 Sums of node weights, the measures of progress.
 */
module Totals {
  import opened Nodes

  function Total(weight: Node -> nat, c: Cluster, names: seq<string>): nat {
    if names == [] then 0
    else (if names[0] in c then weight(c[names[0]]) else 0) + Total(weight, c, names[1..])
  }

  predicate Distinct(names: seq<string>) { forall i, j | 0 <= i < j < |names| :: names[i] != names[j] }

  lemma {:induction false} TotalAtMost(weight: Node -> nat, most: nat, c: Cluster, names: seq<string>)
    requires forall n :: weight(n) <= most
    ensures Total(weight, c, names) <= most * |names|
  {
    if names != [] { TotalAtMost(weight, most, c, names[1..]); }
  }

  lemma {:induction false} TotalAfterPut(weight: Node -> nat, c: Cluster, n: Node, names: seq<string>)
    requires Distinct(names) && n.name in c
    ensures Total(weight, Put(c, n), names)
         == Total(weight, c, names) + if n.name in names then weight(n) - weight(c[n.name]) else 0
  {
    if names != [] {
      assert names[0] !in names[1..];
      assert names == [names[0]] + names[1..];
      TotalAfterPut(weight, c, n, names[1..]);
    }
  }

  lemma {:induction false} SameWeightsSameTotal(f: Node -> nat, g: Node -> nat, c: Cluster, names: seq<string>)
    requires forall n :: f(n) == g(n)
    ensures Total(f, c, names) == Total(g, c, names)
  {
    if names != [] { SameWeightsSameTotal(f, g, c, names[1..]); }
  }
}
