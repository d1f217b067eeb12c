/**
 Repeated passes over a fully upgraded cluster: each clears one node, unless a taint that uncordoning never removes
 keeps the first one detected.
 */
module Cleanup {
  import opened Nodes
  import opened Upgrade
  import opened Protocol
  import opened Quiescence
  import opened Taints
  import opened Conservation
  import opened Pass

  predicate AllUpgraded(dc: DeviceConfig, c: Cluster) {
    dc.Version() != "" && forall x | x in c && dc.Targets(c[x]) :: PhaseOf(dc, c[x]) == Upgraded
  }

  function Detected(dc: DeviceConfig, c: Cluster): set<string> { set x | x in c && ToUncordon(dc, c, x) }

  /** One successful pass per listing, each over the state the previous one left. */
  predicate IsSweep(dc: DeviceConfig, c: Cluster, snaps: seq<seq<Node>>)
    decreases |snaps|
  {
    snaps == [] || (IsListing(dc, c, snaps[0]) && IsSweep(dc, Edited(dc, c, snaps[0]), snaps[1..]))
  }

  function Swept(dc: DeviceConfig, c: Cluster, snaps: seq<seq<Node>>): Cluster
    decreases |snaps|
  {
    if snaps == [] then c else Swept(dc, Edited(dc, c, snaps[0]), snaps[1..])
  }

  lemma OnePass(dc: DeviceConfig, c: Cluster, snap: seq<Node>)
    requires AllUpgraded(dc, c) && IsListing(dc, c, snap)
    ensures var u := UpgradedPick(dc, snap);
            && (u.None? ==> Edited(dc, c, snap) == c && Detected(dc, c) == {})
            && (u.Some? ==> ToUncordon(dc, c, u.value.name) && c[u.value.name] == u.value
                            && Edited(dc, c, snap) == Put(c, Uncordon(u.value)))
    ensures AllUpgraded(dc, Edited(dc, c, snap))
  {
    hide Matches, Tainted;
    UpgradePickMeaning(dc, snap);
    UpgradedPickMeaning(dc, snap);
    ListingDecides(dc, c, snap);
    ListingPicks(dc, c, snap);
  }

  lemma OnePassClearsOne(dc: DeviceConfig, c: Cluster, snap: seq<Node>)
    requires AllUpgraded(dc, c) && IsListing(dc, c, snap)
    requires forall x | x in Detected(dc, c) :: Clean(c[x])
    ensures var u, c' := UpgradedPick(dc, snap), Edited(dc, c, snap);
            && Detected(dc, c') == (if u.Some? then Detected(dc, c) - {u.value.name} else {})
            && (u.Some? ==> u.value.name in Detected(dc, c))
            && forall x | x in Detected(dc, c') :: Clean(c'[x])
  {
    hide Matches, PhaseOf, IsListing, UpgradedPick;
    OnePass(dc, c, snap);
    var u := UpgradedPick(dc, snap);
    if u.Some? { UncordonLeaves(dc, c, u.value); }
  }

  /** k successful passes uncordon k of the tainted nodes, in whatever orders the nodes are listed. */
  lemma {:induction false} SweepClearsOnePerPass(dc: DeviceConfig, c: Cluster, snaps: seq<seq<Node>>)
    requires AllUpgraded(dc, c) && IsSweep(dc, c, snaps)
    requires forall x | x in Detected(dc, c) :: Clean(c[x])
    ensures |Detected(dc, Swept(dc, c, snaps))|
         == if |Detected(dc, c)| <= |snaps| then 0 else |Detected(dc, c)| - |snaps|
    decreases |snaps|
  {
    hide Matches, PhaseOf, Tainted, Clean, Edits, IsListing, UpgradedPick;
    if snaps != [] {
      OnePass(dc, c, snaps[0]);
      OnePassClearsOne(dc, c, snaps[0]);
      SweepClearsOnePerPass(dc, Edited(dc, c, snaps[0]), snaps[1..]);
    }
  }

  ghost predicate FirstDetected(rank: string -> real, dc: DeviceConfig, c: Cluster, name: string) {
    ToUncordon(dc, c, name) && forall x | ToUncordon(dc, c, x) :: rank(name) <= rank(x)
  }

  ghost predicate AllSorted(rank: string -> real, snaps: seq<seq<Node>>) { forall s | s in snaps :: SortedBy(rank, s) }

  lemma PicksFirstDetected(rank: string -> real, dc: DeviceConfig, c: Cluster, snap: seq<Node>, name: string)
    requires Injective(rank) && IsListing(dc, c, snap) && SortedBy(rank, snap) && FirstDetected(rank, dc, c, name)
    ensures UpgradedPick(dc, snap) == Some(c[name])
  {
    UpgradedPickMeaning(dc, snap);
    assert c[name] in snap;
    var i := UpgradedPickIsFirst(dc, snap);
    var j :| 0 <= j < |snap| && snap[j] == c[name];
    assert ToUncordon(dc, c, snap[i].name);
    assert i <= j;
  }

  lemma FirstStaysDetected(rank: string -> real, dc: DeviceConfig, c: Cluster, name: string)
    requires AllUpgraded(dc, c) && FirstDetected(rank, dc, c, name) && !Clean(c[name])
    ensures var c' := Put(c, Uncordon(c[name]));
            && AllUpgraded(dc, c') && FirstDetected(rank, dc, c', name) && !Clean(c'[name])
            && Uncordon(c'[name]) == c'[name]
  {
    UncordonLeaves(dc, c, c[name]);
    UncordonUndoesCordon(c[name]);
  }

  lemma ShadowedPass(rank: string -> real, dc: DeviceConfig, c: Cluster, snap: seq<Node>, name: string)
    requires Injective(rank) && AllUpgraded(dc, c) && IsListing(dc, c, snap) && SortedBy(rank, snap)
    requires FirstDetected(rank, dc, c, name)
    ensures Edited(dc, c, snap) == Put(c, Uncordon(c[name]))
  {
    PicksFirstDetected(rank, dc, c, snap, name);
    OnePass(dc, c, snap);
  }

  lemma {:induction false} ShadowedStays(
    rank: string -> real, dc: DeviceConfig, c: Cluster, snaps: seq<seq<Node>>, name: string)
    requires Injective(rank) && AllUpgraded(dc, c) && IsSweep(dc, c, snaps) && AllSorted(rank, snaps)
    requires FirstDetected(rank, dc, c, name) && Uncordon(c[name]) == c[name]
    ensures Swept(dc, c, snaps) == c
    decreases |snaps|
  {
    hide AllUpgraded, Edits, Matches, IsListing, SortedBy, Uncordon, Injective, PhaseOf, Tainted;
    if snaps != [] {
      assert Edited(dc, c, snaps[0]) == c by {
        ShadowedPass(rank, dc, c, snaps[0], name);
        assert Put(c, c[name]) == c;
      }
      assert forall s | s in snaps[1..] :: s in snaps;
      ShadowedStays(rank, dc, c, snaps[1..], name);
    }
  }

  /** A node whose upgrade-key taint has another effect shadows all later ones: no number of passes changes any other
      node. */
  lemma UncleanNodeShadowsTheRest(
    rank: string -> real, dc: DeviceConfig, c: Cluster, snaps: seq<seq<Node>>, name: string)
    requires Injective(rank) && AllUpgraded(dc, c) && IsSweep(dc, c, snaps) && AllSorted(rank, snaps)
    requires FirstDetected(rank, dc, c, name) && !Clean(c[name])
    ensures Swept(dc, c, snaps) == if snaps == [] then c else Put(c, Uncordon(c[name]))
  {
    if snaps != [] {
      ShadowedPass(rank, dc, c, snaps[0], name);
      FirstStaysDetected(rank, dc, c, name);
      assert forall s | s in snaps[1..] :: s in snaps;
      ShadowedStays(rank, dc, Put(c, Uncordon(c[name])), snaps[1..], name);
    }
  }
}
