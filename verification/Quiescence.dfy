/**
 When a pass has nothing to write.
 */
module Quiescence {
  import opened Nodes
  import opened Upgrade
  import opened Protocol

  ghost predicate WouldKickOff(dc: DeviceConfig, c: Cluster) {
    (exists x :: ToUpgrade(dc, c, x)) && !exists x :: InUpgradeNow(dc, c, x)
  }

  /** What a pass over the current state would still have to write, told from the cluster alone. */
  ghost predicate WorkLeft(dc: DeviceConfig, c: Cluster) {
    dc.Version() != "" && ((exists x :: ToUncordon(dc, c, x)) || WouldKickOff(dc, c))
  }

  lemma ListingDecides(dc: DeviceConfig, c: Cluster, snap: seq<Node>)
    requires IsListing(dc, c, snap)
    ensures UpgradedPick(dc, snap).Some? <==> exists x :: ToUncordon(dc, c, x)
    ensures UpgradePick(dc, snap).Some? <==> WouldKickOff(dc, c)
  {
    UpgradedPickMeaning(dc, snap);
    UpgradePickMeaning(dc, snap);
    forall n | n in snap
      ensures ToUpgrade(dc, c, n.name) <==> PhaseOf(dc, n) == Before
      ensures InUpgradeNow(dc, c, n.name) <==> PhaseOf(dc, n) == InUpgrade
      ensures ToUncordon(dc, c, n.name) <==> PhaseOf(dc, n) == Upgraded && Tainted(n)
    {}
    forall x | x in c && dc.Targets(c[x]) ensures c[x] in snap {}
  }

  /** However the list is ordered and whatever the server answers, a pass sends no patch exactly when no work is
      left. */
  lemma QuiescentExactlyWhenNoWorkLeft(dc: DeviceConfig, c: Cluster, snap: seq<Node>, answers: seq<Option<Node>>)
    requires IsListing(dc, c, snap)
    ensures Requests(Begin(dc, snap), answers).0 == [] <==> !WorkLeft(dc, c)
  {
    ListingDecides(dc, c, snap);
    var first, second, third := Listed(dc, snap), Uncordoned(dc, snap), Kicking(dc, UpgradePick(dc, snap));
    var done := Requests(Done(true), answers);
    if dc.Version() == "" {
      assert done.0 == [];
    } else if Issue(first).Some? {
      assert |Requests(first, answers).0| > 0;
    } else {
      assert Requests(first, answers) == Requests(second, answers);
      if Issue(second).None? {
        assert Requests(second, answers) == Requests(third, answers);
        assert Issue(third).None? ==> Requests(third, answers) == done;
      }
    }
  }
}
