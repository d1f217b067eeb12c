/**
 Patches computed from an old copy of a node and merged into a newer one.
 */
module Patches {
  import opened Nodes
  import opened Upgrade
  import opened Protocol

  /** A kickoff patch computed from any copy whose version label differs from the wanted one is the intended edit on
      any live node, and it commutes with KMM's write of the ready label. */
  lemma KickoffPatchFitsAnyNode(dc: DeviceConfig, seen: Node, live: Node, ready: Option<string>)
    requires dc.WellFormed() && dc.V(seen) != Some(dc.Version())
    ensures var p := Diff(seen, Kickoff(dc, seen));
            && Merge(live, p) == Kickoff(dc, live)
            && Merge(SetReady(dc, live, ready), p) == SetReady(dc, Merge(live, p), ready)
  {
    var p := Diff(seen, Kickoff(dc, seen));
    KickoffPatch(dc, seen, live);
    KickoffFits(dc, seen, live);
    KickoffFits(dc, seen, SetReady(dc, live, ready));
    var a, b := Kickoff(dc, SetReady(dc, live, ready)), SetReady(dc, Kickoff(dc, live), ready);
    SetReadyLabels(dc, live, ready);
    SetReadyLabels(dc, Kickoff(dc, live), ready);
    forall k ensures LabelOf(a, k) == LabelOf(b, k) {
      assert LabelOf(Kickoff(dc, live), k) == if k == dc.versionLabel then Some(dc.Version()) else LabelOf(live, k);
    }
    SameLabels(a, b);
  }

  lemma KickoffFits(dc: DeviceConfig, seen: Node, live: Node)
    requires dc.V(seen) != Some(dc.Version())
    ensures Merge(live, Diff(seen, Kickoff(dc, seen))) == Kickoff(dc, live)
  {
    KickoffPatch(dc, seen, live);
    var m := Merge(live, Diff(seen, Kickoff(dc, seen)));
    forall k ensures LabelOf(m, k) == LabelOf(Kickoff(dc, live), k) {}
    SameLabels(m, Kickoff(dc, live));
  }

  /** A taint patch carries the whole list: the cordon patch is the intended edit exactly when the copy's taints are
      still those of the live node, and the uncordon patch exactly when its foreign taints are. */
  lemma TaintPatchesFitExactlyCurrentTaints(seen: Node, live: Node)
    requires seen.name == live.name
    ensures Merge(live, Diff(seen, Cordon(seen))) == Cordon(live) <==> seen.taints == live.taints
    ensures Cordoned(seen) ==>
              (Merge(live, Diff(seen, Uncordon(seen))) == Uncordon(live)
               <==> ForeignTaints(seen.taints) == ForeignTaints(live.taints))
  {
    TaintDiff(seen, seen.taints + [UPGRADE_TAINT]);
    TaintDiff(seen, ForeignTaints(seen.taints));
    var m, u := Merge(live, Diff(seen, Cordon(seen))), Merge(live, Diff(seen, Uncordon(seen)));
    SameLabels(m, live);
    SameLabels(u, live);
    assert (seen.taints + [UPGRADE_TAINT])[..|seen.taints|] == seen.taints;
    assert (live.taints + [UPGRADE_TAINT])[..|live.taints|] == live.taints;
  }

  /** The patch that takes the version label away is the intended edit on a live node exactly if the copy had
      another label or the live node has none: from a copy with no other label it nulls the whole map. */
  lemma UnlabelPatchFitsExactly(dc: DeviceConfig, seen: Node, live: Node)
    requires dc.V(seen).Some?
    ensures Merge(live, Diff(seen, Unlabel(dc, seen))) == Unlabel(dc, live)
            <==> seen.labels.Keys != {dc.versionLabel} || live.labels.Keys <= {dc.versionLabel}
  {
    var m := Merge(live, Diff(seen, Unlabel(dc, seen)));
    if seen.labels.Keys == {dc.versionLabel} {
      assert Clears(seen.labels, Unlabel(dc, seen).labels);
      forall k ensures LabelOf(m, k) == None {}
      if live.labels.Keys <= {dc.versionLabel} {
        SameLabels(m, Unlabel(dc, live));
      } else {
        var k :| k in live.labels && k != dc.versionLabel;
        assert LabelOf(Unlabel(dc, live), k) != LabelOf(m, k);
      }
    } else {
      var k :| k in seen.labels && k != dc.versionLabel;
      assert k in Unlabel(dc, seen).labels;
      forall l ensures LabelOf(m, l) == LabelOf(Unlabel(dc, live), l) {}
      SameLabels(m, Unlabel(dc, live));
    }
  }
}
