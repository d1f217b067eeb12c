/**
 When exactly a pass puts the upgrade taint on a second targeted node.
 */
module SecondTaint {
  import opened Nodes
  import opened Upgrade
  import opened Protocol
  import opened Taints
  import opened OneTaint

  function TaintedNames(dc: DeviceConfig, c: Cluster): set<string> { set x | x in c && TaintedTarget(dc, c, x) }

  ghost predicate TwoTainted(dc: DeviceConfig, c: Cluster) {
    exists a, b | a in TaintedNames(dc, c) && b in TaintedNames(dc, c) :: a != b
  }

  /** No pass under way, clean taints and at most one tainted target. */
  ghost predicate AtRest(w: World) {
    && w.dc.WellFormed() && w.dc.Version() != "" && w.op.Done?
    && AllClean(w.dc, w.live) && !TwoTainted(w.dc, w.live)
  }

  // ----- What one patch does to the set of tainted targets -----

  lemma PutTainted(dc: DeviceConfig, c: Cluster, n: Node)
    requires n.name in c && dc.Targets(n) == dc.Targets(c[n.name])
    ensures TaintedNames(dc, Put(c, n))
         == if dc.Targets(n) && Tainted(n) then TaintedNames(dc, c) + {n.name} else TaintedNames(dc, c) - {n.name}
  {
    hide Matches, Tainted;
  }

  lemma UncordonStep(w: World, o: Outcome)
    requires w.dc.WellFormed() && w.op.Listed? && w.op.dc == w.dc && forall n | n in w.op.snap :: Clean(n)
    ensures var u, w' := UpgradedPick(w.dc, w.op.snap), OperateStep(w, o);
            && (u.None? ==> w'.op == Uncordoned(w.dc, w.op.snap))
            && (u.Some? ==> w'.op.Done? || (Lands(w, o) && w'.op == Uncordoned(w.dc, w.op.snap)))
            && TaintedNames(w'.dc, w'.live)
               == if Lands(w, o) then TaintedNames(w.dc, w.live) - {u.value.name} else TaintedNames(w.dc, w.live)
  {
    hide Diff, Merge, Matches, Tainted, TaintedNames;
    StepKeepsNames(w, o);
    if Lands(w, o) {
      UncordonClears(w.dc, w.live, w.op);
      PassWrites(w.dc, w.op, w.live[Issue(w.op).value.name]);
      PutTainted(w.dc, w.live, PatchedNode(w.live, w.op));
    }
  }

  /** The pick is live as listed. */
  predicate PickStands(w: World)
    requires w.op.Listed? || w.op.Uncordoned?
  {
    var p := UpgradePick(w.op.dc, w.op.snap);
    p.Some? ==> p.value.name in w.live && w.dc.Targets(w.live[p.value.name])
  }

  lemma CordonStep(w: World, o: Outcome)
    requires w.dc.WellFormed() && w.op.Uncordoned? && w.op.dc == w.dc && PickStands(w)
    ensures var p, w' := UpgradePick(w.dc, w.op.snap), OperateStep(w, o);
            && (w'.op.Done? || (w'.op.Kicking? && w'.op.dc == w.dc))
            && TaintedNames(w'.dc, w'.live)
               == if p.Some? && !IsNew(w.dc, p.value) && !Cordoned(p.value) && !o.Lost?
                  then TaintedNames(w.dc, w.live) + {p.value.name} else TaintedNames(w.dc, w.live)
  {
    hide Diff, Merge, Matches, TaintedNames;
    StepKeepsNames(w, o);
    if Lands(w, o) {
      var n := PatchedNode(w.live, w.op);
      PassWrites(w.dc, w.op, w.live[n.name]);
      CordonPatch(w.dc, w.op.snap, w.live[n.name]);
      assert UPGRADE_TAINT in n.taints;
      PutTainted(w.dc, w.live, n);
    }
  }

  lemma KickoffStep(w: World, o: Outcome)
    requires w.dc.WellFormed() && (w.op.Done? || (w.op.Kicking? && w.op.dc == w.dc))
    ensures TaintedNames(w.dc, OperateStep(w, o).live) == TaintedNames(w.dc, w.live)
    ensures OperateStep(w, o).dc == w.dc && OperateStep(w, o).op.Done?
  {
    hide Diff, Merge, Matches;
    StepKeepsNames(w, o);
    if Lands(w, o) {
      var n := PatchedNode(w.live, w.op);
      PassWrites(w.dc, w.op, w.live[n.name]);
      PutTainted(w.dc, w.live, n);
    }
  }

  // ----- A whole pass -----

  /** The condition a caller can check before the pass: its pick is labelled and not tainted yet, the cordon patch
      is not lost, and a targeted node that is still to be upgraded is tainted already. */
  ghost predicate CordonsBesides(w: World, snap: seq<Node>, o2: Outcome) {
    var p := UpgradePick(w.dc, snap);
    && p.Some? && !IsNew(w.dc, p.value) && !Tainted(p.value) && !o2.Lost?
    && exists a :: TaintedTarget(w.dc, w.live, a) && PhaseOf(w.dc, w.live[a]) == Before
  }

  lemma OneMore(dc: DeviceConfig, c: Cluster, c': Cluster, p: string)
    requires TaintedNames(dc, c') == TaintedNames(dc, c) + {p} && p !in TaintedNames(dc, c)
    ensures TwoTainted(dc, c') <==> TaintedNames(dc, c) != {}
  {
    hide TaintedNames;
    if a :| a in TaintedNames(dc, c) {
      assert a in TaintedNames(dc, c') && p in TaintedNames(dc, c') && a != p;
    }
  }

  lemma AfterUncordon(w: World, snap: seq<Node>, o1: Outcome)
    requires AtRest(w) && Enabled(w, List(w.dc, |w.past|, snap))
    ensures var u, w2 := UpgradedPick(w.dc, snap), OperateStep(Do(w, List(w.dc, |w.past|, snap)), o1);
            && w2.dc == w.dc
            && (u.None? ==> w2.op == Uncordoned(w.dc, snap) && w2.live == w.live)
            && (u.Some? ==> TaintedNames(w.dc, w.live) == {u.value.name}
                            && TaintedNames(w.dc, w2.live) <= TaintedNames(w.dc, w.live)
                            && (w2.op.Done? || (w2.op == Uncordoned(w.dc, snap) && TaintedNames(w.dc, w2.live) == {})))
            && (w2.op.Uncordoned? ==> PickStands(w2))
  {
    hide Matches, LabelOf, Diff, Merge, Tainted, PhaseOf, UpgradePick, UpgradedPick, Requests;
    var u, w1 := UpgradedPick(w.dc, snap), Do(w, List(w.dc, |w.past|, snap));
    ListingPicks(w.dc, w.live, snap);
    PickIsTarget(w.dc, w.live, snap);
    UpgradedPickMeaning(w.dc, snap);
    UncordonStep(w1, o1);
    StepKeepsNames(w1, o1);
    if u.Some? {
      assert u.value.name in TaintedNames(w.dc, w.live);
      assert forall a | a in TaintedNames(w.dc, w.live) :: a == u.value.name;
    }
  }

  lemma CordonAndKickoff(w: World, o2: Outcome, o3: Outcome)
    requires w.dc.WellFormed() && w.op.Uncordoned? && w.op.dc == w.dc && PickStands(w)
    ensures var p, w' := UpgradePick(w.dc, w.op.snap), OperateStep(OperateStep(w, o2), o3);
            && w'.dc == w.dc
            && TaintedNames(w.dc, w'.live)
               == if p.Some? && !IsNew(w.dc, p.value) && !Cordoned(p.value) && !o2.Lost?
                  then TaintedNames(w.dc, w.live) + {p.value.name} else TaintedNames(w.dc, w.live)
  {
    hide OperateStep, TaintedNames;
    CordonStep(w, o2);
    StepKeepsNames(w, o2);
    KickoffStep(OperateStep(w, o2), o3);
  }

  lemma CordoningCase(w: World, snap: seq<Node>, o1: Outcome, o2: Outcome, o3: Outcome)
    requires AtRest(w) && Enabled(w, List(w.dc, |w.past|, snap)) && UpgradedPick(w.dc, snap).None?
    ensures var w' := PassWith(w, |w.past|, snap, o1, o2, o3);
            TwoTainted(w'.dc, w'.live) <==> CordonsBesides(w, snap, o2)
  {
    hide TwoTainted, Matches, LabelOf, UpgradePick, UpgradedPick, OperateStep, PhaseOf, Tainted;
    var p, w' := UpgradePick(w.dc, snap), PassWith(w, |w.past|, snap, o1, o2, o3);
    var w2 := OperateStep(Do(w, List(w.dc, |w.past|, snap)), o1);
    ListingPicks(w.dc, w.live, snap);
    PickIsTarget(w.dc, w.live, snap);
    AfterUncordon(w, snap, o1);
    CordonAndKickoff(w2, o2, o3);
    SameNames(w.dc, w.live, w'.live);
    if p.Some? {
      TaintedAreBefore(w, snap);
      if !Tainted(p.value) && !IsNew(w.dc, p.value) && !o2.Lost? {
        OneMore(w.dc, w.live, w'.live, p.value.name);
        assert forall a :: TaintedTarget(w.dc, w.live, a) <==> a in TaintedNames(w.dc, w.live);
      }
    }
  }

  lemma SameNames(dc: DeviceConfig, c: Cluster, c': Cluster)
    ensures TaintedNames(dc, c') <= TaintedNames(dc, c) && !TwoTainted(dc, c) ==> !TwoTainted(dc, c')
  {
    hide TaintedNames;
  }

  lemma PickIsTarget(dc: DeviceConfig, c: Cluster, snap: seq<Node>)
    requires IsListing(dc, c, snap)
    ensures var p := UpgradePick(dc, snap);
            p.Some? ==> dc.Targets(p.value) && (Clean(p.value) ==> Cordoned(p.value) == Tainted(p.value))
  {
    UpgradePickMeaning(dc, snap);
  }

  lemma UncordoningCase(w: World, snap: seq<Node>, o1: Outcome, o2: Outcome, o3: Outcome)
    requires AtRest(w) && Enabled(w, List(w.dc, |w.past|, snap)) && UpgradedPick(w.dc, snap).Some?
    ensures var w' := PassWith(w, |w.past|, snap, o1, o2, o3); !TwoTainted(w'.dc, w'.live)
    ensures !CordonsBesides(w, snap, o2)
  {
    hide Matches, LabelOf, UpgradePick, UpgradedPick, OperateStep, Tainted, TaintedNames;
    var w2 := OperateStep(Do(w, List(w.dc, |w.past|, snap)), o1);
    AfterUncordon(w, snap, o1);
    UncordonedIsUpgraded(w, snap);
    if w2.op.Done? {
      KickoffStep(w2, o2);
      KickoffStep(OperateStep(w2, o2), o3);
    } else {
      CordonAndKickoff(w2, o2, o3);
    }
  }

  lemma UncordonedIsUpgraded(w: World, snap: seq<Node>)
    requires Enabled(w, List(w.dc, |w.past|, snap)) && UpgradedPick(w.dc, snap).Some?
    requires TaintedNames(w.dc, w.live) == {UpgradedPick(w.dc, snap).value.name}
    ensures forall a | TaintedTarget(w.dc, w.live, a) :: PhaseOf(w.dc, w.live[a]) == Upgraded
  {
    hide Matches, LabelOf, Tainted;
    UpgradedPickMeaning(w.dc, snap);
    assert forall a | TaintedTarget(w.dc, w.live, a) :: a in TaintedNames(w.dc, w.live);
  }

  /** For every listing and whatever becomes of its patches, a pass from rest ends with two tainted targets exactly
      when it cordons its pick beside a tainted node that is still to be upgraded. */
  lemma PassTaintsTwoExactly(w: World, snap: seq<Node>, o1: Outcome, o2: Outcome, o3: Outcome)
    requires AtRest(w) && Enabled(w, List(w.dc, |w.past|, snap))
    ensures var w' := PassWith(w, |w.past|, snap, o1, o2, o3);
            TwoTainted(w'.dc, w'.live) <==> CordonsBesides(w, snap, o2)
  {
    if UpgradedPick(w.dc, snap).None? {
      CordoningCase(w, snap, o1, o2, o3);
    } else {
      UncordoningCase(w, snap, o1, o2, o3);
    }
  }

  /** While nothing is to be uncordoned and something may be kicked off, what is tainted is still to be upgraded. */
  lemma TaintedAreBefore(w: World, snap: seq<Node>)
    requires Enabled(w, List(w.dc, |w.past|, snap)) && UpgradedPick(w.dc, snap).None? && UpgradePick(w.dc, snap).Some?
    ensures forall a | TaintedTarget(w.dc, w.live, a) :: PhaseOf(w.dc, w.live[a]) == Before
  {
    hide Matches, LabelOf, Tainted;
    UpgradedPickMeaning(w.dc, snap);
    UpgradePickMeaning(w.dc, snap);
    forall a | TaintedTarget(w.dc, w.live, a) ensures PhaseOf(w.dc, w.live[a]) == Before {
      assert w.live[a] in snap;
    }
  }

  /** One list order excludes this: what is tainted and to be upgraded is then the pick itself. */
  lemma OneOrderNeverCordonsBesides(rank: string -> real, w: World, snap: seq<Node>, o2: Outcome)
    requires Injective(rank) && TaintOrder(rank, w.dc, w.live)
    requires IsListing(w.dc, w.live, snap) && SortedBy(rank, snap)
    ensures !CordonsBesides(w, snap, o2)
  {
    hide Matches, LabelOf, Tainted;
    var p := UpgradePick(w.dc, snap);
    if p.Some? {
      SortedPickIsLast(rank, w.dc, w.live, snap);
      ListingPicks(w.dc, w.live, snap);
      forall a | TaintedTarget(w.dc, w.live, a) && PhaseOf(w.dc, w.live[a]) == Before
        ensures IsNew(w.dc, p.value) || a == p.value.name
      {
        assert ToUpgrade(w.dc, w.live, a);
        if !IsNew(w.dc, p.value) {
          assert Waiting(w.dc, w.live, p.value.name);
          assert rank(p.value.name) == rank(a);
        }
      }
    }
  }
}
