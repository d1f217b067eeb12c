/**
 A pass that reads the current state, is not interfered with and has all its patches accepted.
 */
module Pass {
  import opened Nodes
  import opened Upgrade
  import opened Filter
  import opened Protocol
  import opened Quiescence
  import opened Taints

  function Passed(w: World, snap: seq<Node>): World
    requires Enabled(w, List(w.dc, |w.past|, snap))
  {
    PassWith(w, |w.past|, snap, Applied, Applied, Applied)
  }

  /** The first upgraded node without its taint. */
  function UncordonEdit(dc: DeviceConfig, snap: seq<Node>): Option<Node> {
    var u := UpgradedPick(dc, snap);
    if u.Some? then Some(Uncordon(u.value)) else None
  }

  /** The pick, cordoned where need be. */
  function PrepareEdit(dc: DeviceConfig, snap: seq<Node>): Option<Node> {
    var p := UpgradePick(dc, snap);
    if p.Some? then Some(Prepare(dc, p.value)) else None
  }

  /** Moreover asked to move to the wanted version. */
  function KickoffEdit(dc: DeviceConfig, snap: seq<Node>): Option<Node> {
    var p := PrepareEdit(dc, snap);
    if p.Some? then Some(Kickoff(dc, p.value)) else None
  }

  /** The two edits a pass is meant to make; they depend only on the list it read. */
  function Edits(dc: DeviceConfig, snap: seq<Node>): (Option<Node>, Option<Node>) {
    if dc.Version() == "" then (None, None) else (UncordonEdit(dc, snap), KickoffEdit(dc, snap))
  }

  function Edited(dc: DeviceConfig, c: Cluster, snap: seq<Node>): Cluster { PutBoth(c, Edits(dc, snap)) }

  predicate Holds(c: Cluster, n: Option<Node>) { n.Some? ==> n.value.name in c && c[n.value.name] == n.value }

  lemma FirstStep(w: World)
    requires w.op.Listed? && Holds(w.live, UpgradedPick(w.op.dc, w.op.snap))
    ensures var w' := OperateStep(w, Applied);
            && w'.op == Uncordoned(w.op.dc, w.op.snap) && w'.pending == w.pending && w'.dc == w.dc
            && w'.live == PutSome(w.live, UncordonEdit(w.op.dc, w.op.snap))
  {
    var u := UpgradedPick(w.op.dc, w.op.snap);
    if u.Some? { MergeDiff(u.value, Uncordon(u.value)); }
  }

  lemma SecondStep(w: World)
    requires w.op.Uncordoned? && Holds(w.live, UpgradePick(w.op.dc, w.op.snap))
    ensures var w', p := OperateStep(w, Applied), PrepareEdit(w.op.dc, w.op.snap);
            && w'.op == Kicking(w.op.dc, p) && w'.pending == w.pending && w'.dc == w.dc && w'.live == PutSome(w.live, p)
  {
    var p := UpgradePick(w.op.dc, w.op.snap);
    if p.Some? {
      MergeDiff(p.value, Cordon(p.value));
      assert w.live == w.live[p.value.name := p.value];
    }
  }

  lemma ThirdStep(w: World, h: Node)
    requires w.op == Kicking(w.dc, Some(h)) && w.dc.WellFormed()
    requires h.name in w.live && w.live[h.name] == h && w.dc.Targets(h) && PhaseOf(w.dc, h) == Before
    ensures var w' := OperateStep(w, Applied);
            w'.op == Done(true) && w'.dc == w.dc && w'.live == Put(w.live, Kickoff(w.dc, h)) && w'.pending
  {
    MergeDiff(h, Kickoff(w.dc, h));
    assert h in Updated(h, Kickoff(w.dc, h)).Objects();
    assert w.dc.V(Kickoff(w.dc, h)) != w.dc.V(h);
  }

  lemma LastTwoSteps(w: World, snap: seq<Node>)
    requires w.op == Uncordoned(w.dc, snap) && !w.pending && w.dc.WellFormed() && Holds(w.live, UpgradePick(w.dc, snap))
    requires var p := UpgradePick(w.dc, snap); p.Some? ==> w.dc.Targets(p.value) && PhaseOf(w.dc, p.value) == Before
    ensures var w' := OperateStep(OperateStep(w, Applied), Applied);
            && w'.live == PutSome(w.live, KickoffEdit(w.dc, snap)) && w'.op == Done(true) && w'.dc == w.dc
            && (w'.pending <==> UpgradePick(w.dc, snap).Some?)
  {
    hide Diff, Merge, UpgradePick;
    SecondStep(w);
    var p := UpgradePick(w.dc, snap);
    if p.Some? {
      PreparedStaysBefore(w.dc, p.value);
      ThirdStep(OperateStep(w, Applied), Prepare(w.dc, p.value));
    }
  }

  /** The patches add up to those two edits, and the pass has itself called again exactly when it kicked a node off. */
  lemma PassMakesTheTwoEdits(w: World, snap: seq<Node>)
    requires w.dc.WellFormed() && Enabled(w, List(w.dc, |w.past|, snap))
    ensures var w' := Passed(w, snap);
            && w'.live == Edited(w.dc, w.live, snap) && w'.op == Done(true) && w'.dc == w.dc
            && (w'.pending <==> w.dc.Version() != "" && UpgradePick(w.dc, snap).Some?)
  {
    if w.dc.Version() != "" {
      ListingPicks(w.dc, w.live, snap);
      UpgradePickMeaning(w.dc, snap);
      var w1 := Do(w, List(w.dc, |w.past|, snap));
      FirstStep(w1);
      LastTwoSteps(OperateStep(w1, Applied), snap);
    }
  }

  lemma PreparedStaysBefore(dc: DeviceConfig, n: Node)
    ensures var p := Prepare(dc, n); p.name == n.name && p.labels == n.labels
    ensures dc.Targets(Prepare(dc, n)) == dc.Targets(n) && PhaseOf(dc, Prepare(dc, n)) == PhaseOf(dc, n)
  {
  }

  // ----- Work left behind without a request -----

  /** After an uncordon the node stops being detected exactly when each of its taints with the upgrade key has the
      effect that removal looks for. */
  lemma UncordonEffectiveExactlyWhenClean(n: Node)
    ensures !Tainted(Uncordon(n)) <==> Clean(n)
  {
  }

  /** Still to be uncordoned, and not settled by uncordoning u. */
  predicate Overlooked(dc: DeviceConfig, c: Cluster, u: Option<Node>, x: string) {
    ToUncordon(dc, c, x) && (u.None? || x != u.value.name || !Clean(c[x]))
  }

  lemma UncordonLeaves(dc: DeviceConfig, c: Cluster, u: Node)
    requires u.name in c && c[u.name] == u
    ensures var c' := Put(c, Uncordon(u));
            && (forall x :: ToUncordon(dc, c', x) <==> Overlooked(dc, c, Some(u), x))
            && (forall x :: ToUpgrade(dc, c', x) <==> ToUpgrade(dc, c, x))
            && (forall x :: InUpgradeNow(dc, c', x) <==> InUpgradeNow(dc, c, x))
  {
    UncordonEffectiveExactlyWhenClean(u);
    var n := Uncordon(u);
    assert dc.Targets(n) == dc.Targets(u) && PhaseOf(dc, n) == PhaseOf(dc, u);
    hide Matches, PhaseOf, Uncordon, Tainted, Clean;
    var c': Cluster := Put(c, n);
    forall x ensures ToUncordon(dc, c', x) <==> Overlooked(dc, c, Some(u), x) {}
    forall x ensures ToUpgrade(dc, c', x) <==> ToUpgrade(dc, c, x) {}
    forall x ensures InUpgradeNow(dc, c', x) <==> InUpgradeNow(dc, c, x) {}
  }

  /** More is to be uncordoned than one pass can: two nodes, or one with a taint of another effect under the key. */
  ghost predicate TooMuchToUncordon(dc: DeviceConfig, c: Cluster) {
    exists x :: ToUncordon(dc, c, x) && (!Clean(c[x]) || exists y :: y != x && ToUncordon(dc, c, y))
  }

  /** Then something is overlooked whichever node the list puts first. */
  lemma OverlookedInAnyOrder(dc: DeviceConfig, c: Cluster, snap: seq<Node>)
    requires IsListing(dc, c, snap)
    ensures (exists x :: Overlooked(dc, c, UpgradedPick(dc, snap), x)) <==> TooMuchToUncordon(dc, c)
  {
    hide Matches, PhaseOf, UpgradedPick;
    ListingDecides(dc, c, snap);
    ListingPicks(dc, c, snap);
    UpgradedPickMeaning(dc, snap);
    var u := UpgradedPick(dc, snap);
    if u.Some? {
      assert ToUncordon(dc, c, u.value.name);
      if x :| ToUncordon(dc, c, x) && (!Clean(c[x]) || exists y :: y != x && ToUncordon(dc, c, y)) {
        if !Clean(c[x]) || x != u.value.name {
          assert Overlooked(dc, c, u, x);
        } else {
          var y :| y != x && ToUncordon(dc, c, y);
          assert Overlooked(dc, c, u, y);
        }
      }
      if x :| Overlooked(dc, c, u, x) {
        assert x != u.value.name || !Clean(c[x]);
      }
    }
  }

  /** The exact condition under which a successful undisturbed pass leaves work behind and no request to do it,
      whatever order it lists the nodes in: no kickoff is due, and two nodes are to be uncordoned, or one is that
      keeps a taint of another effect. */
  lemma WorkLeftUnrequestedExactly(w: World, snap: seq<Node>)
    requires w.dc.WellFormed() && Enabled(w, List(w.dc, |w.past|, snap))
    ensures var w' := Passed(w, snap);
            (WorkLeft(w'.dc, w'.live) && !w'.pending) <==>
            (w.dc.Version() != "" && !WouldKickOff(w.dc, w.live) && TooMuchToUncordon(w.dc, w.live))
  {
    hide Matches, LabelOf, PhaseOf, Tainted, UpgradedPick, UpgradePick, TooMuchToUncordon, Passed;
    PassMakesTheTwoEdits(w, snap);
    ListingDecides(w.dc, w.live, snap);
    ListingPicks(w.dc, w.live, snap);
    OverlookedInAnyOrder(w.dc, w.live, snap);
    var u := UpgradedPick(w.dc, snap);
    if w.dc.Version() != "" && !WouldKickOff(w.dc, w.live) && u.Some? {
      LeftAfterUncordon(w.dc, w.live, u.value);
    }
  }

  lemma LeftAfterUncordon(dc: DeviceConfig, c: Cluster, u: Node)
    requires u.name in c && c[u.name] == u && dc.Version() != "" && !WouldKickOff(dc, c)
    ensures WorkLeft(dc, Put(c, Uncordon(u))) <==> exists x :: Overlooked(dc, c, Some(u), x)
  {
    UncordonLeaves(dc, c, u);
    hide ToUncordon, ToUpgrade, InUpgradeNow, Overlooked, Put, Uncordon;
  }
}
