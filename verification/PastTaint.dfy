/**
 In whatever order the nodes are listed, at most one targeted node that was already asked for the wanted version still
 carries the upgrade taint.
 */
module PastTaint {
  import opened Nodes
  import opened Upgrade
  import opened Protocol
  import opened OneTaint

  /** Tainted although no longer to be upgraded. */
  predicate PastTainted(dc: DeviceConfig, c: Cluster, x: string) {
    TaintedTarget(dc, c, x) && PhaseOf(dc, c[x]) != Before
  }

  ghost predicate OnlyPast(dc: DeviceConfig, c: Cluster, name: string) {
    forall a | PastTainted(dc, c, a) :: a == name
  }

  ghost predicate NonePast(dc: DeviceConfig, c: Cluster) { forall a :: !PastTainted(dc, c, a) }

  ghost predicate AtMostOnePast(dc: DeviceConfig, c: Cluster) {
    forall a | PastTainted(dc, c, a) :: OnlyPast(dc, c, a)
  }

  ghost predicate PickKnown(dc: DeviceConfig, c: Cluster, d: DeviceConfig, snap: seq<Node>) {
    var p := UpgradePick(d, snap);
    && Agree(dc, d)
    && (forall n | n in snap :: Clean(n))
    && (p.Some? && p.value.name in c ==> IsNew(dc, c[p.value.name]) || dc.V(c[p.value.name]) == dc.V(p.value))
  }

  /** A pass that still means to kick a node off sees no such taint, once it has uncordoned. */
  ghost predicate OpTidy(dc: DeviceConfig, c: Cluster, op: Op) {
    match op
    case Done(_) => true
    case Listed(d, snap) =>
      var u := UpgradedPick(d, snap);
      && PickKnown(dc, c, d, snap)
      && (u.Some? ==> OnlyPast(dc, c, u.value.name))
      && (u.None? && UpgradePick(d, snap).Some? ==> NonePast(dc, c))
    case Uncordoned(d, snap) => PickKnown(dc, c, d, snap) && (UpgradePick(d, snap).Some? ==> NonePast(dc, c))
    case Kicking(d, held) => Agree(dc, d) && (held.Some? ==> NonePast(dc, c))
  }

  ghost predicate Tidy(w: World) {
    w.dc.WellFormed() && AllClean(w.dc, w.live) && AtMostOnePast(w.dc, w.live) && OpTidy(w.dc, w.live, w.op)
  }

  /** At rest it asks for less than the order of taints does. */
  lemma OrderedAtRestIsTidy(rank: string -> real, w: World)
    requires Ordered(rank, w) && w.op.Done?
    ensures Tidy(w)
  {
    hide Matches, LabelOf, PhaseOf, Tainted;
    forall a, b | PastTainted(w.dc, w.live, a) && PastTainted(w.dc, w.live, b) ensures a == b {
      assert OnlyTainted(w.dc, w.live, a);
    }
  }

  // ----- Steps -----

  lemma ListKeepsTidy(w: World, d: DeviceConfig, snap: seq<Node>)
    requires Tidy(w) && Agree(w.dc, d) && IsListing(w.dc, w.live, snap)
    ensures OpTidy(w.dc, w.live, Listed(d, snap))
  {
    hide UpgradePick, UpgradedPick, Matches, Tainted;
    UpgradedPickMeaning(d, snap);
    UpgradePickMeaning(d, snap);
    var u := UpgradedPick(d, snap);
    assert u.Some? ==> PastTainted(w.dc, w.live, u.value.name);
    forall a | PastTainted(w.dc, w.live, a)
      ensures u.None? ==> UpgradePick(d, snap).None?
    {
      assert w.live[a] in snap;
    }
  }

  /** A write that makes no node tainted or asked for the wanted version keeps all this. */
  lemma NoWorseStaysTidy(dc: DeviceConfig, c: Cluster, c': Cluster, op: Op)
    requires AtMostOnePast(dc, c) && OpTidy(dc, c, op) && NoWorse(dc, c, c', op)
    ensures AtMostOnePast(dc, c') && OpTidy(dc, c', op)
  {
    PastShrinks(dc, c, c', op);
    hide PastTainted, NoWorse;
    if op.Listed? || op.Uncordoned? { PickStaysKnown(dc, c, c', op); }
  }

  lemma PastShrinks(dc: DeviceConfig, c: Cluster, c': Cluster, op: Op)
    requires NoWorse(dc, c, c', op)
    ensures forall a | PastTainted(dc, c', a) :: PastTainted(dc, c, a)
  {
    hide Matches, LabelOf, Tainted;
    forall a | PastTainted(dc, c', a) ensures PastTainted(dc, c, a) {
      assert TaintedTarget(dc, c', a);
    }
  }

  lemma PickStaysKnown(dc: DeviceConfig, c: Cluster, c': Cluster, op: Op)
    requires (op.Listed? || op.Uncordoned?) && PickKnown(dc, c, op.dc, op.snap) && NoWorse(dc, c, c', op)
    ensures PickKnown(dc, c', op.dc, op.snap)
  {
    hide Matches, LabelOf, Tainted, UpgradePick;
    UpgradePickMeaning(op.dc, op.snap);
    var p := UpgradePick(op.dc, op.snap);
    assert p.Some? ==> Mentions(op, p.value.name);
  }

  lemma UncordonLeavesNone(dc: DeviceConfig, c: Cluster, n: Node)
    requires n.name in c && OnlyPast(dc, c, n.name) && !Tainted(n)
    ensures NonePast(dc, c[n.name := n])
  {
    hide Matches, LabelOf, PhaseOf, Tainted;
    var c': Cluster := c[n.name := n];
    forall a ensures !PastTainted(dc, c', a) {
      assert PastTainted(dc, c, a) ==> a == n.name;
    }
  }

  lemma CordonLeavesNone(dc: DeviceConfig, c: Cluster, n: Node)
    requires n.name in c && NonePast(dc, c) && PhaseOf(dc, n) == Before
    ensures NonePast(dc, c[n.name := n])
  {
    hide Matches, LabelOf, PhaseOf, Tainted;
    var c': Cluster := c[n.name := n];
    forall a ensures !PastTainted(dc, c', a) {
      assert !PastTainted(dc, c, a);
    }
  }

  lemma KickoffLeavesOne(dc: DeviceConfig, c: Cluster, n: Node)
    requires n.name in c && NonePast(dc, c)
    ensures AtMostOnePast(dc, c[n.name := n])
  {
    hide Matches, LabelOf, PhaseOf, Tainted;
    var c': Cluster := c[n.name := n];
    forall a ensures PastTainted(dc, c', a) ==> a == n.name {
      assert !PastTainted(dc, c, a);
    }
  }

  lemma PatchKeepsTidy(w: World)
    requires Tidy(w) && Issue(w.op).Some? && Issue(w.op).value.name in w.live
    ensures var n := PatchedNode(w.live, w.op);
            && (w.dc.Targets(n) ==> Clean(n)) && AtMostOnePast(w.dc, w.live[n.name := n])
            && (!w.op.Kicking? ==> NonePast(w.dc, w.live[n.name := n]) && n.labels == w.live[n.name].labels)
  {
    hide AtMostOnePast, NonePast, OnlyPast, Merge, Diff, Matches, LabelOf, UpgradedPick, UpgradePick;
    var n := PatchedNode(w.live, w.op);
    match w.op
    case Listed(_, _) =>
      UncordonClears(w.dc, w.live, w.op);
      UncordonLeavesNone(w.dc, w.live, n);
      NoneIsAtMostOne(w.dc, w.live[n.name := n]);
    case Uncordoned(_, _) =>
      CordonTaints(w.dc, w.live, w.op);
      CordonLeavesNone(w.dc, w.live, n);
      NoneIsAtMostOne(w.dc, w.live[n.name := n]);
    case Kicking(_, _) =>
      PassWrites(w.dc, w.op, w.live[n.name]);
      KickoffLeavesOne(w.dc, w.live, n);
  }

  lemma NoneIsAtMostOne(dc: DeviceConfig, c: Cluster)
    requires NonePast(dc, c)
    ensures AtMostOnePast(dc, c)
  {
  }

  lemma OperateKeepsTidy(w: World, o: Outcome)
    requires Tidy(w)
    ensures Tidy(OperateStep(w, o))
  {
    hide AtMostOnePast, NonePast, OnlyPast, Merge, Diff, Matches, UpgradedPick, UpgradePick, Clean;
    if Issue(w.op).Some? && Issue(w.op).value.name in w.live { PatchKeepsTidy(w); }
  }

  lemma StepKeepsTidy(w: World, e: Event)
    requires Tidy(w) && Enabled(w, e) && Tame(w, e)
    ensures Tidy(Do(w, e))
  {
    match e
    case List(d, _, snap) => ListKeepsTidy(w, d, snap);
    case Operate(o) => OperateKeepsTidy(w, o);
    case Restart =>
    case Edit(d) => EditKeepsTidy(w, d);
    case _ =>
      OthersAreHarmless(w, e);
      NoWorseStaysTidy(w.dc, w.live, Do(w, e).live, w.op);
  }

  lemma EditKeepsTidy(w: World, d: DeviceConfig)
    requires Tidy(w) && Agree(w.dc, d)
    ensures Tidy(w.(dc := d, pending := true))
  {
    hide UpgradePick, UpgradedPick, Matches, LabelOf, Tainted;
    forall a ensures PastTainted(d, w.live, a) == PastTainted(w.dc, w.live, a) {}
  }

  /** The bound over any run, for any order of each list. */
  lemma {:induction false} RunKeepsTidy(w: World, es: seq<Event>)
    requires Tidy(w) && IsRun(Loose, w, es)
    ensures Tidy(Run(Loose, w, es))
    decreases |es|
  {
    if es != [] {
      StepKeepsTidy(w, es[0]);
      RunKeepsTidy(Do(w, es[0]), es[1..]);
    }
  }

  /** From clean taints and at most one node to uncordon or in upgrade under the taint, two such nodes never come
      about. */
  lemma AtMostOneToUncordon(w: World, es: seq<Event>, a: string, b: string)
    requires w.dc.WellFormed() && w.op.Done? && AllClean(w.dc, w.live) && AtMostOnePast(w.dc, w.live)
    requires IsRun(Loose, w, es)
    requires var w' := Run(Loose, w, es); PastTainted(w'.dc, w'.live, a) && PastTainted(w'.dc, w'.live, b)
    ensures a == b
  {
    hide Matches, LabelOf, PhaseOf, Tainted;
    RunKeepsTidy(w, es);
  }
}
