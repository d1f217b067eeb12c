/**
 At most one targeted node carries the upgrade taint, whatever patches fail and whatever new nodes join, as long as
 the version stays and the list order is stable.
 */
module OneTaint {
  import opened Nodes
  import opened Upgrade
  import opened Filter
  import opened Protocol
  import opened Taints

  predicate TaintedTarget(dc: DeviceConfig, c: Cluster, x: string) {
    x in c && dc.Targets(c[x]) && Tainted(c[x])
  }

  /** Still to be upgraded from an earlier version. */
  predicate Waiting(dc: DeviceConfig, c: Cluster, x: string) {
    x in c && dc.Targets(c[x]) && !IsNew(dc, c[x]) && PhaseOf(dc, c[x]) == Before
  }

  ghost predicate OnlyTainted(dc: DeviceConfig, c: Cluster, name: string) {
    forall a | TaintedTarget(dc, c, a) :: a == name
  }

  ghost predicate LastWaiting(rank: string -> real, dc: DeviceConfig, c: Cluster, name: string) {
    forall b | Waiting(dc, c, b) :: rank(b) <= rank(name)
  }

  ghost predicate AllClean(dc: DeviceConfig, c: Cluster) { forall x | x in c && dc.Targets(c[x]) :: Clean(c[x]) }

  /** The auxiliary fact: no labelled node to be upgraded comes after a tainted one that is to be upgraded, so that
      a pass that failed after the cordon picks it again before it cordons another. */
  ghost predicate TaintOrder(rank: string -> real, dc: DeviceConfig, c: Cluster) {
    && AllClean(dc, c)
    && (forall a | TaintedTarget(dc, c, a) :: OnlyTainted(dc, c, a))
    && (forall a | TaintedTarget(dc, c, a) && PhaseOf(dc, c[a]) == Before ::
          LastWaiting(rank, dc, c, a))
  }

  /** What a pass knows of its labelled pick until it has cordoned it. */
  ghost predicate PickOrder(rank: string -> real, dc: DeviceConfig, c: Cluster, d: DeviceConfig, snap: seq<Node>) {
    var p := UpgradePick(d, snap);
    && Agree(dc, d)
    && (forall n | n in snap :: Clean(n))
    && (p.Some? && !IsNew(d, p.value) ==>
          && LastWaiting(rank, dc, c, p.value.name)
          && (p.value.name in c ==> IsNew(dc, c[p.value.name]) || dc.V(c[p.value.name]) == dc.V(p.value)))
  }

  /** The nodes that may be tainted while a pass holds snap: the one it is about to uncordon, then the one it
      cordons. */
  ghost predicate PickTaints(dc: DeviceConfig, c: Cluster, d: DeviceConfig, snap: seq<Node>, uncordoned: bool) {
    var u, p := UpgradedPick(d, snap), UpgradePick(d, snap);
    && (!uncordoned && u.Some? ==> OnlyTainted(dc, c, u.value.name))
    && ((uncordoned || u.None?) && p.Some? && !IsNew(d, p.value) ==> OnlyTainted(dc, c, p.value.name))
  }

  ghost predicate OpOrder(rank: string -> real, dc: DeviceConfig, c: Cluster, op: Op) {
    match op
    case Done(_) => true
    case Listed(d, snap) => PickOrder(rank, dc, c, d, snap) && PickTaints(dc, c, d, snap, false)
    case Uncordoned(d, snap) => PickOrder(rank, dc, c, d, snap) && PickTaints(dc, c, d, snap, true)
    case Kicking(d, _) => Agree(dc, d)
  }

  ghost predicate Ordered(rank: string -> real, w: World) {
    w.dc.WellFormed() && TaintOrder(rank, w.dc, w.live) && OpOrder(rank, w.dc, w.live, w.op)
  }

  // ----- Reading the list -----

  lemma ListKeepsOrder(rank: string -> real, w: World, snap: seq<Node>)
    requires Injective(rank) && Ordered(rank, w) && IsListing(w.dc, w.live, snap) && SortedBy(rank, snap)
    ensures OpOrder(rank, w.dc, w.live, Listed(w.dc, snap))
  {
    hide UpgradePick, UpgradedPick, Matches, LabelOf, Tainted;
    var u, p := UpgradedPick(w.dc, snap), UpgradePick(w.dc, snap);
    UpgradePickMeaning(w.dc, snap);
    UpgradedPickMeaning(w.dc, snap);
    if p.Some? { SortedPickIsLast(rank, w.dc, w.live, snap); }
    if u.Some? {
      assert TaintedTarget(w.dc, w.live, u.value.name);
    } else if p.Some? && !IsNew(w.dc, p.value) {
      assert Waiting(w.dc, w.live, p.value.name);
      forall a | TaintedTarget(w.dc, w.live, a) ensures a == p.value.name {
        assert w.live[a] in snap;
        assert PhaseOf(w.dc, w.live[a]) == Before;
        assert rank(a) == rank(p.value.name);
      }
    }
  }

  // ----- Writing to one node -----

  /** A write that taints nothing; if besides it makes nothing wait, it keeps the order and what the pass knows. */
  ghost predicate NoWorse(dc: DeviceConfig, c: Cluster, c': Cluster, op: Op) {
    && AllClean(dc, c')
    && (forall a | TaintedTarget(dc, c', a) :: TaintedTarget(dc, c, a) && dc.V(c'[a]) == dc.V(c[a]))
    && (forall x | x in c' && Mentions(op, x) :: IsNew(dc, c'[x]) || (x in c && dc.V(c'[x]) == dc.V(c[x])))
  }

  ghost predicate NothingWaits(dc: DeviceConfig, c: Cluster, c': Cluster) {
    forall b | Waiting(dc, c', b) :: Waiting(dc, c, b)
  }

  lemma NoWorseKeepsTaintOrder(rank: string -> real, dc: DeviceConfig, c: Cluster, c': Cluster, op: Op)
    requires dc.WellFormed() && TaintOrder(rank, dc, c) && NoWorse(dc, c, c', op) && NothingWaits(dc, c, c')
    ensures TaintOrder(rank, dc, c')
  {
  }

  lemma NoWorseKeepsOpOrder(rank: string -> real, dc: DeviceConfig, c: Cluster, c': Cluster, op: Op)
    requires dc.WellFormed() && OpOrder(rank, dc, c, op) && NoWorse(dc, c, c', op) && NothingWaits(dc, c, c')
    ensures OpOrder(rank, dc, c', op)
  {
    if op.Listed? || op.Uncordoned? {
      UpgradePickMeaning(op.dc, op.snap);
      var p := UpgradePick(op.dc, op.snap);
      assert p.Some? ==> Mentions(op, p.value.name);
    }
  }

  /** Clearing the only node that may be tainted. */
  lemma ClearingStore(dc: DeviceConfig, c: Cluster, n: Node, op: Op)
    requires AllClean(dc, c) && n.name in c && OnlyTainted(dc, c, n.name)
    requires n.labels == c[n.name].labels && !Tainted(n)
    ensures var c': Cluster := c[n.name := n]; 
            && NoWorse(dc, c, c', op) && NothingWaits(dc, c, c') && forall a :: !TaintedTarget(dc, c', a)
  {
    var c': Cluster := c[n.name := n];
    forall a ensures !TaintedTarget(dc, c', a) && (Waiting(dc, c', a) ==> Waiting(dc, c, a)) {
      assert TaintedTarget(dc, c, a) ==> a == n.name;
    }
  }

  lemma SameLabelsSameSide(dc: DeviceConfig, m: Node, n: Node)
    requires m.labels == n.labels
    ensures dc.Targets(m) == dc.Targets(n) && PhaseOf(dc, m) == PhaseOf(dc, n) && IsNew(dc, m) == IsNew(dc, n)
  {
  }

  /** Tainting the last waiting node when no other node is tainted. */
  lemma TaintingStore(rank: string -> real, dc: DeviceConfig, c: Cluster, n: Node)
    requires AllClean(dc, c) && n.name in c && OnlyTainted(dc, c, n.name) && LastWaiting(rank, dc, c, n.name)
    requires n.labels == c[n.name].labels && Clean(n) && PhaseOf(dc, n) == Before
    ensures TaintOrder(rank, dc, c[n.name := n])
  {
    SameLabelsSameSide(dc, c[n.name], n);
    hide Matches, LabelOf, PhaseOf, Tainted, Clean;
    var c': Cluster := c[n.name := n];
    forall a ensures TaintedTarget(dc, c', a) ==> a == n.name {
      assert TaintedTarget(dc, c, a) ==> a == n.name;
    }
    forall b ensures Waiting(dc, c', b) == Waiting(dc, c, b) {}
    assert LastWaiting(rank, dc, c', n.name);
  }

  /** Moving one node on to the wanted version, or leaving it as it was. */
  lemma KickoffStore(rank: string -> real, dc: DeviceConfig, c: Cluster, n: Node)
    requires TaintOrder(rank, dc, c) && n.name in c
    requires n.taints == c[n.name].taints && dc.Targets(n) == dc.Targets(c[n.name])
    requires dc.V(n) == dc.V(c[n.name]) || dc.V(n) == Some(dc.Version())
    ensures TaintOrder(rank, dc, c[n.name := n])
  {
    hide Matches, LabelOf;
    var c': Cluster := c[n.name := n];
    forall a ensures TaintedTarget(dc, c', a) ==> TaintedTarget(dc, c, a) {}
    forall b ensures Waiting(dc, c', b) ==> Waiting(dc, c, b) {}
  }

  /** An uncordon patch clears a node that was listed with clean taints, and keeps its labels. */
  lemma UncordonClears(dc: DeviceConfig, c: Cluster, op: Op)
    requires dc.WellFormed() && op.Listed? && Agree(dc, op.dc) && forall n | n in op.snap :: Clean(n)
    requires Issue(op).Some? && Issue(op).value.name in c
    ensures var n := PatchedNode(c, op); n.name in c && n.labels == c[n.name].labels && !Tainted(n)
  {
    UpgradedPickMeaning(op.dc, op.snap);
    PassWrites(dc, op, c[Issue(op).value.name]);
    UncordonPatch(op.dc, op.snap, c[Issue(op).value.name]);
  }

  /** A cordon patch taints a node that is still to be upgraded if it is new or its version label is the one listed. */
  lemma CordonTaints(dc: DeviceConfig, c: Cluster, op: Op)
    requires dc.WellFormed() && op.Uncordoned? && Agree(dc, op.dc) && forall n | n in op.snap :: Clean(n)
    requires Issue(op).Some? && Issue(op).value.name in c
    requires var p := UpgradePick(op.dc, op.snap).value; IsNew(dc, c[p.name]) || dc.V(c[p.name]) == dc.V(p)
    ensures var n := PatchedNode(c, op);
            n.name in c && n.labels == c[n.name].labels && Clean(n) && PhaseOf(dc, n) == Before
  {
    UpgradePickMeaning(op.dc, op.snap);
    PassWrites(dc, op, c[Issue(op).value.name]);
    CordonPatch(op.dc, op.snap, c[Issue(op).value.name]);
  }

  lemma PatchKeepsOrder(rank: string -> real, dc: DeviceConfig, c: Cluster, op: Op)
    requires dc.WellFormed() && TaintOrder(rank, dc, c) && OpOrder(rank, dc, c, op)
    requires Issue(op).Some? && Issue(op).value.name in c
    ensures var n := PatchedNode(c, op);
            && TaintOrder(rank, dc, c[n.name := n])
            && (op.Listed? ==> OpOrder(rank, dc, c[n.name := n], Uncordoned(op.dc, op.snap)))
  {
    hide Merge, NoWorse;
    var n := PatchedNode(c, op);
    match op
    case Listed(_, _) =>
      UncordonClears(dc, c, op);
      ClearingStore(dc, c, n, op);
      NoWorseKeepsTaintOrder(rank, dc, c, c[n.name := n], op);
      NoWorseKeepsOpOrder(rank, dc, c, c[n.name := n], op);
    case Uncordoned(_, _) =>
      CordonTaints(dc, c, op);
      TaintingStore(rank, dc, c, n);
    case Kicking(_, _) =>
      PassWrites(dc, op, c[n.name]);
      KickoffStore(rank, dc, c, n);
  }

  lemma OperateKeepsOrder(rank: string -> real, w: World, o: Outcome)
    requires Ordered(rank, w)
    ensures Ordered(rank, OperateStep(w, o))
  {
    hide Merge, TaintOrder, PhaseOf, UpgradePick, UpgradedPick, Uncordon, Cordon, Kickoff, Diff;
    if Issue(w.op).Some? && Issue(w.op).value.name in w.live { PatchKeepsOrder(rank, w.dc, w.live, w.op); }
  }

  lemma HarmlessStore(dc: DeviceConfig, c: Cluster, n: Node, op: Op)
    requires AllClean(dc, c) && (dc.Targets(n) ==> Clean(n))
    requires if n.name in c then dc.V(n) == dc.V(c[n.name]) else IsNew(dc, n)
    requires dc.Targets(n) && Tainted(n) ==> n.name in c && dc.Targets(c[n.name]) && Tainted(c[n.name])
    ensures NoWorse(dc, c, c[n.name := n], op)
  {
    hide Matches, LabelOf;
    var c': Cluster := c[n.name := n];
    forall a ensures TaintedTarget(dc, c', a) ==> TaintedTarget(dc, c, a) && dc.V(c'[a]) == dc.V(c[a]) {}
  }

  lemma OthersAreHarmless(w: World, e: Event)
    requires w.dc.WellFormed() && AllClean(w.dc, w.live) && Enabled(w, e) && Tame(w, e)
    requires e.Kmm? || e.Join? || e.Outside? || e.Remove?
    ensures NoWorse(w.dc, w.live, Do(w, e).live, w.op)
  {
    hide NoWorse, Wakes, PhaseOf, Matches;
    match e
    case Kmm(x, ready) =>
      SetReadyLabels(w.dc, w.live[x], ready);
      HarmlessStore(w.dc, w.live, SetReady(w.dc, w.live[x], ready), w.op);
    case Join(n) => HarmlessStore(w.dc, w.live, n, w.op);
    case Outside(n) => HarmlessStore(w.dc, w.live, n, w.op);
    case Remove(x) => RemovalIsHarmless(w.dc, w.live, x, w.op);
  }

  lemma RemovalIsHarmless(dc: DeviceConfig, c: Cluster, x: string, op: Op)
    requires AllClean(dc, c)
    ensures NoWorse(dc, c, c - {x}, op)
  {
    var c': Cluster := c - {x};
    forall a ensures TaintedTarget(dc, c', a) ==> TaintedTarget(dc, c, a) && dc.V(c'[a]) == dc.V(c[a]) {}
  }

  lemma OthersMakeNothingWait(w: World, e: Event)
    requires w.dc.WellFormed() && Enabled(w, e) && (Enters(w, e) ==> IsNew(w.dc, e.node))
    requires e.Kmm? || e.Join? || e.Outside? || e.Remove?
    ensures NothingWaits(w.dc, w.live, Do(w, e).live)
  {
    hide Matches, LabelOf, Wakes;
    if e.Kmm? { SetReadyLabels(w.dc, w.live[e.name], e.ready); }
    var c' := Do(w, e).live;
    forall b | Waiting(w.dc, c', b) ensures Waiting(w.dc, w.live, b) {}
  }

  lemma OthersKeepOrder(rank: string -> real, w: World, e: Event)
    requires Ordered(rank, w) && Enabled(w, e) && Obeys(Steady(rank), w, e)
    requires e.Kmm? || e.Join? || e.Outside? || e.Remove?
    ensures Ordered(rank, Do(w, e))
  {
    OthersAreHarmless(w, e);
    OthersMakeNothingWait(w, e);
    hide NoWorse, NothingWaits, TaintOrder, OpOrder, Wakes;
    NoWorseKeepsTaintOrder(rank, w.dc, w.live, Do(w, e).live, w.op);
    NoWorseKeepsOpOrder(rank, w.dc, w.live, Do(w, e).live, w.op);
  }

  lemma EditKeepsOrder(rank: string -> real, w: World, d: DeviceConfig)
    requires Ordered(rank, w) && Agree(w.dc, d)
    ensures Ordered(rank, w.(dc := d, pending := true))
  {
    hide UpgradePick, UpgradedPick, Matches, LabelOf, Tainted;
    forall a ensures TaintedTarget(d, w.live, a) == TaintedTarget(w.dc, w.live, a) {}
    forall b ensures Waiting(d, w.live, b) == Waiting(w.dc, w.live, b) {}
  }

  lemma StepKeepsOrder(rank: string -> real, w: World, e: Event)
    requires Injective(rank) && Ordered(rank, w) && Enabled(w, e) && Obeys(Steady(rank), w, e)
    ensures Ordered(rank, Do(w, e))
  {
    match e
    case List(d, _, snap) =>
      var v := w.(dc := d, pending := true);
      EditKeepsOrder(rank, w, d);
      ListingOfSameSelector(w.dc, d, w.live, snap);
      ListKeepsOrder(rank, v, snap);
      EditKeepsOrder(rank, v.(op := Listed(d, snap)), w.dc);
    case Operate(o) => OperateKeepsOrder(rank, w, o);
    case Restart =>
    case Edit(d) => EditKeepsOrder(rank, w, d);
    case _ => OthersKeepOrder(rank, w, e);
  }

  lemma {:induction false} RunKeepsOrder(rank: string -> real, w: World, es: seq<Event>)
    requires Injective(rank) && Ordered(rank, w) && IsRun(Steady(rank), w, es)
    ensures Ordered(rank, Run(Steady(rank), w, es))
    decreases |es|
  {
    if es != [] {
      StepKeepsOrder(rank, w, es[0]);
      RunKeepsOrder(rank, Do(w, es[0]), es[1..]);
    }
  }

  /** From a cluster without upgrade taints, no two targeted nodes are ever tainted together. */
  lemma AtMostOneTainted(rank: string -> real, w: World, es: seq<Event>, a: string, b: string)
    requires Injective(rank) && w.dc.WellFormed() && w.op.Done?
    requires forall x | x in w.live :: !Tainted(w.live[x])
    requires IsRun(Steady(rank), w, es)
    requires var w' := Run(Steady(rank), w, es); TaintedTarget(w'.dc, w'.live, a) && TaintedTarget(w'.dc, w'.live, b)
    ensures a == b
  {
    RunKeepsOrder(rank, w, es);
  }
}
