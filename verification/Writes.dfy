/**
 The single writes of a run, failed and half-failed patches and restarts included: while nobody but the operator and KMM
 writes, there are at most five per targeted node.
 */
module Writes {
  import opened Nodes
  import opened Upgrade
  import opened Protocol
  import opened Taints
  import opened Patches
  import opened Pass
  import opened Totals
  import opened Termination

  /** What may still be written to a node: cordon, kickoff, ready, uncordon, and the report of an earlier kickoff. */
  function Effort(dc: DeviceConfig, n: Node): nat {
    match PhaseOf(dc, n)
    case Before => (if IsNew(dc, n) || Cordoned(n) then 3 else 4) + (if Moving(dc, n) then 1 else 0)
    case InUpgrade => 2
    case Upgraded => if Tainted(n) then 1 else 0
  }

  function Efforts(dc: DeviceConfig): Node -> nat { n => Effort(dc, n) }

  // ----- What a pass knows of the nodes it is going to write to -----

  predicate Alike(dc: DeviceConfig, c: Cluster, seen: Option<Node>) {
    seen.Some? ==>
      var x := seen.value.name;
      x in c && dc.Targets(c[x]) && c[x].taints == seen.value.taints && dc.V(c[x]) == dc.V(seen.value)
  }

  predicate AsRead(dc: DeviceConfig, c: Cluster, op: Op) {
    match op
    case Done(_) => true
    case Listed(d, snap) =>
      var u := UpgradedPick(d, snap);
      && Agree(dc, d) && PicksDiffer(d, snap) && Alike(dc, c, u) && Alike(dc, c, UpgradePick(d, snap))
      && (u.Some? ==> PhaseOf(dc, c[u.value.name]) == Upgraded)
    case Uncordoned(d, snap) => Agree(dc, d) && Alike(dc, c, UpgradePick(d, snap))
    case Kicking(d, held) => Agree(dc, d) && Alike(dc, c, held) && (held.Some? ==> PhaseOf(dc, held.value) == Before)
  }

  // ----- Each write makes its node lighter -----

  lemma UncordonIsEffort(dc: DeviceConfig, n: Node)
    requires PhaseOf(dc, n) == Upgraded && Tainted(n) && Clean(n)
    ensures Effort(dc, Uncordon(n)) < Effort(dc, n) && Clean(Uncordon(n))
  {
    UncordonEffectiveExactlyWhenClean(n);
  }

  lemma CordonIsEffort(dc: DeviceConfig, n: Node)
    requires PhaseOf(dc, n) == Before && !IsNew(dc, n) && !Cordoned(n) && Clean(n)
    ensures Effort(dc, Cordon(n)) < Effort(dc, n) && Clean(Cordon(n))
  {
    assert UPGRADE_TAINT in Cordon(n).taints;
  }

  lemma KickoffIsEffort(dc: DeviceConfig, n: Node)
    requires PhaseOf(dc, n) == Before && Clean(n)
    ensures Effort(dc, Kickoff(dc, n)) < Effort(dc, n) && Clean(Kickoff(dc, n))
  {
  }

  lemma ReadyIsEffort(dc: DeviceConfig, n: Node)
    requires dc.WellFormed() && dc.V(n).Some? && dc.R(n) != dc.V(n) && Clean(n)
    ensures var m := SetReady(dc, n, dc.V(n));
            Effort(dc, m) < Effort(dc, n) && Clean(m) && dc.Targets(m) == dc.Targets(n)
  {
    SetReadyLabels(dc, n, dc.V(n));
  }

  /** On nodes that are as read, a patch is the intended edit, and that makes the node lighter. */
  lemma PatchIsEffort(dc: DeviceConfig, c: Cluster, op: Op)
    requires dc.WellFormed() && AsRead(dc, c, op) && Issue(op).Some?
    requires Issue(op).value.name in c && Clean(c[Issue(op).value.name])
    ensures var n := c[Issue(op).value.name];
            var m := Merge(n, Issue(op).value.patch);
            && dc.Targets(n) && dc.Targets(m) && Clean(m) && Effort(dc, m) < Effort(dc, n)
            && (op.Uncordoned? ==> m.labels == n.labels && PhaseOf(dc, m) == Before)
  {
    hide Effort, Matches, Diff, Merge;
    var n := c[Issue(op).value.name];
    PassWrites(dc, op, n);
    match op
    case Listed(d, snap) =>
      UpgradedPickMeaning(d, snap);
      UncordonFits(UpgradedPick(d, snap).value, n);
      UncordonIsEffort(dc, n);
    case Uncordoned(d, snap) =>
      UpgradePickMeaning(d, snap);
      CordonFits(UpgradePick(d, snap).value, n);
      CordonIsEffort(dc, n);
    case Kicking(d, held) =>
      KickoffFits(d, held.value, n);
      assert Kickoff(d, n) == Kickoff(dc, n);
      KickoffIsEffort(dc, n);
  }

  lemma UncordonFits(seen: Node, n: Node)
    requires n.taints == seen.taints
    ensures Merge(n, Diff(seen, Uncordon(seen))) == Uncordon(n)
  {
    TaintDiff(seen, ForeignTaints(seen.taints));
    SameLabels(Merge(n, Diff(seen, Uncordon(seen))), n);
  }

  lemma CordonFits(seen: Node, n: Node)
    requires n.taints == seen.taints
    ensures Merge(n, Diff(seen, Cordon(seen))) == Cordon(n)
  {
    TaintDiff(seen, seen.taints + [UPGRADE_TAINT]);
    SameLabels(Merge(n, Diff(seen, Cordon(seen))), n);
  }

  // ----- Steps and runs -----

  /** One targeted node written, and made lighter. */
  lemma LighterStore(dc: DeviceConfig, c: Cluster, names: seq<string>, n: Node)
    requires Playable(dc, c, names) && n.name in names && dc.Targets(n) && Clean(n)
    requires Effort(dc, n) < Effort(dc, c[n.name])
    ensures Playable(dc, Put(c, n), names)
    ensures Total(Efforts(dc), Put(c, n), names) < Total(Efforts(dc), c, names)
  {
    hide Effort, Matches;
    TotalAfterPut(Efforts(dc), c, n, names);
  }

  /** The event changes one of the targeted nodes. */
  ghost predicate WritesTo(w: World, e: Event, names: seq<string>)
    requires Enabled(w, e)
  {
    exists x | x in names :: x in w.live && x in Do(w, e).live && Do(w, e).live[x] != w.live[x]
  }

  ghost predicate Bounded(w: World, names: seq<string>) { Playable(w.dc, w.live, names) && AsRead(w.dc, w.live, w.op) }

  lemma OperateIsEffort(w: World, o: Outcome, names: seq<string>)
    requires Bounded(w, names)
    ensures var w' := OperateStep(w, o);
            && Bounded(w', names) && w'.dc == w.dc
            && (w'.live == w.live || Total(Efforts(w.dc), w'.live, names) < Total(Efforts(w.dc), w.live, names))
  {
    hide Effort, Matches, Diff, Merge, UpgradePick, UpgradedPick;
    if Issue(w.op).Some? && Issue(w.op).value.name in w.live && !o.Lost? {
      IssuedIsTarget(w.dc, w.live, w.op);
      PatchIsEffort(w.dc, w.live, w.op);
      LighterStore(w.dc, w.live, names, Merge(w.live[Issue(w.op).value.name], Issue(w.op).value.patch));
    }
    StepStaysAsRead(w, o);
  }

  lemma IssuedIsTarget(dc: DeviceConfig, c: Cluster, op: Op)
    requires AsRead(dc, c, op) && Issue(op).Some?
    ensures Issue(op).value.name in c && dc.Targets(c[Issue(op).value.name])
  {
  }

  lemma StepStaysAsRead(w: World, o: Outcome)
    requires w.dc.WellFormed() && AsRead(w.dc, w.live, w.op)
    requires forall x | x in w.live && w.dc.Targets(w.live[x]) :: Clean(w.live[x])
    ensures AsRead(w.dc, OperateStep(w, o).live, OperateStep(w, o).op)
  {
    hide Effort, Matches, Diff, Merge, UpgradedPick;
    if Issue(w.op).Some? {
      IssuedIsTarget(w.dc, w.live, w.op);
      PatchIsEffort(w.dc, w.live, w.op);
    }
    if w.op.Uncordoned? { UpgradePickMeaning(w.op.dc, w.op.snap); }
  }

  lemma ReportStaysAsRead(dc: DeviceConfig, c: Cluster, n: Node, op: Op)
    requires AsRead(dc, c, op) && n.name in c && n.taints == c[n.name].taints && dc.V(n) == dc.V(c[n.name])
    requires dc.Targets(n) == dc.Targets(c[n.name]) && PhaseOf(dc, c[n.name]) != Upgraded
    ensures AsRead(dc, Put(c, n), op)
  {
    hide Matches, LabelOf, PhaseOf, UpgradePick, UpgradedPick;
  }

  lemma ReportKeepsPlayable(dc: DeviceConfig, c: Cluster, names: seq<string>, n: Node)
    requires Playable(dc, c, names) && n.name in c && n.taints == c[n.name].taints
    requires dc.Targets(n) == dc.Targets(c[n.name])
    ensures Playable(dc, Put(c, n), names)
  {
    hide Matches;
  }

  lemma ReportIsEffort(w: World, x: string, names: seq<string>)
    requires Bounded(w, names) && x in w.live && w.dc.V(w.live[x]).Some? && w.dc.R(w.live[x]) != w.dc.V(w.live[x])
    ensures var n := SetReady(w.dc, w.live[x], w.dc.V(w.live[x]));
            var c := Put(w.live, n);
            && n.name == x && Playable(w.dc, c, names) && AsRead(w.dc, c, w.op)
            && (if x in names then Total(Efforts(w.dc), c, names) < Total(Efforts(w.dc), w.live, names)
                else Total(Efforts(w.dc), c, names) == Total(Efforts(w.dc), w.live, names))
  {
    hide Effort, Matches, AsRead;
    var n := SetReady(w.dc, w.live[x], w.dc.V(w.live[x]));
    SetReadyLabels(w.dc, w.live[x], w.dc.V(w.live[x]));
    ReportStaysAsRead(w.dc, w.live, n, w.op);
    ReportKeepsPlayable(w.dc, w.live, names, n);
    TotalAfterPut(Efforts(w.dc), w.live, n, names);
    if x in names { ReadyIsEffort(w.dc, w.live[x]); }
  }

  lemma ListIsAsRead(w: World, d: DeviceConfig, snap: seq<Node>)
    requires Agree(w.dc, d) && IsListing(w.dc, w.live, snap)
    ensures AsRead(w.dc, w.live, Listed(d, snap))
  {
    hide UpgradePick, UpgradedPick;
    ListingOfSameSelector(w.dc, d, w.live, snap);
    ListingPicks(d, w.live, snap);
    UpgradedPickMeaning(d, snap);
    UpgradePickMeaning(d, snap);
  }

  lemma EditStaysBounded(w: World, d: DeviceConfig, names: seq<string>)
    requires Bounded(w, names) && Agree(w.dc, d)
    ensures Bounded(w.(dc := d, pending := true), names)
    ensures Total(Efforts(d), w.live, names) == Total(Efforts(w.dc), w.live, names)
  {
    hide UpgradePick, UpgradedPick;
    assert forall n :: d.Targets(n) == w.dc.Targets(n);
    assert forall n :: Efforts(d)(n) == Efforts(w.dc)(n);
    SameWeightsSameTotal(Efforts(d), Efforts(w.dc), w.live, names);
  }

  lemma StepIsEffort(w: World, e: Event, names: seq<string>)
    requires Bounded(w, names) && Enabled(w, e) && Obeys(Sole, w, e)
    ensures var w' := Do(w, e);
            && Bounded(w', names)
            && Total(Efforts(w'.dc), w'.live, names)
               <= Total(Efforts(w.dc), w.live, names) - if WritesTo(w, e, names) then 1 else 0
  {
    hide Effort, Matches, UpgradePick, UpgradedPick, PhaseOf;
    match e
    case List(d, _, snap) => ListIsAsRead(w, d, snap);
    case Operate(o) => OperateIsEffort(w, o, names);
    case Kmm(x, _) => ReportIsEffort(w, x, names);
    case Edit(d) => EditStaysBounded(w, d, names);
    case _ =>
  }

  /** How many of the events change a targeted node. */
  ghost function Written(w: World, es: seq<Event>, names: seq<string>): nat
    requires IsRun(Sole, w, es)
    decreases |es|
  {
    if es == [] then 0 else (if WritesTo(w, es[0], names) then 1 else 0) + Written(Do(w, es[0]), es[1..], names)
  }

  /** However patches fail, whenever the operator restarts and in whatever order nodes are listed, a run makes at
      most five changes per targeted node. */
  lemma {:induction false} WritesAreBounded(w: World, es: seq<Event>, names: seq<string>)
    requires Bounded(w, names) && IsRun(Sole, w, es)
    ensures var w' := Run(Sole, w, es);
            Written(w, es, names) + Total(Efforts(w'.dc), w'.live, names)
            <= Total(Efforts(w.dc), w.live, names) <= 5 * |names|
    decreases |es|
  {
    hide Bounded, Effort, WritesTo;
    EffortAtMostFive(w.dc);
    TotalAtMost(Efforts(w.dc), 5, w.live, names);
    if es != [] {
      StepIsEffort(w, es[0], names);
      WritesAreBounded(Do(w, es[0]), es[1..], names);
    }
  }

  lemma EffortAtMostFive(dc: DeviceConfig)
    ensures forall n :: Efforts(dc)(n) <= 5
  {
  }
}
