/**
 The taints of a node that are not the operator's are, at any time, exactly those that others last gave it.
 */
module Conservation {
  import opened Nodes
  import opened Upgrade
  import opened Protocol
  import opened Taints

  lemma ForeignOfCordoned(ts: seq<Taint>)
    ensures ForeignTaints(ts + [UPGRADE_TAINT]) == ForeignTaints(ts)
  {
    assert (ts + [UPGRADE_TAINT])[..|ts|] == ts;
  }

  /** Uncordon undoes cordon on a node that was not cordoned; on any node it leaves what uncordoning alone leaves;
      and uncordoning twice is uncordoning once. */
  lemma UncordonUndoesCordon(n: Node)
    ensures Uncordon(Cordon(n)) == Uncordon(n) == Uncordon(Uncordon(n))
    ensures !Cordoned(n) ==> Uncordon(Cordon(n)) == n
  {
    ForeignOfCordoned(n.taints);
    NothingToUncordon(ForeignTaints(n.taints));
    if !Cordoned(n) { NothingToUncordon(n.taints); }
  }

  /** The foreign taints others last gave the node called name, when it had ts before the events. */
  function Given(ts: seq<Taint>, es: seq<Event>, name: string): seq<Taint>
    decreases |es|
  {
    if es == [] then ts
    else
      var e := es[0];
      var given := (e.Join? || e.Outside?) && e.node.name == name;
      Given(if given then ForeignTaints(e.node.taints) else ts, es[1..], name)
  }

  predicate SameTaints(c: Cluster, seen: Option<Node>) {
    seen.Some? && seen.value.name in c ==> c[seen.value.name].taints == seen.value.taints
  }

  /** What a pass still means to edit, it knows as it is. */
  predicate Known(c: Cluster, op: Op) {
    match op
    case Listed(d, snap) =>
      SameTaints(c, UpgradedPick(d, snap)) && SameTaints(c, UpgradePick(d, snap)) && PicksDiffer(d, snap)
    case Uncordoned(d, snap) => SameTaints(c, UpgradePick(d, snap))
    case _ => true
  }

  predicate OpIdentity(w: World) { w.op.Done? || w.dc.SameIdentity(w.op.dc) }

  lemma PatchKeepsForeign(w: World)
    requires w.dc.WellFormed() && OpIdentity(w) && Known(w.live, w.op)
    requires Issue(w.op).Some? && Issue(w.op).value.name in w.live
    ensures var n := w.live[Issue(w.op).value.name];
            ForeignTaints(Merge(n, Issue(w.op).value.patch).taints) == ForeignTaints(n.taints)
  {
    var n := w.live[Issue(w.op).value.name];
    PassWrites(w.dc, w.op, n);
    match w.op
    case Done(_) =>
    case Listed(d, snap) =>
      UncordonPatch(d, snap, n);
      NothingToUncordon(ForeignTaints(n.taints));
    case Uncordoned(d, snap) =>
      CordonPatch(d, snap, n);
      UncordonUndoesCordon(n);
    case Kicking(_, _) =>
  }

  lemma OperateKeepsKnown(w: World, o: Outcome)
    requires OpIdentity(w) && Known(w.live, w.op)
    ensures var w' := OperateStep(w, o); OpIdentity(w') && Known(w'.live, w'.op)
  {
  }

  lemma PicksAreMentioned(op: Op)
    requires op.Listed? || op.Uncordoned?
    ensures var u := UpgradedPick(op.dc, op.snap); u.Some? ==> Mentions(op, u.value.name)
    ensures var p := UpgradePick(op.dc, op.snap); p.Some? ==> Mentions(op, p.value.name)
  {
    UpgradedPickMeaning(op.dc, op.snap);
    UpgradePickMeaning(op.dc, op.snap);
  }

  lemma StepKeepsKnown(w: World, e: Event)
    requires w.dc.WellFormed() && OpIdentity(w) && Known(w.live, w.op) && Enabled(w, e) && Obeys(Exclusive, w, e)
    ensures var w' := Do(w, e); w'.dc.WellFormed() && OpIdentity(w') && Known(w'.live, w'.op)
  {
    if e.List? {
      ListingOfSameSelector(w.dc, e.read, w.live, e.snap);
      ListingPicks(e.read, w.live, e.snap);
    } else if e.Operate? {
      OperateKeepsKnown(w, e.outcome);
    } else if w.op.Listed? || w.op.Uncordoned? {
      PicksAreMentioned(w.op);
    }
  }

  lemma StepKeepsForeign(w: World, e: Event, x: string)
    requires w.dc.WellFormed() && OpIdentity(w) && Known(w.live, w.op) && Enabled(w, e) && Obeys(Exclusive, w, e)
    requires x in Do(w, e).live && !((e.Join? || e.Outside?) && e.node.name == x)
    ensures x in w.live && ForeignTaints(Do(w, e).live[x].taints) == ForeignTaints(w.live[x].taints)
  {
    if e.Operate? && Issue(w.op).Some? && Issue(w.op).value.name in w.live { PatchKeepsForeign(w); }
  }

  /** Over any run, the operator neither loses, adds nor reorders a taint of anybody else. */
  lemma {:induction false} ForeignTaintsAreConserved(w: World, es: seq<Event>, x: string, ts: seq<Taint>)
    requires w.dc.WellFormed() && OpIdentity(w) && Known(w.live, w.op) && IsRun(Exclusive, w, es)
    requires x in w.live ==> ForeignTaints(w.live[x].taints) == ts
    ensures var w' := Run(Exclusive, w, es); x in w'.live ==> ForeignTaints(w'.live[x].taints) == Given(ts, es, x)
    decreases |es|
  {
    if es != [] {
      var e, w' := es[0], Do(w, es[0]);
      StepKeepsKnown(w, e);
      var named := (e.Join? || e.Outside?) && e.node.name == x;
      if x in w'.live && !named { StepKeepsForeign(w, e, x); }
      ForeignTaintsAreConserved(w', es[1..], x, if named then ForeignTaints(e.node.taints) else ts);
    }
  }
}
