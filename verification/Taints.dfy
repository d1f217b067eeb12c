/**
 The upgrade taint over whole runs: a labelled node is cordoned before it is kicked off.
 */
module Taints {
  import opened Nodes
  import opened Upgrade
  import opened Filter
  import opened Protocol

  // ----- Cordon before kickoff -----

  /** The node picked from the snapshot can still be treated as it was seen: live is new, or the copy was labelled too
      and the taint it showed is still there. */
  predicate StillAsSeen(d: DeviceConfig, seen: Node, live: Node) {
    IsNew(d, live) || (!IsNew(d, seen) && (Cordoned(seen) ==> Cordoned(live)))
  }

  ghost predicate PickCordonSafe(dc: DeviceConfig, c: Cluster, d: DeviceConfig, snap: seq<Node>) {
    var p := UpgradePick(d, snap);
    dc.SameIdentity(d) && (p.Some? && p.value.name in c ==> StillAsSeen(d, p.value, c[p.value.name]))
  }

  ghost predicate CordonSafe(w: World) {
    match w.op
    case Done(_) => true
    case Listed(d, snap) => PickCordonSafe(w.dc, w.live, d, snap) && PicksDiffer(d, snap)
    case Uncordoned(d, snap) => PickCordonSafe(w.dc, w.live, d, snap)
    case Kicking(d, held) =>
      && w.dc.SameIdentity(d)
      && (held.Some? && held.value.name in w.live ==>
            IsNew(d, w.live[held.value.name]) || Cordoned(w.live[held.value.name]))
  }

  predicate PicksDiffer(d: DeviceConfig, snap: seq<Node>) {
    var u, p := UpgradedPick(d, snap), UpgradePick(d, snap);
    u.Some? && p.Some? ==> u.value.name != p.value.name
  }

  lemma ListingPicks(dc: DeviceConfig, c: Cluster, snap: seq<Node>)
    requires IsListing(dc, c, snap)
    ensures PicksDiffer(dc, snap)
    ensures var p := UpgradePick(dc, snap); p.Some? ==> p.value.name in c && c[p.value.name] == p.value
    ensures var u := UpgradedPick(dc, snap); u.Some? ==> u.value.name in c && c[u.value.name] == u.value
  {
    UpgradePickMeaning(dc, snap);
    UpgradedPickMeaning(dc, snap);
  }

  /** The cordon patch leaves any live node with the picked copy's taints and the upgrade taint last. */
  lemma CordonPatch(d: DeviceConfig, snap: seq<Node>, live: Node)
    requires Issue(Uncordoned(d, snap)).Some?
    ensures var p := UpgradePick(d, snap).value;
            Merge(live, Issue(Uncordoned(d, snap)).value.patch).taints == p.taints + [UPGRADE_TAINT]
  {
    var p := UpgradePick(d, snap).value;
    TaintDiff(p, p.taints + [UPGRADE_TAINT]);
  }

  /** The uncordon patch removes at least one taint unless there was none of the operator's. */
  lemma UncordonPatch(d: DeviceConfig, snap: seq<Node>, live: Node)
    requires Issue(Listed(d, snap)).Some?
    ensures var u := UpgradedPick(d, snap).value;
            Merge(live, Issue(Listed(d, snap)).value.patch).taints
            == (if Cordoned(u) then ForeignTaints(u.taints) else live.taints)
  {
    var u := UpgradedPick(d, snap).value;
    TaintDiff(u, ForeignTaints(u.taints));
    if !Cordoned(u) { NothingToUncordon(u.taints); }
  }

  lemma {:induction false} NothingToUncordon(ts: seq<Taint>)
    requires forall t | t in ts :: !IsUpgradeTaint(t)
    ensures ForeignTaints(ts) == ts
  {
    if ts != [] {
      assert ts == ts[..|ts| - 1] + [ts[|ts| - 1]];
      NothingToUncordon(ts[..|ts| - 1]);
    }
  }

  lemma OperateKeepsCordonSafe(w: World, o: Outcome)
    requires w.dc.WellFormed() && CordonSafe(w)
    ensures CordonSafe(OperateStep(w, o))
  {
    var r := Issue(w.op);
    if r.Some? && r.value.name in w.live && !o.Lost? {
      var stored := w.live[r.value.name];
      if w.op.Uncordoned? {
        CordonPatch(w.op.dc, w.op.snap, stored);
        assert UPGRADE_TAINT in Merge(stored, r.value.patch).taints;
      }
    }
  }

  lemma StepKeepsCordonSafe(w: World, e: Event)
    requires w.dc.WellFormed() && CordonSafe(w) && Enabled(w, e) && Obeys(Watched, w, e)
    ensures CordonSafe(Do(w, e))
  {
    hide Matches, LabelOf, Diff, Merge, Wakes, UpgradedPick, UpgradePick;
    if e.Operate? {
      OperateKeepsCordonSafe(w, e.outcome);
    } else if e.List? {
      ListingOfSameSelector(w.dc, e.read, w.live, e.snap);
      ListingPicks(e.read, w.live, e.snap);
    } else if e.Kmm? {
      SetReadyLabels(w.dc, w.live[e.name], e.ready);
    }
  }

  lemma OperateWritesVersion(w: World, o: Outcome, x: string)
    requires w.dc.WellFormed() && CordonSafe(w)
    requires x in w.live && w.dc.V(OperateStep(w, o).live[x]) != w.dc.V(w.live[x])
    ensures IsNew(w.dc, w.live[x]) || Cordoned(w.live[x])
  {
    if Issue(w.op).Some? && x == Issue(w.op).value.name { PassWrites(w.dc, w.op, w.live[x]); }
  }

  lemma {:induction false} RunKeepsCordonSafe(w: World, es: seq<Event>)
    requires w.dc.WellFormed() && CordonSafe(w) && IsRun(Watched, w, es)
    ensures var w' := Run(Watched, w, es); w'.dc.WellFormed() && CordonSafe(w')
    decreases |es|
  {
    if es != [] {
      StepKeepsCordonSafe(w, es[0]);
      RunKeepsCordonSafe(Do(w, es[0]), es[1..]);
    }
  }

  /** Every change of a version label by this event finds the node new or already carrying the taint. */
  ghost predicate KicksOffCordoned(w: World, e: Event)
    requires Enabled(w, e)
  {
    forall x | x in w.live && x in Do(w, e).live && w.dc.V(Do(w, e).live[x]) != w.dc.V(w.live[x]) ::
      IsNew(w.dc, w.live[x]) || Cordoned(w.live[x])
  }

  lemma SafeKicksOffCordoned(w: World, e: Event)
    requires w.dc.WellFormed() && CordonSafe(w) && Enabled(w, e)
    ensures KicksOffCordoned(w, e)
  {
    forall x | x in w.live && x in Do(w, e).live && w.dc.V(Do(w, e).live[x]) != w.dc.V(w.live[x])
      ensures IsNew(w.dc, w.live[x]) || Cordoned(w.live[x])
    {
      match e
      case Operate(o) => OperateWritesVersion(w, o, x);
      case Kmm(y, ready) => SetReadyLabels(w.dc, w.live[y], ready);
      case _ =>
    }
  }

  /** Any event of any run that changes a node's version label finds the node new or already carrying the taint. */
  lemma CordonBeforeKickoff(w: World, es: seq<Event>, e: Event)
    requires w.dc.WellFormed() && CordonSafe(w) && IsRun(Watched, w, es) && Enabled(Run(Watched, w, es), e)
    ensures KicksOffCordoned(Run(Watched, w, es), e)
  {
    RunKeepsCordonSafe(w, es);
    SafeKicksOffCordoned(Run(Watched, w, es), e);
  }
}
