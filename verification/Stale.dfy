/**
 A lagging cache puts no second node in flight: with one version, one list order and no joining nodes, a pass that reads
 any past state picks either the node it would pick from the current state or one that already carries the wanted
 version. The taints do not fare as well, see StaleTaint.
 */
module Stale {
  import opened Nodes
  import opened Upgrade
  import opened Protocol
  import opened InFlight

  ghost predicate LastToUpgrade(rank: string -> real, dc: DeviceConfig, c: Cluster, name: string) {
    ToUpgrade(dc, c, name) && forall b | ToUpgrade(dc, c, b) :: rank(b) <= rank(name)
  }

  /** Nodes may have been removed. */
  predicate SameTargets(dc: DeviceConfig, h: Cluster, c: Cluster) {
    c.Keys <= h.Keys && forall x | x in c :: dc.Targets(h[x]) == dc.Targets(c[x])
  }

  ghost predicate StillToUpgrade(dc: DeviceConfig, h: Cluster, c: Cluster) {
    forall a | ToUpgrade(dc, h, a) && a in c :: ToUpgrade(dc, c, a)
  }

  /** How the live cluster c descends from an earlier state h: the nodes to upgrade were consumed from the end of the
      list, and a node put in flight since is one of them. */
  ghost predicate Descends(rank: string -> real, dc: DeviceConfig, h: Cluster, c: Cluster) {
    && SameTargets(dc, h, c)
    && StillToUpgrade(dc, c, h)
    && (forall a, b | ToUpgrade(dc, h, a) && a in c && ToUpgrade(dc, c, b) && rank(a) < rank(b) :: ToUpgrade(dc, c, a))
    && (forall x | InFlightTo(dc, c, x, dc.Version()) :: InFlightTo(dc, h, x, dc.Version()) || ToUpgrade(dc, h, x))
  }

  /** Kicking this node off finds it gone, changes nothing, or is what the current state calls for. */
  ghost predicate FitPick(rank: string -> real, dc: DeviceConfig, c: Cluster, name: string) {
    name in c ==>
      && dc.Targets(c[name])
      && (dc.V(c[name]) == Some(dc.Version())
          || (LastToUpgrade(rank, dc, c, name) && NoneTo(dc, c, dc.Version())))
  }

  ghost predicate OpFits(rank: string -> real, dc: DeviceConfig, c: Cluster, op: Op) {
    match op
    case Done(_) => true
    case Listed(d, snap) =>
      Agree(dc, d) && (UpgradePick(d, snap).Some? ==> FitPick(rank, dc, c, UpgradePick(d, snap).value.name))
    case Uncordoned(d, snap) =>
      Agree(dc, d) && (UpgradePick(d, snap).Some? ==> FitPick(rank, dc, c, UpgradePick(d, snap).value.name))
    case Kicking(d, held) => Agree(dc, d) && (held.Some? ==> FitPick(rank, dc, c, held.value.name))
  }

  ghost predicate AtMostOneTo(dc: DeviceConfig, c: Cluster, v: string) {
    forall a, b | InFlightTo(dc, c, a, v) && InFlightTo(dc, c, b, v) :: a == b
  }

  ghost predicate History(rank: string -> real, w: World) {
    && w.dc.WellFormed()
    && (forall i: nat | i <= |w.past| :: Descends(rank, w.dc, w.Seen(i), w.live))
    && AtMostOneTo(w.dc, w.live, w.dc.Version())
    && OpFits(rank, w.dc, w.live, w.op)
  }

  // ----- A pass reads an old state -----

  lemma OldPickFits(rank: string -> real, dc: DeviceConfig, h: Cluster, c: Cluster, snap: seq<Node>)
    requires Injective(rank) && Descends(rank, dc, h, c)
    requires IsListing(dc, h, snap) && SortedBy(rank, snap) && UpgradePick(dc, snap).Some?
    ensures FitPick(rank, dc, c, UpgradePick(dc, snap).value.name)
  {
    UpgradePickMeaning(dc, snap);
    var p := UpgradePick(dc, snap).value;
    SortedPickIsLast(rank, dc, h, snap);
    if ToUpgrade(dc, c, p.name) {
      ListingShowsFlights(dc, h, snap);
      forall a | ToUpgrade(dc, h, a) && a in c ensures ToUpgrade(dc, c, a) {
        assert rank(a) <= rank(p.name);
        if rank(a) == rank(p.name) { assert a == p.name; }
      }
      assert NoneTo(dc, c, dc.Version());
      assert LastToUpgrade(rank, dc, c, p.name);
    }
  }

  // ----- How one write changes the cluster -----

  /** Nothing is consumed and nothing put in flight. */
  ghost predicate Quiet(dc: DeviceConfig, c: Cluster, c': Cluster) {
    && SameTargets(dc, c, c')
    && (forall x :: ToUpgrade(dc, c', x) <==> x in c' && ToUpgrade(dc, c, x))
    && (forall x | InFlightTo(dc, c', x, dc.Version()) :: InFlightTo(dc, c, x, dc.Version()))
  }

  /** Exactly the last node to upgrade is consumed, while nothing was in flight. */
  ghost predicate Consumes(rank: string -> real, dc: DeviceConfig, c: Cluster, c': Cluster, name: string) {
    && SameTargets(dc, c, c')
    && LastToUpgrade(rank, dc, c, name) && NoneTo(dc, c, dc.Version())
    && (forall x :: ToUpgrade(dc, c', x) <==> ToUpgrade(dc, c, x) && x != name)
    && (forall x | InFlightTo(dc, c', x, dc.Version()) :: x == name)
  }

  lemma DescendsFurther(rank: string -> real, dc: DeviceConfig, h: Cluster, c: Cluster, c': Cluster, name: string)
    requires Descends(rank, dc, h, c)
    requires Quiet(dc, c, c') || Consumes(rank, dc, c, c', name)
    ensures Descends(rank, dc, h, c')
  {
    hide Matches, PhaseOf, Moving;
    if !Quiet(dc, c, c') {
      assert ToUpgrade(dc, h, name) && !ToUpgrade(dc, c', name);
    }
  }

  lemma HistoryGrows(rank: string -> real, w: World, w': World, name: string)
    requires History(rank, w)
    requires w'.dc == w.dc && w'.past == w.past + [w.live]
    requires Quiet(w.dc, w.live, w'.live) || Consumes(rank, w.dc, w.live, w'.live, name)
    ensures forall i: nat | i <= |w'.past| :: Descends(rank, w.dc, w'.Seen(i), w'.live)
    ensures AtMostOneTo(w.dc, w'.live, w.dc.Version())
  {
    forall i: nat | i <= |w'.past| ensures Descends(rank, w.dc, w'.Seen(i), w'.live) {
      if i <= |w.past| {
        assert w'.Seen(i) == w.Seen(i);
        DescendsFurther(rank, w.dc, w.Seen(i), w.live, w'.live, name);
      }
    }
  }

  lemma QuietKeepsPick(rank: string -> real, dc: DeviceConfig, c: Cluster, c': Cluster, name: string)
    requires FitPick(rank, dc, c, name) && Quiet(dc, c, c')
    ensures FitPick(rank, dc, c', name)
  {
    hide Matches, Moving, InFlightTo;
    assert name in c' ==> ToUpgrade(dc, c', name) == ToUpgrade(dc, c, name);
    if ToUpgrade(dc, c', name) {
      assert LastToUpgrade(rank, dc, c', name);
    }
  }

  lemma QuietKeepsFit(rank: string -> real, dc: DeviceConfig, c: Cluster, c': Cluster, op: Op)
    requires OpFits(rank, dc, c, op) && Quiet(dc, c, c')
    ensures OpFits(rank, dc, c', op)
  {
    hide FitPick, Quiet, UpgradePick;
    match op
    case Done(_) =>
    case Kicking(_, held) => if held.Some? { QuietKeepsPick(rank, dc, c, c', held.value.name); }
    case _ =>
      if UpgradePick(op.dc, op.snap).Some? { QuietKeepsPick(rank, dc, c, c', UpgradePick(op.dc, op.snap).value.name); }
  }

  lemma QuietStore(dc: DeviceConfig, c: Cluster, n: Node)
    requires n.name in c && dc.Targets(n) == dc.Targets(c[n.name]) && dc.V(n) == dc.V(c[n.name])
    requires Moving(dc, n) ==> Moving(dc, c[n.name])
    ensures Quiet(dc, c, c[n.name := n])
  {
    hide Matches, LabelOf, SetReady;
    var c': Cluster := c[n.name := n];
    forall x ensures ToUpgrade(dc, c', x) == ToUpgrade(dc, c, x) {}
  }

  lemma QuietRemoval(dc: DeviceConfig, c: Cluster, x: string)
    ensures Quiet(dc, c, c - {x})
  {
  }

  lemma KickoffStore(rank: string -> real, dc: DeviceConfig, c: Cluster, n: Node)
    requires FitPick(rank, dc, c, n.name) && n.name in c && dc.Targets(n) && dc.R(n) == dc.R(c[n.name])
    requires dc.V(n) == Some(dc.Version())
    ensures Quiet(dc, c, c[n.name := n]) || Consumes(rank, dc, c, c[n.name := n], n.name)
  {
    var c': Cluster := c[n.name := n];
    if dc.V(c[n.name]) == Some(dc.Version()) {
      QuietStore(dc, c, n);
    } else {
      forall x ensures ToUpgrade(dc, c', x) <==> ToUpgrade(dc, c, x) && x != n.name {}
      forall x ensures InFlightTo(dc, c', x, dc.Version()) ==> x == n.name {
        assert !InFlightTo(dc, c, x, dc.Version());
      }
    }
  }

  // ----- Steps and runs -----

  lemma PatchKeepsHistory(rank: string -> real, w: World)
    requires History(rank, w) && Issue(w.op).Some? && Issue(w.op).value.name in w.live
    ensures var n := Merge(w.live[Issue(w.op).value.name], Issue(w.op).value.patch);
            && (Quiet(w.dc, w.live, w.live[n.name := n]) || Consumes(rank, w.dc, w.live, w.live[n.name := n], n.name))
            && (!w.op.Kicking? ==> Quiet(w.dc, w.live, w.live[n.name := n]))
  {
    var x := Issue(w.op).value.name;
    var n := Merge(w.live[x], Issue(w.op).value.patch);
    PassWrites(w.dc, w.op, w.live[x]);
    if w.dc.V(n) == w.dc.V(w.live[x]) {
      QuietStore(w.dc, w.live, n);
    } else {
      KickoffStore(rank, w.dc, w.live, n);
    }
  }

  lemma OperateKeepsHistory(rank: string -> real, w: World, o: Outcome)
    requires History(rank, w)
    ensures History(rank, OperateStep(w, o))
  {
    hide UpgradePick, Matches, Quiet, Consumes, Descends, AtMostOneTo, FitPick, PhaseOf;
    var w' := OperateStep(w, o);
    if Issue(w.op).Some? && Issue(w.op).value.name in w.live && !o.Lost? {
      PatchKeepsHistory(rank, w);
      HistoryGrows(rank, w, w', Issue(w.op).value.name);
      if !w.op.Kicking? { QuietKeepsFit(rank, w.dc, w.live, w'.live, w.op); }
    } else {
      assert forall i: nat | i <= |w'.past| :: w'.Seen(i) == w.Seen(i);
    }
  }

  lemma StepKeepsHistory(rank: string -> real, w: World, e: Event)
    requires Injective(rank) && History(rank, w) && Enabled(w, e) && Obeys(Frozen(rank), w, e)
    ensures History(rank, Do(w, e))
  {
    hide UpgradePick, Matches, Quiet, Consumes, Descends, AtMostOneTo, FitPick, PhaseOf, IsListing;
    var w' := Do(w, e);
    if e.Operate? {
      OperateKeepsHistory(rank, w, e.outcome);
    } else if e.Kmm? || e.Outside? {
      var n := if e.Kmm? then SetReady(w.dc, w.live[e.name], e.ready) else e.node;
      if e.Kmm? { SetReadyLabels(w.dc, w.live[e.name], e.ready); }
      QuietStore(w.dc, w.live, n);
      HistoryGrows(rank, w, w', n.name);
      QuietKeepsFit(rank, w.dc, w.live, w'.live, w.op);
    } else if e.Remove? {
      QuietRemoval(w.dc, w.live, e.name);
      HistoryGrows(rank, w, w', e.name);
      QuietKeepsFit(rank, w.dc, w.live, w'.live, w.op);
    } else {
      assert forall i: nat | i <= |w'.past| :: w'.Seen(i) == w.Seen(i);
      if e.List? {
        ListKeepsHistory(rank, w, e.read, e.at, e.snap);
      } else if e.Edit? {
        EditKeepsHistory(rank, w, e.config);
      }
    }
  }

  lemma ListKeepsHistory(rank: string -> real, w: World, d: DeviceConfig, at: nat, snap: seq<Node>)
    requires Injective(rank) && History(rank, w) && Agree(w.dc, d)
    requires at <= |w.past| && IsListing(w.dc, w.Seen(at), snap) && SortedBy(rank, snap)
    ensures OpFits(rank, w.dc, w.live, Listed(d, snap))
  {
    hide Matches, LabelOf, Descends, PhaseOf, InFlightTo, UpgradePick, IsListing;
    if UpgradePick(d, snap).Some? {
      EditKeepsHistory(rank, w, d);
      assert w.(dc := d, pending := true).Seen(at) == w.Seen(at);
      ListingOfSameSelector(w.dc, d, w.Seen(at), snap);
      OldPickFits(rank, d, w.Seen(at), w.live, snap);
      FitForEither(rank, d, w.dc, w.live, UpgradePick(d, snap).value.name);
    }
  }

  lemma FitForEither(rank: string -> real, dc: DeviceConfig, d: DeviceConfig, c: Cluster, name: string)
    requires Agree(dc, d) && FitPick(rank, dc, c, name)
    ensures FitPick(rank, d, c, name)
  {
    forall x ensures ToUpgrade(d, c, x) == ToUpgrade(dc, c, x) {}
    forall x ensures InFlightTo(d, c, x, d.Version()) == InFlightTo(dc, c, x, dc.Version()) {}
  }

  lemma EditKeepsHistory(rank: string -> real, w: World, d: DeviceConfig)
    requires History(rank, w) && Agree(w.dc, d)
    ensures History(rank, w.(dc := d, pending := true))
  {
    hide UpgradePick, Matches;
    var w' := w.(dc := d, pending := true);
    assert forall i: nat | i <= |w'.past| :: w'.Seen(i) == w.Seen(i);
    forall c, x ensures ToUpgrade(d, c, x) == ToUpgrade(w.dc, c, x) {}
    forall c, x ensures InFlightTo(d, c, x, d.Version()) == InFlightTo(w.dc, c, x, w.dc.Version()) {}
  }

  lemma {:induction false} RunKeepsHistory(rank: string -> real, w: World, es: seq<Event>)
    requires Injective(rank) && History(rank, w) && IsRun(Frozen(rank), w, es)
    ensures History(rank, Run(Frozen(rank), w, es))
    decreases |es|
  {
    if es != [] {
      StepKeepsHistory(rank, w, es[0]);
      RunKeepsHistory(rank, Do(w, es[0]), es[1..]);
    }
  }

  /** No pass is under way and at most one node is in upgrade. */
  ghost predicate AtStart(w: World) {
    w.dc.WellFormed() && w.op.Done? && w.past == [] && AtMostOneTo(w.dc, w.live, w.dc.Version())
  }

  lemma StartHasHistory(rank: string -> real, w: World)
    requires AtStart(w)
    ensures History(rank, w)
  {
    hide Matches, PhaseOf;
  }

  /** At most one node is ever in upgrade although every pass may read any past state, even an older one than the
      last. */
  lemma AtMostOneInUpgradeThoughStale(rank: string -> real, w: World, es: seq<Event>, a: string, b: string)
    requires Injective(rank) && AtStart(w) && IsRun(Frozen(rank), w, es)
    requires var w' := Run(Frozen(rank), w, es);
             && a in w'.live && w'.dc.Targets(w'.live[a]) && PhaseOf(w'.dc, w'.live[a]) == InUpgrade
             && b in w'.live && w'.dc.Targets(w'.live[b]) && PhaseOf(w'.dc, w'.live[b]) == InUpgrade
    ensures a == b
  {
    StartHasHistory(rank, w);
    RunKeepsHistory(rank, w, es);
    var w' := Run(Frozen(rank), w, es);
    assert InFlightTo(w'.dc, w'.live, a, w'.dc.Version()) && InFlightTo(w'.dc, w'.live, b, w'.dc.Version());
  }

  /** The pick from any past list is gone, done or the pick from the current list. */
  lemma StalePickIsCurrentOrDone(
    rank: string -> real, w: World, es: seq<Event>, at: nat, snap: seq<Node>, now: seq<Node>)
    requires Injective(rank) && AtStart(w) && IsRun(Frozen(rank), w, es)
    requires var w' := Run(Frozen(rank), w, es);
             && at <= |w'.past| && IsListing(w'.dc, w'.Seen(at), snap) && SortedBy(rank, snap)
             && IsListing(w'.dc, w'.live, now) && SortedBy(rank, now)
             && UpgradePick(w'.dc, snap).Some?
    ensures var w', p := Run(Frozen(rank), w, es), UpgradePick(Run(Frozen(rank), w, es).dc, snap).value.name;
            p in w'.live ==>
               (w'.dc.V(w'.live[p]) == Some(w'.dc.Version())
                || (UpgradePick(w'.dc, now).Some? && UpgradePick(w'.dc, now).value.name == p))
  {
    hide Matches, LabelOf, Descends;
    StartHasHistory(rank, w);
    RunKeepsHistory(rank, w, es);
    var w' := Run(Frozen(rank), w, es);
    var p := UpgradePick(w'.dc, snap).value.name;
    OldPickFits(rank, w'.dc, w'.Seen(at), w'.live, snap);
    if p in w'.live && w'.dc.V(w'.live[p]) != Some(w'.dc.Version()) {
      UpgradePickMeaning(w'.dc, now);
      forall n | n in now ensures PhaseOf(w'.dc, n) != InUpgrade {
        assert !InFlightTo(w'.dc, w'.live, n.name, w'.dc.Version());
      }
      assert w'.live[p] in now;
      SortedPickIsLast(rank, w'.dc, w'.live, now);
      assert rank(UpgradePick(w'.dc, now).value.name) == rank(p);
    }
  }
}
