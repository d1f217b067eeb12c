/**
 What a lagging cache does to the upgrade taint: cordon before kickoff survives it, but a pass may cordon a node that is
 upgraded by now and leave it so.
 */
module StaleTaint {
  import opened Nodes
  import opened Upgrade
  import opened Filter
  import opened Protocol
  import opened Taints

  // ----- Cordon before kickoff -----

  /** What became of a node since it was seen: it is new, or at the wanted version, or it has the version label it
      had and the taint if it had that. */
  predicate Faithful(dc: DeviceConfig, seen: Node, now: Node) {
    || IsNew(dc, now) || dc.V(now) == Some(dc.Version())
    || (dc.V(now) == dc.V(seen) && (Cordoned(seen) ==> Cordoned(now)))
  }

  /** No node is a stranger: it is new or became what it is from its earlier self. */
  ghost predicate Becomes(dc: DeviceConfig, c: Cluster, c': Cluster) {
    forall x | x in c' :: IsNew(dc, c'[x]) || (x in c && Faithful(dc, c[x], c'[x]))
  }

  predicate Known(dc: DeviceConfig, c: Cluster, seen: Option<Node>) {
    seen.Some? && seen.value.name in c ==> Faithful(dc, seen.value, c[seen.value.name])
  }

  /** The node may lose its taint. */
  predicate Settled(dc: DeviceConfig, c: Cluster, seen: Option<Node>) {
    seen.Some? && seen.value.name in c ==>
      IsNew(dc, c[seen.value.name]) || dc.V(c[seen.value.name]) == Some(dc.Version())
  }

  /** Kicking the node off finds it new, already there, or under the taint. */
  predicate Ready(dc: DeviceConfig, c: Cluster, held: Option<Node>) {
    held.Some? && held.value.name in c ==>
      var n := c[held.value.name];
      IsNew(dc, n) || dc.V(n) == Some(dc.Version()) || Cordoned(n)
  }

  predicate OpKnown(dc: DeviceConfig, c: Cluster, op: Op) {
    match op
    case Done(_) => true
    case Listed(d, snap) => Agree(dc, d) && Settled(dc, c, UpgradedPick(d, snap)) && Known(dc, c, UpgradePick(d, snap))
    case Uncordoned(d, snap) => Agree(dc, d) && Known(dc, c, UpgradePick(d, snap))
    case Kicking(d, held) => Agree(dc, d) && Ready(dc, c, held)
  }

  ghost predicate Remembers(w: World) {
    && w.dc.WellFormed()
    && (forall i: nat, x | i <= |w.past| && x in w.live && x in w.Seen(i) :: Faithful(w.dc, w.Seen(i)[x], w.live[x]))
    && OpKnown(w.dc, w.live, w.op)
  }

  lemma OpStaysKnown(dc: DeviceConfig, c: Cluster, c': Cluster, op: Op)
    requires OpKnown(dc, c, op) && Becomes(dc, c, c')
    ensures OpKnown(dc, c', op)
  {
    hide Matches, LabelOf, UpgradePick, UpgradedPick, Cordoned;
  }

  lemma HistoryStaysKnown(w: World, w': World)
    requires Remembers(w) && w'.dc == w.dc && w'.past == w.past + [w.live] && Becomes(w.dc, w.live, w'.live)
    requires OpKnown(w.dc, w'.live, w'.op)
    ensures Remembers(w')
  {
    hide LabelOf, Cordoned, OpKnown;
    forall i: nat, x | i <= |w'.past| && x in w'.live && x in w'.Seen(i)
      ensures Faithful(w.dc, w'.Seen(i)[x], w'.live[x])
    {
      if i <= |w.past| { assert w'.Seen(i) == w.Seen(i); }
    }
  }

  /** A patch keeps faith, and a cordon leaves the node ready. */
  lemma PatchKeepsFaith(dc: DeviceConfig, c: Cluster, op: Op)
    requires dc.WellFormed() && OpKnown(dc, c, op) && Issue(op).Some? && Issue(op).value.name in c
    ensures var n := c[Issue(op).value.name];
            var m := Merge(n, Issue(op).value.patch);
            && (IsNew(dc, m) || Faithful(dc, n, m))
            && (op.Uncordoned? ==> Cordoned(m))
            && (dc.V(m) != dc.V(n) ==> IsNew(dc, n) || Cordoned(n))
  {
    hide Matches, Diff, UpgradePick, UpgradedPick;
    var n := c[Issue(op).value.name];
    PassWrites(dc, op, n);
    match op
    case Uncordoned(d, snap) =>
      CordonPatch(d, snap, n);
      assert UPGRADE_TAINT in Merge(n, Issue(op).value.patch).taints;
    case _ =>
  }

  lemma OperateRemembers(w: World, o: Outcome)
    requires Remembers(w)
    ensures Remembers(OperateStep(w, o))
  {
    hide Matches, LabelOf, Diff, Merge, UpgradePick, UpgradedPick, Cordoned;
    var w' := OperateStep(w, o);
    if Issue(w.op).Some? && Issue(w.op).value.name in w.live && !o.Lost? {
      PatchKeepsFaith(w.dc, w.live, w.op);
      OpStaysKnown(w.dc, w.live, w'.live, w.op);
      HistoryStaysKnown(w, w');
    } else {
      assert forall i: nat | i <= |w'.past| :: w'.Seen(i) == w.Seen(i);
    }
  }

  lemma ListIsKnown(w: World, d: DeviceConfig, at: nat, snap: seq<Node>)
    requires Remembers(w) && Agree(w.dc, d) && at <= |w.past| && IsListing(w.dc, w.Seen(at), snap)
    ensures OpKnown(w.dc, w.live, Listed(d, snap))
  {
    hide Matches, UpgradePick, UpgradedPick, Cordoned;
    ListingOfSameSelector(w.dc, d, w.Seen(at), snap);
    ListingPicks(d, w.Seen(at), snap);
    UpgradedPickMeaning(d, snap);
  }

  lemma StepRemembers(w: World, e: Event)
    requires Remembers(w) && Enabled(w, e) && Obeys(Lagging, w, e)
    ensures Remembers(Do(w, e))
  {
    hide Matches, UpgradePick, UpgradedPick, Cordoned, OperateStep, Wakes;
    var w' := Do(w, e);
    if e.Operate? {
      OperateRemembers(w, e.outcome);
    } else if e.Kmm? || e.Join? || e.Outside? || e.Remove? {
      OthersKeepFaith(w, e);
      OpStaysKnown(w.dc, w.live, w'.live, w.op);
      HistoryStaysKnown(w, w');
    } else {
      assert forall i: nat | i <= |w'.past| :: w'.Seen(i) == w.Seen(i);
      if e.List? { ListIsKnown(w, e.read, e.at, e.snap); }
    }
  }

  lemma OthersKeepFaith(w: World, e: Event)
    requires w.dc.WellFormed() && Enabled(w, e) && Obeys(Lagging, w, e)
    requires e.Kmm? || e.Join? || e.Outside? || e.Remove?
    ensures Becomes(w.dc, w.live, Do(w, e).live)
  {
    hide Matches, Wakes;
    if e.Kmm? { SetReadyLabels(w.dc, w.live[e.name], e.ready); }
  }

  lemma {:induction false} RunRemembers(w: World, es: seq<Event>)
    requires Remembers(w) && IsRun(Lagging, w, es)
    ensures Remembers(Run(Lagging, w, es))
    decreases |es|
  {
    hide Remembers;
    if es != [] {
      StepRemembers(w, es[0]);
      RunRemembers(Do(w, es[0]), es[1..]);
    }
  }

  lemma RememberedKickoff(w: World, e: Event)
    requires Remembers(w) && Enabled(w, e)
    ensures KicksOffCordoned(w, e)
  {
    hide Matches, Diff, Merge, UpgradePick, UpgradedPick, Cordoned, Wakes;
    if e.Operate? {
      if Issue(w.op).Some? && Issue(w.op).value.name in w.live { PatchKeepsFaith(w.dc, w.live, w.op); }
    } else if e.Kmm? {
      SetReadyLabels(w.dc, w.live[e.name], e.ready);
    }
  }

  /** With one version, however old the lists that passes read: any event of any run that changes a node's version
      label finds the node new or already carrying the taint. */
  lemma CordonBeforeKickoffThoughStale(w: World, es: seq<Event>, e: Event)
    requires w.dc.WellFormed() && w.op.Done? && w.past == []
    requires IsRun(Lagging, w, es) && Enabled(Run(Lagging, w, es), e)
    ensures KicksOffCordoned(Run(Lagging, w, es), e)
  {
    assert Remembers(w);
    hide Remembers, KicksOffCordoned;
    RunRemembers(w, es);
    RememberedKickoff(Run(Lagging, w, es), e);
  }

  // ----- A pass that cordons what is upgraded by now -----

  /** Whether a node that is live carries the taint after the pass's next step. */
  lemma CordonedAfterStep(w: World, o: Outcome, x: string)
    requires w.dc.WellFormed() && (w.op.Done? || w.dc.SameIdentity(w.op.dc)) && x in w.live
    ensures var w' := OperateStep(w, o);
            && x in w'.live
            && (Cordoned(w'.live[x]) <==>
                  if !Lands(w, o) || x != Issue(w.op).value.name then Cordoned(w.live[x])
                  else if w.op.Listed? then Cordoned(w.live[x]) && !Cordoned(UpgradedPick(w.op.dc, w.op.snap).value)
                  else w.op.Uncordoned? || Cordoned(w.live[x]))
  {
    hide Matches, Diff;
    StepKeepsNames(w, o);
    if Lands(w, o) {
      var n := w.live[Issue(w.op).value.name];
      PassWrites(w.dc, w.op, n);
      match w.op
      case Listed(d, snap) => UncordonPatch(d, snap, n);
      case Uncordoned(d, snap) =>
        CordonPatch(d, snap, n);
        assert UPGRADE_TAINT in Merge(n, Issue(w.op).value.patch).taints;
      case _ =>
    }
  }

  /** The pass puts the taint on a targeted node that is upgraded. */
  ghost predicate CordonsUpgraded(dc: DeviceConfig, c: Cluster, c': Cluster) {
    exists x | x in c :: x in c' && dc.Targets(c[x]) && PhaseOf(dc, c[x]) == Upgraded
                         && !Cordoned(c[x]) && Cordoned(c'[x])
  }

  /** The pass gets past its uncordon step. */
  predicate GetsPastUncordon(w: World, snap: seq<Node>, o1: Outcome) {
    var u := UpgradedPick(w.dc, snap);
    u.Some? ==> u.value.name in w.live && o1.Applied?
  }

  /** The pick was listed as labelled and without the taint, the two taint patches get through, and live the node is
      upgraded and without the taint. */
  predicate PickIsPast(w: World, snap: seq<Node>, o1: Outcome, o2: Outcome) {
    var p := UpgradePick(w.dc, snap);
    && p.Some? && !IsNew(w.dc, p.value) && !Cordoned(p.value)
    && GetsPastUncordon(w, snap, o1) && !o2.Lost?
    && p.value.name in w.live
    && var n := w.live[p.value.name];
       w.dc.Targets(n) && PhaseOf(w.dc, n) == Upgraded && !Cordoned(n)
  }

  lemma CordonedAfterPass(w: World, at: nat, snap: seq<Node>, o1: Outcome, o2: Outcome, o3: Outcome, x: string)
    requires w.dc.WellFormed() && w.dc.Version() != "" && Enabled(w, List(w.dc, at, snap))
    requires x in w.live && !Cordoned(w.live[x])
    ensures var w' := PassWith(w, at, snap, o1, o2, o3);
            var p := UpgradePick(w.dc, snap);
            && x in w'.live
            && (Cordoned(w'.live[x]) <==>
                  && p.Some? && p.value.name == x && !IsNew(w.dc, p.value) && !Cordoned(p.value)
                  && GetsPastUncordon(w, snap, o1) && !o2.Lost?)
  {
    hide Cordoned, UpgradePick, UpgradedPick, OperateStep;
    UncordonCordonsNothing(w, at, snap, o1, x);
    var w2 := OperateStep(Do(w, List(w.dc, at, snap)), o1);
    if w2.op.Done? {
      CordonedAfterStep(w2, o2, x);
      DoneStays(w2, o2);
      DoneStays(w2, o3);
    } else {
      CordonedAfterLastSteps(w2, o2, o3, x);
    }
  }

  lemma DoneStays(w: World, o: Outcome)
    requires w.op.Done?
    ensures OperateStep(w, o) == w
  {
  }

  lemma UncordonCordonsNothing(w: World, at: nat, snap: seq<Node>, o1: Outcome, x: string)
    requires w.dc.WellFormed() && w.dc.Version() != "" && Enabled(w, List(w.dc, at, snap))
    requires x in w.live && !Cordoned(w.live[x])
    ensures var w2 := OperateStep(Do(w, List(w.dc, at, snap)), o1);
            && w2.dc == w.dc && x in w2.live && !Cordoned(w2.live[x])
            && (if GetsPastUncordon(w, snap, o1) then w2.op == Uncordoned(w.dc, snap) else w2.op.Done?)
  {
    hide Matches, Diff, Merge, Cordoned, UpgradePick, UpgradedPick, Wakes;
    var w1 := Do(w, List(w.dc, at, snap));
    CordonedAfterStep(w1, o1, x);
    StepKeepsNames(w1, o1);
  }

  lemma CordonedAfterLastSteps(w: World, o2: Outcome, o3: Outcome, x: string)
    requires w.dc.WellFormed() && w.op.Uncordoned? && w.op.dc == w.dc && x in w.live && !Cordoned(w.live[x])
    ensures var w', p := OperateStep(OperateStep(w, o2), o3), UpgradePick(w.dc, w.op.snap);
            && x in w'.live
            && (Cordoned(w'.live[x]) <==>
                  p.Some? && p.value.name == x && !IsNew(w.dc, p.value) && !Cordoned(p.value) && !o2.Lost?)
  {
    hide Matches, Diff, Merge, Cordoned, UpgradePick, UpgradedPick, Wakes;
    var w3 := OperateStep(w, o2);
    CordonedAfterStep(w, o2, x);
    StepKeepsNames(w, o2);
    CordonedAfterStep(w3, o3, x);
  }

  /** However old the list and whatever becomes of the patches, a pass from rest cordons an upgraded target exactly
      when its pick is one by now. */
  lemma PassCordonsUpgradedExactly(w: World, at: nat, snap: seq<Node>, o1: Outcome, o2: Outcome, o3: Outcome)
    requires w.dc.WellFormed() && w.dc.Version() != "" && Enabled(w, List(w.dc, at, snap))
    ensures var w' := PassWith(w, at, snap, o1, o2, o3);
            CordonsUpgraded(w.dc, w.live, w'.live) <==> PickIsPast(w, snap, o1, o2)
  {
    hide Matches, PhaseOf, Cordoned, UpgradePick, UpgradedPick, OperateStep;
    forall x | x in w.live && !Cordoned(w.live[x])
      ensures var w' := PassWith(w, at, snap, o1, o2, o3);
              && x in w'.live
              && (Cordoned(w'.live[x]) ==>
                    UpgradePick(w.dc, snap).Some? && x == UpgradePick(w.dc, snap).value.name)
    {
      CordonedAfterPass(w, at, snap, o1, o2, o3, x);
    }
    var p := UpgradePick(w.dc, snap);
    if p.Some? && p.value.name in w.live && !Cordoned(w.live[p.value.name]) {
      CordonedAfterPass(w, at, snap, o1, o2, o3, p.value.name);
    }
  }

  ghost predicate SameLabelsIn(c: Cluster, c': Cluster) {
    c'.Keys == c.Keys && forall x | x in c :: c'[x].labels == c[x].labels
  }

  /** A patch without labels wakes nobody. */
  lemma SilentStep(w: World, o: Outcome)
    requires Issue(w.op).Some? ==> var p := Issue(w.op).value.patch; !p.clear && p.labels == map[]
    ensures var w' := OperateStep(w, o);
            && SameLabelsIn(w.live, w'.live)
            && (w'.pending <==> w.pending || (Issue(w.op).Some? && w'.op == Done(false)))
  {
    hide Advance, Matches;
    StepKeepsNames(w, o);
    if Lands(w, o) {
      var n := w.live[Issue(w.op).value.name];
      SameLabels(PatchedNode(w.live, w.op), n);
    }
  }

  lemma TaintStepsAreSilent(w: World, o: Outcome)
    requires w.op.Listed? || w.op.Uncordoned?
    ensures var w' := OperateStep(w, o);
            && SameLabelsIn(w.live, w'.live)
            && (w'.pending <==> w.pending || (Issue(w.op).Some? && w'.op == Done(false)))
  {
    if Issue(w.op).Some? { TaintPatch(w.op, Node("", map[], [])); }
    SilentStep(w, o);
  }

  /** The kickoff of such a pass finds the wanted version and sends an empty patch. */
  lemma KickoffIsSilent(w: World)
    requires w.op.Kicking? && w.op.dc == w.dc && !w.pending
    requires w.op.held.Some? && w.op.held.value.name in w.live && w.dc.V(w.op.held.value) == Some(w.dc.Version())
    ensures var w' := OperateStep(w, Applied);
            SameLabelsIn(w.live, w'.live) && !w'.pending && w'.op == Done(true) && w'.dc == w.dc
  {
    KickoffDiff(w.dc, w.op.held.value);
    hide Merge, Matches, Kickoff, Diff;
    SilentStep(w, Applied);
  }

  /** Such a pass succeeds, leaves its pick upgraded under the taint and asks for nothing more. */
  lemma StaleCordonIsForgotten(w: World, at: nat, snap: seq<Node>)
    requires w.dc.WellFormed() && w.dc.Version() != "" && Enabled(w, List(w.dc, at, snap))
    requires PickIsPast(w, snap, Applied, Applied)
    ensures var w', x := PassWith(w, at, snap, Applied, Applied, Applied), UpgradePick(w.dc, snap).value.name;
            w'.dc == w.dc && w'.op == Done(true) && !w'.pending && ToUncordon(w.dc, w'.live, x)
  {
    hide Cordoned, UpgradePick, UpgradedPick, OperateStep, Matches, Merge, Diff;
    var x := UpgradePick(w.dc, snap).value.name;
    var w1 := Do(w, List(w.dc, at, snap));
    var w2 := OperateStep(w1, Applied);
    UncordonCordonsNothing(w, at, snap, Applied, x);
    CordonedAfterPass(w, at, snap, Applied, Applied, Applied, x);
    TaintStepsAreSilent(w1, Applied);
    TaintStepsAreSilent(w2, Applied);
    CordonHeld(w2);
    KickoffIsSilent(OperateStep(w2, Applied));
    UpgradedUnderTaint(w.dc, w.live[x], PassWith(w, at, snap, Applied, Applied, Applied).live[x]);
  }

  lemma CordonHeld(w: World)
    requires w.dc.WellFormed() && w.op.Uncordoned? && w.op.dc == w.dc
    requires var p := UpgradePick(w.dc, w.op.snap);
             p.Some? && !IsNew(w.dc, p.value) && !Cordoned(p.value) && p.value.name in w.live
    ensures var w', x := OperateStep(w, Applied), UpgradePick(w.dc, w.op.snap).value.name;
            && w'.dc == w.dc && x in w'.live && w'.op == Kicking(w.dc, Some(w'.live[x]))
            && w'.live[x].name == x && w'.live[x].labels == w.live[x].labels
  {
    hide Matches, Diff, UpgradePick;
    var x := UpgradePick(w.dc, w.op.snap).value.name;
    PassWrites(w.dc, w.op, w.live[x]);
  }

  lemma UpgradedUnderTaint(dc: DeviceConfig, n: Node, m: Node)
    requires m.labels == n.labels && dc.Targets(n) && PhaseOf(dc, n) == Upgraded && Cordoned(m)
    ensures dc.Targets(m) && PhaseOf(dc, m) == Upgraded && Tainted(m)
  {
  }
}
