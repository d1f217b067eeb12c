/**
 No wake-up is lost: taint updates raise no event and a pass never asks to be called again, yet as long as the version
 stays, whenever work is left a pass is under way or requested.
 */
module Wakeup {
  import opened Nodes
  import opened Upgrade
  import opened Filter
  import opened Protocol
  import opened Quiescence
  import opened OneTaint
  import opened PastTaint

  ghost predicate NothingToUncordonIn(dc: DeviceConfig, c: Cluster) { forall x :: !ToUncordon(dc, c, x) }

  /** Every targeted node has the labels with which it was listed. */
  ghost predicate Fresh(dc: DeviceConfig, c: Cluster, snap: seq<Node>) {
    && (forall n | n in snap :: n.name in c && dc.Targets(c[n.name]) && c[n.name].labels == n.labels)
    && (forall x | x in c && dc.Targets(c[x]) :: exists n | n in snap :: n.name == x)
  }

  /** What is known as long as no request is pending. */
  ghost predicate Undisturbed(dc: DeviceConfig, c: Cluster, op: Op) {
    match op
    case Done(_) => !WorkLeft(dc, c)
    case Listed(d, snap) => Fresh(dc, c, snap) && (UpgradedPick(d, snap).None? ==> NothingToUncordonIn(dc, c))
    case Uncordoned(d, snap) => Fresh(dc, c, snap) && NothingToUncordonIn(dc, c)
    case Kicking(d, held) =>
      && NothingToUncordonIn(dc, c)
      && (held.None? ==> !WouldKickOff(dc, c))
      && (held.Some? ==> ToUpgrade(dc, c, held.value.name) && dc.V(held.value) == dc.V(c[held.value.name]))
  }

  ghost predicate Awake(w: World) { w.pending || Undisturbed(w.dc, w.live, w.op) }

  /** An event that wakes nobody leaves the targeted nodes and their labels as they were. */
  ghost predicate SameTargetedLabels(dc: DeviceConfig, c: Cluster, c': Cluster) {
    forall x :: (x in c' && dc.Targets(c'[x]) <==> x in c && dc.Targets(c[x]))
                && (x in c' && dc.Targets(c'[x]) ==> c'[x].labels == c[x].labels)
  }

  lemma SilentEvent(w: World, e: Event)
    requires Enabled(w, e) && (e.Kmm? || e.Join? || e.Outside? || e.Remove?) && !Do(w, e).pending
    ensures SameTargetedLabels(w.dc, w.live, Do(w, e).live)
  {
    hide PhaseOf, Tainted, Issue, OperateStep;
    match e
    case Kmm(x, ready) => assert w.live[x] in Updated(w.live[x], SetReady(w.dc, w.live[x], ready)).Objects();
    case Join(n) => assert n in Created(n).Objects();
    case Outside(n) =>
      assert w.live[n.name] in Updated(w.live[n.name], n).Objects() && n in Updated(w.live[n.name], n).Objects();
    case Remove(x) => assert w.live[x] in Deleted(w.live[x]).Objects();
  }

  lemma SameLabelsSameWork(dc: DeviceConfig, c: Cluster, c': Cluster)
    requires SameTargetedLabels(dc, c, c')
    ensures forall x :: ToUpgrade(dc, c', x) <==> ToUpgrade(dc, c, x)
    ensures WouldKickOff(dc, c') <==> WouldKickOff(dc, c)
  {
    forall x ensures InUpgradeNow(dc, c', x) <==> InUpgradeNow(dc, c, x) {}
    forall x ensures ToUpgrade(dc, c', x) <==> ToUpgrade(dc, c, x) {}
  }

  lemma UndisturbedStays(dc: DeviceConfig, c: Cluster, c': Cluster, op: Op)
    requires Undisturbed(dc, c, op) && SameTargetedLabels(dc, c, c')
    requires forall x | ToUncordon(dc, c', x) :: ToUncordon(dc, c, x)
    ensures Undisturbed(dc, c', op)
  {
    SameLabelsSameWork(dc, c, c');
  }

  /** A taint patch is silent. */
  lemma TaintStore(dc: DeviceConfig, c: Cluster, n: Node)
    requires n.name in c && n.labels == c[n.name].labels
    ensures SameTargetedLabels(dc, c, c[n.name := n])
  {
  }

  /** What a pass read decides, as long as the labels are fresh. */
  lemma FreshPick(dc: DeviceConfig, c: Cluster, d: DeviceConfig, snap: seq<Node>)
    requires Agree(dc, d) && Fresh(dc, c, snap)
    ensures var p := UpgradePick(d, snap);
            && (p.None? ==> !WouldKickOff(dc, c))
            && (p.Some? ==> ToUpgrade(dc, c, p.value.name) && dc.V(p.value) == dc.V(c[p.value.name]))
  {
    UpgradePickMeaning(d, snap);
    forall n | n in snap ensures PhaseOf(d, n) == PhaseOf(dc, c[n.name]) {}
    if WouldKickOff(dc, c) {
      var x :| ToUpgrade(dc, c, x);
      var n :| n in snap && n.name == x;
      forall m | m in snap ensures PhaseOf(d, m) != InUpgrade {
        assert !InUpgradeNow(dc, c, m.name);
      }
    }
  }

  lemma NothingPastNothingToUncordon(dc: DeviceConfig, c: Cluster)
    requires NonePast(dc, c)
    ensures NothingToUncordonIn(dc, c)
  {
    hide Matches, LabelOf, PhaseOf, Tainted;
    forall x ensures !ToUncordon(dc, c, x) {
      assert !PastTainted(dc, c, x);
    }
  }

  lemma UncordonStaysAwake(w: World, o: Outcome)
    requires Tidy(w) && Awake(w) && w.op.Listed?
    ensures Awake(OperateStep(w, o))
  {
    hide Matches, LabelOf, Diff, UpgradedPick, UpgradePick, NonePast, OnlyPast, AtMostOnePast, NothingToUncordonIn;
    var w' := OperateStep(w, o);
    if !w'.pending && Issue(w.op).Some? {
      var n := PatchedNode(w.live, w.op);
      PatchKeepsTidy(w);
      TaintStore(w.dc, w.live, n);
      NothingPastNothingToUncordon(w.dc, w.live[n.name := n]);
    }
  }

  lemma CordonStaysAwake(w: World, o: Outcome)
    requires Tidy(w) && Awake(w) && w.op.Uncordoned?
    ensures Awake(OperateStep(w, o))
  {
    hide Matches, LabelOf, Diff, UpgradedPick, UpgradePick, NonePast, OnlyPast, AtMostOnePast;
    hide NothingToUncordonIn, WorkLeft;
    var w' := OperateStep(w, o);
    if !w'.pending {
      FreshPick(w.dc, w.live, w.op.dc, w.op.snap);
      if Issue(w.op).Some? {
        var n := PatchedNode(w.live, w.op);
        PatchKeepsTidy(w);
        TaintStore(w.dc, w.live, n);
        SameLabelsSameWork(w.dc, w.live, w.live[n.name := n]);
        NothingPastNothingToUncordon(w.dc, w.live[n.name := n]);
      }
    }
  }

  /** A kickoff that is applied changes a label of a targeted node, and one that is not fails the pass: either way
      a request is left. */
  lemma KickoffStaysAwake(w: World, o: Outcome)
    requires w.dc.WellFormed() && w.op.Kicking? && Agree(w.dc, w.op.dc) && Awake(w)
    ensures Awake(OperateStep(w, o)) && (w.op.held.Some? ==> OperateStep(w, o).pending)
  {
    hide Matches, Diff, UpgradePick, UpgradedPick, WouldKickOff;
    if w.op.held.Some? && !w.pending {
      var x := w.op.held.value.name;
      KickoffPatch(w.op.dc, w.op.held.value, w.live[x]);
      var n := Merge(w.live[x], Issue(w.op).value.patch);
      assert w.live[x] in Updated(w.live[x], n).Objects();
      assert w.dc.V(n) != w.dc.V(w.live[x]);
    }
  }

  lemma OthersStayAwake(w: World, e: Event)
    requires Awake(w) && Enabled(w, e) && Tame(w, e)
    requires e.Kmm? || e.Join? || e.Outside? || e.Remove?
    ensures Awake(Do(w, e))
  {
    var w' := Do(w, e);
    if !w'.pending {
      SilentEvent(w, e);
      forall x ensures ToUncordon(w.dc, w'.live, x) ==> ToUncordon(w.dc, w.live, x) {}
      UndisturbedStays(w.dc, w.live, w'.live, w.op);
    }
  }

  lemma StepStaysAwake(w: World, e: Event)
    requires Tidy(w) && Awake(w) && Enabled(w, e) && Tame(w, e)
    ensures Awake(Do(w, e))
  {
    hide Matches, LabelOf, PhaseOf;
    match e
    case List(_, _, snap) => ListingDecides(w.dc, w.live, snap);
    case Operate(o) =>
      match w.op {
        case Done(_) =>
        case Listed(_, _) => UncordonStaysAwake(w, o);
        case Uncordoned(_, _) => CordonStaysAwake(w, o);
        case Kicking(_, _) => KickoffStaysAwake(w, o);
      }
    case Restart =>
    case Edit(_) =>
    case _ => OthersStayAwake(w, e);
  }

  /** As long as the version stays, in whatever order each list comes: whenever no pass is under way and work is
      left, a request is pending. */
  lemma {:induction false} NoLostWakeup(w: World, es: seq<Event>)
    requires Tidy(w) && Awake(w) && IsRun(Loose, w, es)
    ensures var w' := Run(Loose, w, es); Awake(w') && (w'.op.Done? && WorkLeft(w'.dc, w'.live) ==> w'.pending)
    decreases |es|
  {
    if es != [] {
      StepKeepsTidy(w, es[0]);
      StepStaysAwake(w, es[0]);
      NoLostWakeup(Do(w, es[0]), es[1..]);
    }
  }

  // ----- In one list order -----

  lemma {:induction false} SteadyRunIsLoose(rank: string -> real, w: World, es: seq<Event>)
    requires IsRun(Steady(rank), w, es)
    ensures IsRun(Loose, w, es) && Run(Loose, w, es) == Run(Steady(rank), w, es)
    decreases |es|
  {
    hide Do, Tame;
    if es != [] { SteadyRunIsLoose(rank, Do(w, es[0]), es[1..]); }
  }

  /** From rest in the order of taints, no two targeted nodes are ever tainted together and no wake-up is lost. */
  lemma OrderedRunsStayAwake(rank: string -> real, w: World, es: seq<Event>)
    requires Injective(rank) && Ordered(rank, w) && w.op.Done? && Awake(w) && IsRun(Steady(rank), w, es)
    ensures var w' := Run(Steady(rank), w, es);
            && (forall a | TaintedTarget(w'.dc, w'.live, a) :: OnlyTainted(w'.dc, w'.live, a))
            && (w'.op.Done? && WorkLeft(w'.dc, w'.live) ==> w'.pending)
  {
    hide Awake, WorkLeft, Tidy, OpOrder;
    RunKeepsOrder(rank, w, es);
    OrderedAtRestIsTidy(rank, w);
    SteadyRunIsLoose(rank, w, es);
    NoLostWakeup(w, es);
  }
}
