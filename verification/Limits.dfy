/**
 Where the guarantees end: a run that breaks the taint bound once the list order changes, and one that loses a wake-up
 once the version does.
 */
module Limits {
  import opened Nodes
  import opened Upgrade
  import opened Filter
  import opened Protocol
  import opened Quiescence
  import opened OneTaint
  import opened Pass
  import opened Reach
  import S = SecondTaint
  import A = StaleTaint
  import T = SharedTaint

  // ----- Two outdated nodes -----

  function TwoNodes(a: Node, b: Node): Cluster
    requires a.name != b.name
  {
    map[a.name := a, b.name := b]
  }

  lemma TwoNodesEitherWay(a: Node, b: Node)
    requires a.name != b.name
    ensures TwoNodes(a, b) == TwoNodes(b, a)
  {
  }

  lemma TwoNodesListed(dc: DeviceConfig, a: Node, b: Node)
    requires a.name != b.name && dc.Targets(a) && dc.Targets(b)
    ensures IsListing(dc, TwoNodes(a, b), [a, b]) && IsListing(dc, TwoNodes(a, b), [b, a])
  {
  }

  /** Targeted and still at an earlier version. */
  predicate Outdated(dc: DeviceConfig, n: Node) {
    dc.Targets(n) && !IsNew(dc, n) && PhaseOf(dc, n) == Before
  }

  predicate AtRest(w: World, a: Node, b: Node) {
    w.dc.WellFormed() && w.dc.Version() != "" && w.op.Done? && a.name != b.name && w.live == TwoNodes(a, b)
  }

  lemma OutdatedPicks(dc: DeviceConfig, a: Node, b: Node)
    requires Outdated(dc, a) && Outdated(dc, b)
    ensures UpgradedPick(dc, [a, b]) == None && UpgradePick(dc, [a, b]) == Some(b)
  {
    UpgradedPickMeaning(dc, [a, b]);
  }

  lemma CordonReached(w: World, a: Node, b: Node)
    requires w.op == Uncordoned(w.dc, [a, b]) && a.name != b.name && w.live == TwoNodes(a, b)
    requires Outdated(w.dc, a) && Outdated(w.dc, b) && !Cordoned(b)
    ensures var w' := OperateStep(w, Applied);
            w'.op == Kicking(w.dc, Some(Cordon(b))) && w'.live == TwoNodes(a, Cordon(b)) && w'.dc == w.dc
  {
    OutdatedPicks(w.dc, a, b);
    SecondStep(w);
  }

  /** A pass that loses its kickoff gets no further than the cordon of the last node. */
  lemma CordonOnly(w: World, a: Node, b: Node) returns (w': World)
    requires AtRest(w, a, b) && Outdated(w.dc, a) && Outdated(w.dc, b) && !Cordoned(b)
    ensures Leads(Current, w, w') && w'.live == TwoNodes(a, Cordon(b)) && w'.op == Done(false) && w'.dc == w.dc
  {
    hide Leads;
    TwoNodesListed(w.dc, a, b);
    OutdatedPicks(w.dc, a, b);
    LeadsByPass(Current, w, |w.past|, [a, b], Applied, Applied, Lost);
    var w1 := Do(w, List(w.dc, |w.past|, [a, b]));
    FirstStep(w1);
    var w2 := OperateStep(w1, Applied);
    CordonReached(w2, a, b);
    w' := OperateStep(OperateStep(w2, Applied), Lost);
  }

  lemma CordonKeepsPhase(dc: DeviceConfig, n: Node)
    ensures Cordon(n).name == n.name && Tainted(Cordon(n)) && Outdated(dc, Cordon(n)) == Outdated(dc, n)
    ensures Clean(n) ==> Clean(Cordon(n))
  {
    assert UPGRADE_TAINT in Cordon(n).taints;
    assert dc.Targets(Cordon(n)) == dc.Targets(n);
  }

  lemma OneOfTwoTainted(dc: DeviceConfig, a: Node, b: Node)
    requires a.name != b.name && !Tainted(a) && !Tainted(b) && Outdated(dc, a) && Outdated(dc, b)
    ensures var c: Cluster := TwoNodes(Cordon(b), a);
            && AllClean(dc, c) && S.TaintedNames(dc, c) == {b.name} && PhaseOf(dc, c[b.name]) == Before
            && !S.TwoTainted(dc, c)
  {
    CordonKeepsPhase(dc, b);
    hide Matches, LabelOf, PhaseOf;
  }

  lemma NamesAfterPass(w: World, snap: seq<Node>, o1: Outcome, o2: Outcome, o3: Outcome)
    requires Enabled(w, List(w.dc, |w.past|, snap))
    ensures var w' := PassWith(w, |w.past|, snap, o1, o2, o3); w'.dc == w.dc && w'.live.Keys == w.live.Keys
  {
    hide OperateStep;
    var w1 := Do(w, List(w.dc, |w.past|, snap));
    StepKeepsNames(w1, o1);
    StepKeepsNames(OperateStep(w1, o1), o2);
    StepKeepsNames(OperateStep(OperateStep(w1, o1), o2), o3);
  }

  /** b is cordoned and a is not; a pass that lists a last cordons it too. */
  lemma OtherWayRound(w: World, a: Node, b: Node) returns (w': World)
    requires AtRest(w, Cordon(b), a) && Outdated(w.dc, a) && Outdated(w.dc, b) && !Tainted(a) && !Tainted(b)
    ensures Leads(Current, w, w') && S.TwoTainted(w'.dc, w'.live)
    ensures w'.dc == w.dc && w'.live.Keys == {a.name, b.name}
  {
    hide Leads, Matches, PhaseOf, IsNew, Tainted, OperateStep, LabelOf;
    var snap := [Cordon(b), a];
    CordonKeepsPhase(w.dc, b);
    OneOfTwoTainted(w.dc, a, b);
    TwoNodesListed(w.dc, Cordon(b), a);
    OutdatedPicks(w.dc, Cordon(b), a);
    assert b.name in S.TaintedNames(w.dc, w.live);
    S.PassTaintsTwoExactly(w, snap, Applied, Applied, Lost);
    NamesAfterPass(w, snap, Applied, Applied, Lost);
    LeadsByPass(Current, w, |w.past|, snap, Applied, Applied, Lost);
    w' := PassWith(w, |w.past|, snap, Applied, Applied, Lost);
  }

  /** The taint bound needs one list order: from two untainted outdated nodes, a pass that lists them one way and
      loses its kickoff, and one that lists them the other way, taint both. */
  lemma ChangingOrderTaintsTwo(w: World, a: Node, b: Node) returns (w': World)
    requires AtRest(w, a, b) && Outdated(w.dc, a) && Outdated(w.dc, b) && !Tainted(a) && !Tainted(b)
    ensures Leads(Current, w, w')
    ensures TaintedTarget(w'.dc, w'.live, a.name) && TaintedTarget(w'.dc, w'.live, b.name)
  {
    TwoNodesEitherWay(a, Cordon(b));
    assert !Cordoned(b);
    hide Leads, Cordon, Matches, PhaseOf, IsNew, Outdated, TaintedTarget, Tainted, Cordoned;
    var w1 := CordonOnly(w, a, b);
    w' := OtherWayRound(w1, a, b);
    LeadsOn(Current, w, w1, w');
  }

  // ----- Editing the version back and forth -----

  /** The state an ordinary rolling upgrade reaches half-way: a is cordoned and in upgrade, b is done. */
  predicate HalfWay(w: World, a: Node, b: Node) {
    && AtRest(w, a, b)
    && w.dc.Targets(a) && PhaseOf(w.dc, a) == InUpgrade && Cordoned(a)
    && w.dc.Targets(b) && PhaseOf(w.dc, b) == Upgraded && !Tainted(b)
  }

  predicate OtherWish(dc: DeviceConfig, other: DeviceConfig) {
    dc.SameIdentity(other) && other.Version() != "" && other.Version() != dc.Version()
  }

  lemma CordonForOtherWish(w: World, other: DeviceConfig, a: Node, b: Node) returns (w': World)
    requires HalfWay(w, a, b) && OtherWish(w.dc, other)
    ensures Leads(Current, w, w') && w'.live == TwoNodes(a, Cordon(b)) && w'.op.Done? && w'.dc == other
  {
    hide Leads;
    var w1 := Do(w, Edit(other));
    assert other.Targets(a) && other.Targets(b);
    w' := CordonOnly(w1, a, b);
    LeadsByStep(Current, w, Edit(other));
    LeadsOn(Current, w, w1, w');
  }

  lemma ReadyStep(w: World, a: Node, b: Node, ready: Option<string>)
    requires a.name != b.name && w.live == TwoNodes(a, b) && Enabled(w, Kmm(a.name, ready))
    ensures var w' := Do(w, Kmm(a.name, ready));
            w'.live == TwoNodes(SetReady(w.dc, a, ready), b) && w'.dc == w.dc && w'.op == w.op
  {
    hide Matches, LabelOf, Wakes, OperateStep, PhaseOf, Issue, Advance;
  }

  /** KMM reports the version asked for while another one is wanted, and then that wish is taken back. */
  lemma ReadyAndBack(w: World, dc: DeviceConfig, a: Node, b: Node) returns (w': World)
    requires w.op.Done? && a.name != b.name && w.live == TwoNodes(a, b) && OtherWish(dc, w.dc) && dc.WellFormed()
    requires PhaseOf(dc, a) == InUpgrade
    ensures Leads(Current, w, w') && w'.dc == dc && w'.op.Done?
    ensures var a' := SetReady(dc, a, Some(dc.Version())); a'.name == a.name && w'.live == TwoNodes(a', b)
  {
    var ready := Kmm(a.name, Some(dc.Version()));
    assert w.live[a.name] == a;
    assert Enabled(w, ready);
    hide Leads, Matches, PhaseOf, TwoNodes, Wakes;
    ReadyStep(w, a, b, Some(dc.Version()));
    LeadsByStep(Current, w, ready);
    var w1 := Do(w, ready);
    LeadsByStep(Current, w1, Edit(dc));
    w' := Do(w1, Edit(dc));
    LeadsOn(Current, w, w1, w');
  }

  /** Wanting another version for a while: b is cordoned for it, then a becomes ready, then the old wish comes back. */
  lemma EditBackAndForth(w: World, other: DeviceConfig, a: Node, b: Node) returns (w': World)
    requires HalfWay(w, a, b) && OtherWish(w.dc, other)
    ensures Leads(Current, w, w') && w'.dc == w.dc && w'.op.Done?
    ensures var a' := SetReady(w.dc, a, Some(w.dc.Version()));
            a'.name == a.name && w'.live == TwoNodes(a', Cordon(b))
  {
    hide Leads, SetReady;
    var w1 := CordonForOtherWish(w, other, a, b);
    w' := ReadyAndBack(w1, w.dc, a, Cordon(b));
    LeadsOn(Current, w, w1, w');
  }

  lemma BothUpgradedAndTainted(dc: DeviceConfig, a: Node, b: Node)
    requires dc.WellFormed() && dc.Targets(a) && PhaseOf(dc, a) == InUpgrade && Cordoned(a)
    requires dc.Targets(b) && PhaseOf(dc, b) == Upgraded
    ensures var a' := SetReady(dc, a, Some(dc.Version())); dc.Targets(a') && PhaseOf(dc, a') == Upgraded && Tainted(a')
    ensures dc.Targets(Cordon(b)) && PhaseOf(dc, Cordon(b)) == Upgraded && Tainted(Cordon(b))
  {
    SetReadyLabels(dc, a, Some(dc.Version()));
    assert UPGRADE_TAINT in Cordon(b).taints;
  }

  lemma TwoAreTooMuch(dc: DeviceConfig, a: Node, b: Node)
    requires a.name != b.name
    requires dc.Targets(a) && PhaseOf(dc, a) == Upgraded && Tainted(a)
    requires dc.Targets(b) && PhaseOf(dc, b) == Upgraded && Tainted(b)
    ensures TooMuchToUncordon(dc, TwoNodes(a, b)) && !WouldKickOff(dc, TwoNodes(a, b))
  {
    hide Tainted, Matches, PhaseOf;
    assert ToUncordon(dc, TwoNodes(a, b), a.name) && ToUncordon(dc, TwoNodes(a, b), b.name);
  }

  /** A successful pass over two upgraded tainted nodes leaves the second tainted and asks for nothing more. */
  lemma SecondTaintIsForgotten(w: World, a: Node, b: Node) returns (w': World)
    requires AtRest(w, a, b)
    requires w.dc.Targets(a) && PhaseOf(w.dc, a) == Upgraded && Tainted(a)
    requires w.dc.Targets(b) && PhaseOf(w.dc, b) == Upgraded && Tainted(b)
    ensures Leads(Current, w, w') && w'.op == Done(true) && WorkLeft(w'.dc, w'.live) && !w'.pending
  {
    hide Leads, OperateStep, WorkLeft, WouldKickOff, TooMuchToUncordon, IsListing;
    hide Tainted, Matches, PhaseOf, UpgradedPick, UpgradePick;
    TwoNodesListed(w.dc, a, b);
    TwoAreTooMuch(w.dc, a, b);
    LeadsByPass(Current, w, |w.past|, [a, b], Applied, Applied, Applied);
    PassMakesTheTwoEdits(w, [a, b]);
    WorkLeftUnrequestedExactly(w, [a, b]);
    w' := Passed(w, [a, b]);
  }

  /** The wake-up guarantee needs one version: from an ordinary state, with every pass but one successful, editing the
      version back and forth ends in a state with work left, no pass under way and no request pending. */
  lemma EditsCanLoseAWakeup(w: World, other: DeviceConfig, a: Node, b: Node) returns (w': World)
    requires HalfWay(w, a, b) && OtherWish(w.dc, other)
    ensures Leads(Current, w, w') && w'.op == Done(true) && WorkLeft(w'.dc, w'.live) && !w'.pending
  {
    hide Leads, WorkLeft;
    var w1 := EditBackAndForth(w, other, a, b);
    BothUpgradedAndTainted(w.dc, a, b);
    w' := SecondTaintIsForgotten(w1, SetReady(w.dc, a, Some(w.dc.Version())), Cordon(b));
    LeadsOn(Current, w, w1, w');
  }

  // ----- A list that is out of date -----

  /** One outdated node at rest. */
  predicate OneOutdated(w: World, n: Node) {
    && w.dc.WellFormed() && w.dc.Version() != "" && w.op.Done? && w.live == T.Alone(n)
    && Outdated(w.dc, n) && !Tainted(n) && w.dc.R(n) != Some(w.dc.Version())
  }

  /** Its upgrade: cordon and kickoff, KMM's report, uncordon. */
  function Asked(dc: DeviceConfig, n: Node): Node { Kickoff(dc, Cordon(n)) }

  function Reported(dc: DeviceConfig, n: Node): Node { SetReady(dc, Asked(dc, n), Some(dc.Version())) }

  lemma UpgradeOfOne(dc: DeviceConfig, n: Node)
    requires dc.WellFormed() && Outdated(dc, n) && dc.R(n) != Some(dc.Version())
    ensures var k := Asked(dc, n);
            k.name == n.name && dc.Targets(k) && dc.V(k) == Some(dc.Version()) && dc.R(k) != dc.V(k)
    ensures var r := Reported(dc, n);
            r.name == n.name && dc.Targets(r) && PhaseOf(dc, r) == Upgraded && Tainted(r)
    ensures var d := Uncordon(Reported(dc, n));
            d.name == n.name && dc.Targets(d) && PhaseOf(dc, d) == Upgraded && !Cordoned(d)
  {
    var k := Asked(dc, n);
    assert forall l | l != dc.versionLabel :: LabelOf(k, l) == LabelOf(n, l);
    TargetsDependsOnSelector(dc, k, n);
    SetReadyLabels(dc, k, Some(dc.Version()));
    assert UPGRADE_TAINT in Reported(dc, n).taints;
  }

  lemma ReachesAsked(d: Discipline, w: World, n: Node) returns (w': World)
    requires OneOutdated(w, n) && d.Frozen?
    ensures Leads(d, w, w') && w'.live == T.Alone(Asked(w.dc, n)) && w'.op.Done? && w'.dc == w.dc
  {
    hide Leads, Matches, PhaseOf, LabelOf, Tainted, IsNew, UpgradedPick, UpgradePick, OperateStep;
    hide Cordon, Kickoff, Prepare;
    T.AloneIsListed(w.dc, n);
    T.OutdatedIsPicked(w.dc, n);
    PassMakesTheTwoEdits(w, [n]);
    LeadsByPass(d, w, |w.past|, [n], Applied, Applied, Applied);
    w' := Passed(w, [n]);
    T.AloneCordoned(n);
    AloneReplaced(n, Cordon(n), w.dc);
  }

  lemma AloneReplaced(n: Node, m: Node, dc: DeviceConfig)
    requires m.name == n.name
    ensures Put(T.Alone(n), m) == T.Alone(m) && Put(T.Alone(n), Kickoff(dc, m)) == T.Alone(Kickoff(dc, m))
  {
  }

  lemma ReachesReported(d: Discipline, w: World, dc: DeviceConfig, n: Node) returns (w': World)
    requires d.Frozen? && dc.WellFormed() && Outdated(dc, n) && dc.R(n) != Some(dc.Version())
    requires w.live == T.Alone(Asked(dc, n)) && w.op.Done? && w.dc == dc
    ensures Leads(d, w, w') && w'.live == T.Alone(Reported(dc, n)) && w'.op.Done? && w'.dc == dc
  {
    UpgradeOfOne(dc, n);
    hide Leads, Matches, PhaseOf, LabelOf, Tainted, Outdated, Asked, Cordoned, Uncordon;
    var e := Kmm(n.name, Some(dc.Version()));
    LeadsByStep(d, w, e);
    w' := Do(w, e);
    AloneReplaced(Asked(dc, n), Reported(dc, n), dc);
  }

  lemma ReachesUpgraded(d: Discipline, w: World, r: Node) returns (w': World)
    requires d.Frozen? && w.dc.WellFormed() && w.dc.Version() != "" && w.live == T.Alone(r) && w.op.Done?
    requires w.dc.Targets(r) && PhaseOf(w.dc, r) == Upgraded && Tainted(r)
    ensures Leads(d, w, w') && w'.live == T.Alone(Uncordon(r)) && w'.op.Done? && w'.dc == w.dc
  {
    hide Leads, Matches, LabelOf, PhaseOf, Tainted, IsNew, OperateStep, Uncordon, UpgradedPick, UpgradePick, IsListing;
    T.AloneIsListed(w.dc, r);
    UpgradedIsPicked(w.dc, r);
    PassMakesTheTwoEdits(w, [r]);
    LeadsByPass(d, w, |w.past|, [r], Applied, Applied, Applied);
    w' := Passed(w, [r]);
    AloneReplaced(r, Uncordon(r), w.dc);
  }

  lemma UpgradedIsPicked(dc: DeviceConfig, r: Node)
    requires PhaseOf(dc, r) == Upgraded && Tainted(r)
    ensures UpgradedPick(dc, [r]) == Some(r) && UpgradePick(dc, [r]) == None && Uncordon(r).name == r.name
  {
    UpgradePickMeaning(dc, [r]);
  }

  lemma StalePassForgets(d: Discipline, w: World, at: nat, n: Node, m: Node) returns (w': World)
    requires d.Frozen? && w.dc.WellFormed() && w.dc.Version() != "" && w.op.Done?
    requires at <= |w.past| && w.Seen(at) == T.Alone(n) && Outdated(w.dc, n) && !Tainted(n)
    requires w.live == T.Alone(m) && m.name == n.name
    requires w.dc.Targets(m) && PhaseOf(w.dc, m) == Upgraded && !Cordoned(m)
    ensures Leads(d, w, w') && w'.op == Done(true) && WorkLeft(w'.dc, w'.live) && !w'.pending
  {
    assert !Cordoned(n);
    T.AloneIsListed(w.dc, n);
    T.OutdatedIsPicked(w.dc, n);
    hide Leads, Matches, LabelOf, PhaseOf, Tainted, Cordoned, IsNew, OperateStep, UpgradePick, UpgradedPick, IsListing;
    LeadsByPass(d, w, at, [n], Applied, Applied, Applied);
    w' := PassWith(w, at, [n], Applied, Applied, Applied);
    A.StaleCordonIsForgotten(w, at, [n]);
  }

  /** Current reads are needed too: after an ordinary upgrade of one node, a pass that reads the list of before it
      cordons the upgraded node, succeeds, and asks for nothing more. */
  lemma StaleReadForgetsATaint(rank: string -> real, w: World, n: Node) returns (w': World)
    requires OneOutdated(w, n)
    ensures Leads(Frozen(rank), w, w') && w'.op == Done(true) && WorkLeft(w'.dc, w'.live) && !w'.pending
  {
    UpgradeOfOne(w.dc, n);
    hide Leads, Matches, LabelOf, PhaseOf, Tainted, Cordoned, IsNew, Uncordon, Asked, Reported, WorkLeft, T.Alone;
    var d := Frozen(rank);
    var w1 := ReachesAsked(d, w, n);
    var w2 := ReachesReported(d, w1, w.dc, n);
    var w3 := ReachesUpgraded(d, w2, Reported(w.dc, n));
    LeadsOn(d, w, w1, w2);
    LeadsOn(d, w, w2, w3);
    LeadsKeepsPast(d, w, w3);
    assert w3.Seen(|w.past|) == w.live;
    w' := StalePassForgets(d, w3, |w.past|, n, Uncordon(Reported(w.dc, n)));
    LeadsOn(d, w, w3, w');
  }
}
