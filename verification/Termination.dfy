/**
 When the upgrade finishes: writing passes and KMM reports can only take so many steps, and when none is possible any
 more every targeted node is upgraded and untainted exactly if each was ready or loadable to begin with.
 */
module Termination {
  import opened Nodes
  import opened Upgrade
  import opened Protocol
  import opened Quiescence
  import opened Taints
  import opened Pass
  import opened Totals
  import K = KmmModule

  /** A writing pass over some listing of the current state, or KMM reporting that it loaded the version asked for. */
  datatype Move = Pass(snap: seq<Node>) | Ready(name: string)

  /** KMM serves only nodes for which the Module the operator keeps has a loader, that it selects and whose taints it
      tolerates. */
  ghost predicate Possible(m: K.Module, dc: DeviceConfig, c: Cluster, move: Move) {
    match move
    case Pass(snap) => IsListing(dc, c, snap) && WorkLeft(dc, c)
    case Ready(x) => InUpgradeNow(dc, c, x) && K.Loads(m, c[x])
  }

  /** KMM reports the version of the Module it loaded. */
  function Moved(m: K.Module, dc: DeviceConfig, c: Cluster, move: Move): Cluster
    requires move.Ready? ==> move.name in c && m.loader.Some?
  {
    match move
    case Pass(snap) => Edited(dc, c, snap)
    case Ready(x) => Put(c, SetReady(dc, c[x], Some(m.loader.value.version)))
  }

  /** Both moves are moves of the protocol. */
  lemma MovesAreSteps(m: K.Module, w: World, move: Move)
    requires w.dc.WellFormed() && w.op.Done? && Possible(m, w.dc, w.live, move)
    ensures move.Pass? ==> Enabled(w, List(w.dc, |w.past|, move.snap))
                           && Passed(w, move.snap).live == Moved(m, w.dc, w.live, move)
    ensures move.Ready? ==> Enabled(w, Kmm(move.name, Some(m.loader.value.version)))
                            && Do(w, Kmm(move.name, Some(m.loader.value.version))).live == Moved(m, w.dc, w.live, move)
  {
    if move.Pass? { PassMakesTheTwoEdits(w, move.snap); }
  }

  ghost predicate IsPlay(m: K.Module, dc: DeviceConfig, c: Cluster, moves: seq<Move>)
    decreases |moves|
  {
    moves == [] || (Possible(m, dc, c, moves[0]) && IsPlay(m, dc, Moved(m, dc, c, moves[0]), moves[1..]))
  }

  ghost function Played(m: K.Module, dc: DeviceConfig, c: Cluster, moves: seq<Move>): Cluster
    requires IsPlay(m, dc, c, moves)
    decreases |moves|
  {
    if moves == [] then c else Played(m, dc, Moved(m, dc, c, moves[0]), moves[1..])
  }

  // ----- Weights -----

  function Weight(dc: DeviceConfig, n: Node): nat {
    match PhaseOf(dc, n)
    case Before => 3
    case InUpgrade => 2
    case Upgraded => if Tainted(n) then 1 else 0
  }

  function Weights(dc: DeviceConfig): Node -> nat { n => Weight(dc, n) }

  // ----- What a play keeps -----

  /** names lists the targeted nodes, and every taint with the upgrade key has the effect the operator writes. */
  ghost predicate Playable(dc: DeviceConfig, c: Cluster, names: seq<string>) {
    && dc.WellFormed() && dc.Version() != "" && Distinct(names)
    && (forall x :: x in names <==> x in c && dc.Targets(c[x]))
    && (forall x | x in names :: Clean(c[x]))
  }

  /** One targeted node replaced by a lighter one. */
  lemma LighterPut(dc: DeviceConfig, c: Cluster, names: seq<string>, n: Node)
    requires Playable(dc, c, names) && n.name in names && dc.Targets(n)
    requires Clean(n) && Weight(dc, n) < Weight(dc, c[n.name])
    ensures Playable(dc, Put(c, n), names) && Total(Weights(dc), Put(c, n), names) < Total(Weights(dc), c, names)
  {
    TotalAfterPut(Weights(dc), c, n, names);
  }

  lemma KickoffIsLighter(dc: DeviceConfig, p: Node)
    requires dc.WellFormed() && PhaseOf(dc, p) == Before && Clean(p)
    ensures var n := Kickoff(dc, Prepare(dc, p));
            n.name == p.name && Weight(dc, n) < Weight(dc, p) && dc.Targets(n) == dc.Targets(p) && Clean(n)
  {
    var n := Kickoff(dc, Prepare(dc, p));
    assert forall k | k != dc.versionLabel :: LabelOf(n, k) == LabelOf(p, k);
  }

  lemma UncordonIsLighter(dc: DeviceConfig, c: Cluster, names: seq<string>, u: Node)
    requires Playable(dc, c, names) && ToUncordon(dc, c, u.name) && c[u.name] == u
    ensures var c' := Put(c, Uncordon(u));
            Playable(dc, c', names) && Total(Weights(dc), c', names) < Total(Weights(dc), c, names)
  {
    UncordonEffectiveExactlyWhenClean(u);
    LighterPut(dc, c, names, Uncordon(u));
  }

  lemma KickoffPutIsLighter(dc: DeviceConfig, c: Cluster, names: seq<string>, p: Node)
    requires Playable(dc, c, names) && ToUpgrade(dc, c, p.name) && c[p.name] == p
    ensures var c' := Put(c, Kickoff(dc, Prepare(dc, p)));
            Playable(dc, c', names) && Total(Weights(dc), c', names) < Total(Weights(dc), c, names)
  {
    KickoffIsLighter(dc, p);
    LighterPut(dc, c, names, Kickoff(dc, Prepare(dc, p)));
  }

  lemma PassIsLighter(dc: DeviceConfig, c: Cluster, names: seq<string>, snap: seq<Node>)
    requires Playable(dc, c, names) && IsListing(dc, c, snap) && WorkLeft(dc, c)
    ensures var c' := Edited(dc, c, snap);
            Playable(dc, c', names) && Total(Weights(dc), c', names) < Total(Weights(dc), c, names)
  {
    ListingDecides(dc, c, snap);
    ListingPicks(dc, c, snap);
    UpgradedPickMeaning(dc, snap);
    UpgradePickMeaning(dc, snap);
    var u, p := UpgradedPick(dc, snap), UpgradePick(dc, snap);
    if u.Some? { UncordonIsLighter(dc, c, names, u.value); }
    if p.Some? { KickoffPutIsLighter(dc, PutSome(c, UncordonEdit(dc, snap)), names, p.value); }
  }

  /** What KMM reports is the version asked for. */
  predicate Serves(m: K.Module, dc: DeviceConfig) { m.loader.Some? ==> m.loader.value.version == dc.Version() }

  lemma DesiredServes(rest: string, dc: DeviceConfig)
    ensures Serves(K.Desired(rest, dc), dc)
  {
    if !dc.driver.useInTree { K.LoaderServesKickoff(rest, dc, Node("", map[], [])); }
  }

  lemma ReadyIsLighter(m: K.Module, dc: DeviceConfig, c: Cluster, names: seq<string>, x: string)
    requires Playable(dc, c, names) && InUpgradeNow(dc, c, x) && m.loader.Some? && Serves(m, dc)
    ensures var c' := Moved(m, dc, c, Ready(x));
            Playable(dc, c', names) && Total(Weights(dc), c', names) < Total(Weights(dc), c, names)
  {
    var n := SetReady(dc, c[x], Some(dc.Version()));
    SetReadyLabels(dc, c[x], Some(dc.Version()));
    assert dc.R(n) == Some(dc.Version());
    LighterPut(dc, c, names, n);
  }

  lemma MoveIsLighter(m: K.Module, dc: DeviceConfig, c: Cluster, names: seq<string>, move: Move)
    requires Playable(dc, c, names) && Possible(m, dc, c, move) && Serves(m, dc)
    ensures var c' := Moved(m, dc, c, move);
            Playable(dc, c', names) && Total(Weights(dc), c', names) < Total(Weights(dc), c, names)
  {
    match move
    case Pass(snap) => PassIsLighter(dc, c, names, snap);
    case Ready(x) => ReadyIsLighter(m, dc, c, names, x);
  }

  /** Each move makes the cluster lighter, so that at most three moves per targeted node are possible. */
  lemma {:induction false} PlayIsBounded(
    m: K.Module, dc: DeviceConfig, c: Cluster, names: seq<string>, moves: seq<Move>)
    requires Playable(dc, c, names) && IsPlay(m, dc, c, moves) && Serves(m, dc)
    ensures var c' := Played(m, dc, c, moves);
            && Playable(dc, c', names)
            && |moves| + Total(Weights(dc), c', names) <= Total(Weights(dc), c, names) <= 3 * |names|
    decreases |moves|
  {
    hide Playable, Moved;
    TotalAtMost(Weights(dc), 3, c, names);
    if moves != [] {
      MoveIsLighter(m, dc, c, names, moves[0]);
      PlayIsBounded(m, dc, Moved(m, dc, c, moves[0]), names, moves[1..]);
    }
  }

  // ----- Which nodes can be brought to the wanted version -----

  /** It reports the wanted version already, or KMM can load it there. */
  predicate Fit(m: K.Module, dc: DeviceConfig, n: Node) { dc.R(n) == Some(dc.Version()) || K.Loads(m, n) }

  /** The operator and KMM write no label that the Module's selector mentions. */
  predicate SelectorStands(dc: DeviceConfig) {
    dc.WellFormed() && dc.versionLabel != K.GPU_LABEL && dc.readyLabel != K.GPU_LABEL
  }

  lemma KickoffKeepsFit(rest: string, dc: DeviceConfig, n: Node)
    requires SelectorStands(dc)
    ensures var m := K.Desired(rest, dc); Fit(m, dc, Kickoff(dc, Prepare(dc, n))) == Fit(m, dc, n)
  {
    var m, p := K.Desired(rest, dc), Prepare(dc, n);
    var k := Kickoff(dc, p);
    K.LoaderSurvivesCordon(rest, dc, n);
    K.LoaderSurvivesCordon(rest, dc, k);
    assert forall l | l != dc.versionLabel :: LabelOf(k, l) == LabelOf(n, l);
    assert Matches(m.selector, k) == Matches(m.selector, p);
  }

  lemma MoveKeepsFit(rest: string, dc: DeviceConfig, c: Cluster, move: Move, x: string)
    requires SelectorStands(dc) && Possible(K.Desired(rest, dc), dc, c, move) && x in c
    ensures var m := K.Desired(rest, dc);
            var c' := Moved(m, dc, c, move);
            x in c' && Fit(m, dc, c'[x]) == Fit(m, dc, c[x])
  {
    assert move.Ready? ==> K.Desired(rest, dc).loader.Some?;
    hide Matches, K.Loads, K.Desired, Kickoff, Prepare, Uncordon, Edited;
    match move
    case Ready(y) =>
      DesiredServes(rest, dc);
      SetReadyLabels(dc, c[y], Some(dc.Version()));
    case Pass(snap) =>
      EditedNode(dc, c, snap, x);
      KickoffKeepsFit(rest, dc, c[x]);
      assert dc.R(Uncordon(c[x])) == dc.R(c[x]) by { UncordonKeepsLabels(c[x]); }
  }

  lemma UncordonKeepsLabels(n: Node)
    ensures Uncordon(n).labels == n.labels
  {
  }

  lemma PutBothAt(c: Cluster, es: (Option<Node>, Option<Node>), x: string)
    requires x in c
    ensures var c' := PutBoth(c, es);
            && x in c'
            && c'[x] == if es.1.Some? && es.1.value.name == x then es.1.value
                        else if es.0.Some? && es.0.value.name == x then es.0.value else c[x]
  {
  }

  /** What a writing pass makes of a node. */
  lemma EditedNode(dc: DeviceConfig, c: Cluster, snap: seq<Node>, x: string)
    requires IsListing(dc, c, snap) && WorkLeft(dc, c) && x in c
    ensures var c' := Edited(dc, c, snap);
            && x in c'
            && (c'[x] == c[x]
                || (PhaseOf(dc, c[x]) == Upgraded && c'[x] == Uncordon(c[x]))
                || (PhaseOf(dc, c[x]) == Before && c'[x] == Kickoff(dc, Prepare(dc, c[x]))))
  {
    hide Matches, Tainted, UpgradedPick, UpgradePick, LabelOf;
    ListingPicks(dc, c, snap);
    UpgradedPickMeaning(dc, snap);
    UpgradePickMeaning(dc, snap);
    PutBothAt(c, Edits(dc, snap), x);
    hide PhaseOf, IsListing, WouldKickOff, PutBoth, PutSome;
    var u, p := UpgradedPick(dc, snap), UpgradePick(dc, snap);
    if p.Some? && x == p.value.name {
      assert c[x] == p.value;
    } else if u.Some? && x == u.value.name {
      assert c[x] == u.value;
    }
  }

  lemma {:induction false} PlayKeepsFit(rest: string, dc: DeviceConfig, c: Cluster, moves: seq<Move>, x: string)
    requires SelectorStands(dc) && IsPlay(K.Desired(rest, dc), dc, c, moves) && x in c
    ensures var m := K.Desired(rest, dc);
            var c' := Played(m, dc, c, moves);
            x in c' && Fit(m, dc, c'[x]) == Fit(m, dc, c[x])
    decreases |moves|
  {
    hide Fit, Moved;
    if moves != [] {
      MoveKeepsFit(rest, dc, c, moves[0], x);
      PlayKeepsFit(rest, dc, Moved(K.Desired(rest, dc), dc, c, moves[0]), moves[1..], x);
    }
  }

  // ----- When the upgrade finishes -----

  lemma ListingExists(dc: DeviceConfig, c: Cluster, todo: set<string>) returns (snap: seq<Node>)
    requires todo <= c.Keys
    ensures forall n | n in snap :: n.name in todo && c[n.name] == n && dc.Targets(n)
    ensures forall x | x in todo && dc.Targets(c[x]) :: c[x] in snap
    ensures forall i, j | 0 <= i < j < |snap| :: snap[i].name != snap[j].name
  {
    snap := [];
    if todo != {} {
      var x :| x in todo;
      snap := ListingExists(dc, c, todo - {x});
      if dc.Targets(c[x]) { snap := snap + [c[x]]; }
    }
  }

  predicate Finished(dc: DeviceConfig, n: Node) { PhaseOf(dc, n) == Upgraded && !Tainted(n) }

  /** While some targeted node is not finished and all are fit, a pass can write or KMM can load. */
  lemma SomeMoveIsPossible(m: K.Module, dc: DeviceConfig, c: Cluster, names: seq<string>, x: string)
    requires Playable(dc, c, names) && x in names && !Finished(dc, c[x])
    requires forall y | y in names :: Fit(m, dc, c[y])
    ensures exists move :: Possible(m, dc, c, move)
  {
    if y :| InUpgradeNow(dc, c, y) {
      assert Fit(m, dc, c[y]);
      assert Possible(m, dc, c, Ready(y));
    } else {
      assert !InUpgradeNow(dc, c, x);
      assert ToUpgrade(dc, c, x) || ToUncordon(dc, c, x);
      var snap := ListingExists(dc, c, c.Keys);
      assert Possible(m, dc, c, Pass(snap));
    }
  }

  ghost predicate AllFinished(dc: DeviceConfig, c: Cluster, names: seq<string>) {
    forall x | x in names :: x in c && Finished(dc, c[x])
  }

  ghost predicate AllFit(m: K.Module, dc: DeviceConfig, c: Cluster, names: seq<string>) {
    forall x | x in names :: x in c && Fit(m, dc, c[x])
  }

  /** Whatever the selector and whether the driver is in the tree: a play that cannot be prolonged has taken at most
      three moves per targeted node, and it has upgraded and uncordoned every one of them if and only if each was
      ready or loadable before it. */
  lemma UpgradeFinishesExactly(rest: string, dc: DeviceConfig, c: Cluster, names: seq<string>, moves: seq<Move>)
    requires SelectorStands(dc) && Playable(dc, c, names)
    requires var m := K.Desired(rest, dc);
             IsPlay(m, dc, c, moves) && !exists move :: Possible(m, dc, Played(m, dc, c, moves), move)
    ensures |moves| <= 3 * |names|
    ensures var m := K.Desired(rest, dc); AllFinished(dc, Played(m, dc, c, moves), names) <==> AllFit(m, dc, c, names)
  {
    hide Fit, Possible, Finished;
    var m := K.Desired(rest, dc);
    var c' := Played(m, dc, c, moves);
    DesiredServes(rest, dc);
    PlayIsBounded(m, dc, c, names, moves);
    forall x | x in names ensures Fit(m, dc, c'[x]) == Fit(m, dc, c[x]) {
      PlayKeepsFit(rest, dc, c, moves, x);
    }
    if AllFit(m, dc, c, names) {
      forall x | x in names ensures Finished(dc, c'[x]) {
        if !Finished(dc, c'[x]) { SomeMoveIsPossible(m, dc, c', names, x); }
      }
    }
    if AllFinished(dc, c', names) {
      forall x | x in names ensures Fit(m, dc, c'[x]) { FinishedIsFit(m, dc, c'[x]); }
    }
  }

  lemma FinishedIsFit(m: K.Module, dc: DeviceConfig, n: Node)
    requires Finished(dc, n)
    ensures Fit(m, dc, n)
  {
  }

  // ----- When it stalls -----

  lemma {:induction false} UnfitStaysInUpgrade(m: K.Module, dc: DeviceConfig, c: Cluster, moves: seq<Move>, x: string)
    requires IsPlay(m, dc, c, moves) && InUpgradeNow(dc, c, x) && !Fit(m, dc, c[x])
    ensures var c' := Played(m, dc, c, moves); x in c' && c'[x] == c[x]
    decreases |moves|
  {
    if moves != [] {
      UnfitIsNotMoved(m, dc, c, moves[0], x);
      UnfitStaysInUpgrade(m, dc, Moved(m, dc, c, moves[0]), moves[1..], x);
    }
  }

  lemma UnfitIsNotMoved(m: K.Module, dc: DeviceConfig, c: Cluster, move: Move, x: string)
    requires Possible(m, dc, c, move) && InUpgradeNow(dc, c, x) && !Fit(m, dc, c[x])
    ensures var c' := Moved(m, dc, c, move); x in c' && c'[x] == c[x]
  {
    if move.Pass? { EditedNode(dc, c, move.snap, x); }
  }

  /** A pass that picks an unfit node puts it in upgrade for good: whatever moves follow, it stays there and no
      other node is kicked off. */
  lemma UnfitPickStalls(rest: string, dc: DeviceConfig, c: Cluster, snap: seq<Node>, moves: seq<Move>)
    requires SelectorStands(dc) && dc.Version() != "" && IsListing(dc, c, snap) && UpgradePick(dc, snap).Some?
    requires var m := K.Desired(rest, dc);
             !Fit(m, dc, UpgradePick(dc, snap).value) && IsPlay(m, dc, Edited(dc, c, snap), moves)
    ensures var c' := Played(K.Desired(rest, dc), dc, Edited(dc, c, snap), moves);
            InUpgradeNow(dc, c', UpgradePick(dc, snap).value.name) && !WouldKickOff(dc, c')
  {
    var m, p, c1 := K.Desired(rest, dc), UpgradePick(dc, snap).value, Edited(dc, c, snap);
    UpgradePickMeaning(dc, snap);
    KickoffKeepsFit(rest, dc, p);
    KickoffPhase(dc, p);
    assert c1[p.name] == Kickoff(dc, Prepare(dc, p));
    hide Fit, Matches;
    UnfitStaysInUpgrade(m, dc, c1, moves, p.name);
  }

  lemma KickoffPhase(dc: DeviceConfig, p: Node)
    requires dc.WellFormed() && dc.R(p) != Some(dc.Version())
    ensures var n := Kickoff(dc, Prepare(dc, p)); PhaseOf(dc, n) == InUpgrade && dc.Targets(n) == dc.Targets(p)
  {
    var n := Kickoff(dc, Prepare(dc, p));
    assert forall k | k != dc.versionLabel :: LabelOf(n, k) == LabelOf(p, k);
  }

  /** What makes a node unfit: under an in-tree driver or a nil selector, nodes that are targeted all the same. */
  lemma UnfitNodes(rest: string, dc: DeviceConfig, n: Node)
    requires dc.R(n) != Some(dc.Version())
    ensures dc.driver.useInTree ==> !Fit(K.Desired(rest, dc), dc, n)
    ensures dc.selector.None? && LabelOf(n, K.GPU_LABEL) != Some("true") ==>
              dc.Targets(n) && !Fit(K.Desired(rest, dc), dc, n)
    ensures !dc.driver.useInTree && Matches(K.NodeSelector(dc), n) ==>
              (Fit(K.Desired(rest, dc), dc, n) <==> forall t | t in n.taints :: K.Admits(K.Desired(rest, dc), t))
  {
    assert dc.selector.None? ==> K.GPU_LABEL in K.NodeSelector(dc);
  }
}
