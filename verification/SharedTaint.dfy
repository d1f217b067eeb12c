/**
 Cordon before kickoff for two DeviceConfigs that share one taint key: kept while their targets are disjoint, and lost
 exactly when one uncordons the node the other is about to kick off.
 */
module SharedTaint {
  import opened Nodes
  import opened Upgrade
  import opened Filter
  import opened Protocol
  import opened Taints
  import opened Conservation
  import opened Pass
  import opened Interference

  /** The pass under way counts on the taint of the labelled node x: it holds x for kickoff, or listed it cordoned. */
  predicate Relies(w: World, x: string) {
    && x in w.live && !IsNew(w.dc, w.live[x])
    && match w.op
       case Done(_) => false
       case Kicking(_, held) => held.Some? && held.value.name == x
       case _ => var p := UpgradePick(w.op.dc, w.op.snap); p.Some? && p.value.name == x && Cordoned(p.value)
  }

  /** The node from which this event takes the upgrade taint: the first upgraded node that was listed with it, if the
      uncordon patch is not lost. */
  function Uncordons(w: World, e: Event): Option<string> {
    if e.Operate? && !e.outcome.Lost? && w.op.Listed? then
      var u := UpgradedPick(w.op.dc, w.op.snap);
      if u.Some? && Cordoned(u.value) then Some(u.value.name) else None
    else None
  }

  // ----- What one turn costs the other side -----

  lemma OnlyUncordonsUncordon(w: World, e: Event)
    requires w.dc.WellFormed() && OpIdentity(w) && Own(e) && Enabled(w, e) && Touched(w, e).Some?
    ensures var x := Touched(w, e).value;
            && x in w.live && x in Do(w, e).live
            && (Uncordons(w, e) == Some(x) ==> !Cordoned(Do(w, e).live[x]))
            && (Uncordons(w, e) != Some(x) && Cordoned(w.live[x]) ==> Cordoned(Do(w, e).live[x]))
  {
    var x := Touched(w, e).value;
    if e.Operate? {
      var n := w.live[x];
      PassWrites(w.dc, w.op, n);
      match w.op
      case Listed(d, snap) => UncordonPatch(d, snap, n);
      case Uncordoned(d, snap) =>
        CordonPatch(d, snap, n);
        assert UPGRADE_TAINT in Merge(n, Issue(w.op).value.patch).taints;
      case _ =>
    }
  }

  /** Somebody else's write of one node, seen from a safe pass. */
  lemma OutsideCosts(w: World, n: Node)
    requires CordonSafe(w) && n.name in w.live && w.dc.V(n) == w.dc.V(w.live[n.name])
    ensures CordonSafe(w.Store(n, Updated(w.live[n.name], n))) <==> !(Relies(w, n.name) && !Cordoned(n))
  {
    hide Cordoned, UpgradePick, UpgradedPick, Matches, Wakes;
  }

  /** One turn of a costs b its safety exactly when it uncordons a node b relies on. */
  lemma TurnCostsCordonExactly(p: Pair, e: Event)
    requires p.Shared() && p.a.dc.WellFormed() && OpIdentity(p.a) && CordonSafe(p.b) && Own(e) && Enabled(p.a, e)
    ensures CordonSafe(TakeFirst(p, e).b) <==> !(Uncordons(p.a, e).Some? && Relies(p.b, Uncordons(p.a, e).value))
  {
    TurnIsForeign(p, e);
    if Touched(p.a, e).Some? {
      var n := Do(p.a, e).live[Touched(p.a, e).value];
      OnlyUncordonsUncordon(p.a, e);
      OutsideCosts(p.b, n);
    }
  }

  // ----- Disjoint targets -----

  ghost predicate BothCordonSafe(p: Pair) {
    && p.Shared() && p.a.dc.WellFormed() && p.b.dc.WellFormed()
    && CordonSafe(p.a) && CordonSafe(p.b) && Separate(p)
  }

  lemma CordonSafeIdentity(w: World)
    requires CordonSafe(w)
    ensures OpIdentity(w)
  {
  }

  /** What a pass relies on and what it uncordons, it has read. */
  lemma ReliedOnAndUncordonedAreMentioned(w: World, e: Event, x: string)
    ensures Relies(w, x) || Uncordons(w, e) == Some(x) ==> Mentions(w.op, x)
  {
    if w.op.Listed? || w.op.Uncordoned? { PicksAreMentioned(w.op); }
  }

  lemma TurnKeepsCordonSafe(p: Pair, e: Event)
    requires BothCordonSafe(p) && Own(e) && Allowed(Watched, p.a, e)
    ensures BothCordonSafe(TakeFirst(p, e))
  {
    hide CordonSafe, Separate, Mentions, Relies, Uncordons, Matches, Wakes;
    CordonSafeIdentity(p.a);
    StepKeepsCordonSafe(p.a, e);
    TurnCostsCordonExactly(p, e);
    if Uncordons(p.a, e).Some? { NotReliedOn(p, e, Uncordons(p.a, e).value); }
    TurnIsOutside(p, e);
    TurnStaysSeparate(p, e);
    assert e.Edit? ==> e.config.Selector() == p.a.dc.Selector();
  }

  lemma NotReliedOn(p: Pair, e: Event, x: string)
    requires p.Shared() && Separate(p) && Uncordons(p.a, e) == Some(x)
    ensures !Relies(p.b, x)
  {
    ReliedOnAndUncordonedAreMentioned(p.a, e, x);
    ReliedOnAndUncordonedAreMentioned(p.b, e, x);
  }

  lemma {:induction false} GameKeepsCordonSafe(p: Pair, ts: seq<Turn>)
    requires BothCordonSafe(p) && IsGame(Watched, p, ts)
    ensures BothCordonSafe(Game(Watched, p, ts))
    decreases |ts|
  {
    hide CordonSafe, Separate, Matches, Wakes, TakeFirst;
    if ts != [] {
      match ts[0] {
        case First(e) => TurnKeepsCordonSafe(p, e);
        case Second(e) => TurnKeepsCordonSafeSwapped(p, e);
        case Both(e) => StepKeepsCordonSafe(p.a, e); StepKeepsCordonSafe(p.b, e);
      }
      GameKeepsCordonSafe(Take(Watched, p, ts[0]), ts[1..]);
    }
  }

  lemma TurnKeepsCordonSafeSwapped(p: Pair, e: Event)
    requires BothCordonSafe(p) && Own(e) && Allowed(Watched, p.b, e)
    ensures BothCordonSafe(TakeFirst(p.Swap(), e).Swap())
  {
    hide CordonSafe, Matches, TakeFirst;
    TurnKeepsCordonSafe(p.Swap(), e);
  }

  /** With disjoint targets, in every reachable state of any interleaving, neither side's next turn changes a version
      label of a labelled node that does not carry the taint. */
  lemma CordonBeforeKickoffSurvivesInterference(p: Pair, ts: seq<Turn>, t: Turn)
    requires BothCordonSafe(p) && IsGame(Watched, p, ts) && CanTake(Watched, Game(Watched, p, ts), t)
    ensures var q := Game(Watched, p, ts);
            match t
            case First(e) => KicksOffCordoned(q.a, e)
            case Second(e) => KicksOffCordoned(q.b, e)
            case Both(e) => KicksOffCordoned(q.a, e) && KicksOffCordoned(q.b, e)
  {
    GameKeepsCordonSafe(p, ts);
    var q := Game(Watched, p, ts);
    hide CordonSafe, KicksOffCordoned;
    if !t.Second? { SafeKicksOffCordoned(q.a, t.e); }
    if !t.First? { SafeKicksOffCordoned(q.b, t.e); }
  }

  // ----- Overlapping targets -----

  ghost predicate Reaches(p: Pair, q: Pair) { exists ts :: IsGame(Watched, p, ts) && Game(Watched, p, ts) == q }

  lemma ReachesItself(p: Pair)
    ensures Reaches(p, p)
  {
    assert IsGame(Watched, p, []) && Game(Watched, p, []) == p;
  }

  lemma ReachesByTurn(p: Pair, t: Turn, q: Pair)
    requires CanTake(Watched, p, t) && Reaches(Take(Watched, p, t), q)
    ensures Reaches(p, q)
  {
    var ts :| IsGame(Watched, Take(Watched, p, t), ts) && Game(Watched, Take(Watched, p, t), ts) == q;
    assert ([t] + ts)[1..] == ts;
    assert IsGame(Watched, p, [t] + ts) && Game(Watched, p, [t] + ts) == q;
  }

  function Alone(n: Node): Cluster { map[n.name := n] }

  /** Two DeviceConfigs at rest over one node both target: to a it is outdated, to b it is upgraded. */
  predicate Overlapping(p: Pair, n: Node) {
    && p.Shared() && p.a.dc.WellFormed() && p.b.dc.WellFormed() && p.a.live == Alone(n)
    && p.a.op.Done? && p.b.op.Done? && p.a.dc.Version() != "" && p.b.dc.Version() != ""
    && p.a.dc.Targets(n) && p.b.dc.Targets(n) && !Tainted(n)
    && PhaseOf(p.a.dc, n) == Before && !IsNew(p.a.dc, n) && PhaseOf(p.b.dc, n) == Upgraded
  }

  /** a holds the node it has cordoned for kickoff, and b is at rest. */
  predicate Holding(p: Pair, n: Node) {
    p.a.live == p.b.live == Alone(Cordon(n)) && p.a.op == Kicking(p.a.dc, Some(Cordon(n))) && p.b.op.Done?
  }

  /** a's pass up to its cordon patch. */
  lemma ReachesHolding(p: Pair, n: Node) returns (q: Pair)
    requires Overlapping(p, n)
    ensures Reaches(p, q) && Holding(q, n) && q.a.dc == p.a.dc && q.b.dc == p.b.dc
  {
    hide Reaches, IsListing, UpgradePick, UpgradedPick, Prepare, Cordon, Uncordon, Kickoff;
    hide Matches, LabelOf, PhaseOf, Tainted, Cordoned, IsNew, Diff, Merge, Wakes;
    var list := List(p.a.dc, |p.a.past|, [n]);
    AloneIsListed(p.a.dc, n);
    OutdatedIsPicked(p.a.dc, n);
    var p1 := TakeFirst(p, list);
    var p2 := TakeFirst(p1, Operate(Applied));
    FirstStep(p1.a);
    SecondStep(p2.a);
    q := TakeFirst(p2, Operate(Applied));
    AloneCordoned(n);
    ReachesItself(q);
    ReachesByTurn(p2, First(Operate(Applied)), q);
    ReachesByTurn(p1, First(Operate(Applied)), q);
    ReachesByTurn(p, First(list), q);
  }

  lemma AloneIsListed(dc: DeviceConfig, n: Node)
    requires dc.Targets(n)
    ensures IsListing(dc, Alone(n), [n])
  {
  }

  lemma AloneCordoned(n: Node)
    ensures Cordon(n).name == n.name && Put(Alone(n), Cordon(n)) == Alone(Cordon(n))
  {
  }

  lemma OutdatedIsPicked(dc: DeviceConfig, n: Node)
    requires PhaseOf(dc, n) == Before && !IsNew(dc, n) && !Tainted(n)
    ensures UpgradedPick(dc, [n]) == None && UpgradePick(dc, [n]) == Some(n) && Prepare(dc, n) == Cordon(n)
  {
    UpgradePickMeaning(dc, [n]);
  }

  lemma ReadyIsUncordoned(dc: DeviceConfig, n: Node)
    requires PhaseOf(dc, n) == Upgraded && !Tainted(n)
    ensures UpgradedPick(dc, [Cordon(n)]) == Some(Cordon(n)) && Uncordon(Cordon(n)) == n && Cordon(n).name == n.name
    ensures dc.Targets(Cordon(n)) == dc.Targets(n)
  {
    assert UPGRADE_TAINT in Cordon(n).taints;
    assert Tainted(Cordon(n)) && PhaseOf(dc, Cordon(n)) == Upgraded && dc.Targets(Cordon(n)) == dc.Targets(n);
    assert !Cordoned(n);
    hide Cordoned, Tainted, PhaseOf, Matches, LabelOf, Uncordon;
    UncordonUndoesCordon(n);
  }

  lemma AloneUncordoned(n: Node)
    ensures Put(Alone(Cordon(n)), n) == Alone(n)
  {
  }

  /** b's pass then takes the taint off the node a holds. */
  lemma ReachesUncordoned(p: Pair, n: Node) returns (q: Pair)
    requires p.Shared() && Holding(p, n) && p.b.dc.Version() != "" && p.b.dc.Targets(n)
    requires PhaseOf(p.b.dc, n) == Upgraded && !Tainted(n)
    ensures Reaches(p, q) && q.a.live == Alone(n) && q.a.op == p.a.op && q.a.dc == p.a.dc
  {
    hide Matches, LabelOf, PhaseOf, Diff, Merge, Wakes, Reaches, Cordon, Uncordon, Tainted;
    var list := List(p.b.dc, |p.b.past|, [Cordon(n)]);
    ReadyIsUncordoned(p.b.dc, n);
    AloneUncordoned(n);
    AloneIsListed(p.b.dc, Cordon(n));
    var p1 := TakeFirst(p.Swap(), list).Swap();
    FirstStep(p1.b);
    q := TakeFirst(p1.Swap(), Operate(Applied)).Swap();
    ReachesItself(q);
    ReachesByTurn(p1, Second(Operate(Applied)), q);
    ReachesByTurn(p, Second(list), q);
  }

  lemma {:induction false} Chained(p: Pair, q: Pair, r: Pair, ts: seq<Turn>)
    requires IsGame(Watched, p, ts) && Game(Watched, p, ts) == q && Reaches(q, r)
    ensures Reaches(p, r)
    decreases |ts|
  {
    hide Take, CanTake, Reaches;
    if ts != [] {
      Chained(Take(Watched, p, ts[0]), q, r, ts[1..]);
      ReachesByTurn(p, ts[0], r);
    }
  }

  lemma KickoffUncordoned(w: World, n: Node)
    requires w.dc.WellFormed() && w.live == Alone(n) && w.op == Kicking(w.dc, Some(Cordon(n)))
    requires PhaseOf(w.dc, n) == Before && !IsNew(w.dc, n) && !Tainted(n)
    ensures !KicksOffCordoned(w, Operate(Applied))
  {
    KickoffPatch(w.dc, Cordon(n), n);
    assert w.dc.V(Cordon(n)) == w.dc.V(n);
    assert !Cordoned(n);
    assert n.name in w.live && n.name in Do(w, Operate(Applied)).live;
  }

  /** Disjointness is needed: from rest over a node both target, a cordons it, b takes the taint off, and a's next
      patch kicks off a labelled node that is not cordoned. */
  lemma OverlapDefeatsCordon(p: Pair, n: Node) returns (q: Pair)
    requires Overlapping(p, n)
    ensures Reaches(p, q) && !KicksOffCordoned(q.a, Operate(Applied))
  {
    hide Reaches, KicksOffCordoned, Cordon, Matches, PhaseOf, Tainted;
    var r := ReachesHolding(p, n);
    q := ReachesUncordoned(r, n);
    ReachesOn(p, r, q);
    KickoffUncordoned(q.a, n);
  }

  lemma ReachesOn(p: Pair, q: Pair, r: Pair)
    requires Reaches(p, q) && Reaches(q, r)
    ensures Reaches(p, r)
  {
    var ts :| IsGame(Watched, p, ts) && Game(Watched, p, ts) == q;
    Chained(p, q, r, ts);
  }
}
