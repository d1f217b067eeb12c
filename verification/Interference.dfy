/**
 Two DeviceConfigs over one cluster, each with its own pass, interleaved step by step.
 */
module Interference {
  import opened Nodes
  import opened Upgrade
  import opened Filter
  import opened Protocol
  import opened InFlight
  import opened OneTaint
  import opened Conservation
  import opened Pass

  /** Distinct label names, and no selector that mentions the other's. */
  predicate Apart(a: DeviceConfig, b: DeviceConfig) {
    && {a.versionLabel, a.readyLabel} !! {b.versionLabel, b.readyLabel}
    && {a.versionLabel, a.readyLabel} !! b.Selector().Keys
    && {b.versionLabel, b.readyLabel} !! a.Selector().Keys
  }

  /** Each world sees the one live cluster with the eyes of its own DeviceConfig. */
  datatype Pair = Pair(a: World, b: World) {
    predicate Shared() { a.live == b.live && Apart(a.dc, b.dc) }

    function Swap(): Pair { Pair(b, a) }
  }

  /** A turn of one DeviceConfig's pass, its KMM or its editor, or an event that concerns both. */
  datatype Turn = First(e: Event) | Second(e: Event) | Both(e: Event)

  predicate Own(e: Event) { !e.Join? && !e.Outside? && !e.Remove? }

  /** The node an own event writes to. */
  function Touched(w: World, e: Event): Option<string> {
    match e
    case Operate(o) =>
      var r := Issue(w.op);
      if r.Some? && r.value.name in w.live && !o.Lost? then Some(r.value.name) else None
    case Kmm(x, _) => if x in w.live then Some(x) else None
    case _ => None
  }

  /** The other side finds the node written. */
  function Follow(w: World, c: Cluster, x: Option<string>): World {
    if x.None? || x.value !in c || x.value !in w.live then w
    else w.Store(c[x.value], Updated(w.live[x.value], c[x.value]))
  }

  predicate Allowed(d: Discipline, w: World, e: Event) { Enabled(w, e) && Obeys(d, w, e) }

  function TakeFirst(p: Pair, e: Event): Pair
    requires Enabled(p.a, e)
  {
    var a := Do(p.a, e);
    Pair(a, Follow(p.b, a.live, Touched(p.a, e)))
  }

  predicate CanTake(d: Discipline, p: Pair, t: Turn) {
    match t
    case First(e) => Own(e) && Allowed(d, p.a, e)
    case Second(e) => Own(e) && Allowed(d, p.b, e)
    case Both(e) =>
      && !Own(e) && Allowed(d, p.a, e) && Allowed(d, p.b, e)
      && (d.Steady? || d.Watched? ==> Separate(Pair(Do(p.a, e), Do(p.b, e))))
  }

  function Take(d: Discipline, p: Pair, t: Turn): Pair
    requires CanTake(d, p, t)
  {
    match t
    case First(e) => TakeFirst(p, e)
    case Second(e) => TakeFirst(p.Swap(), e).Swap()
    case Both(e) => Pair(Do(p.a, e), Do(p.b, e))
  }

  predicate IsGame(d: Discipline, p: Pair, ts: seq<Turn>)
    decreases |ts|
  {
    ts == [] || (CanTake(d, p, ts[0]) && IsGame(d, Take(d, p, ts[0]), ts[1..]))
  }

  function Game(d: Discipline, p: Pair, ts: seq<Turn>): Pair
    requires IsGame(d, p, ts)
    decreases |ts|
  {
    if ts == [] then p else Game(d, Take(d, p, ts[0]), ts[1..])
  }

  /** No node is targeted by both, and none that a pass has read is targeted or was read by the other. */
  predicate Separate(p: Pair) {
    && (forall x | x in p.a.live :: !(p.a.dc.Targets(p.a.live[x]) && p.b.dc.Targets(p.a.live[x])))
    && (forall x | x in p.a.live && Mentions(p.a.op, x) :: !p.b.dc.Targets(p.a.live[x]))
    && (forall x | x in p.a.live && Mentions(p.b.op, x) :: !p.a.dc.Targets(p.a.live[x]))
    && (forall x | x in p.a.live && Mentions(p.b.op, x) :: !Mentions(p.a.op, x))
  }

  // ----- What one side's turn is to the other -----

  /** The written node differs from the old one in nothing the other DeviceConfig looks at, taints apart. */
  lemma TurnIsForeign(p: Pair, e: Event)
    requires p.Shared() && p.a.dc.WellFormed() && OpIdentity(p.a) && Own(e) && Enabled(p.a, e)
    ensures var x, c' := Touched(p.a, e), Do(p.a, e).live;
            && (x.None? ==> c' == p.a.live)
            && (x.Some? ==> x.value in p.a.live && x.value in c' && c' == Put(p.a.live, c'[x.value])
                            && p.b.dc.V(c'[x.value]) == p.b.dc.V(p.b.live[x.value])
                            && p.b.dc.R(c'[x.value]) == p.b.dc.R(p.b.live[x.value])
                            && p.b.dc.Targets(c'[x.value]) == p.b.dc.Targets(p.b.live[x.value])
                            && p.a.dc.Targets(c'[x.value]) == p.a.dc.Targets(p.a.live[x.value]))
  {
    hide Wakes, PhaseOf, Matches, UpgradePick, UpgradedPick, Diff, Kickoff, Uncordon, Cordon, Tainted, Cordoned, IsNew;
    var x := Touched(p.a, e);
    if x.Some? {
      var n, m := p.a.live[x.value], Do(p.a, e).live[x.value];
      if e.Kmm? {
        SetReadyLabels(p.a.dc, n, e.ready);
      } else {
        PassWrites(p.a.dc, p.a.op, n);
        if p.a.op.Kicking? { KickoffPatch(p.a.op.dc, p.a.op.held.value, n); }
      }
      assert forall k | k != p.a.dc.versionLabel && k != p.a.dc.readyLabel :: LabelOf(m, k) == LabelOf(n, k);
      TargetsDependsOnSelector(p.b.dc, n, m);
    }
  }

  /** So the other side takes it as somebody else's edit. */
  lemma TurnIsOutside(p: Pair, e: Event)
    requires p.Shared() && p.a.dc.WellFormed() && OpIdentity(p.a) && Own(e) && Enabled(p.a, e)
    ensures var x, p' := Touched(p.a, e), TakeFirst(p, e);
            && p'.a.live == p'.b.live
            && (x.None? ==> p'.b == p.b)
            && (x.Some? ==> x.value in p'.a.live && Enabled(p.b, Outside(p'.a.live[x.value]))
                            && p'.b == Do(p.b, Outside(p'.a.live[x.value])))
  {
    TurnIsForeign(p, e);
  }

  // ----- In flight, with selectors that may overlap -----

  ghost predicate BothSafe(p: Pair) { p.Shared() && Safe(p.a) && Safe(p.b) }

  lemma TurnKeepsSafe(p: Pair, e: Event)
    requires BothSafe(p) && Own(e) && Allowed(Current, p.a, e)
    ensures BothSafe(TakeFirst(p, e))
  {
    hide Merge, Moving;
    TurnIsOutside(p, e);
    StepKeepsSafe(p.a, e);
    var x := Touched(p.a, e);
    if x.Some? { StepKeepsSafe(p.b, Outside(Do(p.a, e).live[x.value])); }
    assert e.Edit? ==> e.config.Selector() == p.a.dc.Selector();
  }

  /** Each DeviceConfig's bound on nodes in flight is kept by every step of the other. */
  lemma {:induction false} InFlightBoundsSurviveInterference(p: Pair, ts: seq<Turn>)
    requires BothSafe(p) && IsGame(Current, p, ts)
    ensures BothSafe(Game(Current, p, ts))
    decreases |ts|
  {
    if ts != [] {
      match ts[0] {
        case First(e) => TurnKeepsSafe(p, e);
        case Second(e) => TurnKeepsSafe(p.Swap(), e);
        case Both(e) => StepKeepsSafe(p.a, e); StepKeepsSafe(p.b, e);
      }
      InFlightBoundsSurviveInterference(Take(Current, p, ts[0]), ts[1..]);
    }
  }

  // ----- Taints, with disjoint targets -----

  ghost predicate BothOrdered(rank: string -> real, p: Pair) {
    p.Shared() && Ordered(rank, p.a) && Ordered(rank, p.b) && Separate(p)
  }

  lemma TurnStaysOrdered(rank: string -> real, p: Pair, e: Event)
    requires Injective(rank) && BothOrdered(rank, p) && Own(e) && Allowed(Steady(rank), p.a, e)
    ensures var p' := TakeFirst(p, e); p'.Shared() && Ordered(rank, p'.a) && Ordered(rank, p'.b)
  {
    hide Wakes, Matches, Issue, Merge, TaintOrder, OpOrder, Separate, Mentions;
    OrderedIdentity(rank, p.a);
    TurnIsOutside(p, e);
    StepKeepsOrder(rank, p.a, e);
    if Touched(p.a, e).Some? {
      TurnIsSteady(rank, p, e);
      StepKeepsOrder(rank, p.b, Outside(Do(p.a, e).live[Touched(p.a, e).value]));
    }
    assert e.Edit? ==> e.config.Selector() == p.a.dc.Selector();
  }

  /** A write to a node of the other side is KMM's, and leaves the taints alone. */
  lemma TurnIsSteady(rank: string -> real, p: Pair, e: Event)
    requires BothOrdered(rank, p) && Own(e) && Allowed(Steady(rank), p.a, e) && Touched(p.a, e).Some?
    requires var x := Touched(p.a, e).value; x in Do(p.a, e).live && Enabled(p.b, Outside(Do(p.a, e).live[x]))
    ensures Obeys(Steady(rank), p.b, Outside(Do(p.a, e).live[Touched(p.a, e).value]))
  {
    hide Wakes, Matches, Issue, Merge, LabelOf, OpOrder, Clean, Tainted;
    OrderedIdentity(rank, p.a);
    TurnIsForeign(p, e);
    if e.Operate? {
      IssuedNodesAreMentioned(p.a.op);
    } else {
      SameTaintsSameMarks(p.b.live[Touched(p.a, e).value], Do(p.a, e).live[Touched(p.a, e).value]);
    }
  }

  lemma SameTaintsSameMarks(m: Node, n: Node)
    requires m.taints == n.taints
    ensures Tainted(m) == Tainted(n) && Clean(m) == Clean(n)
  {
  }

  lemma IssuedNodesAreMentioned(op: Op)
    ensures Issue(op).Some? ==> Mentions(op, Issue(op).value.name)
  {
    if op.Listed? || op.Uncordoned? { PicksAreMentioned(op); }
  }

  /** A pass comes to read only targeted nodes, and later no others. */
  lemma PassReadsTargets(w: World, e: Event, x: string)
    requires Own(e) && Enabled(w, e) && Mentions(Do(w, e).op, x)
    requires e.List? ==> e.at == |w.past|
    ensures Mentions(w.op, x) || (x in w.live && w.dc.Targets(w.live[x]))
  {
    if e.Operate? && (w.op.Listed? || w.op.Uncordoned?) { PicksAreMentioned(w.op); }
  }

  lemma TurnStaysSeparate(p: Pair, e: Event)
    requires p.Shared() && p.a.dc.WellFormed() && OpIdentity(p.a) && Separate(p)
    requires Own(e) && Enabled(p.a, e) && (e.List? ==> e.at == |p.a.past|)
    ensures Separate(TakeFirst(p, e))
  {
    hide Matches, Wakes, OperateStep, Mentions, Merge;
    TurnIsOutside(p, e);
    TurnIsForeign(p, e);
    var p' := TakeFirst(p, e);
    SameTargetsAfter(p, e);
    assert p'.b.op == p.b.op;
    forall x | x in p'.a.live && Mentions(p'.a.op, x)
      ensures !p'.b.dc.Targets(p'.a.live[x]) && !Mentions(p.b.op, x)
    {
      PassReadsTargets(p.a, e, x);
    }
  }

  lemma SameTargetsAfter(p: Pair, e: Event)
    requires p.Shared() && p.a.dc.WellFormed() && OpIdentity(p.a) && Own(e) && Enabled(p.a, e)
    ensures var p' := TakeFirst(p, e);
            p'.a.live.Keys == p.a.live.Keys
            && forall x | x in p'.a.live :: p'.a.dc.Targets(p'.a.live[x]) == p.a.dc.Targets(p.a.live[x])
                                           && p'.b.dc.Targets(p'.a.live[x]) == p.b.dc.Targets(p.a.live[x])
  {
    hide Wakes, Matches, Issue;
    TurnIsForeign(p, e);
  }

  lemma TurnKeepsOrder(rank: string -> real, p: Pair, e: Event)
    requires Injective(rank) && BothOrdered(rank, p) && Own(e) && Allowed(Steady(rank), p.a, e)
    ensures BothOrdered(rank, TakeFirst(p, e))
  {
    hide TaintOrder, OpOrder, Matches, TakeFirst;
    OrderedIdentity(rank, p.a);
    TurnStaysOrdered(rank, p, e);
    TurnStaysSeparate(p, e);
  }

  lemma OrderedIdentity(rank: string -> real, w: World)
    requires Ordered(rank, w)
    ensures w.dc.WellFormed() && OpIdentity(w)
  {
  }

  lemma TurnKeepsBothOrdered(rank: string -> real, p: Pair, t: Turn)
    requires Injective(rank) && BothOrdered(rank, p) && CanTake(Steady(rank), p, t)
    ensures BothOrdered(rank, Take(Steady(rank), p, t))
  {
    hide Injective, Ordered, TakeFirst, Wakes;
    match t
    case First(e) => TurnKeepsOrder(rank, p, e);
    case Second(e) => TurnKeepsOrder(rank, p.Swap(), e);
    case Both(e) =>
      StepKeepsOrder(rank, p.a, e);
      StepKeepsOrder(rank, p.b, e);
  }

  /** With disjoint targets each DeviceConfig keeps its own bound on tainted nodes although both use one taint key. */
  lemma {:induction false} TaintBoundsSurviveInterference(rank: string -> real, p: Pair, ts: seq<Turn>)
    requires Injective(rank) && BothOrdered(rank, p) && IsGame(Steady(rank), p, ts)
    ensures BothOrdered(rank, Game(Steady(rank), p, ts))
    decreases |ts|
  {
    hide Injective, BothOrdered, Take, CanTake;
    if ts != [] {
      TurnKeepsBothOrdered(rank, p, ts[0]);
      TaintBoundsSurviveInterference(rank, Take(Steady(rank), p, ts[0]), ts[1..]);
    }
  }

  // ----- Whole passes -----

  predicate DisjointOn(a: DeviceConfig, b: DeviceConfig, c: Cluster) {
    forall x | x in c :: !(a.Targets(c[x]) && b.Targets(c[x]))
  }

  /** The edits of a's pass keep the label values b's selector asks about. */
  lemma EditKeepsOthersSelection(a: DeviceConfig, b: DeviceConfig, n: Node)
    requires Apart(a, b)
    ensures b.Targets(Uncordon(n)) == b.Targets(n) && b.Targets(Kickoff(a, Prepare(a, n))) == b.Targets(n)
  {
    var m := Kickoff(a, Prepare(a, n));
    assert forall k | k != a.versionLabel :: LabelOf(m, k) == LabelOf(n, k);
    TargetsDependsOnSelector(b, n, m);
    TargetsDependsOnSelector(b, n, Uncordon(n));
  }

  /** An edit of a node that a targets and b does not select afterwards either. */
  predicate LocalEdit(a: DeviceConfig, b: DeviceConfig, c: Cluster, e: Option<Node>) {
    e.Some? ==> e.value.name in c && a.Targets(c[e.value.name]) && b.Targets(e.value) == b.Targets(c[e.value.name])
  }

  lemma PassEditsAreLocal(a: DeviceConfig, b: DeviceConfig, c: Cluster, sa: seq<Node>)
    requires Apart(a, b) && IsListing(a, c, sa)
    ensures LocalEdit(a, b, c, Edits(a, sa).0) && LocalEdit(a, b, c, Edits(a, sa).1)
  {
    UpgradedPickMeaning(a, sa);
    UpgradePickMeaning(a, sa);
    var u, p := UpgradedPick(a, sa), UpgradePick(a, sa);
    if u.Some? { EditKeepsOthersSelection(a, b, u.value); }
    if p.Some? { EditKeepsOthersSelection(a, b, p.value); }
  }

  lemma LocalEditsLeaveOthersAlone(a: DeviceConfig, b: DeviceConfig, c: Cluster, es: (Option<Node>, Option<Node>))
    requires DisjointOn(a, b, c) && LocalEdit(a, b, c, es.0) && LocalEdit(a, b, c, es.1)
    ensures var c' := PutBoth(c, es);
            && c'.Keys == c.Keys
            && forall x | x in c :: if b.Targets(c[x]) then c'[x] == c[x] else !b.Targets(c'[x])
  {
  }

  predicate NamesDiffer(e: Option<Node>, f: Option<Node>) { e.Some? && f.Some? ==> e.value.name != f.value.name }

  lemma TwoPutsCommute(c: Cluster, e: Option<Node>, f: Option<Node>)
    requires NamesDiffer(e, f)
    ensures PutSome(PutSome(c, e), f) == PutSome(PutSome(c, f), e)
  {
    hide Matches, LabelOf, PhaseOf;
  }

  lemma PutsCommute(c: Cluster, es: (Option<Node>, Option<Node>), fs: (Option<Node>, Option<Node>))
    requires NamesDiffer(es.0, fs.0) && NamesDiffer(es.0, fs.1) && NamesDiffer(es.1, fs.0) && NamesDiffer(es.1, fs.1)
    ensures PutBoth(PutBoth(c, es), fs) == PutBoth(PutBoth(c, fs), es)
  {
    TwoPutsCommute(PutSome(c, es.0), es.1, fs.0);
    TwoPutsCommute(c, es.0, fs.0);
    TwoPutsCommute(PutSome(PutSome(c, fs.0), es.0), es.1, fs.1);
    TwoPutsCommute(PutSome(c, fs.0), es.0, fs.1);
  }

  lemma ListingSurvives(b: DeviceConfig, c: Cluster, c': Cluster, sb: seq<Node>)
    requires IsListing(b, c, sb) && c'.Keys == c.Keys
    requires forall x | x in c :: if b.Targets(c[x]) then c'[x] == c[x] else !b.Targets(c'[x])
    ensures IsListing(b, c', sb)
  {
  }

  /** With disjoint targets, two whole passes over one state do the same in either order, and neither sees the
      other. */
  lemma PassesCommute(a: DeviceConfig, b: DeviceConfig, c: Cluster, sa: seq<Node>, sb: seq<Node>)
    requires Apart(a, b) && DisjointOn(a, b, c) && IsListing(a, c, sa) && IsListing(b, c, sb)
    ensures IsListing(b, Edited(a, c, sa), sb) && IsListing(a, Edited(b, c, sb), sa)
    ensures Edited(b, Edited(a, c, sa), sb) == Edited(a, Edited(b, c, sb), sa)
  {
    var es, fs := Edits(a, sa), Edits(b, sb);
    PassEditsAreLocal(a, b, c, sa);
    PassEditsAreLocal(b, a, c, sb);
    LocalEditsLeaveOthersAlone(a, b, c, es);
    LocalEditsLeaveOthersAlone(b, a, c, fs);
    ListingSurvives(b, c, PutBoth(c, es), sb);
    ListingSurvives(a, c, PutBoth(c, fs), sa);
    PutsCommute(c, es, fs);
  }
}
