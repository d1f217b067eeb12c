/**
 The rolling upgrade as a state machine: one operator worker, whose pass reads a node list and then sends one patch
 at a time, interleaved with KMM, node joins and removals, other writers, spec edits and operator restarts.
 */
module Protocol {
  import opened Nodes
  import opened Upgrade
  import opened Filter

  datatype Event =
    // a pass that was given this DeviceConfig lists the nodes, as of now or of an earlier state
    | List(read: DeviceConfig, at: nat, snap: seq<Node>)
    | Operate(outcome: Outcome)                // the pass takes its next step
    | Restart                                  // the operator stops and starts again
    | Kmm(name: string, ready: Option<string>) // KMM writes or removes the ready label
    | Join(node: Node)
    | Outside(node: Node)                      // someone else edits the node of that name
    | Remove(name: string)
    | Edit(config: DeviceConfig)

  /** pending says whether a request for the DeviceConfig waits in the work queue; past holds all earlier live
      states. */
  datatype World = World(live: Cluster, past: seq<Cluster>, dc: DeviceConfig, op: Op, pending: bool)
  {
    function Seen(at: nat): Cluster
      requires at <= |past|
    {
      if at == |past| then live else past[at]
    }

    function Store(n: Node, e: NodeEvent): World {
      this.(live := live[n.name := n], past := past + [live], pending := pending || Wakes(dc, e))
    }
  }

  /** A node is in flight while the version asked of it is not the version it reports ready. */
  predicate Moving(dc: DeviceConfig, n: Node) { dc.V(n).Some? && dc.R(n) != dc.V(n) }

  predicate ToUpgrade(dc: DeviceConfig, c: Cluster, x: string) {
    x in c && dc.Targets(c[x]) && PhaseOf(dc, c[x]) == Before
  }

  predicate InUpgradeNow(dc: DeviceConfig, c: Cluster, x: string) {
    x in c && dc.Targets(c[x]) && PhaseOf(dc, c[x]) == InUpgrade
  }

  predicate ToUncordon(dc: DeviceConfig, c: Cluster, x: string) {
    x in c && dc.Targets(c[x]) && PhaseOf(dc, c[x]) == Upgraded && Tainted(c[x])
  }

  function SetReady(dc: DeviceConfig, n: Node, ready: Option<string>): Node {
    n.(labels := if ready.Some? then n.labels[dc.readyLabel := ready.value] else n.labels - {dc.readyLabel})
  }

  /** snap lists, in some order, exactly the targeted nodes of c. */
  predicate IsListing(dc: DeviceConfig, c: Cluster, snap: seq<Node>) {
    && (forall n | n in snap :: n.name in c && c[n.name] == n && dc.Targets(n))
    && (forall x | x in c && dc.Targets(c[x]) :: c[x] in snap)
    && (forall i, j | 0 <= i < j < |snap| :: snap[i].name != snap[j].name)
  }

  /** What KMM and the users do and do not do: KMM leaves the ready label of a node alone once it equals the version
      label; a node joins without a version label; nobody but the operator writes the version label and nobody but KMM
      the ready label. */
  predicate Enabled(w: World, e: Event) {
    match e
    case List(d, at, snap) => w.op.Done? && w.dc.SameIdentity(d) && at <= |w.past| && IsListing(w.dc, w.Seen(at), snap)
    case Operate(_) => true
    case Restart => true
    case Kmm(x, _) => x in w.live && (IsNew(w.dc, w.live[x]) || w.dc.R(w.live[x]) != w.dc.V(w.live[x]))
    case Join(n) => n.name !in w.live && IsNew(w.dc, n)
    case Outside(n) =>
      && n.name in w.live
      && w.dc.V(n) == w.dc.V(w.live[n.name]) && w.dc.R(n) == w.dc.R(w.live[n.name])
    case Remove(x) => x in w.live
    case Edit(d) => w.dc.SameIdentity(d)
  }

  function OperateStep(w: World, o: Outcome): World {
    var r := Issue(w.op);
    if r.None? then w.(op := Advance(w.op, None))
    else
      var x := r.value.name;
      if x !in w.live || o.Lost? then w.(op := Done(false), pending := true)
      else
        var n := Merge(w.live[x], r.value.patch);
        var w' := w.Store(n, Updated(w.live[x], n));
        var op' := Advance(w.op, if o.Applied? then Some(n) else None);
        w'.(op := op', pending := w'.pending || op' == Done(false))
  }

  /** A failed pass is requeued, a restart lists everything anew, and starting a pass takes the request off the queue,
      unless the DeviceConfig was edited after the pass was given it. */
  function Do(w: World, e: Event): World
    requires Enabled(w, e)
  {
    match e
    case List(d, _, snap) => w.(op := Begin(d, snap), pending := d != w.dc)
    case Operate(o) => OperateStep(w, o)
    case Restart => w.(op := Done(false), pending := true)
    case Kmm(x, ready) =>
      var n := SetReady(w.dc, w.live[x], ready);
      w.Store(n, Updated(w.live[x], n))
    case Join(n) => w.Store(n, Created(n))
    case Outside(n) => w.Store(n, Updated(w.live[n.name], n))
    case Remove(x) =>
      w.(live := w.live - {x}, past := w.past + [w.live], pending := w.pending || Wakes(w.dc, Deleted(w.live[x])))
    case Edit(d) => w.(dc := d, pending := true)
  }

  // ----- Runs -----

  predicate SortedBy(rank: string -> real, snap: seq<Node>) {
    forall i, j | 0 <= i < j < |snap| :: rank(snap[i].name) < rank(snap[j].name)
  }

  /** No two names share a place in the order. Reals leave room for a joining node between any two others. */
  ghost predicate Injective(rank: string -> real) {
    forall a, b | rank(a) == rank(b) :: a == b
  }

  /** The same wish, as far as the upgrade is concerned. */
  predicate Agree(a: DeviceConfig, b: DeviceConfig) { a.SameIdentity(b) && a.Version() == b.Version() }

  /** The pass under way read a node of this name. */
  predicate Mentions(op: Op, name: string) {
    match op
    case Done(_) => false
    case Listed(_, snap) => exists n | n in snap :: n.name == name
    case Uncordoned(_, snap) => exists n | n in snap :: n.name == name
    case Kicking(_, held) => held.Some? && held.value.name == name
  }

  /** The further hypotheses a property is proved under. */
  datatype Discipline =
    /** Every pass reads the current state, in any order, and no node enters the selection while in flight. */
    | Current
    /** Every pass reads the current state, and nobody else takes the upgrade taint off a node. */
    | Watched
    /** Every pass reads the current state, nobody else edits taints while a pass is under way, and no new node
        takes the name of one it read. */
    | Exclusive
    /** Every pass reads the current state, in any order; the version stays; nobody else puts the upgrade taint on a
        targeted node or writes its key there with another effect, and nodes join or enter the selection without it. */
    | Loose
    /** Moreover every pass lists in one order, and nodes enter the selection without a version label. */
    | Steady(rank: string -> real)
    /** Every pass reads the current state, in any order; the version and the nodes stay; nobody writes but the
        operator and KMM, which only reports the version a node was asked for. */
    | Sole
    /** Passes may read any past state, in any order; the version stays, and nobody else takes the upgrade taint
        off. */
    | Lagging
    /** Passes may read any past state, in one order; the version stays, no node joins and no node changes
        sides between targeted and not. */
    | Frozen(rank: string -> real)

  predicate Tame(w: World, e: Event)
    requires Enabled(w, e)
  {
    && (e.List? ==> e.at == |w.past| && e.read.Version() == w.dc.Version())
    && (e.Edit? ==> e.config.Version() == w.dc.Version())
    && (e.Join? && w.dc.Targets(e.node) ==> !Tainted(e.node))
    && (e.Outside? && w.dc.Targets(e.node) ==>
          Clean(e.node) && (Tainted(e.node) ==> w.dc.Targets(w.live[e.node.name]) && Tainted(w.live[e.node.name])))
  }

  /** A node relabelled into the selection. */
  predicate Enters(w: World, e: Event)
    requires Enabled(w, e)
  {
    e.Outside? && w.dc.Targets(e.node) && !w.dc.Targets(w.live[e.node.name])
  }

  predicate Obeys(d: Discipline, w: World, e: Event)
    requires Enabled(w, e)
  {
    match d
    case Current => (e.List? ==> e.at == |w.past|) && (Enters(w, e) ==> !Moving(w.dc, e.node))
    case Watched => (e.List? ==> e.at == |w.past|) && (e.Outside? && Cordoned(w.live[e.node.name]) ==> Cordoned(e.node))
    case Exclusive =>
      && (e.List? ==> e.at == |w.past|)
      && (e.Join? ==> !Mentions(w.op, e.node.name))
      && (e.Outside? && !w.op.Done? ==> e.node.taints == w.live[e.node.name].taints)
    case Loose => Tame(w, e)
    case Steady(rank) =>
      Tame(w, e) && (e.List? ==> SortedBy(rank, e.snap)) && (Enters(w, e) ==> IsNew(w.dc, e.node))
    case Sole =>
      && (e.List? ==> e.at == |w.past| && e.read.Version() == w.dc.Version())
      && (e.Edit? ==> e.config.Version() == w.dc.Version())
      && !e.Join? && !e.Outside? && !e.Remove?
      && (e.Kmm? ==> e.ready.Some? && e.ready == w.dc.V(w.live[e.name]))
    case Lagging =>
      && (e.List? ==> e.read.Version() == w.dc.Version())
      && (e.Edit? ==> e.config.Version() == w.dc.Version())
      && (e.Outside? && Cordoned(w.live[e.node.name]) ==> Cordoned(e.node))
    case Frozen(rank) =>
      && (e.List? ==> SortedBy(rank, e.snap) && e.read.Version() == w.dc.Version())
      && (e.Edit? ==> e.config.Version() == w.dc.Version())
      && !e.Join?
      && (e.Outside? ==> (w.dc.Targets(e.node) <==> w.dc.Targets(w.live[e.node.name])))
  }

  /** Any interleaving at all of the events, each enabled and within the discipline. */
  predicate IsRun(d: Discipline, w: World, es: seq<Event>)
    decreases |es|
  {
    es == [] || (Enabled(w, es[0]) && Obeys(d, w, es[0]) && IsRun(d, Do(w, es[0]), es[1..]))
  }

  function Run(d: Discipline, w: World, es: seq<Event>): World
    requires IsRun(d, w, es)
    decreases |es|
  {
    if es == [] then w else Run(d, Do(w, es[0]), es[1..])
  }

  // ----- What a list shows -----

  lemma ListingOfSameSelector(dc: DeviceConfig, d: DeviceConfig, c: Cluster, snap: seq<Node>)
    requires dc.SameIdentity(d) && IsListing(dc, c, snap)
    ensures IsListing(d, c, snap)
  {
    assert forall n :: d.Targets(n) == dc.Targets(n);
  }

  /** In a sorted list no node to upgrade comes after the pick. */
  lemma SortedPickIsLast(rank: string -> real, dc: DeviceConfig, c: Cluster, snap: seq<Node>)
    requires IsListing(dc, c, snap) && SortedBy(rank, snap) && UpgradePick(dc, snap).Some?
    ensures var p := UpgradePick(dc, snap).value;
            ToUpgrade(dc, c, p.name) && forall b | ToUpgrade(dc, c, b) :: rank(b) <= rank(p.name)
  {
    hide Matches, PhaseOf;
    UpgradePickMeaning(dc, snap);
    var p := UpgradePick(dc, snap).value;
    var i :| 0 <= i < |snap| && snap[i] == p && forall j | i < j < |snap| :: PhaseOf(dc, snap[j]) != Before;
    forall b | ToUpgrade(dc, c, b) ensures rank(b) <= rank(p.name) {
      assert c[b] in snap;
      var j :| 0 <= j < |snap| && snap[j] == c[b];
      assert j <= i;
    }
  }

  // ----- What the steps write -----

  /** Selection depends only on the labels the selector mentions. */
  lemma TargetsDependsOnSelector(dc: DeviceConfig, a: Node, b: Node)
    requires forall k | k in dc.Selector() :: LabelOf(a, k) == LabelOf(b, k)
    ensures dc.Targets(a) == dc.Targets(b)
  {
  }

  lemma SetReadyLabels(dc: DeviceConfig, n: Node, ready: Option<string>)
    ensures forall k :: LabelOf(SetReady(dc, n, ready), k) == if k == dc.readyLabel then ready else LabelOf(n, k)
    ensures dc.WellFormed() ==>
              var m := SetReady(dc, n, ready); dc.Targets(m) == dc.Targets(n) && dc.V(m) == dc.V(n)
  {
  }

  /** Until kickoff a pass sends patches of taints only. */
  lemma TaintPatch(op: Op, n: Node)
    requires op.Listed? || op.Uncordoned?
    requires Issue(op).Some?
    ensures !Issue(op).value.patch.clear && Issue(op).value.patch.labels == map[]
    ensures Merge(n, Issue(op).value.patch).labels == n.labels
  {
    if op.Listed? {
      var u := UpgradedPick(op.dc, op.snap).value;
      TaintDiff(u, ForeignTaints(u.taints));
    } else {
      var p := UpgradePick(op.dc, op.snap).value;
      TaintDiff(p, p.taints + [UPGRADE_TAINT]);
    }
    SameLabels(Merge(n, Issue(op).value.patch), n);
  }

  /** Kickoff leaves any live node with the wanted version, or as it was if the held copy already had it. */
  lemma KickoffPatch(dc: DeviceConfig, held: Node, n: Node)
    ensures var m := Merge(n, Diff(held, Kickoff(dc, held)));
            && m.taints == n.taints
            && (forall k | k != dc.versionLabel :: LabelOf(m, k) == LabelOf(n, k))
            && dc.V(m) == (if dc.V(held) == Some(dc.Version()) then dc.V(n) else Some(dc.Version()))
            && (dc.WellFormed() ==> dc.R(m) == dc.R(n) && dc.Targets(m) == dc.Targets(n))
  {
    KickoffDiff(dc, held);
  }

  /** A pass writes no label but the version label, writes that only when kicking off, and then leaves the
      taints alone. */
  lemma PassWrites(dc: DeviceConfig, op: Op, n: Node)
    requires dc.WellFormed() && Issue(op).Some? && dc.SameIdentity(op.dc)
    ensures var m := Merge(n, Issue(op).value.patch);
            && dc.Targets(m) == dc.Targets(n) && dc.R(m) == dc.R(n)
            && (dc.V(m) == dc.V(n) || (op.Kicking? && dc.V(m) == Some(op.dc.Version())))
            && (op.Kicking? ==> m.taints == n.taints)
            && (!op.Kicking? ==> m.labels == n.labels)
  {
    if op.Kicking? {
      KickoffPatch(op.dc, op.held.value, n);
    } else {
      TaintPatch(op, n);
    }
  }

  // ----- One pass -----

  /** The live node as the next patch of a pass leaves it. */
  function PatchedNode(c: Cluster, op: Op): Node
    requires Issue(op).Some? && Issue(op).value.name in c
  {
    Merge(c[Issue(op).value.name], Issue(op).value.patch)
  }

  predicate Lands(w: World, o: Outcome) { Issue(w.op).Some? && Issue(w.op).value.name in w.live && !o.Lost? }

  lemma StepKeepsNames(w: World, o: Outcome)
    ensures OperateStep(w, o).live == if Lands(w, o) then Put(w.live, PatchedNode(w.live, w.op)) else w.live
    ensures OperateStep(w, o).live.Keys == w.live.Keys && OperateStep(w, o).dc == w.dc
  {
  }

  /** A pass over an earlier or the current state whose patches fare as given. */
  function PassWith(w: World, at: nat, snap: seq<Node>, o1: Outcome, o2: Outcome, o3: Outcome): World
    requires Enabled(w, List(w.dc, at, snap))
  {
    OperateStep(OperateStep(OperateStep(Do(w, List(w.dc, at, snap)), o1), o2), o3)
  }

  // ----- A pass of the state machine is a run of the program -----

  /** What the server answers to the next patch. */
  function AnswerTo(w: World, o: Outcome): Option<Node>
    requires Issue(w.op).Some?
  {
    var r := Issue(w.op).value;
    if r.name in w.live && o.Applied? then Some(Merge(w.live[r.name], r.patch)) else None
  }

  /** The patches the pass under way sends in the course of a run, and the answers it gets. */
  function Exchange(d: Discipline, w: World, es: seq<Event>): (seq<Request>, seq<Option<Node>>)
    requires IsRun(d, w, es)
    decreases |es|
  {
    if es == [] then ([], [])
    else
      var t := Exchange(d, Do(w, es[0]), es[1..]);
      if es[0].Operate? && Issue(w.op).Some? then ([Issue(w.op).value] + t.0, [AnswerTo(w, es[0].outcome)] + t.1) else t
  }

  /** Neither a restart nor, once it has ended, another pass. */
  predicate OfOnePass(es: seq<Event>) { forall e | e in es :: !e.Restart? && !e.List? }

  /** However other events come between its patches: on the answers it gets, the program sends the patches a pass
      sends and ends with its result. */
  lemma {:induction false} PassesRunTheProgram(d: Discipline, w: World, es: seq<Event>)
    requires IsRun(d, w, es) && OfOnePass(es) && Run(d, w, es).op.Done?
    ensures var x := Exchange(d, w, es); Requests(w.op, x.1) == (x.0, Run(d, w, es).op.ok)
    decreases |es|
  {
    hide Issue, Advance, Merge, Wakes, Obeys;
    if es != [] {
      var e, x := es[0], Exchange(d, Do(w, es[0]), es[1..]);
      assert e in es && forall f | f in es[1..] :: f in es;
      PassesRunTheProgram(d, Do(w, e), es[1..]);
      if e.Operate? {
        StepAdvances(w, e.outcome);
        if w.op.Done? {
          DoneIssuesNothing(w.op);
        } else if Issue(w.op).Some? {
          assert ([AnswerTo(w, e.outcome)] + x.1)[1..] == x.1;
        }
      }
    }
  }

  lemma DoneIssuesNothing(op: Op)
    requires op.Done?
    ensures Issue(op).None? && Advance(op, None) == op
  {
  }

  lemma StepAdvances(w: World, o: Outcome)
    ensures OperateStep(w, o).op == Advance(w.op, if Issue(w.op).Some? then AnswerTo(w, o) else None)
  {
  }
}
