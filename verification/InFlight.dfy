/**
 At most one targeted node is in flight towards any one version, in every reachable state.
 */
module InFlight {
  import opened Nodes
  import opened Upgrade
  import opened Filter
  import opened Protocol

  predicate InFlightTo(dc: DeviceConfig, c: Cluster, x: string, v: string) {
    x in c && dc.Targets(c[x]) && Moving(dc, c[x]) && dc.V(c[x]) == Some(v)
  }

  ghost predicate AtMostOneEach(dc: DeviceConfig, c: Cluster) {
    forall v, a, b | InFlightTo(dc, c, a, v) && InFlightTo(dc, c, b, v) :: a == b
  }

  ghost predicate NoneTo(dc: DeviceConfig, c: Cluster, v: string) {
    forall a :: !InFlightTo(dc, c, a, v)
  }

  /** While a pass still intends to kick off a node, nothing is in flight towards the version it read. */
  ghost predicate OpSafe(dc: DeviceConfig, c: Cluster, op: Op) {
    match op
    case Done(_) => true
    case Listed(d, snap) => dc.SameIdentity(d) && (UpgradePick(d, snap).Some? ==> NoneTo(dc, c, d.Version()))
    case Uncordoned(d, snap) => dc.SameIdentity(d) && (UpgradePick(d, snap).Some? ==> NoneTo(dc, c, d.Version()))
    case Kicking(d, held) => dc.SameIdentity(d) && (held.Some? ==> NoneTo(dc, c, d.Version()))
  }

  ghost predicate Safe(w: World) {
    w.dc.WellFormed() && AtMostOneEach(w.dc, w.live) && OpSafe(w.dc, w.live, w.op)
  }

  predicate KicksOff(w: World, e: Event, x: string, v: string) {
    e.Operate? && w.op.Kicking? && w.op.held.Some? && x == w.op.held.value.name && v == w.op.dc.Version()
  }

  lemma OperateStartsFlights(w: World, o: Outcome, x: string, v: string)
    requires w.dc.WellFormed() && OpSafe(w.dc, w.live, w.op)
    requires InFlightTo(w.dc, OperateStep(w, o).live, x, v)
    ensures InFlightTo(w.dc, w.live, x, v) || KicksOff(w, Operate(o), x, v)
  {
    var r := Issue(w.op);
    if r.Some? && r.value.name in w.live { PassWrites(w.dc, w.op, w.live[r.value.name]); }
  }

  /** Only a kickoff puts a node in flight, and only towards the version its pass read; or a node enters the selection
      in flight. */
  lemma OnlyKickoffStartsFlights(w: World, e: Event, x: string, v: string)
    requires w.dc.WellFormed() && OpSafe(w.dc, w.live, w.op) && Enabled(w, e)
    requires InFlightTo(Do(w, e).dc, Do(w, e).live, x, v)
    ensures InFlightTo(w.dc, w.live, x, v) || KicksOff(w, e, x, v)
            || (Enters(w, e) && x == e.node.name && Moving(w.dc, e.node))
  {
    match e
    case Operate(o) => OperateStartsFlights(w, o, x, v);
    case Kmm(y, ready) => SetReadyLabels(w.dc, w.live[y], ready);
    case _ =>
  }

  lemma ListingShowsFlights(dc: DeviceConfig, c: Cluster, snap: seq<Node>)
    requires IsListing(dc, c, snap) && UpgradePick(dc, snap).Some?
    ensures NoneTo(dc, c, dc.Version())
  {
    UpgradePickMeaning(dc, snap);
    forall x ensures !InFlightTo(dc, c, x, dc.Version()) {
      assert x in c && dc.Targets(c[x]) ==> c[x] in snap && PhaseOf(dc, c[x]) != InUpgrade;
    }
  }

  /** A pass that has not kicked off yet keeps its promise as long as no flight starts. */
  lemma OpStaysSafe(dc: DeviceConfig, c: Cluster, dc': DeviceConfig, c': Cluster, op: Op)
    requires OpSafe(dc, c, op) && dc'.SameIdentity(dc)
    requires forall x, v | InFlightTo(dc', c', x, v) :: InFlightTo(dc, c, x, v)
    ensures OpSafe(dc', c', op)
  {
  }

  lemma OperateKeepsSafe(w: World, o: Outcome)
    requires Safe(w)
    ensures Safe(OperateStep(w, o))
  {
    hide Diff, Merge, Matches, UpgradePick, UpgradedPick;
    var w' := OperateStep(w, o);
    forall x, v | InFlightTo(w.dc, w'.live, x, v)
      ensures InFlightTo(w.dc, w.live, x, v) || KicksOff(w, Operate(o), x, v)
    {
      OperateStartsFlights(w, o, x, v);
    }
    if w.op.Kicking? {
      assert w'.op.Done?;
    } else {
      OpStaysSafe(w.dc, w.live, w.dc, w'.live, w.op);
    }
  }

  lemma StepKeepsSafe(w: World, e: Event)
    requires Safe(w) && Enabled(w, e) && Obeys(Current, w, e)
    ensures Safe(Do(w, e))
  {
    if e.Operate? {
      OperateKeepsSafe(w, e.outcome);
    } else {
      var w' := Do(w, e);
      forall x, v | InFlightTo(w'.dc, w'.live, x, v) ensures InFlightTo(w.dc, w.live, x, v) {
        OnlyKickoffStartsFlights(w, e, x, v);
      }
      OpStaysSafe(w.dc, w.live, w'.dc, w'.live, w.op);
      if e.List? && UpgradePick(e.read, e.snap).Some? {
        ListingOfSameSelector(w.dc, e.read, w.live, e.snap);
        ListingShowsFlights(e.read, w.live, e.snap);
      }
    }
  }

  /** Whatever versions are asked for in turn, whatever patches are lost or reported as failed although applied, and
      whenever the operator restarts, no two targeted nodes are ever in flight towards the same version. */
  lemma {:induction false} AtMostOneInFlightPerVersion(w: World, es: seq<Event>)
    requires Safe(w) && IsRun(Current, w, es)
    ensures Safe(Run(Current, w, es))
    decreases |es|
  {
    if es != [] {
      StepKeepsSafe(w, es[0]);
      AtMostOneInFlightPerVersion(Do(w, es[0]), es[1..]);
    }
  }

  // ----- How many nodes are in flight altogether -----

  function Flights(dc: DeviceConfig, c: Cluster): set<string> {
    set x | x in c && dc.Targets(c[x]) && Moving(dc, c[x])
  }

  /** versions covers what is in flight, what is wanted and what the pass under way has read. */
  predicate Covered(versions: set<string>, w: World) {
    && (forall x | x in Flights(w.dc, w.live) :: w.dc.V(w.live[x]).value in versions)
    && w.dc.Version() in versions
    && (!w.op.Done? ==> w.op.dc.Version() in versions)
  }

  /** versions also covers what is asked for and what the passes were given. */
  predicate CoversReads(versions: set<string>, es: seq<Event>) {
    forall e | e in es :: (e.Edit? ==> e.config.Version() in versions) && (e.List? ==> e.read.Version() in versions)
  }

  lemma {:induction false} InjectionBoundsSize(names: set<string>, f: map<string, string>, versions: set<string>)
    requires names <= f.Keys && forall x | x in names :: f[x] in versions
    requires forall x, y | x in names && y in names && f[x] == f[y] :: x == y
    ensures |names| <= |versions|
  {
    if names != {} {
      var x :| x in names;
      InjectionBoundsSize(names - {x}, f, versions - {f[x]});
    }
  }

  lemma {:induction false} CoverIsKept(versions: set<string>, w: World, es: seq<Event>)
    requires Safe(w) && IsRun(Current, w, es) && Covered(versions, w)
    requires CoversReads(versions, es)
    ensures Covered(versions, Run(Current, w, es))
    decreases |es|
  {
    hide Matches, LabelOf, Diff, Wakes;
    if es != [] {
      var w' := Do(w, es[0]);
      forall x | x in Flights(w'.dc, w'.live) ensures w'.dc.V(w'.live[x]).value in versions {
        OnlyKickoffStartsFlights(w, es[0], x, w'.dc.V(w'.live[x]).value);
        assert x in w.live && w.dc.Targets(w.live[x]) && Moving(w.dc, w.live[x]) ==> x in Flights(w.dc, w.live);
      }
      StepKeepsSafe(w, es[0]);
      assert es[0] in es && forall e | e in es[1..] :: e in es;
      CoverIsKept(versions, w', es[1..]);
    }
  }

  /** The nodes in flight never outnumber the distinct versions that play a part in the run. */
  lemma FlightsBoundedByVersions(versions: set<string>, w: World, es: seq<Event>)
    requires Safe(w) && IsRun(Current, w, es) && Covered(versions, w)
    requires CoversReads(versions, es)
    ensures var w' := Run(Current, w, es); |Flights(w'.dc, w'.live)| <= |versions|
  {
    AtMostOneInFlightPerVersion(w, es);
    CoverIsKept(versions, w, es);
    var w' := Run(Current, w, es);
    var names := Flights(w'.dc, w'.live);
    var f := map x | x in names :: w'.dc.V(w'.live[x]).value;
    forall x, y | x in names && y in names && f[x] == f[y] ensures x == y {
      assert InFlightTo(w'.dc, w'.live, x, f[x]) && InFlightTo(w'.dc, w'.live, y, f[x]);
    }
    InjectionBoundsSize(names, f, versions);
  }
}
