/**
 What one rolling-upgrade pass decides, as functions of the node list it read.
 The program of a pass is a small automaton: Issue says which patch it sends next
 and Advance how the answer moves it on.
 */
module Upgrade {
  import opened Nodes

  const UPGRADE_KEY := "intel-driver-upgrade"
  const NO_EXECUTE := "NoExecute"
  const UPGRADE_TAINT := Taint(UPGRADE_KEY, "true", NO_EXECUTE)

  datatype Driver = Driver(useInTree: bool, image: string, version: string)

  /** versionLabel and readyLabel are the node label names KMM derives from the namespace and name. */
  datatype DeviceConfig = DeviceConfig(
    namespace: string, name: string, versionLabel: string, readyLabel: string,
    driver: Driver, draImage: string, imageRepoSecret: Option<string>, selector: Option<Labels>)
  {
    function Version(): string { driver.version }

    /** A nil selector lists every node. */
    function Selector(): Labels { if selector.Some? then selector.value else map[] }

    predicate Targets(n: Node) { Matches(Selector(), n) }

    function V(n: Node): Option<string> { LabelOf(n, versionLabel) }

    function R(n: Node): Option<string> { LabelOf(n, readyLabel) }

    /** The label names are distinct and the selector mentions neither. */
    predicate WellFormed() {
      versionLabel != readyLabel && versionLabel !in Selector() && readyLabel !in Selector()
    }

    /** An edit of the spec keeps the names and the selector. */
    predicate SameIdentity(o: DeviceConfig) {
      namespace == o.namespace && name == o.name && versionLabel == o.versionLabel
      && readyLabel == o.readyLabel && selector == o.selector
    }
  }

  datatype Phase = Before | InUpgrade | Upgraded

  function PhaseOf(dc: DeviceConfig, n: Node): Phase {
    if dc.V(n) != Some(dc.Version()) then Before
    else if dc.R(n) != Some(dc.Version()) then InUpgrade
    else Upgraded
  }

  /** No version label yet, whatever version is wanted. */
  predicate IsNew(dc: DeviceConfig, n: Node) { dc.V(n) == None }

  /** What detection looks for: the key alone. */
  predicate Tainted(n: Node) { exists t | t in n.taints :: t.key == UPGRADE_KEY }

  /** What cordon and uncordon look for: key and effect. */
  predicate IsUpgradeTaint(t: Taint) { t.key == UPGRADE_KEY && t.effect == NO_EXECUTE }

  predicate Cordoned(n: Node) { exists t | t in n.taints :: IsUpgradeTaint(t) }

  /** Every taint with the upgrade key has the effect the operator writes. */
  predicate Clean(n: Node) { forall t | t in n.taints && t.key == UPGRADE_KEY :: t.effect == NO_EXECUTE }

  /** The taints that are not the operator's, in order. */
  function ForeignTaints(ts: seq<Taint>): (r: seq<Taint>)
    ensures forall t :: t in r <==> t in ts && !IsUpgradeTaint(t)
  {
    if ts == [] then []
    else
      var last := ts[|ts| - 1];
      assert ts == ts[..|ts| - 1] + [last];
      ForeignTaints(ts[..|ts| - 1]) + (if IsUpgradeTaint(last) then [] else [last])
  }

  /** The first upgraded node that is still tainted. */
  function UpgradedPick(dc: DeviceConfig, nodes: seq<Node>): Option<Node> {
    if nodes == [] then None
    else if PhaseOf(dc, nodes[0]) == Upgraded && Tainted(nodes[0]) then Some(nodes[0])
    else UpgradedPick(dc, nodes[1..])
  }

  function LastBefore(dc: DeviceConfig, nodes: seq<Node>): Option<Node> {
    if nodes == [] then None
    else if PhaseOf(dc, nodes[|nodes| - 1]) == Before then Some(nodes[|nodes| - 1])
    else LastBefore(dc, nodes[..|nodes| - 1])
  }

  /** The last node still to be upgraded, unless one is in upgrade anywhere in the list. */
  function UpgradePick(dc: DeviceConfig, nodes: seq<Node>): Option<Node> {
    if exists n | n in nodes :: PhaseOf(dc, n) == InUpgrade then None else LastBefore(dc, nodes)
  }

  function Uncordon(n: Node): Node { n.(taints := ForeignTaints(n.taints)) }

  function Cordon(n: Node): Node { n.(taints := n.taints + [UPGRADE_TAINT]) }

  /** The picked node as it is to be when the kickoff comes. */
  function Prepare(dc: DeviceConfig, n: Node): Node { if IsNew(dc, n) || Cordoned(n) then n else Cordon(n) }

  function Kickoff(dc: DeviceConfig, n: Node): Node { n.(labels := n.labels[dc.versionLabel := dc.Version()]) }

  // ----- The program of a pass -----

  /** Done holds whether the pass returned without an error; held is the node picked for kickoff as the operator
      last saw it, which is the server's answer when a cordon patch was sent. */
  datatype Op =
    | Done(ok: bool)
    | Listed(dc: DeviceConfig, snap: seq<Node>)
    | Uncordoned(dc: DeviceConfig, snap: seq<Node>)
    | Kicking(dc: DeviceConfig, held: Option<Node>)

  function Issue(op: Op): Option<Request> {
    match op
    case Done(_) => None
    case Listed(dc, snap) =>
      var u := UpgradedPick(dc, snap);
      if u.None? then None else Some(Request(u.value.name, Diff(u.value, Uncordon(u.value))))
    case Uncordoned(dc, snap) =>
      var p := UpgradePick(dc, snap);
      if p.None? || IsNew(dc, p.value) || Cordoned(p.value) then None
      else Some(Request(p.value.name, Diff(p.value, Cordon(p.value))))
    case Kicking(dc, held) =>
      if held.None? then None else Some(Request(held.value.name, Diff(held.value, Kickoff(dc, held.value))))
  }

  /** answer is the patched node as the server returned it, or None for an error; it is read only if Issue sent a
      patch. */
  function Advance(op: Op, answer: Option<Node>): Op {
    if Issue(op).Some? && answer.None? then Done(false)
    else
      match op
      case Done(ok) => op
      case Listed(dc, snap) => Uncordoned(dc, snap)
      case Uncordoned(dc, snap) => Kicking(dc, if Issue(op).Some? then answer else UpgradePick(dc, snap))
      case Kicking(_, _) => Done(true)
  }

  function StagesLeft(op: Op): nat {
    match op
    case Done(_) => 0
    case Listed(_, _) => 3
    case Uncordoned(_, _) => 2
    case Kicking(_, _) => 1
  }

  /** All the patches a pass sends from op on when the server answers as listed (a missing answer is an error),
      and whether the pass succeeds. */
  function Requests(op: Op, answers: seq<Option<Node>>): (seq<Request>, bool)
    decreases StagesLeft(op)
  {
    if op.Done? then ([], op.ok)
    else if Issue(op).None? then Requests(Advance(op, None), answers)
    else After(Issue(op).value, Requests(Advance(op, Head(answers)), Tail(answers)))
  }

  /** Sending q first. */
  function After(q: Request, rest: (seq<Request>, bool)): (seq<Request>, bool) { ([q] + rest.0, rest.1) }

  function Head(answers: seq<Option<Node>>): Option<Node> { if answers == [] then None else answers[0] }

  function Tail(answers: seq<Option<Node>>): seq<Option<Node>> { if answers == [] then [] else answers[1..] }

  /** A pass does nothing when no version is wanted. */
  function Begin(dc: DeviceConfig, snap: seq<Node>): Op {
    if dc.Version() == "" then Done(true) else Listed(dc, snap)
  }

  // ----- Removing the version label -----

  function Unlabel(dc: DeviceConfig, n: Node): Node { n.(labels := n.labels - {dc.versionLabel}) }

  /** The patches sent for the listed nodes and whether all were accepted. */
  function Removals(dc: DeviceConfig, listed: seq<Node>, answers: seq<Option<Node>>): (seq<Request>, bool)
    decreases |listed|
  {
    if listed == [] then ([], true)
    else
      var q := Request(listed[0].name, Diff(listed[0], Unlabel(dc, listed[0])));
      if Head(answers).None? then After(q, ([], false)) else After(q, Removals(dc, listed[1..], Tail(answers)))
  }

  // ----- What the picks mean -----

  lemma {:induction false} UpgradedPickMeaning(dc: DeviceConfig, nodes: seq<Node>)
    ensures var u := UpgradedPick(dc, nodes);
            && (u.None? <==> forall n | n in nodes :: !(PhaseOf(dc, n) == Upgraded && Tainted(n)))
            && (u.Some? ==> u.value in nodes && PhaseOf(dc, u.value) == Upgraded && Tainted(u.value))
  {
    if nodes != [] {
      UpgradedPickMeaning(dc, nodes[1..]);
      assert nodes == [nodes[0]] + nodes[1..];
    }
  }

  /** It is the first such node of the list. */
  lemma {:induction false} UpgradedPickIsFirst(dc: DeviceConfig, nodes: seq<Node>) returns (i: nat)
    requires UpgradedPick(dc, nodes).Some?
    ensures i < |nodes| && nodes[i] == UpgradedPick(dc, nodes).value
    ensures forall j | 0 <= j < i :: !(PhaseOf(dc, nodes[j]) == Upgraded && Tainted(nodes[j]))
  {
    if PhaseOf(dc, nodes[0]) == Upgraded && Tainted(nodes[0]) {
      i := 0;
    } else {
      var k := UpgradedPickIsFirst(dc, nodes[1..]);
      i := k + 1;
      assert forall j | 0 < j < i :: nodes[j] == nodes[1..][j - 1];
    }
  }

  lemma {:induction false} LastBeforeMeaning(dc: DeviceConfig, nodes: seq<Node>)
    ensures var p := LastBefore(dc, nodes);
            && (p.None? <==> forall n | n in nodes :: PhaseOf(dc, n) != Before)
            && (p.Some? ==> PhaseOf(dc, p.value) == Before
                            && exists i | 0 <= i < |nodes| :: nodes[i] == p.value
                                          && forall j | i < j < |nodes| :: PhaseOf(dc, nodes[j]) != Before)
  {
    if nodes != [] {
      var init := nodes[..|nodes| - 1];
      LastBeforeMeaning(dc, init);
      assert nodes == init + [nodes[|nodes| - 1]];
      if PhaseOf(dc, nodes[|nodes| - 1]) != Before && LastBefore(dc, init).Some? {
        var i :| 0 <= i < |init| && init[i] == LastBefore(dc, init).value
                 && forall j | i < j < |init| :: PhaseOf(dc, init[j]) != Before;
        assert nodes[i] == LastBefore(dc, nodes).value;
        assert forall j | i < j < |nodes| :: j < |init| ==> nodes[j] == init[j];
      } else if PhaseOf(dc, nodes[|nodes| - 1]) == Before {
        assert nodes[|nodes| - 1] == LastBefore(dc, nodes).value;
      }
    }
  }

  /** The picked node is the last Before node of the list, and there is a pick exactly when some node is Before and
      none, earlier or later in the list, is in upgrade. */
  lemma UpgradePickMeaning(dc: DeviceConfig, nodes: seq<Node>)
    ensures var p := UpgradePick(dc, nodes);
            && (p.Some? <==> (exists n | n in nodes :: PhaseOf(dc, n) == Before)
                             && forall n | n in nodes :: PhaseOf(dc, n) != InUpgrade)
            && (p.Some? ==> p.value in nodes && PhaseOf(dc, p.value) == Before
                            && exists i | 0 <= i < |nodes| :: nodes[i] == p.value
                                          && forall j | i < j < |nodes| :: PhaseOf(dc, nodes[j]) != Before)
  {
    LastBeforeMeaning(dc, nodes);
  }

  // ----- What removal keeps -----

  /** Foreign taints stay, each once for each time it was there, in order. */
  lemma {:induction false} ForeignTaintsAppend(a: seq<Taint>, b: seq<Taint>)
    ensures ForeignTaints(a + b) == ForeignTaints(a) + ForeignTaints(b)
    decreases |b|
  {
    if b == [] {
      assert a + b == a;
    } else {
      assert (a + b)[..|a + b| - 1] == a + b[..|b| - 1];
      ForeignTaintsAppend(a, b[..|b| - 1]);
    }
  }

  lemma ForeignTaintsOne(t: Taint)
    ensures ForeignTaints([t]) == if t.key == UPGRADE_KEY && t.effect == NO_EXECUTE then [] else [t]
  {
    assert [t][..0] == [];
  }

  // ----- The program in plain terms -----

  predicate Accepted(answers: seq<Option<Node>>, i: nat) { i < |answers| && answers[i].Some? }

  /** A pass uncordons, cordons its pick unless that is new or has the taint, and kicks off the pick, or the
      server's copy of it if it sent a cordon patch. The first patch that fails is its last, and it succeeds exactly
      if none fails. */
  lemma RequestsInFull(dc: DeviceConfig, snap: seq<Node>, answers: seq<Option<Node>>)
    requires dc.Version() != ""
    ensures var u, p := UpgradedPick(dc, snap), UpgradePick(dc, snap);
            var first := if u.None? then [] else [Request(u.value.name, Diff(u.value, Uncordon(u.value)))];
            var i := |first|;
            var second := if p.None? || dc.V(p.value).None? || Cordoned(p.value) then []
                          else [Request(p.value.name, Diff(p.value, Cordon(p.value)))];
            var j := i + |second|;
            Requests(Begin(dc, snap), answers)
            == if i == 1 && !Accepted(answers, 0) then (first, false)
               else if j == i + 1 && !Accepted(answers, i) then (first + second, false)
               else if p.None? then (first, true)
               else
                 var held := if j == i + 1 then answers[i].value else p.value;
                 (first + (second + [Request(held.name, Diff(held, Kickoff(dc, held)))]), Accepted(answers, j))
  {
    hide UpgradedPick, UpgradePick, Diff, Uncordon, Cordon, Kickoff, Cordoned;
    var u := UpgradedPick(dc, snap);
    AcceptedLater(answers);
    if u.None? {
      SecondInFull(dc, snap, answers);
      var r := Requests(Uncordoned(dc, snap), answers).0;
      assert [] + r == r;
    } else {
      SecondInFull(dc, snap, Tail(answers));
      RequestsOfDone(false, Tail(answers));
      var q := Request(u.value.name, Diff(u.value, Uncordon(u.value)));
      assert Issue(Listed(dc, snap)) == Some(q);
      assert [q] + [] == [q];
    }
  }

  lemma RequestsOfDone(ok: bool, answers: seq<Option<Node>>)
    ensures Requests(Done(ok), answers) == ([], ok)
  {
  }

  lemma AcceptedLater(answers: seq<Option<Node>>)
    ensures Accepted(answers, 0) <==> Head(answers).Some?
    ensures forall k: nat :: Accepted(Tail(answers), k) <==> Accepted(answers, k + 1)
    ensures forall k: nat | Accepted(answers, k + 1) :: Tail(answers)[k] == answers[k + 1]
  {
  }

  lemma SecondInFull(dc: DeviceConfig, snap: seq<Node>, answers: seq<Option<Node>>)
    ensures var p := UpgradePick(dc, snap);
            var second := if p.None? || dc.V(p.value).None? || Cordoned(p.value) then []
                          else [Request(p.value.name, Diff(p.value, Cordon(p.value)))];
            var j := |second|;
            Requests(Uncordoned(dc, snap), answers)
            == if j == 1 && !Accepted(answers, 0) then (second, false)
               else if p.None? then ([], true)
               else
                 var held := if j == 1 then answers[0].value else p.value;
                 (second + [Request(held.name, Diff(held, Kickoff(dc, held)))], Accepted(answers, j))
  {
    hide UpgradePick, Diff, Uncordon, Cordon, Kickoff, Cordoned;
    var p := UpgradePick(dc, snap);
    AcceptedLater(answers);
    if p.None? || dc.V(p.value).None? || Cordoned(p.value) {
      ThirdInFull(dc, p, answers);
      assert forall rest: seq<Request> :: [] + rest == rest;
    } else {
      ThirdInFull(dc, Head(answers), Tail(answers));
      RequestsOfDone(false, Tail(answers));
      var q := Request(p.value.name, Diff(p.value, Cordon(p.value)));
      assert Issue(Uncordoned(dc, snap)) == Some(q);
      assert [q] + [] == [q];
    }
  }

  lemma ThirdInFull(dc: DeviceConfig, held: Option<Node>, answers: seq<Option<Node>>)
    ensures Requests(Kicking(dc, held), answers)
         == if held.None? then ([], true)
            else ([Request(held.value.name, Diff(held.value, Kickoff(dc, held.value)))], Accepted(answers, 0))
  {
    hide Diff, Kickoff;
    AcceptedLater(answers);
    if held.None? {
      RequestsOfDone(true, answers);
    } else {
      RequestsOfDone(Head(answers).Some?, Tail(answers));
      var q := Request(held.value.name, Diff(held.value, Kickoff(dc, held.value)));
      assert [q] + [] == [q];
    }
  }

  // ----- What the patches do -----

  /** A taint edit yields a patch without labels. */
  lemma TaintDiff(n: Node, ts: seq<Taint>)
    ensures Diff(n, n.(taints := ts)) == Patch(false, map[], if n.taints == ts then None else Some(ts))
  {
    forall k ensures LabelOf(n, k) == LabelOf(n.(taints := ts), k) {}
    assert Diff(n, n.(taints := ts)).labels == map[];
  }

  /** Kickoff yields a patch of one label: computed from a node whose version label differs from the wanted one, it
      sets that label and nothing else on whatever node is live. */
  lemma KickoffDiff(dc: DeviceConfig, n: Node)
    ensures Diff(n, Kickoff(dc, n))
         == Patch(false,
                  if dc.V(n) == Some(dc.Version()) then map[] else map[dc.versionLabel := Some(dc.Version())],
                  None)
  {
    var p := Diff(n, Kickoff(dc, n)).labels;
    forall k ensures k in p <==> k == dc.versionLabel && dc.V(n) != Some(dc.Version()) {
      assert LabelOf(Kickoff(dc, n), k) == if k == dc.versionLabel then Some(dc.Version()) else LabelOf(n, k);
    }
  }
}
