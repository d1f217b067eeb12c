/**
 The upgrade helper as it runs: node structs copied by range loops, label maps shared by reference, patches computed
 from deep copies. Each method is proved to send exactly the patches the specification functions name.
 */
module UpgradeImpl {
  import opened Nodes
  import opened Upgrade

  /** A map reference: copying the struct that holds it shares the map. */
  class LabelMap {
    var entries: Labels

    constructor (m: Labels)
      ensures entries == m
    {
      entries := m;
    }
  }

  class NodeObject {
    var name: string
    var labels: LabelMap?
    var taints: seq<Taint>

    function Value(): Node
      reads this, labels
    {
      Node(name, if labels == null then map[] else labels.entries, taints)
    }

    constructor (name: string, labels: LabelMap?, taints: seq<Taint>)
      ensures this.name == name && this.labels == labels && this.taints == taints
    {
      this.name, this.labels, this.taints := name, labels, taints;
    }
  }

  function Maps(nodes: seq<NodeObject>): set<LabelMap>
    reads nodes
  {
    set o | o in nodes && o.labels != null :: o.labels
  }

  function Values(nodes: seq<NodeObject>): (r: seq<Node>)
    reads nodes, Maps(nodes)
    ensures |r| == |nodes| && forall i | 0 <= i < |nodes| :: r[i] == nodes[i].Value()
  {
    seq(|nodes|, i requires 0 <= i < |nodes| reads nodes, Maps(nodes) =>
      assert nodes[i] in nodes;
      nodes[i].Value())
  }

  method DeepCopy(node: NodeObject) returns (c: NodeObject)
    ensures fresh(c) && c.Value() == node.Value()
    ensures c.labels != null ==> fresh(c.labels)
  {
    var m := null;
    if node.labels != null {
      m := new LabelMap(node.labels.entries);
    }
    c := new NodeObject(node.name, m, node.taints);
  }

  method Decode(n: Node) returns (o: NodeObject)
    ensures fresh(o) && o.labels != null && fresh(o.labels) && o.Value() == n
  {
    var m := new LabelMap(n.labels);
    o := new NodeObject(n.name, m, n.taints);
  }

  lemma AppendValue(nodes: seq<NodeObject>, o: NodeObject)
    ensures Values(nodes + [o]) == Values(nodes) + [o.Value()]
  {
  }

  /** No two items share an object or a label map. */
  predicate Unshared(items: seq<NodeObject>)
    reads items
  {
    forall i, j | 0 <= i < j < |items| :: items[i] != items[j] && items[i].labels != items[j].labels
  }

  method DecodeAll(ns: seq<Node>) returns (items: seq<NodeObject>)
    ensures Values(items) == ns && Unshared(items)
    ensures forall o | o in items :: fresh(o) && o.labels != null && fresh(o.labels)
  {
    if ns == [] {
      return [];
    }
    items := DecodeAll(ns[..|ns| - 1]);
    var o := Decode(ns[|ns| - 1]);
    AppendValue(items, o);
    items := items + [o];
  }

  /** The nodes a label selector lists. */
  function Select(selector: Labels, nodes: seq<Node>): (r: seq<Node>)
    ensures forall n :: n in r <==> n in nodes && Matches(selector, n)
  {
    if nodes == [] then []
    else
      var last := nodes[|nodes| - 1];
      assert nodes == nodes[..|nodes| - 1] + [last];
      Select(selector, nodes[..|nodes| - 1]) + (if Matches(selector, last) then [last] else [])
  }

  /** Each listed node comes once for each time it is in the cache, in order. */
  lemma {:induction false} SelectAppend(selector: Labels, a: seq<Node>, b: seq<Node>)
    ensures Select(selector, a + b) == Select(selector, a) + Select(selector, b)
    decreases |b|
  {
    if b == [] {
      assert a + b == a;
    } else {
      assert (a + b)[..|a + b| - 1] == a + b[..|b| - 1];
      SelectAppend(selector, a, b[..|b| - 1]);
    }
  }

  lemma SelectOne(selector: Labels, n: Node)
    ensures Select(selector, [n]) == if Matches(selector, n) then [n] else []
  {
    assert [n][..0] == [];
  }

  /** The API client: cache is what List reads, answers what the server will answer to the patches to come (None, or
      no answer, is an error), sent what has been sent. */
  class Client {
    var cache: seq<Node>
    var listable: bool
    var answers: seq<Option<Node>>
    var sent: seq<Request>

    constructor (cache: seq<Node>, listable: bool, answers: seq<Option<Node>>)
      ensures this.cache == cache && this.listable == listable && this.answers == answers && sent == []
    {
      this.cache, this.listable, this.answers, sent := cache, listable, answers, [];
    }

    method List(selector: Labels) returns (ok: bool, items: seq<NodeObject>)
      ensures ok == listable
      ensures ok ==> Values(items) == Select(selector, cache) && Unshared(items)
      ensures forall o | o in items :: fresh(o) && o.labels != null && fresh(o.labels)
    {
      if !listable {
        return false, [];
      }
      items := DecodeAll(Select(selector, cache));
      return true, items;
    }

    /** Sends the difference between original and obj; a successful answer replaces the contents of obj. */
    method Patch(obj: NodeObject, original: NodeObject) returns (ok: bool)
      modifies this`answers, this`sent, obj
      ensures sent == old(sent) + [Request(old(obj.name), Diff(old(original.Value()), old(obj.Value())))]
      ensures answers == Tail(old(answers)) && ok == Head(old(answers)).Some?
      ensures ok ==> obj.Value() == Head(old(answers)).value && obj.labels != null && fresh(obj.labels)
      ensures !ok ==> obj.Value() == old(obj.Value()) && obj.labels == old(obj.labels)
    {
      sent := sent + [Request(obj.name, Diff(original.Value(), obj.Value()))];
      var answer := Head(answers);
      answers := Tail(answers);
      ok := answer.Some?;
      if ok {
        var m := new LabelMap(answer.value.labels);
        obj.name, obj.labels, obj.taints := answer.value.name, m, answer.value.taints;
      }
    }
  }

  // ----- The loops against the picks -----

  lemma {:induction false} PickAtFirst(dc: DeviceConfig, nodes: seq<Node>, i: nat)
    requires i < |nodes| && PhaseOf(dc, nodes[i]) == Upgraded && Tainted(nodes[i])
    requires forall j | 0 <= j < i :: !(PhaseOf(dc, nodes[j]) == Upgraded && Tainted(nodes[j]))
    ensures UpgradedPick(dc, nodes) == Some(nodes[i])
  {
    if i > 0 {
      assert forall j | 0 <= j < i - 1 :: nodes[1..][j] == nodes[j + 1];
      PickAtFirst(dc, nodes[1..], i - 1);
    }
  }

  method IsNodeTainted(node: NodeObject) returns (r: bool)
    ensures r == Tainted(node.Value())
  {
    for i := 0 to |node.taints|
      invariant forall j | 0 <= j < i :: node.taints[j].key != UPGRADE_KEY
    {
      if node.taints[i].key == UPGRADE_KEY {
        return true;
      }
    }
    return false;
  }

  method GetUpgradedNode(dc: DeviceConfig, nodes: seq<NodeObject>) returns (r: NodeObject?)
    ensures r == null <==> UpgradedPick(dc, Values(nodes)) == None
    ensures r != null ==> fresh(r) && UpgradedPick(dc, Values(nodes)) == Some(r.Value())
    ensures r != null && r.labels != null ==> r.labels in Maps(nodes)
  {
    hide Values;
    ghost var vals := Values(nodes);
    for i := 0 to |nodes|
      invariant Values(nodes) == vals
      invariant forall j | 0 <= j < i :: !(PhaseOf(dc, vals[j]) == Upgraded && Tainted(vals[j]))
    {
      var node := new NodeObject(nodes[i].name, nodes[i].labels, nodes[i].taints);
      assert node.Value() == vals[i];
      var tainted := IsNodeTainted(node);
      if PhaseOf(dc, node.Value()) == Upgraded && tainted {
        PickAtFirst(dc, vals, i);
        assert Values(nodes) == vals && nodes[i] in nodes;
        return node;
      }
    }
    UpgradedPickMeaning(dc, vals);
    return null;
  }

  method GetNodeForUpgrade(dc: DeviceConfig, nodes: seq<NodeObject>) returns (r: NodeObject?)
    ensures r == null <==> UpgradePick(dc, Values(nodes)) == None
    ensures r != null ==> fresh(r) && UpgradePick(dc, Values(nodes)) == Some(r.Value())
    ensures r != null && r.labels != null ==> r.labels in Maps(nodes)
  {
    hide Values, UpgradedPick;
    r := null;
    ghost var vals := Values(nodes);
    for i := 0 to |nodes|
      invariant Values(nodes) == vals
      invariant forall j | 0 <= j < i :: PhaseOf(dc, vals[j]) != InUpgrade
      invariant r == null <==> LastBefore(dc, vals[..i]) == None
      invariant r != null ==> fresh(r) && LastBefore(dc, vals[..i]) == Some(r.Value())
      invariant r != null && r.labels != null ==> r.labels in Maps(nodes)
    {
      var node := new NodeObject(nodes[i].name, nodes[i].labels, nodes[i].taints);
      assert vals[..i + 1][..i] == vals[..i] && node.Value() == vals[i];
      match PhaseOf(dc, node.Value())
      case Before => r := node;
      case InUpgrade =>
        assert vals[i] in vals;
        return null;
      case Upgraded =>
    }
    assert vals[..|nodes|] == vals;
  }

  // ----- The edits -----

  method UncordonUpgradedNode(client: Client, node: NodeObject?) returns (ok: bool)
    modifies client`answers, client`sent, node
    ensures node == null ==> ok && client.sent == old(client.sent) && client.answers == old(client.answers)
    ensures node != null ==>
              && client.sent == old(client.sent + [Request(node.name, Diff(node.Value(), Uncordon(node.Value())))])
              && client.answers == Tail(old(client.answers)) && ok == Head(old(client.answers)).Some?
              && node.Value() == if ok then Head(old(client.answers)).value else Uncordon(old(node.Value()))
  {
    hide Diff, Tainted, Cordoned;
    if node == null {
      return true;
    }
    var newTaints := [];
    for i := 0 to |node.taints|
      invariant newTaints == ForeignTaints(node.taints[..i])
    {
      assert node.taints[..i + 1][..i] == node.taints[..i];
      if UPGRADE_TAINT.key == node.taints[i].key && UPGRADE_TAINT.effect == node.taints[i].effect {
        continue;
      }
      newTaints := newTaints + [node.taints[i]];
    }
    assert node.taints[..|node.taints|] == node.taints;
    var nodeCopy := DeepCopy(node);
    node.taints := newTaints;
    ok := client.Patch(node, nodeCopy);
  }

  method CordonNodeForUpgrade(client: Client, dc: DeviceConfig, node: NodeObject?) returns (ok: bool)
    modifies client`answers, client`sent, node
    ensures node == null || IsNew(dc, old(node.Value())) || Cordoned(old(node.Value())) ==>
              && ok && client.sent == old(client.sent) && client.answers == old(client.answers)
              && (node != null ==> node.Value() == old(node.Value()) && node.labels == old(node.labels))
    ensures node != null && !IsNew(dc, old(node.Value())) && !Cordoned(old(node.Value())) ==>
              && client.sent == old(client.sent + [Request(node.name, Diff(node.Value(), Cordon(node.Value())))])
              && client.answers == Tail(old(client.answers)) && ok == Head(old(client.answers)).Some?
              && node.Value() == (if ok then Head(old(client.answers)).value else Cordon(old(node.Value())))
              && (ok ==> node.labels != null && fresh(node.labels))
  {
    if node == null {
      return true;
    }
    if IsNew(dc, node.Value()) {
      return true;
    }
    for i := 0 to |node.taints|
      invariant forall j | 0 <= j < i :: !IsUpgradeTaint(node.taints[j])
    {
      if UPGRADE_TAINT.key == node.taints[i].key && UPGRADE_TAINT.effect == node.taints[i].effect {
        assert node.taints[i] in node.Value().taints && IsUpgradeTaint(node.taints[i]);
        return true;
      }
    }
    var nodeCopy := DeepCopy(node);
    node.taints := node.taints + [UPGRADE_TAINT];
    ok := client.Patch(node, nodeCopy);
  }

  /** The deep copy is taken before the shared label map is written, or the patch would be empty. */
  method KickoffUpgrade(client: Client, dc: DeviceConfig, node: NodeObject?) returns (ok: bool)
    modifies client`answers, client`sent, node, if node == null then null else node.labels
    ensures node == null ==> ok && client.sent == old(client.sent) && client.answers == old(client.answers)
    ensures node != null ==>
              && client.sent == old(client.sent + [Request(node.name, Diff(node.Value(), Kickoff(dc, node.Value())))])
              && client.answers == Tail(old(client.answers)) && ok == Head(old(client.answers)).Some?
              && node.Value() == if ok then Head(old(client.answers)).value else Kickoff(dc, old(node.Value()))
  {
    if node == null {
      return true;
    }
    var nodeLabels := node.labels;
    if nodeLabels == null {
      nodeLabels := new LabelMap(map[]);
    }
    var nodeCopy := DeepCopy(node);
    nodeLabels.entries := nodeLabels.entries[dc.versionLabel := dc.Version()];
    node.labels := nodeLabels;
    ok := client.Patch(node, nodeCopy);
  }

  /** A struct copy shares the label map, so that no label edit ever shows against it. */
  lemma ShallowCopyHidesLabelEdits(node: NodeObject, copy: NodeObject)
    requires copy.labels == node.labels
    ensures var p := Diff(copy.Value(), node.Value()); !p.clear && p.labels == map[]
  {
  }

  // ----- One pass -----

  /** What a pass standing at op will have sent in the end, after sent, and whether it succeeds. */
  ghost function Ending(sent: seq<Request>, op: Op, answers: seq<Option<Node>>): (seq<Request>, bool) {
    var r := Requests(op, answers);
    (sent + r.0, r.1)
  }

  lemma DoneEnds(sent: seq<Request>, ok: bool, answers: seq<Option<Node>>)
    ensures Ending(sent, Done(ok), answers) == (sent, ok)
  {
    assert Requests(Done(ok), answers) == ([], ok);
    assert sent + [] == sent;
  }

  lemma StepEnds(sent: seq<Request>, op: Op, answers: seq<Option<Node>>)
    requires !op.Done?
    ensures Ending(sent, op, answers)
         == match Issue(op)
            case None => Ending(sent, Advance(op, None), answers)
            case Some(q) => Ending(sent + [q], Advance(op, Head(answers)), Tail(answers))
  {
    hide Issue, Advance;
    if Issue(op).Some? {
      var q := Issue(op).value;
      var rest := Requests(Advance(op, Head(answers)), Tail(answers));
      assert Requests(op, answers) == After(q, rest);
      assert sent + ([q] + rest.0) == sent + [q] + rest.0;
    }
  }

  /** Nothing is done when no version is wanted, and a list that fails fails the pass. Otherwise, whatever the cache
      holds and whatever the server answers, the patches sent and the error returned are those of the specified
      program on the listed nodes. */
  method HandleModuleVersionUpgrade(client: Client, dc: DeviceConfig) returns (ok: bool)
    modifies client`answers, client`sent
    ensures dc.Version() == "" ==> ok && client.sent == old(client.sent)
    ensures dc.Version() != "" && !client.listable ==> !ok && client.sent == old(client.sent)
    ensures dc.Version() != "" && client.listable ==>
              (client.sent, ok)
              == old(Ending(client.sent, Begin(dc, Select(dc.Selector(), client.cache)), client.answers))
  {
    hide Ending, Requests, UpgradedPick, UpgradePick, LastBefore, Select, Values;
    hide Matches, PhaseOf, IsNew, Tainted, Cordoned, ForeignTaints, Uncordon, Cordon, Kickoff, Diff;
    ghost var op := Begin(dc, Select(dc.Selector(), client.cache));
    ghost var ending := Ending(client.sent, op, client.answers);
    if dc.Version() == "" {
      return true;
    }
    var targeted;
    ok, targeted := client.List(dc.Selector());
    if !ok {
      return;
    }
    ghost var snap := Values(targeted);
    assert op == Listed(dc, snap);
    StepEnds(client.sent, op, client.answers);
    var node := GetUpgradedNode(dc, targeted);
    op := Advance(op, Head(client.answers));
    assert Values(targeted) == snap;
    ok := UncordonUpgradedNode(client, node);
    assert op == if ok then Uncordoned(dc, snap) else Done(false);
    assert Ending(client.sent, op, client.answers) == ending;
    if !ok {
      DoneEnds(client.sent, false, client.answers);
      return;
    }
    StepEnds(client.sent, op, client.answers);
    node := GetNodeForUpgrade(dc, targeted);
    assert Values(targeted) == snap;
    assert UpgradePick(dc, snap) == if node == null then None else Some(node.Value());
    op := Advance(op, Head(client.answers));
    ok := CordonNodeForUpgrade(client, dc, node);
    assert op == if ok then Kicking(dc, if node == null then None else Some(node.Value())) else Done(false);
    assert Ending(client.sent, op, client.answers) == ending;
    if !ok {
      DoneEnds(client.sent, false, client.answers);
      return;
    }
    StepEnds(client.sent, op, client.answers);
    op := Advance(op, Head(client.answers));
    ok := KickoffUpgrade(client, dc, node);
    assert op == Done(ok);
    DoneEnds(client.sent, ok, client.answers);
  }

  // ----- Removing the version label -----

  /** What the loop standing before the listed nodes will have sent in the end, and whether it succeeds. */
  ghost function LoopEnding(sent: seq<Request>, dc: DeviceConfig, listed: seq<Node>, answers: seq<Option<Node>>)
    : (seq<Request>, bool)
  {
    var r := Removals(dc, listed, answers);
    (sent + r.0, r.1)
  }

  lemma LoopEnds(sent: seq<Request>, dc: DeviceConfig, answers: seq<Option<Node>>)
    ensures LoopEnding(sent, dc, [], answers) == (sent, true)
  {
    assert sent + [] == sent;
  }

  lemma TurnEnds(sent: seq<Request>, dc: DeviceConfig, listed: seq<Node>, i: nat, answers: seq<Option<Node>>)
    requires i < |listed|
    ensures var sent' := sent + [Request(listed[i].name, Diff(listed[i], Unlabel(dc, listed[i])))];
            LoopEnding(sent, dc, listed[i..], answers)
            == if Head(answers).None? then (sent', false) else LoopEnding(sent', dc, listed[i + 1..], Tail(answers))
  {
    hide Diff;
    assert listed[i..][0] == listed[i] && listed[i..][1..] == listed[i + 1..];
    var q := Request(listed[i].name, Diff(listed[i], Unlabel(dc, listed[i])));
    var rest := Removals(dc, listed[i + 1..], Tail(answers));
    assert sent + ([q] + rest.0) == sent + [q] + rest.0;
    assert sent + ([q] + []) == sent + [q];
  }

  function VersionSelector(dc: DeviceConfig): Labels { map[dc.versionLabel := dc.Version()] }

  lemma VersionSelectorSelectsMarked(dc: DeviceConfig, n: Node)
    ensures Matches(VersionSelector(dc), n) <==> dc.V(n) == Some(dc.Version())
  {
    assert dc.versionLabel in VersionSelector(dc);
  }

  /** Each listed node loses its version label; the first patch that fails ends the loop. */
  method RemoveUpgradeLabels(client: Client, dc: DeviceConfig) returns (ok: bool)
    modifies client`answers, client`sent
    ensures client.listable ==>
              (client.sent, ok)
              == old(LoopEnding(client.sent, dc, Select(VersionSelector(dc), client.cache), client.answers))
    ensures !client.listable ==> !ok && client.sent == old(client.sent)
  {
    hide LoopEnding, Diff, Select, Values, Matches, LabelOf, VersionSelector;
    var selected;
    ok, selected := client.List(VersionSelector(dc));
    if !ok {
      return;
    }
    ghost var listed := Values(selected);
    ghost var ending := LoopEnding(client.sent, dc, listed, client.answers);
    assert listed[0..] == listed;
    for i := 0 to |selected|
      invariant Unshared(selected) && forall o | o in selected :: fresh(o) && o.labels != null && fresh(o.labels)
      invariant forall j | i <= j < |selected| :: selected[j].Value() == listed[j]
      invariant LoopEnding(client.sent, dc, listed[i..], client.answers) == ending
    {
      var node := new NodeObject(selected[i].name, selected[i].labels, selected[i].taints);
      assert node.Value() == listed[i];
      TurnEnds(client.sent, dc, listed, i, client.answers);
      var nodeCopy := DeepCopy(node);
      node.labels.entries := node.labels.entries - {dc.versionLabel};
      assert node.Value() == Unlabel(dc, listed[i]);
      ok := client.Patch(node, nodeCopy);
      if !ok {
        return;
      }
    }
    assert listed[|selected|..] == [];
    LoopEnds(client.sent, dc, client.answers);
    return true;
  }
}
