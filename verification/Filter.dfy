/**
 Which node events wake which DeviceConfigs.
 */
module Filter {
  import opened Nodes
  import opened Upgrade

  datatype NodeEvent =
    | Created(node: Node)
    | Updated(before: Node, after: Node)
    | Deleted(node: Node)
    | Generic(node: Node)
  {
    /** The map function is called on each of these: the old and the new object of an update. */
    function Objects(): set<Node> {
      match this
      case Updated(b, a) => {b, a}
      case _ => {node}
    }
  }

  /** An update, creation, deletion or generic function left out of a predicate answers true. */
  datatype Predicate = Predicate(
    created: Option<bool>, updated: Option<(Node, Node) -> bool>, deleted: Option<bool>, generic: Option<bool>)
  {
    predicate Passes(e: NodeEvent) {
      match e
      case Created(_) => created != Some(false)
      case Updated(b, a) => updated.None? || updated.value(b, a)
      case Deleted(_) => deleted != Some(false)
      case Generic(_) => generic != Some(false)
    }
  }

  const LABEL_CHANGED := Predicate(None, Some((b: Node, a: Node) => b.labels != a.labels), None, None)
  const ONLY_CREATED := Predicate(Some(true), Some((b: Node, a: Node) => false), Some(false), Some(false))

  predicate NodePredicate(e: NodeEvent) { LABEL_CHANGED.Passes(e) || ONLY_CREATED.Passes(e) }

  /** Nothing but an update that keeps the labels is filtered out: the delete and generic functions that answer
      false have no effect under Or. */
  lemma PredicateDropsOnlyLabelFreeUpdates(e: NodeEvent)
    ensures NodePredicate(e) <==> !(e.Updated? && e.before.labels == e.after.labels)
  {
  }

  /** A DeviceConfig is enqueued for an event that passes the predicate on an object its selector matches. */
  predicate Wakes(dc: DeviceConfig, e: NodeEvent) {
    NodePredicate(e) && exists n | n in e.Objects() :: dc.Targets(n)
  }

  // ----- Matching -----

  predicate ValidSelector(valid: (string, string) -> bool, selector: Labels) {
    forall k | k in selector :: valid(k, selector[k])
  }

  /** valid is the label syntax check of a requirement. The keys come in any order; the result is the same in all. */
  method IsObjectSelectedByLabels(n: Node, selector: Labels, valid: (string, string) -> bool)
    returns (ok: bool, selected: bool)
    ensures ok <==> forall k | k in selector :: valid(k, selector[k])
    ensures ok ==> (selected <==> forall k | k in selector :: k in n.labels && n.labels[k] == selector[k])
  {
    var requirements: set<(string, string)> := {};
    var left := selector.Keys;
    while left != {}
      invariant left <= selector.Keys
      invariant forall k | k in selector.Keys - left :: valid(k, selector[k]) && (k, selector[k]) in requirements
      invariant forall r | r in requirements :: r.0 in selector && r.1 == selector[r.0]
    {
      var k :| k in left;
      if !valid(k, selector[k]) {
        return false, false;
      }
      requirements := requirements + {(k, selector[k])};
      left := left - {k};
    }
    ok, selected := true, forall r | r in requirements :: LabelOf(n, r.0) == Some(r.1);
    assert selected ==> forall k | k in selector :: (k, selector[k]) in requirements;
  }

  /** The requests for a node, in list order: one for each DeviceConfig whose selector is valid and matches. */
  function RequestsFor(configs: seq<DeviceConfig>, n: Node, valid: (string, string) -> bool): (r: seq<(string, string)>)
    ensures forall dc | dc in configs && ValidSelector(valid, dc.Selector()) && dc.Targets(n) ::
              (dc.namespace, dc.name) in r
    ensures forall q | q in r ::
              exists dc | dc in configs ::
                q == (dc.namespace, dc.name) && ValidSelector(valid, dc.Selector()) && dc.Targets(n)
  {
    if configs == [] then []
    else
      var last := configs[|configs| - 1];
      assert configs == configs[..|configs| - 1] + [last];
      RequestsFor(configs[..|configs| - 1], n, valid)
      + (if ValidSelector(valid, last.Selector()) && last.Targets(n) then [(last.namespace, last.name)] else [])
  }

  /** One request for each matching DeviceConfig, in order. */
  lemma {:induction false} RequestsForAppend(
    a: seq<DeviceConfig>, b: seq<DeviceConfig>, n: Node, valid: (string, string) -> bool)
    ensures RequestsFor(a + b, n, valid) == RequestsFor(a, n, valid) + RequestsFor(b, n, valid)
    decreases |b|
  {
    if b == [] {
      assert a + b == a;
    } else {
      assert (a + b)[..|a + b| - 1] == a + b[..|b| - 1];
      RequestsForAppend(a, b[..|b| - 1], n, valid);
    }
  }

  lemma RequestsForOne(dc: DeviceConfig, n: Node, valid: (string, string) -> bool)
    ensures RequestsFor([dc], n, valid)
         == if ValidSelector(valid, dc.Selector()) && dc.Targets(n) then [(dc.namespace, dc.name)] else []
  {
    assert [dc][..0] == [];
  }

  /** A list error is swallowed: it yields no request at all. */
  method FindDeviceConfigForNodeChange(
    listable: bool, configs: seq<DeviceConfig>, n: Node, valid: (string, string) -> bool)
    returns (reqs: seq<(string, string)>)
    ensures !listable ==> reqs == []
    ensures listable ==> reqs == RequestsFor(configs, n, valid)
  {
    if !listable {
      return [];
    }
    reqs := [];
    for i := 0 to |configs|
      invariant reqs == RequestsFor(configs[..i], n, valid)
    {
      assert configs[..i + 1][..i] == configs[..i];
      var ok, selected := IsObjectSelectedByLabels(n, configs[i].Selector(), valid);
      if !ok {
        continue;
      }
      if !selected {
        continue;
      }
      reqs := reqs + [(configs[i].namespace, configs[i].name)];
    }
    assert configs[..|configs|] == configs;
  }
}
