/**
 Nodes as the API server stores them, label selectors, and the JSON Merge Patch
 (section 2 of RFC 7396) that every write to a node goes through.
 */
module Nodes {

  datatype Option<+T> = None | Some(value: T)

  /** What becomes of a write: a write that returns an error may still have been applied. */
  datatype Outcome = Lost | Errored | Applied

  type Labels = map<string, string>

  datatype Taint = Taint(key: string, value: string, effect: string)

  datatype Node = Node(name: string, labels: Labels, taints: seq<Taint>)

  /** The live nodes, keyed by name. */
  type Cluster = c: map<string, Node> | forall x | x in c :: c[x].name == x

  function Put(c: Cluster, n: Node): Cluster { c[n.name := n] }

  function PutSome(c: Cluster, n: Option<Node>): Cluster { if n.Some? then Put(c, n.value) else c }

  function PutBoth(c: Cluster, es: (Option<Node>, Option<Node>)): Cluster { PutSome(PutSome(c, es.0), es.1) }

  function LabelOf(n: Node, key: string): Option<string> {
    if key in n.labels then Some(n.labels[key]) else None
  }

  /** Equality-based selector matching. */
  predicate Matches(selector: Labels, n: Node) {
    forall k | k in selector :: LabelOf(n, k) == Some(selector[k])
  }

  /** Every entry of the selector counts, whatever others there are. */
  lemma MatchesEachEntry(selector: Labels, key: string, value: string, n: Node)
    requires key !in selector
    ensures Matches(map[], n)
    ensures Matches(selector[key := value], n) <==> Matches(selector, n) && key in n.labels && n.labels[key] == value
  {
    var all := selector[key := value];
    assert all[key] == value && forall k | k in selector :: k in all && all[k] == selector[k];
  }

  /** A merge patch on a node: clear says that the label map as a whole is null, a label mapped to None is null by
      itself, a missing taints entry leaves the list alone, and a present one replaces the whole list. */
  datatype Patch = Patch(clear: bool, labels: map<string, Option<string>>, taints: Option<seq<Taint>>)

  datatype Request = Request(name: string, patch: Patch)

  /** An empty label map is left out of the serialized object, so that taking the last label away nulls the whole
      map. */
  predicate Clears(from: Labels, to: Labels) { from != map[] && to == map[] }

  /** The patch computed from an earlier copy of an object and its edited form. */
  function Diff(from: Node, to: Node): Patch {
    Patch(Clears(from.labels, to.labels),
          map k | k in from.labels.Keys + to.labels.Keys
                  && LabelOf(from, k) != LabelOf(to, k) && !Clears(from.labels, to.labels) :: LabelOf(to, k),
          if from.taints == to.taints then None else Some(to.taints))
  }

  /** The server's side: the patch merged into whatever is stored. */
  function Merge(n: Node, p: Patch): (r: Node)
    ensures r.name == n.name
    ensures forall k :: LabelOf(r, k) == if k in p.labels then p.labels[k] else if p.clear then None else LabelOf(n, k)
  {
    var kept := if p.clear then map[] else n.labels;
    n.(labels := map k | k in kept.Keys + p.labels.Keys && (k in p.labels ==> p.labels[k].Some?)
                   :: if k in p.labels then p.labels[k].value else kept[k],
       taints := if p.taints.Some? then p.taints.value else n.taints)
  }

  /** Two nodes with the same label at every key have the same label map. */
  lemma SameLabels(a: Node, b: Node)
    requires forall k :: LabelOf(a, k) == LabelOf(b, k)
    ensures a.labels == b.labels
  {
    forall k ensures (k in a.labels) == (k in b.labels) && (k in a.labels ==> a.labels[k] == b.labels[k]) {
      assert LabelOf(a, k) == LabelOf(b, k);
    }
  }

  /** Merging a diff into the object it was computed from yields the edited object. */
  lemma MergeDiff(from: Node, to: Node)
    requires from.name == to.name
    ensures Merge(from, Diff(from, to)) == to
  {
    SameLabels(Merge(from, Diff(from, to)), to);
  }
}
