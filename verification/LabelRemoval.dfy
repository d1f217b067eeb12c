/**
 What the label removal loop leaves in the cluster, and why retrying it finishes.
 */
module LabelRemoval {
  import opened Nodes
  import opened Upgrade

  predicate Marked(dc: DeviceConfig, n: Node) { dc.V(n) == Some(dc.Version()) }

  function MarkedNames(dc: DeviceConfig, c: Cluster): set<string> { set x | x in c && Marked(dc, c[x]) }

  /** listed holds live nodes, each once. */
  predicate Lists(c: Cluster, listed: seq<Node>) {
    && (forall n | n in listed :: n.name in c && c[n.name] == n)
    && (forall i, j | 0 <= i < j < |listed| :: listed[i].name != listed[j].name)
  }

  /** What the server answers when the writes fare as in outcomes. */
  function Answers(dc: DeviceConfig, listed: seq<Node>, outcomes: seq<Outcome>): seq<Option<Node>>
    decreases |listed|
  {
    if listed == [] || outcomes == [] then []
    else [if outcomes[0].Applied? then Some(Unlabel(dc, listed[0])) else None] + Answers(dc, listed[1..], outcomes[1..])
  }

  /** The cluster after these requests with these outcomes; a request without an outcome is lost. */
  function Written(c: Cluster, requests: seq<Request>, outcomes: seq<Outcome>): Cluster
    decreases |requests|
  {
    if requests == [] || outcomes == [] then c
    else
      var q := requests[0];
      var c' := if q.name in c && !outcomes[0].Lost? then Put(c, Merge(c[q.name], q.patch)) else c;
      Written(c', requests[1..], outcomes[1..])
  }

  /** c with the version label taken off the named nodes. */
  function Without(dc: DeviceConfig, c: Cluster, names: set<string>): Cluster {
    map x | x in c :: if x in names then Unlabel(dc, c[x]) else c[x]
  }

  /** How many of the listed nodes lose their label: those before the first failure, and the failing one if its
      patch was applied after all. */
  function Reach(listed: seq<Node>, outcomes: seq<Outcome>): (r: nat)
    ensures r <= |listed| && r <= |outcomes|
    decreases |listed|
  {
    if listed == [] || outcomes == [] || outcomes[0].Lost? then 0
    else if outcomes[0].Errored? then 1
    else 1 + Reach(listed[1..], outcomes[1..])
  }

  predicate AllAccepted(listed: seq<Node>, outcomes: seq<Outcome>) {
    |listed| <= |outcomes| && forall i | 0 <= i < |listed| :: outcomes[i].Applied?
  }

  function NamesOf(listed: seq<Node>): set<string> { set n | n in listed :: n.name }

  lemma ListsRest(dc: DeviceConfig, c: Cluster, listed: seq<Node>)
    requires Lists(c, listed) && listed != []
    ensures var c' := Put(c, Unlabel(dc, listed[0])); Lists(c', listed[1..]) && Lists(c, listed[1..])
  {
    assert listed[0] in listed;
    forall n | n in listed[1..] ensures n in listed && n.name != listed[0].name {
      var i :| 0 <= i < |listed[1..]| && listed[1..][i] == n;
      assert listed[i + 1] == n;
    }
    forall i, j | 0 <= i < j < |listed[1..]| ensures listed[1..][i].name != listed[1..][j].name {
      assert listed[i + 1].name != listed[j + 1].name;
    }
  }

  lemma WithoutOneMore(dc: DeviceConfig, c: Cluster, n: Node, names: set<string>)
    requires n.name in c && c[n.name] == n && n.name !in names
    ensures Without(dc, Put(c, Unlabel(dc, n)), names) == Without(dc, c, names + {n.name})
  {
  }

  lemma NamesOfPrefix(listed: seq<Node>, r: nat)
    requires 0 < r <= |listed|
    ensures NamesOf(listed[..r]) == NamesOf(listed[1..][..r - 1]) + {listed[0].name}
  {
    assert listed[..r] == [listed[0]] + listed[1..][..r - 1];
  }

  lemma NamesOfRest(listed: seq<Node>, r: nat)
    requires r <= |listed| - 1
    requires forall i, j | 0 <= i < j < |listed| :: listed[i].name != listed[j].name
    ensures listed[0].name !in NamesOf(listed[1..][..r])
  {
    forall n | n in listed[1..][..r] ensures n.name != listed[0].name {
      var i :| 0 <= i < r && listed[1..][..r][i] == n;
      assert listed[i + 1] == n;
    }
  }

  function UnlabelRequest(dc: DeviceConfig, n: Node): Request { Request(n.name, Diff(n, Unlabel(dc, n))) }

  lemma RemovalsCons(dc: DeviceConfig, listed: seq<Node>, outcomes: seq<Outcome>)
    requires listed != [] && outcomes != []
    ensures Removals(dc, listed, Answers(dc, listed, outcomes))
         == After(UnlabelRequest(dc, listed[0]),
                  if outcomes[0].Applied? then Removals(dc, listed[1..], Answers(dc, listed[1..], outcomes[1..]))
                  else ([], false))
  {
    assert Answers(dc, listed, outcomes)[1..] == Answers(dc, listed[1..], outcomes[1..]);
  }

  lemma WrittenCons(dc: DeviceConfig, c: Cluster, n: Node, requests: seq<Request>, outcomes: seq<Outcome>)
    requires n.name in c && c[n.name] == n && outcomes != []
    ensures Written(c, [UnlabelRequest(dc, n)] + requests, outcomes)
         == Written(if outcomes[0].Lost? then c else Put(c, Unlabel(dc, n)), requests, outcomes[1..])
  {
    MergeDiff(n, Unlabel(dc, n));
    assert ([UnlabelRequest(dc, n)] + requests)[1..] == requests;
  }

  lemma WithoutNone(dc: DeviceConfig, c: Cluster)
    ensures Without(dc, c, {}) == c
  {
  }

  lemma AllAcceptedCons(listed: seq<Node>, outcomes: seq<Outcome>)
    requires listed != [] && outcomes != []
    ensures AllAccepted(listed, outcomes) <==> outcomes[0].Applied? && AllAccepted(listed[1..], outcomes[1..])
  {
    if AllAccepted(listed[1..], outcomes[1..]) {
      assert forall i | 0 < i < |listed| :: outcomes[i] == outcomes[1..][i - 1];
    }
  }

  /** Exactly the first nodes of the list, up to the first failure, lose their label; nothing else changes; and the
      loop reports success exactly when every patch was accepted. */
  lemma {:induction false} LoopUnlabelsAPrefix(dc: DeviceConfig, c: Cluster, listed: seq<Node>, outcomes: seq<Outcome>)
    requires Lists(c, listed)
    ensures var r := Removals(dc, listed, Answers(dc, listed, outcomes));
            && Written(c, r.0, outcomes) == Without(dc, c, NamesOf(listed[..Reach(listed, outcomes)]))
            && (r.1 <==> AllAccepted(listed, outcomes))
    decreases |listed|
  {
    hide Diff, Removals, Unlabel, Merge, Without;
    if listed == [] || outcomes == [] {
      NothingWritten(dc, c, listed, outcomes);
    } else {
      var n, rest, later := listed[0], listed[1..], outcomes[1..];
      var below := if outcomes[0].Applied? then Removals(dc, rest, Answers(dc, rest, later)) else ([], false);
      assert n in listed;
      RemovalsCons(dc, listed, outcomes);
      WrittenCons(dc, c, n, below.0, outcomes);
      AllAcceptedCons(listed, outcomes);
      var c' := Put(c, Unlabel(dc, n));
      if outcomes[0].Applied? {
        ListsRest(dc, c, listed);
        LoopUnlabelsAPrefix(dc, c', rest, later);
        NamesOfRest(listed, Reach(rest, later));
        WithoutOneMore(dc, c, n, NamesOf(rest[..Reach(rest, later)]));
        NamesOfPrefix(listed, Reach(listed, outcomes));
      } else if outcomes[0].Errored? {
        NamesOfPrefix(listed, 1);
        assert NamesOf(listed[..1]) == {} + {n.name};
        WithoutOneMore(dc, c, n, {});
        WithoutNone(dc, c');
      } else {
        assert NamesOf(listed[..0]) == {};
        WithoutNone(dc, c);
      }
    }
  }

  lemma NothingWritten(dc: DeviceConfig, c: Cluster, listed: seq<Node>, outcomes: seq<Outcome>)
    requires listed == [] || outcomes == []
    ensures var r := Removals(dc, listed, Answers(dc, listed, outcomes));
            && Written(c, r.0, outcomes) == Without(dc, c, NamesOf(listed[..Reach(listed, outcomes)]))
            && (r.1 <==> AllAccepted(listed, outcomes))
  {
    WithoutNone(dc, c);
    if outcomes == [] && listed != [] { LostRequest(dc, c, listed[0]); }
  }

  lemma LostRequest(dc: DeviceConfig, c: Cluster, n: Node)
    ensures Written(c, [UnlabelRequest(dc, n)], []) == c
  {
  }

  /** Nothing but version labels differs, and those that differ are gone. */
  ghost predicate KeepsTheRest(dc: DeviceConfig, c: Cluster, c': Cluster) {
    && c'.Keys == c.Keys
    && (forall x | x in c :: c'[x].taints == c[x].taints)
    && (forall x | x in c :: dc.V(c'[x]) == dc.V(c[x]) || dc.V(c'[x]) == None)
    && (forall x, k | x in c && k != dc.versionLabel :: LabelOf(c'[x], k) == LabelOf(c[x], k))
  }

  /** A successful loop over all marked nodes leaves none marked; after any loop as many fewer are marked as were
      reached. */
  lemma LoopMakesProgress(dc: DeviceConfig, c: Cluster, listed: seq<Node>, outcomes: seq<Outcome>)
    requires Lists(c, listed) && NamesOf(listed) == MarkedNames(dc, c)
    ensures var r := Removals(dc, listed, Answers(dc, listed, outcomes));
            var c' := Written(c, r.0, outcomes);
            && MarkedNames(dc, c') == MarkedNames(dc, c) - NamesOf(listed[..Reach(listed, outcomes)])
            && |MarkedNames(dc, c')| == |MarkedNames(dc, c)| - Reach(listed, outcomes)
            && (r.1 ==> MarkedNames(dc, c') == {})
            && KeepsTheRest(dc, c, c')
  {
    hide Removals, Written, Answers, Diff, Unlabel, Without, Reach, MarkedNames, NamesOf, KeepsTheRest;
    LoopUnlabelsAPrefix(dc, c, listed, outcomes);
    var r := Reach(listed, outcomes);
    NamesAreCounted(listed, r);
    PrefixNames(listed, r);
    SizeOfRest(NamesOf(listed), NamesOf(listed[..r]));
    WithoutKeepsTheRest(dc, c, NamesOf(listed[..r]));
    if AllAccepted(listed, outcomes) {
      FullReach(listed, outcomes);
      assert listed[..r] == listed;
    }
  }

  /** One call of the loop: the nodes it listed and how its writes fared. */
  datatype Attempt = Attempt(listed: seq<Node>, outcomes: seq<Outcome>)

  function Attempted(dc: DeviceConfig, c: Cluster, a: Attempt): Cluster {
    Written(c, Removals(dc, a.listed, Answers(dc, a.listed, a.outcomes)).0, a.outcomes)
  }

  /** Each call lists the nodes marked when it starts, and its first patch, if any, is applied. */
  predicate AreAttempts(dc: DeviceConfig, c: Cluster, attempts: seq<Attempt>)
    decreases |attempts|
  {
    attempts == []
    || (var a := attempts[0];
        && Lists(c, a.listed) && NamesOf(a.listed) == MarkedNames(dc, c)
        && (a.listed != [] ==> a.outcomes != [] && !a.outcomes[0].Lost?)
        && AreAttempts(dc, Attempted(dc, c, a), attempts[1..]))
  }

  function AfterAttempts(dc: DeviceConfig, c: Cluster, attempts: seq<Attempt>): Cluster
    decreases |attempts|
  {
    if attempts == [] then c else AfterAttempts(dc, Attempted(dc, c, attempts[0]), attempts[1..])
  }

  /** However the later patches fare, each retry takes the label off at least one more node, until none has it. */
  lemma {:induction false} RetryingFinishes(dc: DeviceConfig, c: Cluster, attempts: seq<Attempt>)
    requires AreAttempts(dc, c, attempts)
    ensures var c' := AfterAttempts(dc, c, attempts);
            && |MarkedNames(dc, c')|
               <= (if |MarkedNames(dc, c)| <= |attempts| then 0 else |MarkedNames(dc, c)| - |attempts|)
            && KeepsTheRest(dc, c, c')
    decreases |attempts|
  {
    hide Removals, Written, Answers, MarkedNames, NamesOf, Lists, LabelOf;
    if attempts != [] {
      var a, c' := attempts[0], Attempted(dc, c, attempts[0]);
      LoopMakesProgress(dc, c, a.listed, a.outcomes);
      if a.listed == [] { NoNames(); }
      RetryingFinishes(dc, c', attempts[1..]);
    }
  }

  lemma NoNames()
    ensures NamesOf([]) == {}
  {
  }

  lemma PrefixNames(listed: seq<Node>, r: nat)
    requires r <= |listed|
    ensures NamesOf(listed[..r]) <= NamesOf(listed)
  {
    assert forall n | n in listed[..r] :: n in listed;
  }

  lemma SizeOfRest(all: set<string>, gone: set<string>)
    requires gone <= all
    ensures |all - gone| == |all| - |gone|
  {
    assert all == gone + (all - gone);
  }

  lemma WithoutKeepsTheRest(dc: DeviceConfig, c: Cluster, names: set<string>)
    ensures var c' := Without(dc, c, names);
            && MarkedNames(dc, c') == MarkedNames(dc, c) - names
            && KeepsTheRest(dc, c, c')
  {
    assert forall x | x in c && x in names :: dc.V(Unlabel(dc, c[x])) == None;
  }

  lemma {:induction false} NamesAreCounted(listed: seq<Node>, r: nat)
    requires r <= |listed| && forall i, j | 0 <= i < j < |listed| :: listed[i].name != listed[j].name
    ensures |NamesOf(listed[..r])| == r
  {
    if r > 0 {
      NamesAreCounted(listed, r - 1);
      assert listed[..r] == listed[..r - 1] + [listed[r - 1]];
      assert NamesOf(listed[..r]) == NamesOf(listed[..r - 1]) + {listed[r - 1].name};
    }
  }

  lemma {:induction false} FullReach(listed: seq<Node>, outcomes: seq<Outcome>)
    requires AllAccepted(listed, outcomes)
    ensures Reach(listed, outcomes) == |listed|
    decreases |listed|
  {
    if listed != [] {
      AllAcceptedCons(listed, outcomes);
      FullReach(listed[1..], outcomes[1..]);
    }
  }
}
