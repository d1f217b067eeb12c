/**
 Three places work out the nodes of a DeviceConfig: the list of the upgrade, the map function of the node watch, and the
 selector of the Module.
 */
module NodeSets {
  import opened Nodes
  import opened Upgrade
  import opened Filter
  import opened UpgradeImpl
  import K = KmmModule

  predicate Enqueued(configs: seq<DeviceConfig>, dc: DeviceConfig, n: Node, valid: (string, string) -> bool) {
    (dc.namespace, dc.name) in RequestsFor(configs, n, valid)
  }

  /** Among the stored DeviceConfigs, and no other one has its namespace and name. */
  predicate Identified(configs: seq<DeviceConfig>, dc: DeviceConfig) {
    dc in configs && forall o | o in configs && o.namespace == dc.namespace && o.name == dc.name :: o == dc
  }

  /** A DeviceConfig with a valid selector is enqueued for a node exactly when it targets the node. */
  lemma EnqueuedExactlyWhenTargeted(
    configs: seq<DeviceConfig>, dc: DeviceConfig, n: Node, valid: (string, string) -> bool)
    requires Identified(configs, dc) && ValidSelector(valid, dc.Selector())
    ensures Enqueued(configs, dc, n, valid) <==> dc.Targets(n)
  {
  }

  /** The wake-ups of the protocol are those of the watch: the map function, called on the old and the new object of
      each event the predicate lets through. */
  lemma WakesExactlyWhenEnqueued(
    configs: seq<DeviceConfig>, dc: DeviceConfig, e: NodeEvent, valid: (string, string) -> bool)
    requires Identified(configs, dc) && ValidSelector(valid, dc.Selector())
    ensures Wakes(dc, e) <==> NodePredicate(e) && exists n | n in e.Objects() :: Enqueued(configs, dc, n, valid)
  {
    forall n ensures Enqueued(configs, dc, n, valid) <==> dc.Targets(n) {
      EnqueuedExactlyWhenTargeted(configs, dc, n, valid);
    }
  }

  /** With an explicit selector of valid labels the three agree on every node of every list. */
  lemma ExplicitSelectorsAgree(
    configs: seq<DeviceConfig>, dc: DeviceConfig, nodes: seq<Node>, n: Node, valid: (string, string) -> bool)
    requires Identified(configs, dc) && dc.selector.Some? && ValidSelector(valid, dc.selector.value) && n in nodes
    ensures n in Select(dc.Selector(), nodes) <==> Matches(K.NodeSelector(dc), n)
    ensures n in Select(dc.Selector(), nodes) <==> Enqueued(configs, dc, n, valid)
  {
    EnqueuedExactlyWhenTargeted(configs, dc, n, valid);
  }

  /** With a nil selector the upgrade lists, and the watch wakes for, every node; the Module selects those with the
      GPU label, so the three agree on a node exactly when it has that label. */
  lemma NilSelectorAgreesExactlyOnGpuNodes(
    configs: seq<DeviceConfig>, dc: DeviceConfig, nodes: seq<Node>, n: Node, valid: (string, string) -> bool)
    requires Identified(configs, dc) && dc.selector.None? && n in nodes
    ensures n in Select(dc.Selector(), nodes) && Enqueued(configs, dc, n, valid)
    ensures Matches(K.NodeSelector(dc), n) <==> LabelOf(n, K.GPU_LABEL) == Some("true")
  {
    EnqueuedExactlyWhenTargeted(configs, dc, n, valid);
    assert K.GPU_LABEL in K.NodeSelector(dc);
  }
}
