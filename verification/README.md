# A verified model of the GPU operator's rolling driver upgrade

The operator keeps a driver version on the nodes a `DeviceConfig` selects. Two node labels carry the upgrade: the
*version label* V, written by the operator, says which version a node is to run; the *ready label* R, written by KMM
(Kernel Module Management), says which version it runs. A node is *before* the upgrade while V differs from the wanted
version, *in upgrade* while V is the wanted version and R is not, and *upgraded* when both are. One reconcile lists the
nodes, takes the upgrade taint off the first upgraded node that has it, picks the last node before the upgrade unless
one is in upgrade, taints it unless it has no V yet, and writes V. Every step is one patch, which may be lost, applied,
or applied and reported as failed.

Nothing in the code states what this adds up to. The project states it, proves it over all runs, and says where it ends.

| file | what it holds |
|---|---|
| `Nodes.dfy` | nodes, selectors, JSON Merge Patch (section 2 of RFC 7396) |
| `Upgrade.dfy` | what one pass decides, as functions of the list it read, and its program as an automaton |
| `UpgradeImpl.dfy` | the helper as it runs, with shared label maps and deep copies, proved against those functions |
| `Protocol.dfy` | the state machine: pass, KMM, other writers, joins, removals, spec edits, restarts, the work queue |
| `InFlight.dfy`, `Stale.dfy` | bounds on the nodes in flight, with current reads and with arbitrarily old ones |
| `StaleTaint.dfy` | what old reads do to the taint: cordon before kickoff survives them, and when exactly an upgraded node is cordoned |
| `Taints.dfy`, `Conservation.dfy`, `Cleanup.dfy` | cordon before kickoff, other taints kept, what uncordoning clears |
| `OneTaint.dfy`, `PastTaint.dfy`, `SecondTaint.dfy` | one taint at a time, what of it holds in any list order, when exactly it fails |
| `Quiescence.dfy`, `Wakeup.dfy`, `Filter.dfy`, `NodeSets.dfy` | when a pass has nothing to do, why no wake-up is lost, which nodes wake which DeviceConfig |
| `Pass.dfy`, `Termination.dfy`, `Writes.dfy`, `Totals.dfy` | whole successful passes, when exactly the upgrade finishes, a bound on single writes |
| `Interference.dfy`, `SharedTaint.dfy` | two DeviceConfigs over one cluster and one taint key |
| `Reach.dfy`, `Limits.dfy` | runs that break the taint bound once the list order changes, and lose a wake-up once the version does or a read is old |
| `Patches.dfy`, `LabelRemoval.dfy` | patches against newer nodes; the label removal loop |
| `KmmModule.dfy`, `Lifecycle.dfy` | the KMM Module, the finalizer and the end of a DeviceConfig |

## Hypotheses

They are predicates of the model, never part of its types, and each theorem names those it needs.

- `DeviceConfig.WellFormed`: V and R are distinct label names and the selector mentions neither. `Interference.Apart`
  says the same of two DeviceConfigs.
- `Protocol.Enabled`: KMM leaves R alone once it equals V (until then it may write or remove anything); only the operator
  writes V and only KMM writes R; a joining node has no V; an edit keeps the selector. A node may leave and join again
  under its name at any time.
- `Protocol.Discipline`: the further hypotheses, each with what else it asks for.
  - `Current`: current reads; a node relabelled into the selection is not in flight.
  - `Watched`: current reads; nobody else takes the upgrade taint off.
  - `Exclusive`: current reads; nobody else edits taints during a pass, and no node joins under a name the pass has read.
  - `Loose`: current reads; one version; targeted nodes get the upgrade key, or another effect under it, from nobody
    else, neither by an edit nor by joining or being relabelled with it.
  - `Steady`: that, one list order, and a node relabelled into the selection has no V.
  - `Sole`: current reads; one version; the same nodes; the operator and KMM alone write, and KMM reports only the V a node has.
  - `Lagging`: reads of any age; one version; nobody else takes the upgrade taint off.
  - `Frozen`: reads of any age; one version; one list order; no joins and no relabelling in or out of the selection.
- `Lifecycle.Current`: a reconcile is given the current DeviceConfig and looks the current Module up, although the code
  reads both through the manager's cache; and nobody else adds or removes the operator's finalizer. One reconcile per
  DeviceConfig runs at a time, and nobody else makes a Module of its name.
- A pass may work on a DeviceConfig that was edited after the pass was given it; the edit's own request is then pending.
- An error ends a pass and requeues the request, as controller-runtime does. A pass whose list call fails does not begin.

## What turned out false, and exactly when it holds

- A successful pass over the current state can leave work behind with no request to do it. `Pass.WorkLeftUnrequestedExactly`
  gives the exact condition; `Wakeup.NoLostWakeup` shows that it never arises while the version stays, in whatever order
  nodes are listed, and `Limits.EditsCanLoseAWakeup` reaches it by editing the version away and back.
- The taint bound is lost when the list order changes, and nothing sorts the list. `SecondTaint.PassTaintsTwoExactly` says
  which passes lose it, `SecondTaint.OneOrderNeverCordonsBesides` that one order excludes them, and
  `Limits.ChangingOrderTaintsTwo` reaches one. In any order at most one taint outlives its kickoff:
  `PastTaint.AtMostOneToUncordon`.
- Old reads put no second node in flight and let no kickoff overtake its cordon: `Stale.AtMostOneInUpgradeThoughStale`,
  `StaleTaint.CordonBeforeKickoffThoughStale`. But they can taint a node that is upgraded by now, and leave it so:
  `StaleTaint.PassCordonsUpgradedExactly` says which passes do, and `Limits.StaleReadForgetsATaint` reaches one. That is
  why the taint bounds and `Wakeup.NoLostWakeup` ask for current reads.
- A Module can outlive the finalizer. `Lifecycle.StepKeepsSafeExactly` says which steps let it, for reads of any age:
  `Lifecycle.StaleLookupOrphansModule` is a lookup in a cache that has not seen the Module yet.
- Taking the version label away nulls the whole label map if the copy had no other label, and then takes away what a live
  node has gained since: `Patches.UnlabelPatchFitsExactly`.
- The upgrade need not finish. `Termination.UpgradeFinishesExactly` says when it does, for every selector and driver;
  `Termination.UnfitPickStalls` and `Termination.UnfitNodes` say how it stalls. Under a nil selector, for one, the upgrade
  covers every node and the Module only those with the GPU label: `NodeSets.NilSelectorAgreesExactlyOnGpuNodes`.
- Two DeviceConfigs that target one node share its taint. `SharedTaint.TurnCostsCordonExactly` says which turn takes it
  from the other, and `SharedTaint.OverlapDefeatsCordon` reaches a kickoff without it.
- Uncordoning looks at key and effect, detection at the key alone: `Pass.UncordonEffectiveExactlyWhenClean`,
  `Cleanup.UncleanNodeShadowsTheRest`.
- The delete and generic functions of the node predicate answer false but have no effect, because the predicate they are
  joined to by Or answers true: `Filter.PredicateDropsOnlyLabelFreeUpdates`. The model follows the code.
- `finalizeDeviceConfig` clears neither taints nor V labels, and `RemoveUpgradeLabels` has no caller; nothing is claimed
  about the nodes of a deleted DeviceConfig.

## Model

| member | source | states |
|---|---|---|
| UpgradeImpl.Client.List | internal/upgrade/upgrade.go:60-69 | the listed items are the selected nodes of the cache in order, as objects that share nothing |
| UpgradeImpl.SelectAppend | internal/upgrade/upgrade.go:60-69 | the list goes through the cache piece by piece, in order |
| UpgradeImpl.SelectOne | internal/upgrade/upgrade.go:60-69 | a node is listed exactly if it matches |
| Nodes.MatchesEachEntry | internal/filter/filter.go:86-99 | every entry of a selector counts, whatever others there are, and an empty one matches every node |
| UpgradeImpl.Client.Patch | internal/upgrade/upgrade.go:103-105 | the patch sent is the difference from the copy; a successful answer replaces the object |
| UpgradeImpl.GetUpgradedNode | internal/upgrade/upgrade.go:71-79 | the loop returns the first upgraded node with the taint key, as a copy that shares its label map |
| UpgradeImpl.UncordonUpgradedNode | internal/upgrade/upgrade.go:81-106 | sends exactly the patch that removes every taint of that key and effect, and nothing for no node |
| UpgradeImpl.GetNodeForUpgrade | internal/upgrade/upgrade.go:108-123 | the loop returns the last node before the upgrade, or none if one is in upgrade anywhere |
| UpgradeImpl.CordonNodeForUpgrade | internal/upgrade/upgrade.go:125-152 | sends exactly the patch that appends the taint; nothing for no node, a new one or one that has the taint |
| UpgradeImpl.KickoffUpgrade | internal/upgrade/upgrade.go:154-170 | although the label map is shared and changed in place, the patch is that of writing V on the node as it was |
| UpgradeImpl.RemoveUpgradeLabels | internal/upgrade/upgrade.go:172-194 | patches and error are those of the specified loop, whatever is listed and answered |
| UpgradeImpl.VersionSelectorSelectsMarked | internal/upgrade/upgrade.go:176-178 | the loop lists exactly the nodes whose V is the configured version |
| UpgradeImpl.IsNodeTainted | internal/upgrade/upgrade.go:215-222 | the loop finds a taint with the upgrade key, of any effect |
| UpgradeImpl.HandleModuleVersionUpgrade | internal/controllers/device_config_reconciler.go:247-272 | nothing is done for no version, a failed list fails the pass, and otherwise, whatever is cached and answered, patches and error are those of the specified program |
| Upgrade.RequestsInFull | internal/controllers/device_config_reconciler.go:259-271 | that program in plain terms: uncordon, cordon unless new or tainted, kickoff of the pick or of the server's copy of it; the first patch that fails is the last, and the pass succeeds exactly if none fails |
| Upgrade.ForeignTaintsAppend | internal/upgrade/upgrade.go:95-102 | removal goes through the list piece by piece: what stays, stays in order and as often as it was there |
| Upgrade.ForeignTaintsOne | internal/upgrade/upgrade.go:97-102 | a taint is removed exactly for the upgrade key and the NoExecute effect |
| Upgrade.UpgradedPickMeaning | internal/upgrade/upgrade.go:71-79 | there is a node to uncordon exactly when some listed node is upgraded and tainted |
| Upgrade.UpgradedPickIsFirst | internal/upgrade/upgrade.go:71-79 | and it is the first of them |
| Upgrade.UpgradePickMeaning | internal/upgrade/upgrade.go:108-123 | there is a pick exactly when some node is before the upgrade and none, before or after it in the list, is in upgrade; it is the last one |
| Quiescence.QuiescentExactlyWhenNoWorkLeft | internal/controllers/device_config_reconciler.go:247-272 | a pass sends no patch if and only if the cluster has no upgraded tainted node and either a node in upgrade or none before it |
| Protocol.PassWrites | internal/upgrade/upgrade.go:103-105 | merged into any live node, a pass's patch changes no label but V, and V only at kickoff, when it keeps the taints |
| Protocol.PassesRunTheProgram | internal/controllers/device_config_reconciler.go:247-272 | however other events come between its patches, a pass sends the patches, and ends with the result, of the program the method above is proved to run |
| InFlight.OnlyKickoffStartsFlights | internal/upgrade/upgrade.go:154-170 | of all events only a kickoff puts a node in flight, unless one enters the selection in flight |
| InFlight.AtMostOneInFlightPerVersion | internal/upgrade/upgrade.go:108-123 | for every version at most one targeted node is in flight to it, through version edits, also between the read of the DeviceConfig and the list, joins, failed and half-failed patches and restarts |
| InFlight.FlightsBoundedByVersions | internal/upgrade/upgrade.go:196-207 | the nodes in flight never outnumber the distinct versions asked for or given to a pass in the run |
| Stale.StalePickIsCurrentOrDone | internal/controllers/device_config_reconciler.go:252-271 | a pick from any past list is gone, already has V, or is the pick from the current list |
| Stale.AtMostOneInUpgradeThoughStale | internal/upgrade/upgrade.go:108-123 | at most one node is ever in upgrade although every pass may read any past state |
| Taints.CordonBeforeKickoff | internal/upgrade/upgrade.go:125-170 | any event of any run that changes V finds the node without V or carrying the taint |
| StaleTaint.CordonBeforeKickoffThoughStale | internal/upgrade/upgrade.go:125-170 | the same with one version and reads of any age |
| StaleTaint.PassCordonsUpgradedExactly | internal/controllers/device_config_reconciler.go:252-271 | however old the list and whatever becomes of the patches, a pass taints an upgraded target exactly when its pick, listed labelled and untainted, is one by now and the taint patches get through |
| StaleTaint.StaleCordonIsForgotten | internal/controllers/device_config_reconciler.go:104-141 | such a pass, if its patches are accepted, ends without an error, with the node upgraded under the taint and no request |
| Taints.CordonPatch | internal/upgrade/upgrade.go:149-151 | on any live node the cordon patch leaves the taints that were read and the upgrade taint last |
| Taints.UncordonPatch | internal/upgrade/upgrade.go:95-105 | on any live node the uncordon patch leaves the foreign taints that were read, or changes nothing if there was none to remove |
| OneTaint.AtMostOneTainted | internal/controllers/device_config_reconciler.go:259-271 | with one version and list order no two targeted nodes are ever tainted together, whatever fails |
| OneTaint.RunKeepsOrder | internal/upgrade/upgrade.go:108-152 | no labelled node to be upgraded comes after a tainted one, so a failed kickoff picks that one again |
| PastTaint.AtMostOneToUncordon | internal/controllers/device_config_reconciler.go:259-271 | in whatever order each list comes, at most one node that was asked for the wanted version still carries the taint |
| Conservation.UncordonUndoesCordon | internal/upgrade/upgrade.go:95-106 | uncordon after cordon gives the original list back when it had no such taint; uncordoning twice is uncordoning once |
| Conservation.ForeignTaintsAreConserved | internal/upgrade/upgrade.go:95-151 | over any run a node's other taints are, in order, those that others last gave it |
| Pass.PassMakesTheTwoEdits | internal/controllers/device_config_reconciler.go:259-271 | the patches of an undisturbed pass add up to its two edits, and it is called again exactly when it kicked a node off |
| Pass.UncordonEffectiveExactlyWhenClean | internal/upgrade/upgrade.go:97-102 | an uncordoned node stops being detected exactly when all its taints with the key are NoExecute |
| Pass.WorkLeftUnrequestedExactly | internal/controllers/device_config_reconciler.go:104-141 | the exact condition, in any list order, for work left and no request after a successful pass: no kickoff is due, and two nodes are to be uncordoned or one keeps a taint of another effect |
| Cleanup.SweepClearsOnePerPass | internal/upgrade/upgrade.go:71-106 | on an upgraded cluster k passes uncordon k of the tainted nodes, in whatever orders they are listed |
| Cleanup.UncleanNodeShadowsTheRest | internal/upgrade/upgrade.go:215-222 | a first node whose taint has another effect keeps all later ones from being uncordoned, for any number of passes |
| Filter.PredicateDropsOnlyLabelFreeUpdates | internal/filter/filter.go:29-39 | an event is filtered out exactly when it is an update that keeps the labels |
| Filter.IsObjectSelectedByLabels | internal/filter/filter.go:86-99 | whatever the order of iteration: an error exactly for an invalid selector, else selector matching |
| Filter.FindDeviceConfigForNodeChange | internal/filter/filter.go:45-84 | no request if the list fails, else those of the DeviceConfigs with valid matching selectors, in order |
| Filter.RequestsFor | internal/filter/filter.go:62-78 | a request is made for a DeviceConfig exactly when its selector is valid and matches |
| Filter.RequestsForAppend | internal/filter/filter.go:62-78 | the loop goes through the DeviceConfigs one by one, in order |
| Filter.RequestsForOne | internal/filter/filter.go:62-78 | each yields one request, with its namespace and name, exactly if its selector is valid and matches |
| NodeSets.WakesExactlyWhenEnqueued | internal/controllers/device_config_reconciler.go:79-83 | an event makes a request pending exactly when the watch lets it through and maps one of its objects to the DeviceConfig |
| NodeSets.ExplicitSelectorsAgree | internal/kmmmodule/kmmmodule.go:179-187 | with an explicit selector the listed nodes, the waking nodes and the Module's nodes are one set |
| NodeSets.NilSelectorAgreesExactlyOnGpuNodes | internal/kmmmodule/kmmmodule.go:179-187 | with a nil selector they agree on a node exactly when it has the GPU label |
| Wakeup.NoLostWakeup | internal/filter/filter.go:29-84 | while the version stays, in every reachable state with no pass under way and work left, a request is pending, whatever order each list comes in |
| Wakeup.OrderedRunsStayAwake | internal/controllers/device_config_reconciler.go:259-271 | with one list order both at once: no two targeted nodes are ever tainted together, and no wake-up is lost |
| Wakeup.KickoffStaysAwake | internal/controllers/device_config_reconciler.go:104-141 | every kickoff of a node leaves a request: it changes a watched label, or it fails the pass |
| Termination.PlayIsBounded | internal/controllers/device_config_reconciler.go:247-272 | writing passes and KMM reports make the cluster strictly lighter, at most three moves per node |
| Termination.SomeMoveIsPossible | internal/kmmmodule/kmmmodule.go:99-106 | while a targeted node is not upgraded and untainted and all are ready or loadable, a pass can write or KMM can load |
| Termination.UpgradeFinishesExactly | internal/upgrade/upgrade.go:71-170 | for any selector and driver, with KMM reporting the version of the Module it loads, a play that cannot go on has upgraded and uncordoned every targeted node if and only if each was ready or loadable before it |
| Termination.UnfitPickStalls | internal/upgrade/upgrade.go:60-69 | a pass that picks a node that is neither puts it in upgrade for good, and no other node is ever kicked off |
| Termination.UnfitNodes | internal/kmmmodule/kmmmodule.go:179-187 | which nodes those are: all that are not ready under an in-tree driver, those without the GPU label under a nil selector, else those with a taint the Module does not tolerate |
| Writes.WritesAreBounded | internal/controllers/device_config_reconciler.go:247-272 | through lost and half-failed patches, restarts and any list order, the operator and KMM make at most five changes per targeted node |
| Termination.MovesAreSteps | internal/controllers/device_config_reconciler.go:247-272 | the moves are runs of the protocol |
| Interference.InFlightBoundsSurviveInterference | internal/upgrade/upgrade.go:196-207 | each DeviceConfig's in-flight bound is kept by every step of the other, overlapping selectors included |
| Interference.TaintBoundsSurviveInterference | internal/upgrade/upgrade.go:89-101 | with disjoint targets each keeps its taint bound although the key is shared |
| Interference.PassesCommute | internal/controllers/device_config_reconciler.go:247-272 | with disjoint targets two whole passes have one result in either order |
| SharedTaint.CordonBeforeKickoffSurvivesInterference | internal/upgrade/upgrade.go:125-170 | with disjoint targets no turn of any interleaving changes V of a labelled node without the taint |
| SharedTaint.TurnCostsCordonExactly | internal/upgrade/upgrade.go:81-106 | one turn costs the other side its cordon exactly when it uncordons, by a patch that is not lost, a labelled node the other holds or listed as cordoned |
| SharedTaint.OverlapDefeatsCordon | internal/upgrade/upgrade.go:71-106 | from rest over a node both target, an interleaving reaches a kickoff of a labelled node without the taint |
| Patches.KickoffPatchFitsAnyNode | internal/upgrade/upgrade.go:162-169 | a kickoff patch from any copy with another V is the intended edit on any live node and commutes with KMM's write |
| UpgradeImpl.ShallowCopyHidesLabelEdits | internal/upgrade/upgrade.go:166-169 | against a struct copy, which shares the label map, a label edit never shows, so the patch needs the deep copy |
| Patches.TaintPatchesFitExactlyCurrentTaints | internal/upgrade/upgrade.go:149-151 | taint patches are the intended edits exactly when the taints that matter are those that were read |
| Patches.UnlabelPatchFitsExactly | internal/upgrade/upgrade.go:184-188 | the label removal patch is the intended edit exactly if the copy had another label or the live node has none |
| LabelRemoval.LoopUnlabelsAPrefix | internal/upgrade/upgrade.go:183-193 | exactly the nodes up to the first failure lose V, and success is reported exactly when every patch was accepted |
| LabelRemoval.LoopMakesProgress | internal/upgrade/upgrade.go:183-193 | success leaves no node with that V; every loop takes V off as many nodes as it reached and keeps everything else |
| LabelRemoval.RetryingFinishes | internal/upgrade/upgrade.go:172-194 | each retry whose first patch lands takes the label off at least one more node until none has it, and nothing else changes |
| KmmModule.ModuleObject.SetModuleLoader | internal/kmmmodule/kmmmodule.go:72-108 | fails without image or version and then changes nothing; else the loader has the wanted image and version, and the one toleration is that of the upgrade taint |
| KmmModule.ModuleObject.SetAsDesired | internal/kmmmodule/kmmmodule.go:55-70 | succeeds exactly for a complete driver and no foreign controller; every field the operator owns is as the DeviceConfig asks, and the rest is kept |
| KmmModule.ModuleStore.HandleModule | internal/controllers/device_config_reconciler.go:212-227 | success means the Module is as desired, and comes exactly if the store was readable, the DeviceConfig acceptable and nothing was to be written or the write was accepted; a rejected or unreadable attempt leaves the store alone |
| KmmModule.HandledSucceedsExactly | internal/controllers/device_config_reconciler.go:212-227 | the same of the specified attempt, on which the history result rests |
| KmmModule.DesiredStateForgetsHistory | internal/kmmmodule/kmmmodule.go:55-165 | after any history the stored Module is that of the last accepted DeviceConfig alone |
| KmmModule.LoaderSurvivesCordon | internal/kmmmodule/kmmmodule.go:99-106 | the out-of-tree Module serves a cordoned node as before; the in-tree one loads nothing |
| KmmModule.LoaderServesKickoff | internal/kmmmodule/kmmmodule.go:81-97 | out of tree the Module loads the wanted image under the version that kickoff asks of a node |
| KmmModule.AdmitsExactly | internal/kmmmodule/kmmmodule.go:99-106 | of the taints that keep pods away the out-of-tree Module tolerates the operator's own and no other, the in-tree one none |
| Lifecycle.Reconciler.SetFinalizer | internal/controllers/device_config_reconciler.go:180-188 | no call if the finalizer is there, else one patch that appends it |
| Lifecycle.Reconciler.FinalizeDeviceConfig | internal/controllers/device_config_reconciler.go:190-210 | calls and error are those of the specified program: the finalizer goes only if no Module is found |
| Lifecycle.Reconciler.Reconcile | internal/controllers/device_config_reconciler.go:104-141 | whatever is answered, calls and error are those of the specified program, early returns included |
| Lifecycle.LiveReconcileInFull | internal/controllers/device_config_reconciler.go:116-140 | that program in plain terms, not deleting: finalizer if it is missing, rule, Module, manager, upgrade; the first call that fails is the last, and the reconcile succeeds exactly if none fails |
| Lifecycle.DyingReconcileInFull | internal/controllers/device_config_reconciler.go:190-210 | and deleting: the Module is looked up and deleted if there; if it is not, the finalizer goes; and any other answer is an error |
| Lifecycle.WithoutFinalizerAppend | internal/controllers/device_config_reconciler.go:203 | all other finalizers stay, in order |
| Lifecycle.WithoutFinalizerOne | internal/controllers/device_config_reconciler.go:203 | and only the operator's goes |
| Lifecycle.ReconcilesRunTheProgram | internal/controllers/device_config_reconciler.go:104-141 | however other events come between its calls, a reconcile makes the calls, and ends with the result, of that program |
| Lifecycle.ModuleImpliesGuardedConfig | internal/controllers/device_config_reconciler.go:104-128 | in every interleaving a Module implies a DeviceConfig that still has the finalizer |
| Lifecycle.StepKeepsSafeExactly | internal/controllers/device_config_reconciler.go:190-210 | with reads of any age, a step keeps that exactly when no lookup misses the Module, no reconcile starts from a guarded copy of an unguarded DeviceConfig, and nobody else takes the finalizer off |
| Lifecycle.StaleLookupOrphansModule | internal/controllers/device_config_reconciler.go:198-205 | a not-found answer from a cache that has not seen the Module takes the finalizer off beside it |
| Lifecycle.NoStepMovesAway | internal/controllers/device_config_reconciler.go:190-210 | whatever fails and whoever acts, a DeviceConfig being deleted gets no further from its end |
| Lifecycle.PassMovesCloser | internal/controllers/device_config_reconciler.go:190-210 | a successful reconcile deletes the Module, waits for it, or takes the finalizer off |
| Lifecycle.DeletionFinishes | internal/controllers/device_config_reconciler.go:104-114 | at most two reconciles and one release, after which the finalizer is off |
| SecondTaint.PassTaintsTwoExactly | internal/controllers/device_config_reconciler.go:247-272 | for every listing and all outcomes, a pass from rest ends with two tainted targets exactly when it cordons its pick beside a tainted node that is still to be upgraded |
| SecondTaint.OneOrderNeverCordonsBesides | internal/upgrade/upgrade.go:60-69 | with one list order that condition never holds |
| Limits.ChangingOrderTaintsTwo | internal/upgrade/upgrade.go:108-152 | from two untainted outdated nodes a change of list order and a lost patch bring it about |
| Limits.SecondTaintIsForgotten | internal/upgrade/upgrade.go:71-79 | a successful pass over two upgraded tainted nodes leaves one tainted with no request |
| Limits.EditsCanLoseAWakeup | internal/controllers/device_config_reconciler.go:104-141 | from an ordinary half-way state, editing the version away and back ends with work left and no request |
| Limits.StaleReadForgetsATaint | internal/controllers/device_config_reconciler.go:252-271 | from one outdated node at rest, an ordinary upgrade and one pass over the list of before it end with work left and no request |

## Left out

- The manager, configuration parsing, logging, flags and leader election (`cmd/main.go`, `internal/config`, `internal/cmd`): process plumbing.
- `internal/nfd` and `internal/xpumanager`: fixed object literals; a reconcile calls each as one step that succeeds or fails.
- The DRA literals other than the image, and `draVolumes`: constants without branches.
- KMM, the API server, the scheduler and the informer cache as implementations: they are environment events with the hypotheses above. The two label names are fields of a DeviceConfig, because KMM's naming functions are not part of this model.
- The API server's answer to a node patch is the merged node; admission, conflicts and the `timeAdded` field of taints are not modelled.
- Failing list calls in the protocol: a pass whose list fails sends nothing and stays requested, so it is not an event. That a failed list of DeviceConfigs yields no request is stated by `Filter.FindDeviceConfigForNodeChange`, and `Wakeup.NoLostWakeup` is about lists that succeed and selectors that are valid.
- Edits of the selector during a run, and changes of the label names.
- `DeviceConfig.status`, which is never populated.
- Garbage collection of a Module by its owner reference.
