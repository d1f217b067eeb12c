/**
 The KMM Module a DeviceConfig asks for, and how it is created or patched.
 */
module KmmModule {
  import opened Nodes
  import opened Upgrade

  const GPU_LABEL := "intel.feature.node.kubernetes.io/gpu"
  const DRIVER_MODULE := "xe"
  const DRA_DRIVER := "gpu.intel.com"

  datatype Toleration = Toleration(key: string, operator: string, value: string, effect: string)

  datatype Loader = Loader(
    moduleName: string, regexp: string, image: string, inTreeModulesToRemove: seq<string>,
    pullPolicy: string, version: string, serviceAccount: string)

  /** The parts of the DRA spec other than its image are constants. */
  datatype Dra = Dra(driverName: string, image: string)

  datatype Owner = Owner(namespace: string, name: string)

  /** rest stands for the fields of the object the operator never writes; controller is the controlling owner. */
  datatype Module = Module(
    selector: Labels, imageRepoSecret: Option<string>, loader: Option<Loader>, tolerations: seq<Toleration>,
    dra: Option<Dra>, devicePlugin: Option<string>, controller: Option<Owner>, rest: string)

  const EMPTY := Module(map[], None, None, [], None, None, None, "")

  // ----- What is desired -----

  /** The controlling owner a DeviceConfig sets. */
  function OwnerOf(dc: DeviceConfig): Owner { Owner(dc.namespace, dc.name) }

  function NodeSelector(dc: DeviceConfig): Labels {
    if dc.selector.Some? then dc.selector.value else map[GPU_LABEL := "true"]
  }

  /** An out-of-tree driver needs an image and a version. */
  predicate Complete(d: Driver) { d.useInTree || (d.image != "" && d.version != "") }

  predicate Acceptable(m: Module, dc: DeviceConfig) {
    Complete(dc.driver) && (m.controller.None? || m.controller == Some(OwnerOf(dc)))
  }

  const UPGRADE_TOLERATION := Toleration(UPGRADE_KEY, "Equal", "true", NO_EXECUTE)

  function LoaderFor(d: Driver): Loader {
    Loader(DRIVER_MODULE, "^.+$", d.image, [DRIVER_MODULE], "Always", d.version, "intel-gpu-operator-kmm-module-loader")
  }

  /** Everything the operator owns is a function of the DeviceConfig; the rest is kept. */
  function Desired(rest: string, dc: DeviceConfig): Module {
    Module(NodeSelector(dc), dc.imageRepoSecret,
           if dc.driver.useInTree then None else Some(LoaderFor(dc.driver)),
           if dc.driver.useInTree then [] else [UPGRADE_TOLERATION],
           Some(Dra(DRA_DRIVER, dc.draImage)), None, Some(OwnerOf(dc)), rest)
  }

  /** The Module loads the wanted image, under the version that kickoff asks a node for. */
  lemma LoaderServesKickoff(rest: string, dc: DeviceConfig, n: Node)
    requires !dc.driver.useInTree
    ensures var l := Desired(rest, dc).loader;
            l.Some? && l.value.image == dc.driver.image && dc.V(Kickoff(dc, n)) == Some(l.value.version)
  {
    KickoffLabels(dc, n);
  }

  lemma KickoffLabels(dc: DeviceConfig, n: Node)
    ensures dc.V(Kickoff(dc, n)) == Some(dc.driver.version)
  {
  }

  // ----- Setting a Module object in place -----

  class ModuleObject {
    var selector: Labels
    var imageRepoSecret: Option<string>
    var loader: Option<Loader>
    var tolerations: seq<Toleration>
    var dra: Option<Dra>
    var devicePlugin: Option<string>
    var controller: Option<Owner>
    var rest: string

    function Value(): Module
      reads this
    {
      Module(selector, imageRepoSecret, loader, tolerations, dra, devicePlugin, controller, rest)
    }

    constructor (m: Module)
      ensures Value() == m
    {
      selector, imageRepoSecret, loader, tolerations := m.selector, m.imageRepoSecret, m.loader, m.tolerations;
      dra, devicePlugin, controller, rest := m.dra, m.devicePlugin, m.controller, m.rest;
    }

    method SetModuleLoader(dc: DeviceConfig) returns (ok: bool)
      modifies this`loader, this`tolerations
      ensures ok <==> dc.driver.image != "" && dc.driver.version != ""
      ensures ok ==>
                && loader == Some(Loader("xe", "^.+$", dc.driver.image, ["xe"], "Always", dc.driver.version,
                                         "intel-gpu-operator-kmm-module-loader"))
                && tolerations == [Toleration("intel-driver-upgrade", "Equal", "true", "NoExecute")]
      ensures !ok ==> loader == old(loader) && tolerations == old(tolerations)
    {
      if dc.driver.image == "" {
        return false;
      }
      if dc.driver.version == "" {
        return false;
      }
      loader := Some(LoaderFor(dc.driver));
      tolerations := [UPGRADE_TOLERATION];
      return true;
    }

    method SetDRA(dc: DeviceConfig)
      modifies this`dra, this`devicePlugin
      ensures dra == Some(Dra(DRA_DRIVER, dc.draImage)) && devicePlugin == None
    {
      devicePlugin := None;
      dra := Some(Dra(DRA_DRIVER, dc.draImage));
    }

    /** Fails if another controller owns the object already. */
    method SetControllerReference(dc: DeviceConfig) returns (ok: bool)
      modifies this`controller
      ensures ok <==> old(controller).None? || old(controller) == Some(OwnerOf(dc))
      ensures controller == if ok then Some(OwnerOf(dc)) else old(controller)
    {
      if controller.Some? && controller.value != OwnerOf(dc) {
        return false;
      }
      controller := Some(OwnerOf(dc));
      return true;
    }

    method SetAsDesired(dc: DeviceConfig) returns (ok: bool)
      modifies this
      ensures ok <==>
                && (dc.driver.useInTree || (dc.driver.image != "" && dc.driver.version != ""))
                && (old(controller).None? || old(controller) == Some(Owner(dc.namespace, dc.name)))
      ensures ok ==> Value() == Desired(old(rest), dc)
      ensures dc.selector.Some? ==> selector == dc.selector.value
      ensures dc.selector.None? ==> selector == map["intel.feature.node.kubernetes.io/gpu" := "true"]
      ensures imageRepoSecret == dc.imageRepoSecret && rest == old(rest)
      ensures ok && dc.driver.useInTree ==> loader == None && tolerations == []
      ensures ok && !dc.driver.useInTree ==>
                && loader.Some? && loader.value.image == dc.driver.image && loader.value.version == dc.driver.version
                && tolerations == [Toleration("intel-driver-upgrade", "Equal", "true", "NoExecute")]
      ensures ok ==>
                && dra == Some(Dra("gpu.intel.com", dc.draImage)) && devicePlugin == None
                && controller == Some(Owner(dc.namespace, dc.name))
      ensures !ok ==>
                Value() == if Complete(dc.driver) then Desired(old(rest), dc).(controller := old(controller))
                           else old(Value()).(selector := NodeSelector(dc), imageRepoSecret := dc.imageRepoSecret)
    {
      selector := NodeSelector(dc);
      imageRepoSecret := dc.imageRepoSecret;
      if !dc.driver.useInTree {
        ok := SetModuleLoader(dc);
        if !ok {
          return;
        }
      } else {
        loader := None;
        tolerations := [];
      }
      SetDRA(dc);
      ok := SetControllerReference(dc);
    }
  }

  // ----- Creating or patching the stored Module -----

  function RestOf(stored: Option<Module>): string { if stored.Some? then stored.value.rest else EMPTY.rest }

  /** The stored Module after an attempt, and whether the attempt succeeded. */
  function Handled(stored: Option<Module>, dc: DeviceConfig, readable: bool, o: Outcome): (Option<Module>, bool) {
    var base := if stored.Some? then stored.value else EMPTY;
    if !readable || !Acceptable(base, dc) then (stored, false)
    else if stored == Some(Desired(base.rest, dc)) then (stored, true)
    else (if o.Lost? then stored else Some(Desired(base.rest, dc)), o.Applied?)
  }

  /** Success means that the Module is as desired, and comes exactly if the store was readable, the DeviceConfig
      acceptable and nothing was to be written or the write was accepted. */
  lemma HandledSucceedsExactly(stored: Option<Module>, dc: DeviceConfig, readable: bool, o: Outcome)
    ensures var want := Some(Desired(RestOf(stored), dc));
            && (Handled(stored, dc, readable, o).1 <==>
                  && readable
                  && (dc.driver.useInTree || (dc.driver.image != "" && dc.driver.version != ""))
                  && (stored.Some? ==> stored.value.controller in {None, Some(Owner(dc.namespace, dc.name))})
                  && (stored == want || o.Applied?))
            && (Handled(stored, dc, readable, o).1 ==> Handled(stored, dc, readable, o).0 == want)
  {
  }

  class ModuleStore {
    var stored: Option<Module>
    var writes: nat

    constructor ()
      ensures stored == None && writes == 0
    {
      stored, writes := None, 0;
    }

    /** Get, mutate, then create, patch or do nothing; readable and o are what the API server makes of the calls. */
    method HandleModule(dc: DeviceConfig, readable: bool, o: Outcome) returns (ok: bool)
      modifies this
      ensures (stored, ok) == Handled(old(stored), dc, readable, o)
      ensures ok <==>
                && readable
                && (dc.driver.useInTree || (dc.driver.image != "" && dc.driver.version != ""))
                && (old(stored).Some? ==> var owner := old(stored).value.controller;
                                          owner.None? || owner == Some(Owner(dc.namespace, dc.name)))
                && (old(stored) == Some(Desired(RestOf(old(stored)), dc)) || o.Applied?)
      ensures ok ==> stored == Some(Desired(RestOf(old(stored)), dc))
      ensures stored == old(stored) || stored == Some(Desired(RestOf(old(stored)), dc))
      ensures stored != old(stored) || writes != old(writes) ==>
                && readable
                && (dc.driver.useInTree || (dc.driver.image != "" && dc.driver.version != ""))
                && (old(stored).Some? ==> var owner := old(stored).value.controller;
                                          owner.None? || owner == Some(Owner(dc.namespace, dc.name)))
      ensures writes == old(writes) || writes == old(writes) + 1
      ensures writes == old(writes) ==> stored == old(stored)
      ensures old(stored) == Some(Desired(RestOf(old(stored)), dc)) ==> writes == old(writes)
    {
      if !readable {
        return false;
      }
      var base := if stored.Some? then stored.value else EMPTY;
      var mod := new ModuleObject(base);
      ok := mod.SetAsDesired(dc);
      if !ok {
        return;
      }
      if stored == Some(mod.Value()) {
        return true;
      }
      writes := writes + 1;
      if !o.Lost? {
        stored := Some(mod.Value());
      }
      ok := o.Applied?;
    }
  }

  // ----- The stored Module over a history of spec edits -----

  datatype Attempt = Attempt(dc: DeviceConfig, readable: bool, o: Outcome) {
    predicate Accepted() { readable && Complete(dc.driver) && !o.Lost? }
  }

  function After(stored: Option<Module>, attempts: seq<Attempt>): Option<Module>
    decreases |attempts|
  {
    if attempts == [] then stored
    else After(Handled(stored, attempts[0].dc, attempts[0].readable, attempts[0].o).0, attempts[1..])
  }

  /** The same DeviceConfig object throughout, whatever its spec. */
  predicate OfOwner(owner: Owner, attempts: seq<Attempt>) { forall a | a in attempts :: OwnerOf(a.dc) == owner }

  /** The last attempt that took effect. */
  function LastAccepted(attempts: seq<Attempt>): Option<DeviceConfig>
    decreases |attempts|
  {
    if attempts == [] then None
    else
      var a := attempts[|attempts| - 1];
      if a.Accepted() then Some(a.dc) else LastAccepted(attempts[..|attempts| - 1])
  }

  predicate OwnedBy(stored: Option<Module>, owner: Owner) {
    stored.Some? ==> stored.value.controller.None? || stored.value.controller == Some(owner)
  }

  lemma {:induction false} AfterLast(stored: Option<Module>, attempts: seq<Attempt>, a: Attempt)
    ensures After(stored, attempts + [a]) == Handled(After(stored, attempts), a.dc, a.readable, a.o).0
    decreases |attempts|
  {
    if attempts == [] {
      assert attempts + [a] == [a];
    } else {
      assert (attempts + [a])[1..] == attempts[1..] + [a];
      AfterLast(Handled(stored, attempts[0].dc, attempts[0].readable, attempts[0].o).0, attempts[1..], a);
    }
  }

  lemma AttemptReplacesOrKeeps(stored: Option<Module>, a: Attempt)
    requires OwnedBy(stored, OwnerOf(a.dc))
    ensures Handled(stored, a.dc, a.readable, a.o).0
         == if a.Accepted() then Some(Desired(RestOf(stored), a.dc)) else stored
  {
  }

  /** Whatever the history, the stored Module is the one the last accepted DeviceConfig alone asks for: rejected
      edits, unreadable stores and lost writes leave no trace. */
  lemma {:induction false} DesiredStateForgetsHistory(stored: Option<Module>, attempts: seq<Attempt>, owner: Owner)
    requires OfOwner(owner, attempts) && OwnedBy(stored, owner)
    ensures var last := LastAccepted(attempts);
            After(stored, attempts) == if last.Some? then Some(Desired(RestOf(stored), last.value)) else stored
    ensures OwnedBy(After(stored, attempts), owner) && RestOf(After(stored, attempts)) == RestOf(stored)
    decreases |attempts|
  {
    if attempts != [] {
      var init, a := attempts[..|attempts| - 1], attempts[|attempts| - 1];
      assert attempts == init + [a] && a in attempts && forall b | b in init :: b in attempts;
      DesiredStateForgetsHistory(stored, init, owner);
      AfterLast(stored, init, a);
      AttemptReplacesOrKeeps(After(stored, init), a);
    }
  }

  // ----- The nodes KMM serves -----

  predicate Tolerates(tol: Toleration, t: Taint) {
    && (tol.effect == "" || tol.effect == t.effect)
    && (tol.key == t.key || (tol.key == "" && tol.operator == "Exists"))
    && (tol.operator == "Exists" || tol.value == t.value)
  }

  predicate Repels(t: Taint) { t.effect == NO_EXECUTE || t.effect == "NoSchedule" }

  predicate Admits(m: Module, t: Taint) { Repels(t) ==> exists tol | tol in m.tolerations :: Tolerates(tol, t) }

  /** KMM loads the driver on a node only for a Module with a loader that selects the node and tolerates its taints. */
  predicate Loads(m: Module, n: Node) {
    m.loader.Some? && Matches(m.selector, n) && forall t | t in n.taints :: Admits(m, t)
  }

  /** Of the taints that keep pods away the out-of-tree Module tolerates the operator's own and no other, and the
      in-tree one none. */
  lemma AdmitsExactly(rest: string, dc: DeviceConfig, t: Taint)
    ensures Admits(Desired(rest, dc), t) <==> !Repels(t) || (!dc.driver.useInTree && t == UPGRADE_TAINT)
  {
    if !dc.driver.useInTree {
      assert UPGRADE_TOLERATION in Desired(rest, dc).tolerations;
    }
  }

  /** An out-of-tree Module keeps serving a node that the operator cordons; the in-tree one loads nothing. */
  lemma LoaderSurvivesCordon(rest: string, dc: DeviceConfig, n: Node)
    ensures !dc.driver.useInTree ==> Loads(Desired(rest, dc), Cordon(n)) == Loads(Desired(rest, dc), n)
    ensures dc.driver.useInTree ==> !Loads(Desired(rest, dc), n)
  {
    var m := Desired(rest, dc);
    if !dc.driver.useInTree {
      assert UPGRADE_TOLERATION in m.tolerations && Tolerates(UPGRADE_TOLERATION, UPGRADE_TAINT);
      assert forall t | t in n.taints :: t in Cordon(n).taints;
    }
  }
}
