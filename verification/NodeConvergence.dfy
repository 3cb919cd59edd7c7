/** Whole runs of Reconcile: one that meets no error leaves nothing for later ones to do. */
module NodeConvergence {
  import opened Wrappers
  import opened Resources
  import opened Cluster
  import opened Protocol
  import opened Interleaving
  import opened WholeRuns

  /** The key under which Reconcile looks for a node's VM, if the configuration tells it. */
  function NodeVMKey(w: World, n: string): Option<Key> {
    if w.tenant.configMap.Some? && "namespace" in w.tenant.configMap.value
    then Some(Key(w.tenant.configMap.value["namespace"], n)) else None
  }

  /** There is nothing to do for the node. */
  predicate Settled(w: World, n: string) {
    n in w.tenant.nodes && NodeVMKey(w, n).Some? ==>
      var key := NodeVMKey(w, n).value;
      key in w.infra.vms && (w.infra.vms[key].status.ready ==> w.tenant.nodes[n].providerID != "")
  }

  predicate NoErrors(net: Net) {
    net.getNode.Delivered? && net.getConfig.Delivered? && net.getVM.Delivered? && net.deleteNode.Delivered? && net.updateNode.Delivered?
  }

  lemma FromLookup(cfg: Config, w: World, node: Node, net: Net)
    requires VersionsOk(w) && node.name in w.tenant.nodes && w.tenant.nodes[node.name] == node && NodeVMKey(w, node.name).Some?
    ensures var key := NodeVMKey(w, node.name).value;
            var w' := Run(cfg, w, LookupNodeVM(node, key), net).0;
            && w'.infra == w.infra && w'.tenant.configMap == w.tenant.configMap
            && (Settled(w, node.name) ==> w' == w)
            && (NoErrors(net) ==> Settled(w', node.name))
            && (NoErrors(net) ==> (node.name !in w'.tenant.nodes <==> key !in w.infra.vms))
  {
    var key := NodeVMKey(w, node.name).value;
    RunStep(cfg, w, LookupNodeVM(node, key), net);
    var p := AfterNodeVM(node, key, GetVMCall(w.infra, key, net.getVM));
    RunStep(cfg, w, p, net);
    if !Finished(p) {
      hide Run;
      var (w', p') := Step(cfg, w, p, WireFor(net, p), net.choice);
      RunStep(cfg, w', p', net);
    }
  }

  lemma WholeRun(cfg: Config, w: World, n: string, net: Net)
    requires VersionsOk(w)
    ensures var w' := Run(cfg, w, StartReconcile(n), net).0;
            && w'.infra == w.infra && w'.tenant.configMap == w.tenant.configMap
            && (Settled(w, n) ==> w' == w)
            && (NoErrors(net) ==> Settled(w', n))
            && (NoErrors(net) && n in w.tenant.nodes && NodeVMKey(w, n).Some? ==>
                  (n !in w'.tenant.nodes <==> NodeVMKey(w, n).value !in w.infra.vms))
  {
    hide Run;
    RunStep(cfg, w, StartReconcile(n), net);
    var r := GetNodeCall(w.tenant, n, net.getNode);
    if !r.Ok? {
      RunStep(cfg, w, Done(if r.NotFound? then Success else Failed), net);
    } else {
      RunStep(cfg, w, FetchConfig(r.value), net);
      if net.getConfig.Delivered? && NodeVMKey(w, n).Some? {
        FromLookup(cfg, w, r.value, net);
      } else {
        RunStep(cfg, w, Done(Failed), net);
      }
    }
  }

  function ReconcileAll(cfg: Config, w: World, n: string, nets: seq<Net>): World {
    if nets == [] then w else Run(cfg, ReconcileAll(cfg, w, n, nets[..|nets| - 1]), StartReconcile(n), nets[|nets| - 1]).0
  }

  /** After one Reconcile without errors no later one writes anything, whatever happens to its calls. */
  lemma {:induction false} Converges(cfg: Config, w: World, n: string, first: Net, later: seq<Net>)
    requires VersionsOk(w) && NoErrors(first)
    ensures var w1 := Run(cfg, w, StartReconcile(n), first).0; ReconcileAll(cfg, w1, n, later) == w1
    decreases |later|
  {
    hide Run;
    WholeRun(cfg, w, n, first);
    var w1 := Run(cfg, w, StartReconcile(n), first).0;
    if later != [] {
      Converges(cfg, w, n, first, later[..|later| - 1]);
      RunVersions(cfg, w, StartReconcile(n), first);
      WholeRun(cfg, w1, n, later[|later| - 1]);
    }
  }

  /** Once an actuator Delete has taken effect, the next Reconcile without errors removes the Machine's node. */
  lemma DeleteThenReconcile(cfg: Config, w: World, m: Machine, deleting: Net, reconciling: Net)
    requires VersionsOk(w) && NodeVMKey(w, m.key.name) == Some(VMKey(cfg, m.key.name))
    requires !deleting.choice.lingers && NoErrors(reconciling)
    requires Run(cfg, w, StartDelete(cfg, m), deleting).1 == Done(Success)
    ensures var w1 := Run(cfg, w, StartDelete(cfg, m), deleting).0;
            m.key.name !in Run(cfg, w1, StartReconcile(m.key.name), reconciling).0.tenant.nodes
  {
    assert ProcOk(cfg, w, StartDelete(cfg, m));
    hide *;
    DeleteRun(cfg, w, m, deleting);
    RunVersions(cfg, w, StartDelete(cfg, m), deleting);
    RemovesNode(cfg, Run(cfg, w, StartDelete(cfg, m), deleting).0, w, m.key.name, reconciling);
  }

  lemma RemovesNode(cfg: Config, w1: World, w: World, n: string, net: Net)
    requires VersionsOk(w1) && w1.tenant == w.tenant && w1.infra.vms == w.infra.vms - {VMKey(cfg, n)}
    requires NodeVMKey(w, n) == Some(VMKey(cfg, n)) && NoErrors(net)
    ensures n !in Run(cfg, w1, StartReconcile(n), net).0.tenant.nodes
  {
    hide Run, VersionsOk, NoErrors, VMKey;
    WholeRun(cfg, w1, n, net);
    if n !in w1.tenant.nodes {
      assert Settled(w1, n);
    }
  }
}
