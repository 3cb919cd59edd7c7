/** The node controller (pkg/controller/nodeupdate). */
module NodeUpdate {
  import opened Resources
  import opened Cluster
  import opened Protocol
  import opened Answers

  class Reconciler {
    const infra: InfraCluster
    const tenant: TenantCluster

    constructor (infra: InfraCluster, tenant: TenantCluster)
      ensures this.infra == infra && this.tenant == tenant
    {
      this.infra, this.tenant := infra, tenant;
    }

    function Now(): World
      reads infra, tenant
    {
      World(infra.State(), tenant.State())
    }

    method Reconcile(name: string, net: Net) returns (r: Result)
      modifies tenant
      ensures Run(infra.cfg, old(Now()), StartReconcile(name), net) == (Now(), Done(r))
      ensures (name in old(tenant.nodes) ==> old(tenant.nodes)[name].name == name) ==>
                && (r == Success <==> ReconcileSucceeds(old(Now()), name, net))
                && (r == RequeueLater <==> ReconcileWaits(old(Now()), name, net))
    {
      if name in tenant.nodes ==> tenant.nodes[name].name == name {
        ReconcileAnswer(infra.cfg, Now(), name, net);
      }
      hide ReconcileSucceeds, ReconcileWaits;
      var fetched := tenant.GetNode(name, net.getNode);
      RunStep(infra.cfg, Now(), StartReconcile(name), net);
      if !fetched.Ok? {
        r := if fetched.NotFound? then Success else Failed;
        RunStep(infra.cfg, Now(), Done(r), net);
        return;
      }
      r := ReconcileNode(fetched.value, net);
    }

    method ReconcileNode(fetched: Node, net: Net) returns (r: Result)
      modifies tenant
      ensures Run(infra.cfg, old(Now()), FetchConfig(fetched), net) == (Now(), Done(r))
    {
      var cMap := tenant.GetConfigMapValue(net.getConfig);
      RunStep(infra.cfg, Now(), FetchConfig(fetched), net);
      if !cMap.Ok? || NAMESPACE_KEY !in cMap.value {
        RunStep(infra.cfg, Now(), Done(Failed), net);
        return Failed;
      }
      r := FollowVM(fetched, Key(cMap.value[NAMESPACE_KEY], fetched.name), net);
    }

    method FollowVM(fetched: Node, key: Key, net: Net) returns (r: Result)
      requires key.name == fetched.name
      modifies tenant
      ensures Run(infra.cfg, old(Now()), LookupNodeVM(fetched, key), net) == (Now(), Done(r))
      ensures r == RequeueLater <==> net.getVM.Delivered? && key in infra.vms && !infra.vms[key].status.ready
      ensures r == Success && fetched.name in old(tenant.nodes) && old(tenant.nodes)[fetched.name] == fetched ==>
                if key !in infra.vms then fetched.name !in tenant.nodes
                else infra.vms[key].status.ready && fetched.name in tenant.nodes && tenant.nodes[fetched.name].providerID != ""
      ensures !net.getVM.Delivered? ==> r == Failed && tenant.State() == old(tenant.State())
    {
      var node := fetched;
      var vm := infra.GetVirtualMachine(key, net.getVM);
      RunStep(infra.cfg, Now(), LookupNodeVM(node, key), net);
      if vm.NotFound? {
        RunStep(infra.cfg, Now(), RemoveNode(node), net);
        var deleted := tenant.DeleteNode(node.name, net.deleteNode);
        r := if deleted.Ok? then Success else Failed;
      } else if !vm.Ok? {
        r := Failed;
      } else if !vm.value.status.ready {
        r := RequeueLater;
      } else if node.providerID != "" {
        r := Success;
      } else {
        node := node.(providerID := FormatProviderID(key.namespace, node.name));
        RunStep(infra.cfg, Now(), StampNode(node), net);
        var updated := tenant.UpdateNode(node, net.updateNode);
        r := if updated.Ok? then Success else Failed;
      }
      RunStep(infra.cfg, Now(), Done(r), net);
    }
  }
}
