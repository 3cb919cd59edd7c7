/** The infra side of the actuator (pkg/kubevirt), as the imperative code it is. */
module Kubevirt {
  import opened Wrappers
  import opened JsonValue
  import opened Resources
  import opened MachineScope
  import opened Cluster
  import opened Protocol
  import opened Interleaving
  import opened Answers
  import UserData

  class Manager {
    const infra: InfraCluster

    constructor (infra: InfraCluster)
      ensures this.infra == infra
    {
      this.infra := infra;
    }

    /** How a Create or Update that ended inside this class goes on in the actuator. */
    static function Continue(origin: Machine, m: Machine, r: Outcome<Report>): Proc {
      match r
      case Returned(report) => PatchMeta(origin, m, report)
      case Panicked => Crashed
    }

    /** The resolver is only asked when there is an instance. */
    static function Lookup(vmi: Option<VMI>, net: Net): Option<seq<IP>> {
      if vmi.Some? then net.choice.lookup else None
    }

    method Create(scope: Scope, userData: Option<Json>, net: Net, ghost t: Tenant) returns (r: Outcome<Report>)
      requires scope.cfg == infra.cfg && OpenScope(scope.machine) == Some(scope.spec)
      modifies infra, scope
      ensures RunInfra(infra.cfg, World(old(infra.State()), t), WithUserData(infra.cfg, old(scope.machine), userData), net)
              == (World(infra.State(), t), Continue(old(scope.machine), scope.machine, r))
    {
      hide RunInfra, BuildVM, OpenScope, AfterVM, AsSpecified, Accepted, Panics, StepPatch, StepQuery, StepNode;
      hide UserData.WithHostname, UserData.InDomain, CreateVMCall;
      var full := UserData.AddHostnameToUserData(userData, scope.machine.key.name);
      RunInfraStep(infra.cfg, World(infra.State(), t), WithUserData(infra.cfg, scope.machine, userData), net);
      if full.Panicked? {
        return Panicked;
      }
      var secret := scope.CreateIgnitionSecretFromMachine(full.value);
      var created := infra.CreateSecret(secret, net.createSecret);
      if !created.Ok? {
        RunInfraStep(infra.cfg, World(infra.State(), t), PatchMeta(scope.machine, scope.machine, FAILURE), net);
        return Returned(FAILURE);
      }
      var build := scope.CreateVirtualMachineFromMachine();
      RunInfraStep(infra.cfg, World(infra.State(), t), AfterSecret(infra.cfg, scope.machine), net);
      if build.BadQuantity? {
        return Panicked;
      }
      if build.Invalid? {
        return Returned(FAILURE);
      }
      var createdVM := infra.CreateVirtualMachine(build.vm, net.choice.uid, net.choice.status, net.createVM);
      if !createdVM.Ok? {
        RunInfraStep(infra.cfg, World(infra.State(), t), PatchMeta(scope.machine, scope.machine, FAILURE), net);
        return Returned(FAILURE);
      }
      var vmi, ok := SyncMachine(createdVM.value, scope, false, net, t);
      r := Returned(Report(Some(createdVM.value), vmi, Lookup(vmi, net), false, !ok));
    }

    method Update(scope: Scope, net: Net, ghost t: Tenant) returns (r: Outcome<Report>)
      requires scope.cfg == infra.cfg && OpenScope(scope.machine) == Some(scope.spec)
      modifies infra, scope
      ensures RunInfra(infra.cfg, World(old(infra.State()), t), StartUpdate(infra.cfg, old(scope.machine)), net)
              == (World(infra.State(), t), Continue(old(scope.machine), scope.machine, r))
    {
      hide RunInfra, BuildVM, OpenScope, AfterVM, AsSpecified, Accepted, Panics, StepPatch, StepQuery, StepNode, UpdateVMCall;
      var build := scope.CreateVirtualMachineFromMachine();
      assert StartUpdate(infra.cfg, scope.machine) == WithDesired(scope.machine, build);
      RunInfraStep(infra.cfg, World(infra.State(), t), WithDesired(scope.machine, build), net);
      if build.BadQuantity? {
        return Panicked;
      }
      if build.Invalid? {
        return Returned(FAILURE);
      }
      var existing := infra.GetVirtualMachine(build.vm.key, net.getVM);
      if !existing.Ok? {
        RunInfraStep(infra.cfg, World(infra.State(), t), PatchMeta(scope.machine, scope.machine, FAILURE), net);
        return Returned(FAILURE);
      }
      RunInfraStep(infra.cfg, World(infra.State(), t), PutVM(scope.machine, build.vm, existing.value), net);
      var previousResourceVersion := existing.value.resourceVersion;
      var virtualMachine := build.vm.(resourceVersion := previousResourceVersion);
      var updated := infra.UpdateVirtualMachine(virtualMachine, net.updateVM);
      if !updated.Ok? {
        RunInfraStep(infra.cfg, World(infra.State(), t), PatchMeta(scope.machine, scope.machine, FAILURE), net);
        return Returned(FAILURE);
      }
      var wasUpdated := updated.value.resourceVersion != previousResourceVersion;
      var vmi, ok := SyncMachine(updated.value, scope, wasUpdated, net, t);
      r := Returned(Report(Some(updated.value), vmi, Lookup(vmi, net), wasUpdated, !ok));
    }

    method SyncMachine(vm: VM, scope: Scope, wasUpdated: bool, net: Net, ghost t: Tenant) returns (vmi: Option<VMI>, ok: bool)
      modifies scope
      ensures RunInfra(infra.cfg, World(infra.State(), t), AfterVM(old(scope.machine), vm, wasUpdated), net)
              == (World(infra.State(), t),
                  PatchMeta(old(scope.machine), scope.machine, Report(Some(vm), vmi, Lookup(vmi, net), wasUpdated, !ok)))
    {
      vmi, ok := None, true;
      if vm.status.ready {
        var read := infra.GetVirtualMachineInstance(vm.key, net.getVMI);
        if !read.Ok? {
          ok := false;
          return;
        }
        vmi := Some(read.value);
      }
      scope.SyncMachine(vm, vmi, FormatProviderID(vm.key.namespace, vm.key.name),
                        Lookup(vmi, net));
    }

    method Delete(scope: Scope, net: Net, ghost t: Tenant) returns (r: Outcome<bool>)
      requires scope.cfg == infra.cfg && OpenScope(scope.machine) == Some(scope.spec)
      modifies infra
      ensures Run(infra.cfg, World(old(infra.State()), t), StartDelete(infra.cfg, scope.machine), net)
              == (World(infra.State(), t), if r.Panicked? then Crashed else Done(if r.value then Success else Failed))
      ensures VersionsOk(World(old(infra.State()), t)) ==>
                && (r == Returned(true) <==> DeleteSucceeds(infra.cfg, World(old(infra.State()), t), scope.machine, net))
                && (r.Panicked? <==> OpensToPanic(infra.cfg, scope.machine))
    {
      hide AsSpecified, Accepted, Panics, BuildVM, OpenScope, Run, StepInfra, StepPatch, StepNode;
      hide VersionsOk, DeleteSucceeds, DeleteTakesEffect, OpensToPanic;
      if VersionsOk(World(infra.State(), t)) {
        DeleteAnswer(infra.cfg, World(infra.State(), t), scope.machine, net);
      }
      var build := scope.CreateVirtualMachineFromMachine();
      assert StartDelete(infra.cfg, scope.machine) == WithDoomed(build);
      RunStep(infra.cfg, World(infra.State(), t), WithDoomed(build), net);
      if build.BadQuantity? {
        return Panicked;
      }
      if build.Invalid? {
        return Returned(false);
      }
      var key := build.vm.key;
      var existing := infra.GetVirtualMachine(key, net.getVM);
      if !existing.Ok? {
        RunStep(infra.cfg, World(infra.State(), t), Done(if existing.NotFound? then Success else Failed), net);
        return Returned(existing.NotFound?);
      }
      RunStep(infra.cfg, World(infra.State(), t), DeleteVM(existing.value.key), net);
      var deleted := infra.DeleteVirtualMachine(existing.value.key, net.choice.lingers, net.deleteVM);
      RunStep(infra.cfg, World(infra.State(), t), Done(if deleted.Ok? then Success else Failed), net);
      r := Returned(deleted.Ok?);
    }

    method Exists(machineName: string, infraNamespace: string, net: Net, ghost t: Tenant) returns (r: Result)
      ensures Run(infra.cfg, World(infra.State(), t), CheckVM(Key(infraNamespace, machineName)), net)
              == (World(infra.State(), t), Done(r))
      ensures forall b :: r == Found(b) <==> net.getVM.Delivered? && b == (Key(infraNamespace, machineName) in infra.vms)
      ensures r == Failed <==> !net.getVM.Delivered?
    {
      var existing := infra.GetVirtualMachine(Key(infraNamespace, machineName), net.getVM);
      if existing.NotFound? {
        return Found(false);
      }
      if existing.Refused? {
        return Failed;
      }
      return Found(true);
    }
  }
}
