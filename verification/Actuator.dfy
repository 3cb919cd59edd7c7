/** The machine actuator (pkg/actuator): the infra part, then two patches of the Machine. */
module Actuator {
  import opened Wrappers
  import opened Resources
  import opened MachineScope
  import opened Cluster
  import opened Protocol
  import opened Interleaving
  import opened Answers
  import Kubevirt

  class Actuator {
    const manager: Kubevirt.Manager
    const tenant: TenantCluster
    const cfg: Config

    constructor (manager: Kubevirt.Manager, tenant: TenantCluster)
      ensures this.manager == manager && this.tenant == tenant && this.cfg == manager.infra.cfg
    {
      this.manager, this.tenant, this.cfg := manager, tenant, manager.infra.cfg;
    }

    function Now(): World
      reads manager.infra, tenant
    {
      World(manager.infra.State(), tenant.State())
    }

    static function End(r: Outcome<Result>): Proc {
      match r
      case Returned(result) => Done(result)
      case Panicked => Crashed
    }

    method Create(machine: Machine, net: Net) returns (r: Outcome<Result>)
      requires cfg == manager.infra.cfg
      modifies manager.infra, tenant
      ensures Run(cfg, old(Now()), StartCreate(machine), net) == (Now(), End(r))
      ensures VersionsOk(old(Now())) ==>
                && (r == Returned(Success) <==> CreateSucceeds(cfg, old(Now()), machine, net))
                && (r == Returned(NotReady) <==> CreateWaits(cfg, old(Now()), machine, net))
                && (r.Panicked? <==> CreatePanics(cfg, old(Now()), machine, net))
                && (Made(cfg, old(Now()), machine, net) ==> StoredNew(cfg, Now(), machine, net))
                && (Took(cfg, old(Now()), machine, net) ==> StoredSecret(cfg, Now(), machine, UserDataRead(old(Now()), machine, net).value))
    {
      hide CreateSucceeds, CreateWaits, CreatePanics, Made, Took, StoredNew, StoredSecret, UserDataRead, VersionsOk;
      hide OpenScope, BuildVM, Run, RunInfra, WithUserData, StepPatch, StepQuery, StepNode;
      if VersionsOk(Now()) {
        CreateAnswer(cfg, Now(), machine, net);
      }
      var spec := OpenScope(machine);
      if spec.None? {
        RunStep(cfg, Now(), Done(Failed), net);
        return Returned(Failed);
      }
      var scope := new Scope(cfg, spec.value, machine);
      RunStep(cfg, Now(), FetchUserData(machine), net);
      var data := tenant.GetSecret(Key(machine.key.namespace, spec.value.ignitionSecretName), net.getSecret);
      if !data.Ok? || USER_DATA_KEY !in data.value {
        RunStep(cfg, Now(), Done(Failed), net);
        return Returned(Failed);
      }
      var report := manager.Create(scope, data.value[USER_DATA_KEY], net, tenant.State());
      RunSplits(cfg, old(Now()), WithUserData(cfg, machine, data.value[USER_DATA_KEY]), net);
      r := Finish(machine, scope, report, net);
    }

    method Update(machine: Machine, net: Net) returns (r: Outcome<Result>)
      requires cfg == manager.infra.cfg
      modifies manager.infra, tenant
      ensures Run(cfg, old(Now()), StartUpdate(cfg, machine), net) == (Now(), End(r))
      ensures VersionsOk(old(Now())) ==>
                && (r == Returned(Success) <==> UpdateSucceeds(cfg, old(Now()), machine, net))
                && (r == Returned(NotReady) <==> UpdateWaits(cfg, old(Now()), machine, net))
                && (r.Panicked? <==> OpensToPanic(cfg, machine))
    {
      hide UpdateSucceeds, UpdateWaits, OpensToPanic, VersionsOk;
      if VersionsOk(Now()) {
        UpdateAnswer(cfg, Now(), machine, net);
      }
      var spec := OpenScope(machine);
      if spec.None? {
        return Returned(Failed);
      }
      var scope := new Scope(cfg, spec.value, machine);
      var report := manager.Update(scope, net, tenant.State());
      RunSplits(cfg, old(Now()), StartUpdate(cfg, machine), net);
      r := Finish(machine, scope, report, net);
    }

    /** The patches are attempted even when the infra part failed; a patch error replaces its error. */
    method Finish(origin: Machine, scope: Scope, report: Outcome<Report>, net: Net) returns (r: Outcome<Result>)
      modifies tenant, scope
      ensures Run(cfg, old(Now()), Kubevirt.Manager.Continue(origin, old(scope.machine), report), net) == (Now(), End(r))
    {
      if report.Panicked? {
        return Panicked;
      }
      var ok := PatchMachine(origin, scope, report.value, net);
      if !ok {
        return Returned(Failed);
      }
      r := Returned(Verdict(report.value));
    }

    method PatchMachine(origin: Machine, scope: Scope, ghost report: Report, net: Net) returns (ok: bool)
      modifies tenant, scope
      ensures Run(cfg, old(Now()), PatchMeta(origin, old(scope.machine), report), net)
              == (Now(), Done(if ok then Verdict(report) else Failed))
    {
      var statusCopy := scope.machine;
      var patched := tenant.PatchMachine(scope.machine, origin, net.patch);
      if !patched.Ok? {
        return false;
      }
      scope.machine := patched.value;
      scope.machine := RestoreStatus(scope.machine, statusCopy);
      assert Run(cfg, old(Now()), PatchMeta(origin, old(scope.machine), report), net)
          == Run(cfg, Now(), PatchStatus(origin, scope.machine, report), net);
      label beforeStatus:
      var statusPatched := tenant.StatusPatchMachine(scope.machine, origin, net.statusPatch);
      ok := statusPatched.Ok?;
      assert Run(cfg, Now(), Done(if ok then Verdict(report) else Failed), net).1.Done?;
      if ok {
        scope.machine := statusPatched.value;
      }
    }

    method Exists(machine: Machine, net: Net) returns (r: Result)
      requires cfg == manager.infra.cfg
      ensures Run(cfg, Now(), StartExists(cfg, machine), net) == (Now(), Done(r))
      ensures forall b :: r == Found(b) <==> net.getVM.Delivered? && b == (Key(cfg.infraNamespace, machine.key.name) in manager.infra.vms)
      ensures r == Failed <==> !net.getVM.Delivered?
    {
      r := manager.Exists(machine.key.name, cfg.infraNamespace, net, tenant.State());
    }

    method Delete(machine: Machine, net: Net) returns (r: Outcome<Result>)
      requires cfg == manager.infra.cfg
      modifies manager.infra
      ensures Run(cfg, old(Now()), StartDelete(cfg, machine), net) == (Now(), End(r))
      ensures VersionsOk(old(Now())) ==>
                && (r == Returned(Success) <==> DeleteSucceeds(cfg, old(Now()), machine, net))
                && (r.Panicked? <==> OpensToPanic(cfg, machine))
    {
      hide DeleteSucceeds, DeleteTakesEffect, OpensToPanic, VersionsOk;
      if VersionsOk(Now()) {
        DeleteAnswer(cfg, Now(), machine, net);
      }
      var spec := OpenScope(machine);
      if spec.None? {
        return Returned(Failed);
      }
      var scope := new Scope(cfg, spec.value, machine);
      var deleted := manager.Delete(scope, net, tenant.State());
      if deleted.Panicked? {
        return Panicked;
      }
      r := Returned(if deleted.value then Success else Failed);
    }
  }
}
