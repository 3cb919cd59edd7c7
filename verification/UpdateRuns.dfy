/** What one Update, run with nothing in between, leaves in both clusters, wherever it stops. */
module UpdateRuns {
  import opened Wrappers
  import opened Resources
  import opened MachineScope
  import opened Cluster
  import opened Protocol
  import opened Interleaving
  import opened WholeRuns
  import opened TwoPhasePatch

  function WithMachine(w: World, m: Machine): World {
    w.(tenant := w.tenant.(machines := w.tenant.machines[m.key := m]))
  }

  function MetaOnly(s: Machine, m: Machine): Machine { RestoreStatus(s, m) }

  predicate Stored(w: World, m: Machine) { m.key in w.tenant.machines && w.tenant.machines[m.key] == m }

  /** No call of an Update gets lost. */
  predicate Smooth(net: Net) {
    net.getVM.Delivered? && net.updateVM.Delivered? && net.getVMI.Delivered? && net.patch.Delivered? && net.statusPatch.Delivered?
  }

  lemma PatchStatusRun(cfg: Config, w: World, o: Machine, s: Machine, m: Machine, report: Report, net: Net)
    requires m.key == o.key == s.key && o.key in w.tenant.machines
    requires MergeStatus(o, m, w.tenant.machines[o.key]) == s
    ensures var w' := Run(cfg, w, PatchStatus(o, m, report), net).0;
            (w' == w || w' == WithMachine(w, s)) && (net.statusPatch.Delivered? ==> w' == WithMachine(w, s))
  {
    RunStep(cfg, w, PatchStatus(o, m, report), net);
    hide Run, MergeStatus, DecodedOver;
    var (w', p') := Step(cfg, w, PatchStatus(o, m, report), net.statusPatch, net.choice);
    RunStep(cfg, w', p', net);
  }

  /** From a Machine stored as it was read, the two patches store nothing, the metadata only, or all of it. */
  lemma PatchesRun(cfg: Config, w: World, o: Machine, s: Machine, report: Report, net: Net)
    requires Stored(w, o) && s.key == o.key
    requires MergeMain(o, s, o) == MetaOnly(s, o)
    requires MergeStatus(o, RestoreStatus(DecodedOver(s, MetaOnly(s, o)), s), MetaOnly(s, o)) == s
    ensures var w' := Run(cfg, w, PatchMeta(o, s, report), net).0;
            && (w' == w || w' == WithMachine(w, MetaOnly(s, o)) || w' == WithMachine(w, s))
            && (net.patch.Delivered? && net.statusPatch.Delivered? ==> w' == WithMachine(w, s))
  {
    RunStep(cfg, w, PatchMeta(o, s, report), net);
    hide Run, MergeMain, MergeStatus;
    var (w', p') := Step(cfg, w, PatchMeta(o, s, report), net.patch, net.choice);
    if p'.PatchStatus? {
      assert w' == WithMachine(w, MetaOnly(s, o));
      assert WithMachine(w', s) == WithMachine(w, s);
      hide DecodedOver, RestoreStatus, Step;
      PatchStatusRun(cfg, w', o, s, p'.m, report, net);
    } else {
      RunStep(cfg, w', p', net);
    }
  }

  lemma FailedPatchesRun(cfg: Config, w: World, o: Machine, report: Report, net: Net)
    requires Stored(w, o)
    ensures Run(cfg, w, PatchMeta(o, o, report), net).0 == w
  {
    assert WithMachine(w, o) == w by {
      assert w.tenant.machines[o.key := o] == w.tenant.machines;
    }
    PatchesRun(cfg, w, o, o, report, net);
  }

  /** The Machine an Update that met no error aims to store. */
  function Aim(w: World, m: Machine, vm: VM, net: Net): Machine {
    if vm.status.ready && vm.key in w.infra.vmis then SyncedWith(m, vm, Some(w.infra.vmis[vm.key]), net.choice.lookup)
    else SyncedWith(m, vm, None, None)
  }

  /** The outcomes for the Machine: nothing, the metadata, or everything of the aim. */
  predicate Reached(w: World, w': World, m: Machine, s: Machine) {
    w' == w || w' == WithMachine(w, MetaOnly(s, m)) || w' == WithMachine(w, s)
  }

  lemma TargetPatchesRun(cfg: Config, w: World, o: Machine, vm: VM, vmi: Option<VMI>, lookup: Option<seq<IP>>, report: Report, net: Net)
    requires Stored(w, o)
    ensures var s := SyncedWith(o, vm, vmi, lookup);
            var w' := Run(cfg, w, PatchMeta(o, s, report), net).0;
            Reached(w, w', o, s) && (net.patch.Delivered? && net.statusPatch.Delivered? ==> w' == WithMachine(w, s))
  {
    BothPatchesStoreTarget(o, vm, vmi, lookup);
    var s := SyncedWith(o, vm, vmi, lookup);
    assert s.key == o.key;
    hide Run, MergeMain, MergeStatus, DecodedOver, SyncedWith;
    PatchesRun(cfg, w, o, s, report, net);
  }

  lemma AfterVMRun(cfg: Config, w: World, m: Machine, vm: VM, wasUpdated: bool, net: Net)
    requires Stored(w, m)
    ensures var w' := Run(cfg, w, AfterVM(m, vm, wasUpdated), net).0;
            && Reached(w, w', m, Aim(w, m, vm, net))
            && (Smooth(net) && (vm.status.ready ==> vm.key in w.infra.vmis) ==> w' == WithMachine(w, Aim(w, m, vm, net)))
  {
    if !vm.status.ready {
      hide Run, SyncedWith;
      TargetPatchesRun(cfg, w, m, vm, None, None, Report(Some(vm), None, None, wasUpdated, false), net);
    } else {
      RunStep(cfg, w, ReadVMI(m, vm, wasUpdated), net);
      hide Run, SyncedWith;
      var r := GetVMICall(w.infra, vm.key, net.getVMI);
      if r.Ok? {
        TargetPatchesRun(cfg, w, m, vm, Some(r.value), net.choice.lookup,
                         Report(Some(vm), Some(r.value), net.choice.lookup, wasUpdated, false), net);
      } else {
        FailedPatchesRun(cfg, w, m, Report(Some(vm), None, None, wasUpdated, true), net);
      }
    }
  }

  /** The infra cluster and, if the put was answered, the Machine after an Update. */
  lemma WholeUpdate(cfg: Config, w: World, m: Machine, net: Net)
    requires VersionsOk(w) && Stored(w, m)
    ensures var w' := Run(cfg, w, StartUpdate(cfg, m), net).0;
            var key, w1 := VMKey(cfg, m.key.name), w.(infra := Updated(cfg, w, m, net));
            && (w' == w1 ||
                (Buildable(cfg, m) && net.getVM.Delivered? && net.updateVM.Delivered? && key in w1.infra.vms
                 && Reached(w1, w', m, Aim(w1, m, w1.infra.vms[key], net))))
            && (Smooth(net) && Buildable(cfg, m) && key in w.infra.vms && (w.infra.vms[key].status.ready ==> key in w.infra.vmis)
                ==> key in w1.infra.vms && w' == WithMachine(w1, Aim(w1, m, w1.infra.vms[key], net)))
  {
    var p := StartUpdate(cfg, m);
    if p.LookupVM? {
      assert p == LookupVM(m, DesiredVM(cfg, OpenScope(m).value, m)) && Buildable(cfg, m);
      hide BuildVM, DesiredVM, Buildable;
      FromLookup(cfg, w, m, p.desired, net);
    } else {
      assert !Buildable(cfg, m);
      hide BuildVM;
      RunStep(cfg, w, p, net);
      if p.PatchMeta? {
        FailedPatchesRun(cfg, w, m, FAILURE, net);
      }
    }
  }

  lemma FromLookup(cfg: Config, w: World, m: Machine, desired: VM, net: Net)
    requires VersionsOk(w) && Stored(w, m) && desired.key == VMKey(cfg, m.key.name)
    ensures var key := desired.key;
            var w' := Run(cfg, w, LookupVM(m, desired), net).0;
            var w1 := w.(infra := if !net.getVM.Delivered? || key !in w.infra.vms then w.infra else
                                  UpdateVMCall(cfg, w.infra, desired.(resourceVersion := w.infra.vms[key].resourceVersion), net.updateVM).0);
            && (w' == w1 ||
                (net.getVM.Delivered? && net.updateVM.Delivered? && key in w.infra.vms
                 && Reached(w1, w', m, Aim(w1, m, w1.infra.vms[key], net))))
            && (Smooth(net) && key in w.infra.vms && (w.infra.vms[key].status.ready ==> key in w.infra.vmis)
                ==> w' == WithMachine(w1, Aim(w1, m, w1.infra.vms[key], net)))
  {
    RunStep(cfg, w, LookupVM(m, desired), net);
    hide Run, Reached, AfterVM, Aim, SyncedWith;
    var key := desired.key;
    if !net.getVM.Delivered? || key !in w.infra.vms {
      FailedPatchesRun(cfg, w, m, FAILURE, net);
    } else {
      var seen := w.infra.vms[key];
      RunStep(cfg, w, PutVM(m, desired, seen), net);
      var (i, r) := UpdateVMCall(cfg, w.infra, desired.(resourceVersion := seen.resourceVersion), net.updateVM);
      var w1 := w.(infra := i);
      if r.Ok? {
        assert i.vms[key] == r.value && r.value.status == seen.status && r.value.key == key && i.vmis == w.infra.vmis;
        AfterVMRun(cfg, w1, m, r.value, r.value.resourceVersion != seen.resourceVersion, net);
      } else {
        FailedPatchesRun(cfg, w1, m, FAILURE, net);
      }
    }
  }
}
