/**
 The feedback loop. Sync writes the VM's UID, state and type into the Machine, and the next desired
 VM is built from the Machine's labels and annotations, so one write can cause another.
 */
module Feedback {
  import opened Resources
  import opened MachineScope
  import opened Cluster
  import opened Protocol
  import opened WholeRuns

  /** The VM the server would store for the Machine. */
  function Wanted(cfg: Config, m: Machine): VM
    requires OpenScope(m).Some?
  {
    var d := DesiredVM(cfg, OpenScope(m).value, m);
    d.(spec := Defaulted(cfg, d.spec))
  }

  /** It differs from the one it stores. */
  predicate Differs(cfg: Config, m: Machine, vm: VM) {
    Buildable(cfg, m) && !SameContent(Wanted(cfg, m), vm)
  }

  /** The labels that syncing with the VM, once written, would leave. */
  function RecordedLabels(cfg: Config, m: Machine): map<string, string> { m.labels[TYPE_LABEL := cfg.machineType] }

  /** What the Machine records of the VM is not what syncing would record. */
  predicate Stale(cfg: Config, m: Machine, vm: VM) {
    RecordedLabels(cfg, m) != m.labels || SyncedAnnotations(m.annotations, vm) != m.annotations
  }

  /** The Machines want the same VM and record the same. */
  predicate SameWish(a: Machine, b: Machine) {
    a.labels == b.labels && a.annotations == b.annotations && a.clusterName == b.clusterName && a.providerSpec == b.providerSpec
  }

  lemma WantedSpec(cfg: Config, m: Machine)
    requires OpenScope(m).Some?
    ensures Wanted(cfg, m).spec.template.Some? && Wanted(cfg, m).spec.template.value.machineType == cfg.machineType
    ensures Wanted(cfg, m).labels == OwnerLabels(cfg.infraID) + m.labels
    ensures Wanted(cfg, m).annotations == m.annotations && Wanted(cfg, m).clusterName == m.clusterName
    ensures Wanted(cfg, m).key == VMKey(cfg, m.key.name)
  {
  }

  lemma SameWants(cfg: Config, a: Machine, b: Machine)
    requires a.key == b.key && SameWish(a, b)
    ensures OpenScope(a) == OpenScope(b) && Buildable(cfg, a) == Buildable(cfg, b)
    ensures OpenScope(a).Some? ==> Wanted(cfg, a) == Wanted(cfg, b)
  {
  }

  lemma NoLongerDiffers(cfg: Config, m: Machine, vm: VM)
    requires OpenScope(m).Some? && SameContent(Wanted(cfg, m), vm)
    ensures !Differs(cfg, m, vm)
  {
  }

  lemma SameStale(cfg: Config, a: Machine, b: Machine, v: VM, v': VM)
    ensures a.labels == b.labels && a.annotations == b.annotations && v.uid == v'.uid && v.status == v'.status
            ==> Stale(cfg, a, v) == Stale(cfg, b, v')
  {
  }

  lemma SameDiffers(cfg: Config, m: Machine, v: VM, v': VM)
    ensures SameContent(v, v') ==> Differs(cfg, m, v) == Differs(cfg, m, v')
  {
    hide Wanted, OpenScope, Buildable;
  }

  /** A Machine with what syncing with a VM records, from a Machine that wanted that VM. */
  predicate Recorded(cfg: Config, m: Machine, s: Machine, vm: VM) {
    && s.labels == RecordedLabels(cfg, m) && s.annotations == SyncedAnnotations(m.annotations, vm)
    && s.key == m.key && s.clusterName == m.clusterName && s.providerSpec == m.providerSpec
  }

  /** Then nothing is stale, and the VM is wanted otherwise only if something was. */
  lemma SyncPays(cfg: Config, m: Machine, s: Machine, vm: VM)
    requires OpenScope(m).Some? && SameContent(Wanted(cfg, m), vm) && Recorded(cfg, m, s, vm)
    ensures !Stale(cfg, s, vm)
    ensures !Stale(cfg, m, vm) ==> SameWish(s, m)
    ensures Differs(cfg, s, vm) ==> Stale(cfg, m, vm)
  {
    hide Wanted, OpenScope, Buildable;
    assert SyncedAnnotations(s.annotations, vm) == s.annotations;
    assert RecordedLabels(cfg, s) == s.labels;
    if !Stale(cfg, m, vm) {
      SameWants(cfg, m, s);
      NoLongerDiffers(cfg, m, vm);
    }
  }

  /** The VM after a put that took effect is the wanted one, with the old identity and status. */
  lemma PutStoresWanted(cfg: Config, i: Infra, m: Machine, wire: Wire)
    requires Buildable(cfg, m) && VMKey(cfg, m.key.name) in i.vms
    requires i.vms[VMKey(cfg, m.key.name)].resourceVersion <= i.clock && i.vms[VMKey(cfg, m.key.name)].key == VMKey(cfg, m.key.name)
    ensures var key := VMKey(cfg, m.key.name);
            var old_ := i.vms[key];
            var (i', r) := UpdateVMCall(cfg, i, DesiredVM(cfg, OpenScope(m).value, m).(resourceVersion := old_.resourceVersion), wire);
            && i'.vmis == i.vmis && key in i'.vms
            && var new_ := i'.vms[key];
            && new_.key == key && new_.uid == old_.uid && new_.status == old_.status
            && (new_.resourceVersion != old_.resourceVersion ==> Differs(cfg, m, old_))
            && (new_.resourceVersion == old_.resourceVersion ==> i' == i)
            && (!wire.Dropped? ==> SameContent(Wanted(cfg, m), new_))
            && r == (if wire.Delivered? then Ok(new_) else Refused)
  {
    assert DesiredVM(cfg, OpenScope(m).value, m).key == VMKey(cfg, m.key.name);
    hide BuildVM, OpenScope, DesiredVM;
  }
}
