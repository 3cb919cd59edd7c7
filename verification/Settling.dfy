/**
 Where Updates lead. With nobody else writing, the second Update already leaves the Machine alone
 and the third leaves everything alone; and however Updates were cut short before, one that goes
 through stores the Machine an undisturbed one would have stored.
 */
module Settling {
  import opened Wrappers
  import opened Resources
  import opened MachineScope
  import opened Cluster
  import opened Protocol
  import opened Interleaving
  import opened WholeRuns
  import opened UpdateRuns
  import opened Feedback

  /** An Update of the stored Machine. */
  function Tick(cfg: Config, w: World, mk: Key, net: Net): World {
    if mk !in w.tenant.machines then w else Run(cfg, w, StartUpdate(cfg, w.tenant.machines[mk]), net).0
  }

  predicate Wrote(cfg: Config, w: World, w': World, mk: Key) {
    var key := VMKey(cfg, mk.name);
    key in w.infra.vms && key in w'.infra.vms && w'.infra.vms[key].resourceVersion != w.infra.vms[key].resourceVersion
  }

  lemma TickVersions(cfg: Config, w: World, mk: Key, net: Net)
    requires VersionsOk(w)
    ensures VersionsOk(Tick(cfg, w, mk, net))
  {
    if mk in w.tenant.machines {
      LaunchOk(cfg, System(w, map[]), UpdateJob(mk));
      hide Run, StartUpdate, ProcOk;
      RunVersions(cfg, w, StartUpdate(cfg, w.tenant.machines[mk]), net);
    }
  }

  /** The put of an Update: a write happens only if something differs, and then nothing does. */
  lemma PutEffect(cfg: Config, w: World, m: Machine, net: Net)
    requires VersionsOk(w) && VMKey(cfg, m.key.name) in w.infra.vms
    ensures var key, i := VMKey(cfg, m.key.name), Updated(cfg, w, m, net);
            && key in i.vms && i.vmis == w.infra.vmis && i.vms[key].key == key
            && i.vms[key].uid == w.infra.vms[key].uid && i.vms[key].status == w.infra.vms[key].status
            && (i.vms[key].resourceVersion != w.infra.vms[key].resourceVersion ==> Differs(cfg, m, w.infra.vms[key]))
            && (i.vms[key].resourceVersion == w.infra.vms[key].resourceVersion ==> i == w.infra)
            && (Buildable(cfg, m) && net.getVM.Delivered? && !net.updateVM.Dropped? ==> SameContent(Wanted(cfg, m), i.vms[key]))
  {
    if Buildable(cfg, m) {
      PutStoresWanted(cfg, w.infra, m, net.updateVM);
    }
    hide Buildable, Wanted, DesiredVM, UpdateVMCall, OpenScope, Differs;
  }

  /** Everything an Update needs to go through. */
  predicate Ready(cfg: Config, w: World, m: Machine) {
    var key := VMKey(cfg, m.key.name);
    Stored(w, m) && Buildable(cfg, m) && key in w.infra.vms && (w.infra.vms[key].status.ready ==> key in w.infra.vmis)
  }

  /** The Machine an undisturbed Update stores. */
  function Goal(cfg: Config, w: World, m: Machine, net: Net): Machine
    requires VMKey(cfg, m.key.name) in w.infra.vms && OpenScope(m).Some?
  {
    Aim(w, m, w.infra.vms[VMKey(cfg, m.key.name)].(spec := Wanted(cfg, m).spec), net)
  }

  lemma SmoothUpdate(cfg: Config, w: World, m: Machine, net: Net)
    requires VersionsOk(w) && Ready(cfg, w, m) && Smooth(net)
    ensures var w' := Tick(cfg, w, m.key, net);
            && w' == WithMachine(w.(infra := Updated(cfg, w, m, net)), Goal(cfg, w, m, net))
            && SameContent(Wanted(cfg, m), Updated(cfg, w, m, net).vms[VMKey(cfg, m.key.name)])
  {
    assert OpenScope(m).Some?;
    hide Run, StartUpdate, Buildable;
    WholeUpdate(cfg, w, m, net);
    hide Updated;
    PutEffect(cfg, w, m, net);
    hide BuildVM, OpenScope, Wanted;
    var key, i := VMKey(cfg, m.key.name), Updated(cfg, w, m, net);
    AimSame(w.(infra := i), w, m, i.vms[key], w.infra.vms[key].(spec := Wanted(cfg, m).spec), net);
  }

  /** The aim depends on the VM only through its identity, spec and status. */
  lemma AimSame(w: World, w': World, m: Machine, a: VM, b: VM, net: Net)
    requires a.key == b.key && a.uid == b.uid && a.spec == b.spec && a.status == b.status && w.infra.vmis == w'.infra.vmis
    ensures Aim(w, m, a, net) == Aim(w', m, b, net)
  {
  }

  /** The provider spec and the cluster label decide whether a VM can be built; sync changes neither. */
  lemma SyncKeepsBuildable(cfg: Config, m: Machine, m': Machine)
    requires Buildable(cfg, m) && m'.providerSpec == m.providerSpec && m'.key == m.key
    requires m'.labels == m.labels || m'.labels == RecordedLabels(cfg, m)
    ensures Buildable(cfg, m') && OpenScope(m') == OpenScope(m) && Wanted(cfg, m').spec == Wanted(cfg, m).spec
  {
    assert |TYPE_LABEL| != |CLUSTER_LABEL|;
  }

  /** Syncing again with the same VM, instance and resolved addresses changes nothing. */
  lemma AimIdempotent(w: World, m: Machine, vm: VM, net: Net, net': Net)
    requires net.choice.lookup == net'.choice.lookup
    ensures Aim(w, Aim(w, m, vm, net), vm, net') == Aim(w, m, vm, net)
  {
    var id := FormatProviderID(vm.key.namespace, vm.key.name);
    if vm.status.ready && vm.key in w.infra.vmis {
      SyncIdempotent(m, vm, Some(w.infra.vmis[vm.key]), id, net.choice.lookup);
    } else {
      SyncIdempotent(m, vm, None, id, None);
    }
  }

  /** A sync that was cut short, or used other addresses, is made good by the next one. */
  lemma AimForgets(w: World, m: Machine, m': Machine, vm: VM, net: Net, net': Net)
    requires vm.status.ready ==> vm.key in w.infra.vmis
    requires var s := Aim(w, m, vm, net); m' == m || m' == MetaOnly(s, m) || m' == s
    ensures Aim(w, m', vm, net') == Aim(w, m, vm, net')
  {
    var s := SyncedLabels(m.labels, vm.spec);
    assert SyncedLabels(s, vm.spec) == s;
    var a := SyncedAnnotations(m.annotations, vm);
    assert SyncedAnnotations(a, vm) == a;
  }

  function StoredAfter(cfg: Config, w: World, m: Machine, net: Net): Machine {
    var w' := Tick(cfg, w, m.key, net);
    if m.key in w'.tenant.machines then w'.tenant.machines[m.key] else m
  }

  /** The tenant cluster differs at most in what is stored of this Machine. */
  predicate OnlyMachine(w: World, w': World, m: Machine) {
    w'.tenant == w.tenant.(machines := w.tenant.machines[m.key := m])
  }

  lemma OnlyMachineTwice(w: World, w': World, w'': World, m': Machine, m'': Machine)
    requires OnlyMachine(w, w', m') && OnlyMachine(w', w'', m'') && m'.key == m''.key
    ensures OnlyMachine(w, w'', m'')
  {
    assert w.tenant.machines[m'.key := m'][m''.key := m''] == w.tenant.machines[m''.key := m''];
  }

  lemma TickTouchesOneMachine(cfg: Config, w: World, m: Machine, net: Net)
    requires VersionsOk(w) && Stored(w, m)
    ensures OnlyMachine(w, Tick(cfg, w, m.key, net), StoredAfter(cfg, w, m, net))
    ensures StoredAfter(cfg, w, m, net).key == m.key
  {
    hide Run, StartUpdate, Updated, Buildable, Reached;
    UpdatedKeys(cfg, w, m, net);
    WholeUpdate(cfg, w, m, net);
    var w1, w' := w.(infra := Updated(cfg, w, m, net)), Tick(cfg, w, m.key, net);
    if w' == w1 {
      assert w.tenant.machines[m.key := m] == w.tenant.machines;
    } else {
      ReachedTouchesOneMachine(w1, w', m, Aim(w1, m, w1.infra.vms[VMKey(cfg, m.key.name)], net));
    }
  }

  lemma ReachedTouchesOneMachine(w: World, w': World, m: Machine, s: Machine)
    requires Stored(w, m) && s.key == m.key && Reached(w, w', m, s)
    ensures m.key in w'.tenant.machines && w'.tenant.machines[m.key].key == m.key && OnlyMachine(w, w', w'.tenant.machines[m.key])
  {
    assert w.tenant.machines[m.key := m] == w.tenant.machines;
  }

  /** However an Update fares, the next one is ready to go through and aims for the same Machine. */
  lemma GoalStays(cfg: Config, w: World, m: Machine, net: Net, good: Net)
    requires VersionsOk(w) && Ready(cfg, w, m)
    ensures var w', m' := Tick(cfg, w, m.key, net), StoredAfter(cfg, w, m, net);
            && VersionsOk(w') && Ready(cfg, w', m') && m'.key == m.key
            && OpenScope(m').Some? && OpenScope(m).Some? && Goal(cfg, w', m', good) == Goal(cfg, w, m, good)
  {
    TickVersions(cfg, w, m.key, net);
    var key, i := VMKey(cfg, m.key.name), Updated(cfg, w, m, net);
    var w1, w', m' := w.(infra := i), Tick(cfg, w, m.key, net), StoredAfter(cfg, w, m, net);
    assert OpenScope(m).Some?;
    WholeUpdate(cfg, w, m, net);
    hide Run, StartUpdate, Buildable;
    PutEffect(cfg, w, m, net);
    hide Updated, OpenScope;
    WantedSpec(cfg, m);
    var before, vm := w.infra.vms[key], w.infra.vms[key].(spec := Wanted(cfg, m).spec);
    hide Wanted;
    if w' == w1 {
      AimSame(w', w, m, i.vms[key].(spec := vm.spec), vm, good);
    } else {
      var s := Aim(w1, m, i.vms[key], net);
      AimSame(w1, w, m, i.vms[key], vm, net);
      hide Aim;
      MarkedLikewise(cfg, w, m, m', vm, net);
      SyncKeepsBuildable(cfg, m, m');
      AimForgets(w, m, m', vm, net, good);
      AimSame(w', w, m', i.vms[key].(spec := vm.spec), vm, good);
    }
  }

  lemma MarkedLikewise(cfg: Config, w: World, m: Machine, m': Machine, vm: VM, net: Net)
    requires OpenScope(m).Some? && vm.spec == Wanted(cfg, m).spec
    requires var s := Aim(w, m, vm, net); m' == m || m' == MetaOnly(s, m) || m' == s
    ensures m'.key == m.key && m'.providerSpec == m.providerSpec
    ensures m'.labels == m.labels || m'.labels == RecordedLabels(cfg, m)
  {
    WantedSpec(cfg, m);
    hide Wanted, OpenScope;
  }

  // -------- repair --------

  function TickAll(cfg: Config, w: World, mk: Key, nets: seq<Net>): World {
    if nets == [] then w else Tick(cfg, TickAll(cfg, w, mk, nets[..|nets| - 1]), mk, nets[|nets| - 1])
  }

  /**
   Any number of Updates, each cut short or failing at any call, followed by one that goes through:
   the tenant cluster ends up exactly as after that last Update alone.
   */
  lemma {:induction false} RepairAfterInterruptions(cfg: Config, w: World, m: Machine, nets: seq<Net>, good: Net)
    requires VersionsOk(w) && Ready(cfg, w, m) && Smooth(good)
    ensures Tick(cfg, TickAll(cfg, w, m.key, nets), m.key, good).tenant == Tick(cfg, w, m.key, good).tenant
  {
    var w', m' := Interrupted(cfg, w, m, nets, good);
    hide Tick, TickAll, Ready, VersionsOk, OpenScope, Goal, Smooth;
    SmoothUpdate(cfg, w', m', good);
    SmoothUpdate(cfg, w, m, good);
    var goal := Goal(cfg, w, m, good);
    OnlyMachineTwice(w, w', Tick(cfg, w', m.key, good), m', goal);
  }

  lemma {:induction false} Interrupted(cfg: Config, w: World, m: Machine, nets: seq<Net>, good: Net) returns (w': World, m': Machine)
    requires VersionsOk(w) && Ready(cfg, w, m)
    ensures w' == TickAll(cfg, w, m.key, nets) && VersionsOk(w') && Ready(cfg, w', m') && m'.key == m.key
    ensures OnlyMachine(w, w', m')
    ensures OpenScope(m').Some? && OpenScope(m).Some? && Goal(cfg, w', m', good) == Goal(cfg, w, m, good)
    decreases |nets|
  {
    if nets == [] {
      w', m' := w, m;
      assert w.tenant.machines[m.key := m] == w.tenant.machines;
    } else {
      var w1, m1 := Interrupted(cfg, w, m, nets[..|nets| - 1], good);
      var last := nets[|nets| - 1];
      assert Stored(w1, m1);
      hide Tick, Ready, VersionsOk, OpenScope, Goal, StoredAfter, OnlyMachine, Stored;
      GoalStays(cfg, w1, m1, last, good);
      TickTouchesOneMachine(cfg, w1, m1, last);
      w', m' := Tick(cfg, w1, m.key, last), StoredAfter(cfg, w1, m1, last);
      OnlyMachineTwice(w, w1, w', m1, m');
    }
  }

  // -------- fixpoint --------

  /** Three Updates in a row that go through, all resolving the same addresses. */
  predicate Calm(n1: Net, n2: Net, n3: Net) {
    && Smooth(n1) && Smooth(n2) && Smooth(n3)
    && n1.choice.lookup == n2.choice.lookup == n3.choice.lookup
  }

  /** What one undisturbed Update leaves: its aim, under a VM with the wanted content. */
  lemma Settles(cfg: Config, w: World, m: Machine, net: Net, next: Net)
    requires VersionsOk(w) && Ready(cfg, w, m) && Smooth(net) && net.choice.lookup == next.choice.lookup
    ensures OpenScope(m).Some?
    ensures var w', m' := Tick(cfg, w, m.key, net), Goal(cfg, w, m, net); var key := VMKey(cfg, m.key.name);
            && VersionsOk(w') && Ready(cfg, w', m') && m'.key == m.key
            && OnlyMachine(w, w', m')
            && OpenScope(m').Some? && Goal(cfg, w', m', next) == m'
            && SameContent(Wanted(cfg, m), w'.infra.vms[key])
            && (w'.infra != w.infra <==> Differs(cfg, m, w.infra.vms[key]))
            && (Wrote(cfg, w, w', m.key) <==> Differs(cfg, m, w.infra.vms[key]))
            && m'.labels == RecordedLabels(cfg, m) && m'.annotations == SyncedAnnotations(m.annotations, w.infra.vms[key])
            && m'.clusterName == m.clusterName && m'.providerSpec == m.providerSpec
  {
    var key := VMKey(cfg, m.key.name);
    GoalStays(cfg, w, m, net, next);
    assert OpenScope(m).Some?;
    SmoothUpdate(cfg, w, m, net);
    hide Tick;
    PutEffect(cfg, w, m, net);
    hide Updated, OpenScope, Buildable;
    WantedSpec(cfg, m);
    hide Wanted;
    var vm := w.infra.vms[key].(spec := Wanted(cfg, m).spec);
    AimIdempotent(w, m, vm, net, next);
  }

  /**
   Undisturbed, the second Update leaves the Machine alone and the third leaves everything alone.
   The writes on the way are exactly those owed: the first Update writes if and only if the VM
   differs from the desired one, the second if and only if what the Machine recorded was stale.
   */
  lemma ThirdUpdateIsIdle(cfg: Config, w: World, m: Machine, n1: Net, n2: Net, n3: Net)
    requires VersionsOk(w) && Ready(cfg, w, m) && Calm(n1, n2, n3)
    ensures var w1 := Tick(cfg, w, m.key, n1); var w2 := Tick(cfg, w1, m.key, n2); var vm := w.infra.vms[VMKey(cfg, m.key.name)];
            && w2.tenant == w1.tenant
            && Tick(cfg, w2, m.key, n3) == w2
            && (Wrote(cfg, w, w1, m.key) <==> Differs(cfg, m, vm))
            && (Wrote(cfg, w1, w2, m.key) <==> Stale(cfg, m, vm))
  {
    hide Tick, VersionsOk, Differs, Wrote, Goal, Wanted, OpenScope, Stale, Buildable, Stored, OnlyMachine;
    Settles(cfg, w, m, n1, n2);
    var key, w1, m1 := VMKey(cfg, m.key.name), Tick(cfg, w, m.key, n1), Goal(cfg, w, m, n1);
    Settles(cfg, w1, m1, n2, n3);
    var w2 := Tick(cfg, w1, m.key, n2);
    OnlyMachineSame(w1, w2, m1);
    Settles(cfg, w2, m1, n3, n3);
    OnlyMachineSame(w2, Tick(cfg, w2, m.key, n3), m1);
    NoLongerDiffers(cfg, m1, w2.infra.vms[key]);
    SecondDiffers(cfg, m, m1, w.infra.vms[key], w1.infra.vms[key]);
  }

  lemma OnlyMachineSame(w: World, w': World, m: Machine)
    requires OnlyMachine(w, w', m) && Stored(w, m)
    ensures w'.tenant == w.tenant
  {
    assert w.tenant.machines[m.key := m] == w.tenant.machines;
  }

  /** A VM pushed from the Machine as it was differs from the one wanted after syncing if that changed anything. */
  lemma SecondDiffers(cfg: Config, m: Machine, m1: Machine, vm: VM, v1: VM)
    requires OpenScope(m).Some? && OpenScope(m1).Some? && Buildable(cfg, m) && SameContent(Wanted(cfg, m), v1)
    requires m1.labels == RecordedLabels(cfg, m) && m1.annotations == SyncedAnnotations(m.annotations, vm)
    requires m1.key == m.key && m1.clusterName == m.clusterName && m1.providerSpec == m.providerSpec
    ensures Differs(cfg, m1, v1) <==> Stale(cfg, m, vm)
  {
    SyncKeepsBuildable(cfg, m, m1);
    WantedSpec(cfg, m);
    WantedSpec(cfg, m1);
    hide Wanted, OpenScope, Buildable, SyncedAnnotations;
    var own := OwnerLabels(cfg.infraID);
    assert OwnerLabel(cfg.infraID)[0] == 't' && TYPE_LABEL[0] == 'm';
    assert TYPE_LABEL !in own;
    if own + m1.labels == own + m.labels {
      assert (own + m1.labels)[TYPE_LABEL] == cfg.machineType;
      assert m1.labels == m.labels;
    }
  }
}
