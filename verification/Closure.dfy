/** Everything a stored VM refers to is there. */
module Closure {
  import opened Resources
  import opened MachineScope
  import opened Cluster
  import opened Protocol
  import opened Interleaving
  import opened Latch

  predicate SourceOk(key: Key, dvs: seq<DataVolume>, v: Volume) {
    match v
    case BootVolume(_, dv) => exists i | 0 <= i < |dvs| :: dvs[i].name == dv && dvs[i].namespace == key.namespace
    case CloudInitVolume(_, secret) => secret == IgnitionSecretName(key.name)
  }

  predicate HasVolume(t: Template, name: string) { exists i | 0 <= i < |t.volumes| :: t.volumes[i].name == name }

  predicate HasNetwork(t: Template, name: string) { exists i | 0 <= i < |t.networks| :: t.networks[i].name == name }

  /**
   Within the VM of a key: every boot volume is one of its own data-volume templates, its cloud-init
   secret is the one of its name, every disk names a volume and every interface a network; and it
   has a disk for each kind of volume, and an interface.
   */
  predicate SpecClosed(key: Key, spec: VMSpec) {
    && spec.template.Some?
    && var t := spec.template.value;
    && (forall i | 0 <= i < |t.volumes| :: SourceOk(key, spec.dataVolumes, t.volumes[i]))
    && (forall i | 0 <= i < |t.disks| :: HasVolume(t, t.disks[i].name))
    && (forall i | 0 <= i < |t.interfaces| :: HasNetwork(t, t.interfaces[i].name))
    && (exists i | 0 <= i < |t.volumes| :: t.volumes[i].BootVolume?)
    && (exists i | 0 <= i < |t.volumes| :: t.volumes[i].CloudInitVolume?)
    && t.interfaces != []
  }

  lemma BuiltIsClosed(cfg: Config, spec: ProviderSpec, name: string)
    ensures SpecClosed(VMKey(cfg, name), BuildSpec(cfg, spec, name))
  {
    var s := BuildSpec(cfg, spec, name);
    var t := s.template.value;
    assert t.volumes[0].BootVolume? && t.volumes[1].CloudInitVolume?;
    assert s.dataVolumes[0].name == BootVolumeName(name);
    assert t.disks[0].name == t.volumes[0].name && t.disks[1].name == t.volumes[1].name;
    assert HasVolume(t, t.disks[0].name) && HasVolume(t, t.disks[1].name);
    assert t.interfaces[0].name == t.networks[0].name;
    assert HasNetwork(t, t.interfaces[0].name);
  }

  lemma DefaultingKeepsClosed(cfg: Config, key: Key, spec: VMSpec)
    requires SpecClosed(key, spec)
    ensures SpecClosed(key, Defaulted(cfg, spec))
  {
    var t, d := spec.template.value, Defaulted(cfg, spec).template.value;
    forall i | 0 <= i < |d.disks| ensures HasVolume(d, d.disks[i].name) {
      assert HasVolume(t, t.disks[i].name);
    }
    forall i | 0 <= i < |d.interfaces| ensures HasNetwork(d, d.interfaces[i].name) {
      assert HasNetwork(t, t.interfaces[i].name);
    }
  }

  predicate DesiredClosed(p: Proc) {
    (p.MakeVM? || p.LookupVM? || p.PutVM?) ==> SpecClosed(p.desired.key, p.desired.spec)
  }

  /** Of the infra namespace: each VM is closed and its ignition secret exists. */
  predicate VMsClosed(cfg: Config, i: Infra) {
    forall k | k in i.vms && k.namespace == cfg.infraNamespace ::
      SpecClosed(k, i.vms[k].spec) && SecretKey(cfg, k.name) in i.secrets
  }

  predicate SecretHeld(cfg: Config, i: Infra, p: Proc) {
    p.MakeVM? ==> SecretKey(cfg, p.m.key.name) in i.secrets
  }

  predicate SystemClosed(cfg: Config, s: System) {
    VMsClosed(cfg, s.world.infra)
    && forall pid | pid in s.procs :: DesiredClosed(s.procs[pid]) && SecretHeld(cfg, s.world.infra, s.procs[pid])
  }

  /** Others neither delete secrets nor write VM specs of the namespace. */
  predicate HandsOff(cfg: Config, a: Action) {
    a.Environment? ==>
      && (a.event.DropSecret? ==> a.event.key.namespace != cfg.infraNamespace)
      && (a.event.ImportVM? ==> a.event.new_.key.namespace != cfg.infraNamespace)
      && (a.event.EditVM? ==> a.event.vm.namespace != cfg.infraNamespace)
  }

  lemma BuildClosed(cfg: Config, spec: ProviderSpec, m: Machine)
    ensures BuildVM(cfg, spec, m).Built? ==>
              SpecClosed(BuildVM(cfg, spec, m).vm.key, BuildVM(cfg, spec, m).vm.spec)
  {
    BuiltIsClosed(cfg, spec, m.key.name);
    hide BuildSpec;
  }

  lemma AfterSecretClosed(cfg: Config, i: Infra, m: Machine)
    requires SecretKey(cfg, m.key.name) in i.secrets
    ensures DesiredClosed(AfterSecret(cfg, m)) && SecretHeld(cfg, i, AfterSecret(cfg, m))
  {
    if OpenScope(m).Some? {
      BuildClosed(cfg, OpenScope(m).value, m);
    }
    hide BuildVM, SpecClosed, OpenScope;
  }

  lemma MakeVMClosed(cfg: Config, w: World, p: Proc, wire: Wire, choice: Choice)
    requires p.MakeVM? && ProcOk(cfg, w, p) && VMsClosed(cfg, w.infra) && DesiredClosed(p) && SecretHeld(cfg, w.infra, p)
    ensures VMsClosed(cfg, StepInfra(cfg, w, p, wire, choice).0.infra)
  {
    DefaultingKeepsClosed(cfg, p.desired.key, p.desired.spec);
    hide SpecClosed, Defaulted, AfterVM;
  }

  lemma PutVMClosed(cfg: Config, w: World, p: Proc, wire: Wire, choice: Choice)
    requires p.PutVM? && ProcOk(cfg, w, p) && VMsClosed(cfg, w.infra) && DesiredClosed(p)
    ensures VMsClosed(cfg, StepInfra(cfg, w, p, wire, choice).0.infra)
  {
    DefaultingKeepsClosed(cfg, p.desired.key, p.desired.spec);
    hide SpecClosed, Defaulted, AfterVM;
  }

  lemma InfraStepClosed(cfg: Config, w: World, p: Proc, wire: Wire, choice: Choice)
    requires InfraProc(p) && VersionsOk(w) && ProcOk(cfg, w, p)
    requires VMsClosed(cfg, w.infra) && DesiredClosed(p) && SecretHeld(cfg, w.infra, p)
    ensures var (w', p') := StepInfra(cfg, w, p, wire, choice);
            VMsClosed(cfg, w'.infra) && DesiredClosed(p') && SecretHeld(cfg, w'.infra, p') && w.infra.secrets.Keys <= w'.infra.secrets.Keys
  {
    hide SpecClosed, AfterSecret, BuildVM;
    match p
    case MakeVM(_, _) => MakeVMClosed(cfg, w, p, wire, choice);
    case PutVM(_, _, _) => PutVMClosed(cfg, w, p, wire, choice);
    case MakeSecret(m, secret) =>
      var (i, r) := CreateSecretCall(w.infra, secret, wire);
      if r.Ok? {
        AfterSecretClosed(cfg, i, m);
      }
    case _ =>
  }

  lemma OtherStepsClosed(cfg: Config, w: World, p: Proc, wire: Wire, choice: Choice)
    requires !InfraProc(p) && VMsClosed(cfg, w.infra) && DesiredClosed(p) && SecretHeld(cfg, w.infra, p)
    ensures var (w', p') := Step(cfg, w, p, wire, choice);
            VMsClosed(cfg, w'.infra) && DesiredClosed(p') && SecretHeld(cfg, w'.infra, p') && w.infra.secrets.Keys <= w'.infra.secrets.Keys
  {
    hide SpecClosed;
  }

  lemma LaunchClosed(cfg: Config, w: World, job: Job)
    ensures Start(cfg, w, job).Some? ==>
              DesiredClosed(Start(cfg, w, job).value) && !Start(cfg, w, job).value.MakeVM?
  {
    if !job.ReconcileJob? && job.machine in w.tenant.machines && OpenScope(w.tenant.machines[job.machine]).Some? {
      var m := w.tenant.machines[job.machine];
      BuildClosed(cfg, OpenScope(m).value, m);
    }
    hide SpecClosed, BuildVM, OpenScope;
  }

  lemma EventClosed(cfg: Config, i: Infra, e: Event)
    requires VMsClosed(cfg, i) && HandsOff(cfg, Environment(e))
    ensures VMsClosed(cfg, InfraEvent(i, e))
    ensures forall name :: SecretKey(cfg, name) in i.secrets ==> SecretKey(cfg, name) in InfraEvent(i, e).secrets
  {
    hide SpecClosed;
  }

  lemma ExecClosed(cfg: Config, s: System, a: Action)
    requires SystemOk(cfg, s) && SystemClosed(cfg, s) && HandsOff(cfg, a)
    ensures SystemClosed(cfg, Exec(cfg, s, a))
  {
    hide Step, Start, InfraEvent, TenantEvent, SpecClosed, VMsClosed;
    match a
    case Launch(pid, job) =>
      LaunchClosed(cfg, s.world, job);
    case Advance(pid, wire, choice) =>
      if pid in s.procs {
        var p := s.procs[pid];
        assert ProcOk(cfg, s.world, p);
        StepClosed(cfg, s.world, p, wire, choice);
      }
    case Environment(e) =>
      EventClosed(cfg, s.world.infra, e);
  }

  lemma StepClosed(cfg: Config, w: World, p: Proc, wire: Wire, choice: Choice)
    requires VersionsOk(w) && ProcOk(cfg, w, p) && VMsClosed(cfg, w.infra) && DesiredClosed(p) && SecretHeld(cfg, w.infra, p)
    ensures var (w', p') := Step(cfg, w, p, wire, choice);
            VMsClosed(cfg, w'.infra) && DesiredClosed(p') && SecretHeld(cfg, w'.infra, p') && w.infra.secrets.Keys <= w'.infra.secrets.Keys
  {
    if InfraProc(p) {
      hide StepInfra, VMsClosed;
      InfraStepClosed(cfg, w, p, wire, choice);
    } else {
      hide Step, VMsClosed;
      OtherStepsClosed(cfg, w, p, wire, choice);
    }
  }

  /**
   In every reachable state, every VM of the infra namespace refers only to things that exist: its
   own data-volume template, its own ignition secret, its own volumes and networks; and the secrets
   and boot volumes of different names are different.
   */
  lemma {:induction false} AlwaysClosed(cfg: Config, s: System, acts: seq<Action>)
    requires VersionsOk(s.world) && s.procs == map[] && VMsClosed(cfg, s.world.infra)
    requires forall i | 0 <= i < |acts| :: HandsOff(cfg, acts[i])
    ensures SystemClosed(cfg, After(cfg, s, acts))
    ensures forall a, b :: IgnitionSecretName(a) == IgnitionSecretName(b) || BootVolumeName(a) == BootVolumeName(b) ==> a == b
    decreases |acts|
  {
    hide Exec, VMsClosed, SpecClosed;
    forall a, b ensures IgnitionSecretName(a) == IgnitionSecretName(b) || BootVolumeName(a) == BootVolumeName(b) ==> a == b {
      SecretNamesDiffer(a, b);
    }
    if acts != [] {
      var front := acts[..|acts| - 1];
      AlwaysClosed(cfg, s, front);
      AlwaysOk(cfg, s, front, |front|);
      assert front[..|front|] == front;
      ExecClosed(cfg, After(cfg, s, front), acts[|acts| - 1]);
    }
  }
}
