/** What a nil error of the actuator's Create or Update means, in every interleaving. */
module Success {
  import opened Wrappers
  import opened Resources
  import opened MachineScope
  import opened Cluster
  import opened Protocol
  import opened Interleaving
  import opened TwoPhasePatch

  /** Within Create and Update only the delivered status patch of a ready, unfailed operation ends in success. */
  lemma OnlyTheLastPatchSucceeds(cfg: Config, w: World, p: Proc, wire: Wire, choice: Choice)
    requires InfraProc(p) || PatchProc(p)
    ensures Step(cfg, w, p, wire, choice).1 == Done(Success) <==>
              p.PatchStatus? && wire.Delivered? && p.m.key in w.tenant.machines && !p.report.failed
              && p.report.vm.Some? && p.report.vm.value.status.ready
    ensures Step(cfg, w, p, wire, choice).1 == Done(NotReady) <==>
              p.PatchStatus? && wire.Delivered? && p.m.key in w.tenant.machines && !p.report.failed
              && !(p.report.vm.Some? && p.report.vm.value.status.ready)
  {
  }

  /**
   Once the user data is read, no call of Create or Update to the infra cluster ends the operation:
   whatever fails, the Machine is still patched, unless a quantity panics.
   */
  lemma FailuresStillPatch(cfg: Config, w: World, p: Proc, wire: Wire, choice: Choice)
    requires InfraProc(p) && !p.FetchUserData? && OpenScope(p.m).Some?
    ensures var p' := Step(cfg, w, p, wire, choice).1;
            || (InfraProc(p') && p'.m == p.m)
            || (p'.PatchMeta? && p'.origin == p.m)
            || (p' == Crashed && p.MakeSecret? && Panics(cfg, OpenScope(p.m).value))
  {
    BuildOutcomes(cfg, OpenScope(p.m).value, p.m);
    hide Panics, Accepted, OpenScope, DesiredVM, SyncedWith;
  }

  lemma StepIntoStatus(cfg: Config, w: World, p: Proc, wire: Wire, choice: Choice)
    ensures var p' := Step(cfg, w, p, wire, choice).1;
            p'.PatchStatus? ==> p.PatchMeta? && p.origin == p'.origin && p.report == p'.report && wire.Delivered?
                                && p.m.key in w.tenant.machines
  {
  }

  lemma StepIntoMeta(cfg: Config, w: World, p: Proc, wire: Wire, choice: Choice)
    ensures var p' := Step(cfg, w, p, wire, choice).1;
            p'.PatchMeta? && !p'.report.failed && p'.report.Ready() ==>
              p.ReadVMI? && Some(p.vm) == p'.report.vm && wire.Delivered?
              && p.vm.key in w.infra.vmis && p'.report.vmi == Some(w.infra.vmis[p.vm.key])
  {
    if InfraProc(p) {
      InfraIntoMeta(cfg, w, p, wire, choice);
    }
  }

  lemma InfraIntoMeta(cfg: Config, w: World, p: Proc, wire: Wire, choice: Choice)
    requires InfraProc(p)
    ensures var p' := StepInfra(cfg, w, p, wire, choice).1;
            p'.PatchMeta? && !p'.report.failed && p'.report.Ready() ==>
              p.ReadVMI? && Some(p.vm) == p'.report.vm && wire.Delivered?
              && p.vm.key in w.infra.vmis && p'.report.vmi == Some(w.infra.vmis[p.vm.key])
  {
    hide BuildVM, SyncedWith;
  }

  lemma StepIntoRead(cfg: Config, w: World, p: Proc, wire: Wire, choice: Choice)
    requires VersionsOk(w) && ProcOk(cfg, w, p)
    ensures var (w', p') := Step(cfg, w, p, wire, choice);
            p'.ReadVMI? ==> (p.MakeVM? || p.PutVM?) && wire.Delivered?
                            && p'.vm.key in w'.infra.vms && w'.infra.vms[p'.vm.key] == p'.vm && p'.vm.status.ready
  {
    hide BuildVM, SyncedWith;
  }

  /** The process is at its last patch at state i, and its next step ends in success. */
  predicate EndsWell(cfg: Config, s: System, acts: seq<Action>, i: nat, pid: nat)
    requires i < |acts|
  {
    && acts[i].Advance? && acts[i].pid == pid
    && pid in At(cfg, s, acts, i).procs && At(cfg, s, acts, i).procs[pid].PatchStatus?
    && pid in At(cfg, s, acts, i + 1).procs && At(cfg, s, acts, i + 1).procs[pid] == Done(Success)
  }

  /** The calls a successful operation has behind it. */
  ghost predicate Chain(cfg: Config, s: System, acts: seq<Action>, wrote: nat, read: nat, meta: nat, i: nat, pid: nat)
    requires wrote < read < meta < i < |acts| && EndsWell(cfg, s, acts, i, pid)
  {
    var p := At(cfg, s, acts, i).procs[pid];
    && p.report.vm.Some? && p.report.vmi.Some? && !p.report.failed
    && var vm := p.report.vm.value;
    && vm.status.ready && vm.key == VMKey(cfg, p.origin.key.name)
    // the server answered the create or the put with this very VM
    && pid in At(cfg, s, acts, wrote).procs
    && (At(cfg, s, acts, wrote).procs[pid].MakeVM? || At(cfg, s, acts, wrote).procs[pid].PutVM?)
    && vm.key in At(cfg, s, acts, wrote + 1).world.infra.vms && At(cfg, s, acts, wrote + 1).world.infra.vms[vm.key] == vm
    // its instance was read
    && vm.key in At(cfg, s, acts, read).world.infra.vmis && p.report.vmi == Some(At(cfg, s, acts, read).world.infra.vmis[vm.key])
    // both patches reached the stored Machine
    && Stored(cfg, s, acts, meta, p.origin.key) && Stored(cfg, s, acts, meta + 1, p.origin.key)
    && Stored(cfg, s, acts, i, p.origin.key) && Stored(cfg, s, acts, i + 1, p.origin.key)
    && (CarriesMeta(At(cfg, s, acts, meta + 1).world.tenant.machines[p.origin.key], vm) <==>
          MetaGetsThere(p.origin, vm, At(cfg, s, acts, meta).world.tenant.machines[p.origin.key]))
    && (CarriesStatus(At(cfg, s, acts, i + 1).world.tenant.machines[p.origin.key], vm, p.report.vmi, p.report.lookup) <==>
          StatusGetsThere(p.origin, vm, p.report.vmi, p.report.lookup, At(cfg, s, acts, i).world.tenant.machines[p.origin.key]))
  }

  predicate Stored(cfg: Config, s: System, acts: seq<Action>, t: nat, key: Key)
    requires t <= |acts|
  {
    key in At(cfg, s, acts, t).world.tenant.machines
  }

  lemma MetaEffect(cfg: Config, w: World, p: Proc, wire: Wire, choice: Choice)
    requires p.PatchMeta? && ProcOk(cfg, w, p) && !p.report.failed && wire.Delivered? && p.m.key in w.tenant.machines
    ensures var w' := Step(cfg, w, p, wire, choice).0;
            && p.origin.key in w'.tenant.machines && p.m.key == p.origin.key
            && (CarriesMeta(w'.tenant.machines[p.origin.key], p.report.vm.value) <==>
                  MetaGetsThere(p.origin, p.report.vm.value, w.tenant.machines[p.origin.key]))
  {
    var c := w.tenant.machines[p.origin.key];
    MetaPatchCarries(p.origin, p.report.vm.value, p.report.vmi, p.report.lookup, c);
    hide MetaGetsThere, CarriesMeta, MergeMain, SyncedWith, DecodedOver;
  }

  lemma StatusEffect(cfg: Config, w: World, p: Proc, wire: Wire, choice: Choice)
    requires p.PatchStatus? && ProcOk(cfg, w, p) && !p.report.failed && wire.Delivered? && p.m.key in w.tenant.machines
    ensures var w' := Step(cfg, w, p, wire, choice).0;
            && p.origin.key in w'.tenant.machines && p.m.key == p.origin.key
            && (CarriesStatus(w'.tenant.machines[p.origin.key], p.report.vm.value, p.report.vmi, p.report.lookup) <==>
                  StatusGetsThere(p.origin, p.report.vm.value, p.report.vmi, p.report.lookup, w.tenant.machines[p.origin.key]))
  {
    var c := w.tenant.machines[p.origin.key];
    StatusPatchCarries(p.origin, p.m, p.report.vm.value, p.report.vmi, p.report.lookup, c);
    hide StatusGetsThere, CarriesStatus, MergeStatus, SyncedWith, DecodedOver;
  }

  /**
   Whenever a Create or Update returns nil: the VM the server returned was ready and is the one the
   server had stored at that moment, its instance was read, and both patches arrived. After the first
   the stored Machine carries that VM's provider ID, UID, state and type, after the second its status
   and addresses, exactly if each of these was changed by sync or stored already. No error of any
   call can have been masked.
   */
  lemma SuccessIsReal(cfg: Config, s: System, acts: seq<Action>, i: nat, pid: nat) returns (wrote: nat, read: nat, meta: nat)
    requires VersionsOk(s.world) && s.procs == map[] && i < |acts| && EndsWell(cfg, s, acts, i, pid)
    ensures wrote < read < meta < i
    ensures Chain(cfg, s, acts, wrote, read, meta, i, pid)
  {
    hide Exec, Step, Start, ProcOk, MetaGetsThere, StatusGetsThere, CarriesMeta, CarriesStatus;
    AlwaysOk(cfg, s, acts, i);
    AfterPrefix(cfg, s, acts, i);
    ExecMove(cfg, At(cfg, s, acts, i), acts[i]);
    var p := At(cfg, s, acts, i).procs[pid];
    OnlyTheLastPatchSucceeds(cfg, At(cfg, s, acts, i).world, p, acts[i].wire, acts[i].choice);
    StatusEffect(cfg, At(cfg, s, acts, i).world, p, acts[i].wire, acts[i].choice);
    meta := BeforeStatus(cfg, s, acts, i, pid);
    var p1 := At(cfg, s, acts, meta).procs[pid];
    ReportHolds(cfg, At(cfg, s, acts, i).world, p);
    read := BeforeMeta(cfg, s, acts, meta, pid);
    wrote := BeforeRead(cfg, s, acts, read, pid);
    AlwaysOk(cfg, s, acts, meta);
    AfterPrefix(cfg, s, acts, meta);
    ExecMove(cfg, At(cfg, s, acts, meta), acts[meta]);
    MetaEffect(cfg, At(cfg, s, acts, meta).world, p1, acts[meta].wire, acts[meta].choice);
  }

  lemma ReportHolds(cfg: Config, w: World, p: Proc)
    requires PatchProc(p) && ProcOk(cfg, w, p) && !p.report.failed && p.report.Ready()
    ensures p.report.vm.Some? && p.report.vmi.Some? && p.report.vm.value.key == VMKey(cfg, p.origin.key.name)
  {
  }

  lemma BeforeStatus(cfg: Config, s: System, acts: seq<Action>, n: nat, pid: nat) returns (i: nat)
    requires n <= |acts| && s.procs == map[] && pid in At(cfg, s, acts, n).procs && At(cfg, s, acts, n).procs[pid].PatchStatus?
    ensures i < n && acts[i].Advance? && acts[i].pid == pid && acts[i].wire.Delivered?
    ensures pid in At(cfg, s, acts, i).procs && At(cfg, s, acts, i).procs[pid].PatchMeta?
    ensures var p, p1 := At(cfg, s, acts, n).procs[pid], At(cfg, s, acts, i).procs[pid];
            p1.origin == p.origin && p1.report == p.report && p1.m.key in At(cfg, s, acts, i).world.tenant.machines
  {
    hide Exec, Step, Start;
    i := MoveInto(cfg, s, acts, n, pid);
    if acts[i].Launch? {
      StartShape(cfg, At(cfg, s, acts, i).world, acts[i].job);
    } else {
      StepIntoStatus(cfg, At(cfg, s, acts, i).world, At(cfg, s, acts, i).procs[pid], acts[i].wire, acts[i].choice);
    }
  }

  lemma BeforeMeta(cfg: Config, s: System, acts: seq<Action>, n: nat, pid: nat) returns (i: nat)
    requires n <= |acts| && s.procs == map[] && pid in At(cfg, s, acts, n).procs && At(cfg, s, acts, n).procs[pid].PatchMeta?
    requires !At(cfg, s, acts, n).procs[pid].report.failed && At(cfg, s, acts, n).procs[pid].report.Ready()
    ensures i < n && acts[i].Advance? && acts[i].pid == pid && acts[i].wire.Delivered?
    ensures pid in At(cfg, s, acts, i).procs && At(cfg, s, acts, i).procs[pid].ReadVMI?
    ensures var p, p1 := At(cfg, s, acts, n).procs[pid], At(cfg, s, acts, i).procs[pid];
            Some(p1.vm) == p.report.vm && p1.vm.key in At(cfg, s, acts, i).world.infra.vmis
            && p.report.vmi == Some(At(cfg, s, acts, i).world.infra.vmis[p1.vm.key])
  {
    hide Exec, Step, Start;
    i := MoveInto(cfg, s, acts, n, pid);
    if acts[i].Launch? {
      StartShape(cfg, At(cfg, s, acts, i).world, acts[i].job);
    } else {
      StepIntoMeta(cfg, At(cfg, s, acts, i).world, At(cfg, s, acts, i).procs[pid], acts[i].wire, acts[i].choice);
    }
  }

  lemma BeforeRead(cfg: Config, s: System, acts: seq<Action>, n: nat, pid: nat) returns (i: nat)
    requires VersionsOk(s.world) && n <= |acts| && s.procs == map[]
    requires pid in At(cfg, s, acts, n).procs && At(cfg, s, acts, n).procs[pid].ReadVMI?
    ensures i < n && acts[i].Advance? && acts[i].pid == pid && pid in At(cfg, s, acts, i).procs
    ensures At(cfg, s, acts, i).procs[pid].MakeVM? || At(cfg, s, acts, i).procs[pid].PutVM?
    ensures var vm := At(cfg, s, acts, n).procs[pid].vm;
            vm.status.ready && vm.key in At(cfg, s, acts, i + 1).world.infra.vms && At(cfg, s, acts, i + 1).world.infra.vms[vm.key] == vm
  {
    hide Exec, Step, Start, ProcOk;
    i := MoveInto(cfg, s, acts, n, pid);
    if acts[i].Launch? {
      StartShape(cfg, At(cfg, s, acts, i).world, acts[i].job);
    } else {
      AlwaysOk(cfg, s, acts, i);
      StepIntoRead(cfg, At(cfg, s, acts, i).world, At(cfg, s, acts, i).procs[pid], acts[i].wire, acts[i].choice);
    }
  }
}
