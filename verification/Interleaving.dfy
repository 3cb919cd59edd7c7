/**
 Any number of operations running at once, interleaved call by call with each other and with
 everything else that writes to the two clusters.
 */
module Interleaving {
  import opened Wrappers
  import opened JsonValue
  import opened Resources
  import opened Cluster
  import opened Protocol

  /** The operations of the two controllers, started on what is stored at that moment. */
  datatype Job =
    | CreateJob(machine: Key)
    | UpdateJob(machine: Key)
    | DeleteJob(machine: Key)
    | ExistsJob(machine: Key)
    | ReconcileJob(node: string)

  /** What others do: the infra cluster's controllers, other tenant controllers, users. Only UIDs are beyond them. */
  datatype Event =
    | SetStatus(vm: Key, status: VMStatus)
    | EditVM(vm: Key, labels: map<string, string>, annotations: map<string, string>, clusterName: string, spec: VMSpec)
    | RemoveVM(vm: Key)
    | ImportVM(new_: VM)
    | SetVMI(vm: Key, vmi: VMI)
    | DropVMI(vm: Key)
    | PutSecret(secret: Secret)
    | DropSecret(key: Key)
    | SetUserSecret(key: Key, data: map<string, Option<Json>>)
    | DropUserSecret(key: Key)
    | SetConfig(configMap: Option<map<string, string>>)
    | AddMachine(m: Machine)
    | WriteMachine(m: Machine)
    | RemoveMachine(machine: Key)
    | AddNode(node: string)
    | WriteNode(node: string, providerID: string)
    | DropNode(node: string)

  /** An operation that is never advanced again has been interrupted. */
  datatype Action =
    | Launch(pid: nat, job: Job)
    | Advance(pid: nat, wire: Wire, choice: Choice)
    | Environment(event: Event)

  datatype System = System(world: World, procs: map<nat, Proc>)

  function Start(cfg: Config, w: World, job: Job): Option<Proc> {
    match job
    case ReconcileJob(node) => Some(StartReconcile(node))
    case _ =>
      if job.machine !in w.tenant.machines then None else
      var m := w.tenant.machines[job.machine];
      match job
      case CreateJob(_) => Some(StartCreate(m))
      case UpdateJob(_) => Some(StartUpdate(cfg, m))
      case DeleteJob(_) => Some(StartDelete(cfg, m))
      case _ => Some(StartExists(cfg, m))
  }

  function InfraEvent(i: Infra, e: Event): Infra {
    match e
    case SetStatus(k, st) =>
      if k !in i.vms || i.vms[k].status == st then i
      else i.(vms := i.vms[k := i.vms[k].(status := st, resourceVersion := i.clock + 1)], clock := i.clock + 1)
    case EditVM(k, labels, annotations, clusterName, spec) =>
      if k !in i.vms then i
      else i.(vms := i.vms[k := i.vms[k].(labels := labels, annotations := annotations, clusterName := clusterName, spec := spec,
                                          resourceVersion := i.clock + 1)],
              clock := i.clock + 1)
    case RemoveVM(k) => i.(vms := i.vms - {k})
    case ImportVM(vm) =>
      if vm.key in i.vms then i
      else i.(vms := i.vms[vm.key := vm.(resourceVersion := i.clock + 1)], clock := i.clock + 1)
    case SetVMI(k, vmi) => i.(vmis := i.vmis[k := vmi])
    case DropVMI(k) => i.(vmis := i.vmis - {k})
    case PutSecret(secret) => i.(secrets := i.secrets[secret.key := secret])
    case DropSecret(k) => i.(secrets := i.secrets - {k})
    case _ => i
  }

  function TenantEvent(t: Tenant, e: Event): Tenant {
    match e
    case SetUserSecret(k, data) => t.(userSecrets := t.userSecrets[k := data])
    case DropUserSecret(k) => t.(userSecrets := t.userSecrets - {k})
    case SetConfig(c) => t.(configMap := c)
    case AddMachine(m) => if m.key in t.machines then t else t.(machines := t.machines[m.key := m])
    case WriteMachine(m) => if m.key !in t.machines then t else t.(machines := t.machines[m.key := m])
    case RemoveMachine(k) => t.(machines := t.machines - {k})
    case AddNode(n) =>
      if n in t.nodes then t else t.(nodes := t.nodes[n := Node(n, "", t.clock + 1)], clock := t.clock + 1)
    case WriteNode(n, id) =>
      if n !in t.nodes then t
      else t.(nodes := t.nodes[n := Node(n, id, t.clock + 1)], clock := t.clock + 1)
    case DropNode(n) => t.(nodes := t.nodes - {n})
    case _ => t
  }

  function Exec(cfg: Config, s: System, a: Action): System {
    match a
    case Launch(pid, job) =>
      var p := Start(cfg, s.world, job);
      if pid in s.procs || p.None? then s else s.(procs := s.procs[pid := p.value])
    case Advance(pid, wire, choice) =>
      if pid !in s.procs then s else
      var (w, p) := Step(cfg, s.world, s.procs[pid], wire, choice);
      System(w, s.procs[pid := p])
    case Environment(e) =>
      s.(world := World(InfraEvent(s.world.infra, e), TenantEvent(s.world.tenant, e)))
  }

  function After(cfg: Config, s: System, acts: seq<Action>): System {
    if acts == [] then s else Exec(cfg, After(cfg, s, acts[..|acts| - 1]), acts[|acts| - 1])
  }

  lemma AfterPrefix(cfg: Config, s: System, acts: seq<Action>, i: nat)
    requires i < |acts|
    ensures After(cfg, s, acts[..i + 1]) == Exec(cfg, After(cfg, s, acts[..i]), acts[i])
  {
    assert acts[..i + 1][..i] == acts[..i];
  }

  lemma {:induction false} FreshPid(pids: set<nat>) returns (pid: nat)
    ensures forall q | q in pids :: q < pid
  {
    if pids == {} {
      pid := 0;
    } else {
      var q :| q in pids;
      var r := FreshPid(pids - {q});
      pid := if r <= q then q + 1 else r;
      assert forall x | x in pids :: x == q || x in pids - {q};
    }
  }

  predicate Moves(a: Action, pid: nat) {
    !a.Environment? && a.pid == pid
  }

  lemma ExecFrame(cfg: Config, s: System, a: Action, pid: nat)
    ensures !Moves(a, pid) ==> (pid in Exec(cfg, s, a).procs <==> pid in s.procs)
    ensures !Moves(a, pid) && pid in s.procs ==> Exec(cfg, s, a).procs[pid] == s.procs[pid]
    ensures a.Launch? && pid in s.procs ==> pid in Exec(cfg, s, a).procs && Exec(cfg, s, a).procs[pid] == s.procs[pid]
    ensures a.Advance? ==> (pid in Exec(cfg, s, a).procs <==> pid in s.procs)
  {
  }

  /** The state reached just before action i. */
  function At(cfg: Config, s: System, acts: seq<Action>, i: nat): System
    requires i <= |acts|
  {
    After(cfg, s, acts[..i])
  }

  predicate StandsStill(cfg: Config, s: System, acts: seq<Action>, pid: nat, p: Proc, from: nat, to: nat)
    requires from <= to <= |acts|
  {
    forall t | from < t <= to :: pid in At(cfg, s, acts, t).procs && At(cfg, s, acts, t).procs[pid] == p
  }

  /** A process that is there was last moved by some action and has stood still since. */
  lemma {:induction false} LastMove(cfg: Config, s: System, acts: seq<Action>, n: nat, pid: nat) returns (i: nat)
    requires n <= |acts| && s.procs == map[] && pid in At(cfg, s, acts, n).procs
    ensures i < n && Moves(acts[i], pid)
    ensures acts[i].Advance? <==> pid in At(cfg, s, acts, i).procs
    ensures StandsStill(cfg, s, acts, pid, At(cfg, s, acts, n).procs[pid], i, n)
    decreases n
  {
    hide Exec;
    assert n > 0 by {
      assert acts[..0] == [];
    }
    AfterPrefix(cfg, s, acts, n - 1);
    ExecFrame(cfg, At(cfg, s, acts, n - 1), acts[n - 1], pid);
    if Moves(acts[n - 1], pid) && (acts[n - 1].Advance? <==> pid in At(cfg, s, acts, n - 1).procs) {
      i := n - 1;
    } else {
      i := LastMove(cfg, s, acts, n - 1, pid);
    }
  }

  // -------- versions only grow --------

  /** Every stored object of w' was there in w or carries a version newer than all of w. */
  predicate Evolves(w: World, w': World) {
    && w.infra.clock <= w'.infra.clock && w.tenant.clock <= w'.tenant.clock
    && (forall k | k in w'.infra.vms ::
          (k in w.infra.vms && w'.infra.vms[k] == w.infra.vms[k]) || w'.infra.vms[k].resourceVersion > w.infra.clock)
    && (forall n | n in w'.tenant.nodes ::
          (n in w.tenant.nodes && w'.tenant.nodes[n] == w.tenant.nodes[n]) || w'.tenant.nodes[n].resourceVersion > w.tenant.clock)
  }

  predicate VersionsOk(w: World) {
    && (forall k | k in w.infra.vms :: w.infra.vms[k].key == k && w.infra.vms[k].resourceVersion <= w.infra.clock)
    && (forall n | n in w.tenant.nodes :: w.tenant.nodes[n].name == n && w.tenant.nodes[n].resourceVersion <= w.tenant.clock)
    && (forall k | k in w.tenant.machines :: w.tenant.machines[k].key == k)
  }

  /** A VM read earlier is still the stored one if the version still is. */
  predicate FreshVM(w: World, seen: VM) {
    seen.resourceVersion <= w.infra.clock &&
    (seen.key in w.infra.vms && w.infra.vms[seen.key].resourceVersion == seen.resourceVersion ==> w.infra.vms[seen.key] == seen)
  }

  predicate FreshNode(w: World, seen: Node) {
    seen.resourceVersion <= w.tenant.clock &&
    (seen.name in w.tenant.nodes && w.tenant.nodes[seen.name].resourceVersion == seen.resourceVersion
     ==> w.tenant.nodes[seen.name] == seen)
  }

  predicate KeyOk(cfg: Config, m: Machine, key: Key) { key == VMKey(cfg, m.key.name) }

  /** What holds of a process at each of its program points. */
  predicate ProcOk(cfg: Config, w: World, p: Proc) {
    match p
    case MakeSecret(m, secret) => secret.key == SecretKey(cfg, m.key.name)
    case MakeVM(m, desired) => KeyOk(cfg, m, desired.key)
    case LookupVM(m, desired) => KeyOk(cfg, m, desired.key)
    case PutVM(m, desired, seen) => KeyOk(cfg, m, desired.key) && seen.key == desired.key && FreshVM(w, seen)
    case ReadVMI(m, vm, _) => KeyOk(cfg, m, vm.key) && vm.status.ready
    case PatchMeta(origin, m, report) => m.key == origin.key && ReportOk(cfg, origin, report)
                                         && m == (if report.failed then origin else Target(origin, report))
    case PatchStatus(origin, m, report) => m.key == origin.key && ReportOk(cfg, origin, report)
                                           && SameStatus(m, if report.failed then origin else Target(origin, report))
    case FetchConfig(node) => FreshNode(w, node)
    case LookupNodeVM(node, key) => FreshNode(w, node) && key.name == node.name
    case RemoveNode(node) => FreshNode(w, node)
    case StampNode(node) => FreshNode(w, node.(providerID := "")) && node.providerID != ""
    case _ => true
  }

  /** An operation that did not fail has a VM, and an instance exactly if that VM was ready. */
  predicate ReportOk(cfg: Config, origin: Machine, report: Report) {
    !report.failed ==>
      report.vm.Some? && KeyOk(cfg, origin, report.vm.value.key) && (report.vm.value.status.ready <==> report.vmi.Some?)
  }

  /** The Machine an operation wants to persist. */
  function Target(origin: Machine, report: Report): Machine
    requires report.vm.Some?
  {
    SyncedWith(origin, report.vm.value, report.vmi, report.lookup)
  }

  predicate SystemOk(cfg: Config, s: System) {
    VersionsOk(s.world) && forall pid | pid in s.procs :: ProcOk(cfg, s.world, s.procs[pid])
  }

  lemma EvolvesKeepsProc(cfg: Config, w: World, w': World, p: Proc)
    requires Evolves(w, w') && ProcOk(cfg, w, p)
    ensures ProcOk(cfg, w', p)
  {
  }

  lemma EvolvesTransitive(w: World, w': World, w'': World)
    requires Evolves(w, w') && Evolves(w', w'')
    ensures Evolves(w, w'')
  {
  }

  lemma AfterSecretOk(cfg: Config, w: World, m: Machine)
    ensures ProcOk(cfg, w, AfterSecret(cfg, m))
  {
  }

  lemma AfterVMOk(cfg: Config, w: World, m: Machine, vm: VM, wasUpdated: bool)
    requires KeyOk(cfg, m, vm.key)
    ensures ProcOk(cfg, w, AfterVM(m, vm, wasUpdated))
  {
  }

  lemma PutVMOk(cfg: Config, w: World, p: Proc, wire: Wire, choice: Choice)
    requires VersionsOk(w) && ProcOk(cfg, w, p) && p.PutVM?
    ensures var (w', p') := StepInfra(cfg, w, p, wire, choice); VersionsOk(w') && Evolves(w, w') && ProcOk(cfg, w', p')
  {
    var (i, r) := UpdateVMCall(cfg, w.infra, p.desired.(resourceVersion := p.seen.resourceVersion), wire);
    if r.Ok? {
      AfterVMOk(cfg, w.(infra := i), p.m, r.value, r.value.resourceVersion != p.seen.resourceVersion);
    }
  }

  lemma StepInfraOk(cfg: Config, w: World, p: Proc, wire: Wire, choice: Choice)
    requires VersionsOk(w) && ProcOk(cfg, w, p) && InfraProc(p)
    ensures var (w', p') := StepInfra(cfg, w, p, wire, choice); VersionsOk(w') && Evolves(w, w') && ProcOk(cfg, w', p')
  {
    match p
    case MakeSecret(m, secret) =>
      var (i, _) := CreateSecretCall(w.infra, secret, wire);
      AfterSecretOk(cfg, w.(infra := i), m);
    case MakeVM(m, desired) =>
      var (i, r) := CreateVMCall(cfg, w.infra, desired, choice.uid, choice.status, wire);
      if r.Ok? {
        AfterVMOk(cfg, w.(infra := i), m, r.value, false);
      }
    case PutVM(_, _, _) =>
      PutVMOk(cfg, w, p, wire, choice);
    case _ =>
  }

  lemma EvolvesPatch(w: World, w': World)
    requires w'.infra == w.infra && w'.tenant.nodes == w.tenant.nodes && w'.tenant.clock == w.tenant.clock
    ensures Evolves(w, w')
  {
  }

  lemma StepPatchOk(cfg: Config, w: World, p: Proc, wire: Wire)
    requires VersionsOk(w) && ProcOk(cfg, w, p) && PatchProc(p)
    ensures var (w', p') := StepPatch(w, p, wire); VersionsOk(w') && Evolves(w, w') && ProcOk(cfg, w', p')
  {
    hide Verdict, Evolves;
    EvolvesPatch(w, StepPatch(w, p, wire).0);
  }

  lemma StepNodeOk(cfg: Config, w: World, p: Proc, wire: Wire)
    requires VersionsOk(w) && ProcOk(cfg, w, p) && NodeProc(p)
    ensures var (w', p') := StepNode(w, p, wire); VersionsOk(w') && Evolves(w, w') && ProcOk(cfg, w', p')
  {
  }

  lemma StepOk(cfg: Config, w: World, p: Proc, wire: Wire, choice: Choice)
    requires VersionsOk(w) && ProcOk(cfg, w, p)
    ensures var (w', p') := Step(cfg, w, p, wire, choice); VersionsOk(w') && Evolves(w, w') && ProcOk(cfg, w', p')
  {
    if InfraProc(p) {
      StepInfraOk(cfg, w, p, wire, choice);
    } else if PatchProc(p) {
      StepPatchOk(cfg, w, p, wire);
    } else if NodeProc(p) {
      StepNodeOk(cfg, w, p, wire);
    }
  }

  lemma ExecOk(cfg: Config, s: System, a: Action)
    requires SystemOk(cfg, s)
    ensures SystemOk(cfg, Exec(cfg, s, a))
    ensures Evolves(s.world, Exec(cfg, s, a).world)
  {
    var s' := Exec(cfg, s, a);
    match a
    case Launch(pid, job) =>
      LaunchOk(cfg, s, job);
    case Advance(pid, wire, choice) =>
      if pid in s.procs {
        hide Step;
        StepOk(cfg, s.world, s.procs[pid], wire, choice);
        forall q | q in s'.procs && q != pid ensures ProcOk(cfg, s'.world, s'.procs[q]) {
          EvolvesKeepsProc(cfg, s.world, s'.world, s.procs[q]);
        }
      }
    case Environment(e) =>
      EventOk(s.world, e);
      forall q | q in s'.procs ensures ProcOk(cfg, s'.world, s'.procs[q]) {
        EvolvesKeepsProc(cfg, s.world, s'.world, s.procs[q]);
      }
  }

  lemma LaunchOk(cfg: Config, s: System, job: Job)
    requires VersionsOk(s.world)
    ensures Start(cfg, s.world, job).Some? ==> ProcOk(cfg, s.world, Start(cfg, s.world, job).value)
  {
  }

  lemma InfraEventOk(w: World, e: Event)
    requires VersionsOk(w)
    ensures var w' := w.(infra := InfraEvent(w.infra, e)); VersionsOk(w') && Evolves(w, w')
  {
  }

  lemma TenantEventOk(w: World, e: Event)
    requires VersionsOk(w)
    ensures var w' := w.(tenant := TenantEvent(w.tenant, e)); VersionsOk(w') && Evolves(w, w')
  {
  }

  lemma EventOk(w: World, e: Event)
    requires VersionsOk(w)
    ensures var w' := World(InfraEvent(w.infra, e), TenantEvent(w.tenant, e)); VersionsOk(w') && Evolves(w, w')
  {
    hide InfraEvent, TenantEvent, VersionsOk;
    var half := w.(infra := InfraEvent(w.infra, e));
    InfraEventOk(w, e);
    TenantEventOk(half, e);
    EvolvesTransitive(w, half, World(InfraEvent(w.infra, e), TenantEvent(w.tenant, e)));
  }

  /** From a state with no process running, every reachable state is consistent. */
  lemma {:induction false} AlwaysOk(cfg: Config, s: System, acts: seq<Action>, n: nat)
    requires n <= |acts| && VersionsOk(s.world) && s.procs == map[]
    ensures SystemOk(cfg, At(cfg, s, acts, n))
    decreases n
  {
    hide Exec;
    if n == 0 {
      assert acts[..0] == [];
    } else {
      AlwaysOk(cfg, s, acts, n - 1);
      AfterPrefix(cfg, s, acts, n - 1);
      ExecOk(cfg, At(cfg, s, acts, n - 1), acts[n - 1]);
    }
  }

  lemma {:induction false} AlwaysEvolves(cfg: Config, s: System, acts: seq<Action>, i: nat, j: nat)
    requires i <= j <= |acts| && VersionsOk(s.world) && s.procs == map[]
    ensures Evolves(At(cfg, s, acts, i).world, At(cfg, s, acts, j).world)
    decreases j
  {
    hide Exec;
    AlwaysOk(cfg, s, acts, j);
    if i < j {
      AlwaysEvolves(cfg, s, acts, i, j - 1);
      AlwaysOk(cfg, s, acts, j - 1);
      AfterPrefix(cfg, s, acts, j - 1);
      ExecOk(cfg, At(cfg, s, acts, j - 1), acts[j - 1]);
      EvolvesTransitive(At(cfg, s, acts, i).world, At(cfg, s, acts, j - 1).world, At(cfg, s, acts, j).world);
    }
  }

  lemma ExecMove(cfg: Config, s: System, a: Action)
    ensures a.Launch? && a.pid !in s.procs && a.pid in Exec(cfg, s, a).procs
            ==> Start(cfg, s.world, a.job) == Some(Exec(cfg, s, a).procs[a.pid])
    ensures a.Advance? && a.pid in s.procs
            ==> a.pid in Exec(cfg, s, a).procs &&
                Step(cfg, s.world, s.procs[a.pid], a.wire, a.choice) == (Exec(cfg, s, a).world, Exec(cfg, s, a).procs[a.pid])
  {
    hide Step, Start;
  }

  /** Where a process is now, it was launched or came to by a step of its own. */
  lemma MoveInto(cfg: Config, s: System, acts: seq<Action>, n: nat, pid: nat) returns (i: nat)
    requires n <= |acts| && s.procs == map[] && pid in At(cfg, s, acts, n).procs
    ensures i < n && Moves(acts[i], pid)
    ensures StandsStill(cfg, s, acts, pid, At(cfg, s, acts, n).procs[pid], i, n)
    ensures acts[i].Launch? ==> Start(cfg, At(cfg, s, acts, i).world, acts[i].job) == Some(At(cfg, s, acts, n).procs[pid])
    ensures acts[i].Advance? ==>
              pid in At(cfg, s, acts, i).procs &&
              Step(cfg, At(cfg, s, acts, i).world, At(cfg, s, acts, i).procs[pid], acts[i].wire, acts[i].choice)
              == (At(cfg, s, acts, i + 1).world, At(cfg, s, acts, n).procs[pid])
  {
    hide Exec, Step, Start;
    i := LastMove(cfg, s, acts, n, pid);
    AfterPrefix(cfg, s, acts, i);
    assert pid in At(cfg, s, acts, i + 1).procs && At(cfg, s, acts, i + 1).procs[pid] == At(cfg, s, acts, n).procs[pid];
    ExecMove(cfg, At(cfg, s, acts, i), acts[i]);
  }

  /** Operations start at their first call, or end at once. */
  lemma StartShape(cfg: Config, w: World, job: Job)
    ensures Start(cfg, w, job).Some? ==>
              var p := Start(cfg, w, job).value;
              p.FetchUserData? || p.LookupVM? || p.FindDoomed? || p.CheckVM? || p.FetchNode? || p == Done(Failed) || p.Crashed?
              || (p.PatchMeta? && p.report == FAILURE)
  {
  }
}
