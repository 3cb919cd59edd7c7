/** Machines and Nodes agree on provider IDs, although two controllers write them independently. */
module Identity {
  import opened Wrappers
  import opened Resources
  import opened MachineScope
  import opened MachineDocument
  import opened Cluster
  import opened Protocol
  import opened Interleaving

  predicate IdMachine(cfg: Config, m: Machine) {
    m.providerID.None? || m.providerID == Some(FormatProviderID(cfg.infraNamespace, m.key.name))
  }

  predicate IdNode(cfg: Config, n: Node) {
    n.providerID == "" || n.providerID == FormatProviderID(cfg.infraNamespace, n.name)
  }

  predicate IdProc(cfg: Config, p: Proc) {
    match p
    case FetchUserData(m) => IdMachine(cfg, m)
    case MakeSecret(m, _) => IdMachine(cfg, m)
    case MakeVM(m, _) => IdMachine(cfg, m)
    case LookupVM(m, _) => IdMachine(cfg, m)
    case PutVM(m, _, _) => IdMachine(cfg, m)
    case ReadVMI(m, _, _) => IdMachine(cfg, m)
    case PatchMeta(origin, m, _) => IdMachine(cfg, origin) && IdMachine(cfg, m)
    case PatchStatus(origin, m, _) => true
    case FetchConfig(node) => IdNode(cfg, node)
    case LookupNodeVM(node, key) => IdNode(cfg, node) && key.namespace == cfg.infraNamespace
    case StampNode(node) => IdNode(cfg, node)
    case _ => true
  }

  predicate ConfigConstant(cfg: Config, c: Option<map<string, string>>) {
    c.Some? && NAMESPACE_KEY in c.value ==> c.value[NAMESPACE_KEY] == cfg.infraNamespace
  }

  predicate IdWorld(cfg: Config, w: World) {
    && (forall k | k in w.tenant.machines :: IdMachine(cfg, w.tenant.machines[k]))
    && (forall n | n in w.tenant.nodes :: IdNode(cfg, w.tenant.nodes[n]))
    && ConfigConstant(cfg, w.tenant.configMap)
  }

  predicate IdSystem(cfg: Config, s: System) {
    IdWorld(cfg, s.world) && forall pid | pid in s.procs :: IdProc(cfg, s.procs[pid])
  }

  /** Others bring in Machines without an ID, write no ID that is not the object's own, and leave the configured namespace alone. */
  predicate Neutral(cfg: Config, a: Action) {
    a.Environment? ==>
      && (a.event.AddMachine? ==> a.event.m.providerID.None?)
      && (a.event.WriteMachine? ==> IdMachine(cfg, a.event.m))
      && (a.event.WriteNode? ==> IdNode(cfg, Node(a.event.node, a.event.providerID, 0)))
      && (a.event.SetConfig? ==> ConfigConstant(cfg, a.event.configMap))
  }

  lemma IdAfterVM(cfg: Config, m: Machine, vm: VM, wasUpdated: bool)
    requires IdMachine(cfg, m) && KeyOk(cfg, m, vm.key)
    ensures IdProc(cfg, AfterVM(m, vm, wasUpdated))
  {
  }

  lemma IdInfraStep(cfg: Config, w: World, p: Proc, wire: Wire, choice: Choice)
    requires VersionsOk(w) && ProcOk(cfg, w, p) && IdWorld(cfg, w) && IdProc(cfg, p) && InfraProc(p)
    ensures var (w', p') := StepInfra(cfg, w, p, wire, choice); w'.tenant == w.tenant && IdProc(cfg, p')
  {
    hide BuildVM, AfterVM;
    if p.MakeVM? {
      var r := CreateVMCall(cfg, w.infra, p.desired, choice.uid, choice.status, wire).1;
      if r.Ok? {
        IdAfterVM(cfg, p.m, r.value, false);
      }
    } else if p.PutVM? {
      var r := UpdateVMCall(cfg, w.infra, p.desired.(resourceVersion := p.seen.resourceVersion), wire).1;
      if r.Ok? {
        IdAfterVM(cfg, p.m, r.value, r.value.resourceVersion != p.seen.resourceVersion);
      }
    }
  }

  lemma IdMerges(cfg: Config, o: Machine, m: Machine, c: Machine)
    requires IdMachine(cfg, c)
    ensures IdMachine(cfg, m) && m.key == c.key ==> IdMachine(cfg, MergeMain(o, m, c))
    ensures IdMachine(cfg, MergeStatus(o, m, c))
  {
    hide MergeTexts;
  }

  lemma IdPatchStep(cfg: Config, w: World, p: Proc, wire: Wire)
    requires VersionsOk(w) && IdWorld(cfg, w) && IdProc(cfg, p) && PatchProc(p)
    ensures var (w', p') := StepPatch(w, p, wire); IdWorld(cfg, w') && IdProc(cfg, p')
  {
    hide MergeMain, MergeStatus, DecodedOver, RestoreStatus, Verdict, IdMachine, IdNode;
    if p.m.key in w.tenant.machines {
      IdMerges(cfg, p.origin, p.m, w.tenant.machines[p.m.key]);
    }
  }

  lemma IdNodeStep(cfg: Config, w: World, p: Proc, wire: Wire)
    requires VersionsOk(w) && IdWorld(cfg, w) && ProcOk(cfg, w, p) && IdProc(cfg, p) && NodeProc(p)
    ensures var (w', p') := StepNode(w, p, wire); IdWorld(cfg, w') && IdProc(cfg, p')
  {
  }

  lemma IdQueryStep(cfg: Config, w: World, p: Proc, wire: Wire, choice: Choice)
    requires QueryProc(p)
    ensures var (w', p') := StepQuery(w, p, wire, choice); w'.tenant == w.tenant && IdProc(cfg, p')
  {
  }

  lemma IdStep(cfg: Config, w: World, p: Proc, wire: Wire, choice: Choice)
    requires VersionsOk(w) && ProcOk(cfg, w, p) && IdWorld(cfg, w) && IdProc(cfg, p)
    ensures var (w', p') := Step(cfg, w, p, wire, choice); IdWorld(cfg, w') && IdProc(cfg, p')
  {
    hide StepInfra, StepPatch, StepNode, StepQuery;
    if InfraProc(p) {
      IdInfraStep(cfg, w, p, wire, choice);
    } else if PatchProc(p) {
      IdPatchStep(cfg, w, p, wire);
    } else if NodeProc(p) {
      IdNodeStep(cfg, w, p, wire);
    } else if QueryProc(p) {
      IdQueryStep(cfg, w, p, wire, choice);
    }
  }

  lemma IdLaunch(cfg: Config, w: World, job: Job)
    requires IdWorld(cfg, w)
    ensures Start(cfg, w, job).Some? ==> IdProc(cfg, Start(cfg, w, job).value)
  {
  }

  lemma IdEvent(cfg: Config, w: World, e: Event)
    requires IdWorld(cfg, w) && VersionsOk(w) && Neutral(cfg, Environment(e))
    ensures IdWorld(cfg, World(InfraEvent(w.infra, e), TenantEvent(w.tenant, e)))
  {
    hide InfraEvent;
  }

  lemma IdExec(cfg: Config, s: System, a: Action)
    requires SystemOk(cfg, s) && IdSystem(cfg, s) && Neutral(cfg, a)
    ensures IdSystem(cfg, Exec(cfg, s, a))
  {
    hide Step, Start, InfraEvent, TenantEvent;
    match a
    case Launch(pid, job) =>
      IdLaunch(cfg, s.world, job);
    case Advance(pid, wire, choice) =>
      if pid in s.procs {
        assert ProcOk(cfg, s.world, s.procs[pid]);
        IdStep(cfg, s.world, s.procs[pid], wire, choice);
      }
    case Environment(e) =>
      IdEvent(cfg, s.world, e);
  }

  lemma {:induction false} AlwaysId(cfg: Config, s: System, acts: seq<Action>)
    requires VersionsOk(s.world) && s.procs == map[] && IdWorld(cfg, s.world)
    requires forall i | 0 <= i < |acts| :: Neutral(cfg, acts[i])
    ensures IdSystem(cfg, After(cfg, s, acts))
    decreases |acts|
  {
    hide Exec;
    if acts != [] {
      var front := acts[..|acts| - 1];
      AlwaysId(cfg, s, front);
      AlwaysOk(cfg, s, front, |front|);
      assert front[..|front|] == front;
      IdExec(cfg, After(cfg, s, front), acts[|acts| - 1]);
    }
  }

  /**
   In every reachable state, from Machines and Nodes without IDs and with the configured namespace
   constant: a Machine and a Node that both have an ID have the same one if and only if they have
   the same name, and then it is the ID of the VM of that name.
   */
  lemma IdentitiesAgree(cfg: Config, s: System, acts: seq<Action>, mk: Key, n: string)
    requires VersionsOk(s.world) && s.procs == map[] && ConfigConstant(cfg, s.world.tenant.configMap)
    requires forall k | k in s.world.tenant.machines :: s.world.tenant.machines[k].providerID.None?
    requires forall k | k in s.world.tenant.nodes :: s.world.tenant.nodes[k].providerID == ""
    requires forall i | 0 <= i < |acts| :: Neutral(cfg, acts[i])
    requires mk in After(cfg, s, acts).world.tenant.machines && n in After(cfg, s, acts).world.tenant.nodes
    requires After(cfg, s, acts).world.tenant.machines[mk].providerID.Some? && After(cfg, s, acts).world.tenant.nodes[n].providerID != ""
    ensures var machineID := After(cfg, s, acts).world.tenant.machines[mk].providerID.value;
            var nodeID := After(cfg, s, acts).world.tenant.nodes[n].providerID;
            && (machineID == nodeID <==> mk.name == n)
            && machineID == FormatProviderID(cfg.infraNamespace, mk.name)
            && nodeID == FormatProviderID(cfg.infraNamespace, n)
  {
    hide Exec;
    AlwaysId(cfg, s, acts);
    AlwaysOk(cfg, s, acts, |acts|);
    assert acts[..|acts|] == acts;
    var t := After(cfg, s, acts).world.tenant;
    assert t.machines[mk].key == mk && t.nodes[n].name == n;
    assert IdMachine(cfg, t.machines[mk]) && IdNode(cfg, t.nodes[n]);
    SameNamespaceIDs(cfg.infraNamespace, mk.name, n);
  }

  lemma SameNamespaceIDs(ns: string, a: string, b: string)
    ensures FormatProviderID(ns, a) == FormatProviderID(ns, b) <==> a == b
  {
    var prefix := "kubevirt://" + ns + "/";
    assert (prefix + a)[|prefix|..] == a && (prefix + b)[|prefix|..] == b;
  }
}
