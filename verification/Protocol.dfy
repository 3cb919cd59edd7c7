/**
 The two controllers as processes. Each step is one API call together with the local computation
 up to the next call, so that anything may happen between any two steps. What the actuator's
 `Create`, `Update`, `Delete` and `Exists` and the node controller's `Reconcile` do is this
 function; the classes of the other modules are proved against it.
 */
module Protocol {
  import opened Wrappers
  import opened JsonValue
  import opened Resources
  import opened MachineScope
  import opened Cluster
  import UserData

  /** What the VM part of a Create or Update reports to the actuator, and what it resolved on the way. */
  datatype Report = Report(vm: Option<VM>, vmi: Option<VMI>, lookup: Option<seq<IP>>, wasUpdated: bool, failed: bool) {
    predicate Ready() { vm.Some? && vm.value.status.ready }
  }

  const FAILURE := Report(None, None, None, false, true)

  /** `Success` is a nil error; `NotReady` the error that only asks to be called again. */
  datatype Result = Success | NotReady | Failed | Found(exists_: bool) | RequeueLater

  datatype Proc =
    // Create
    | FetchUserData(m: Machine)
    | MakeSecret(m: Machine, secret: Secret)
    | MakeVM(m: Machine, desired: VM)
    // Update
    | LookupVM(m: Machine, desired: VM)
    | PutVM(m: Machine, desired: VM, seen: VM)
    // the end of both
    | ReadVMI(m: Machine, vm: VM, wasUpdated: bool)
    | PatchMeta(origin: Machine, m: Machine, report: Report)
    | PatchStatus(origin: Machine, m: Machine, report: Report)
    // Delete, Exists
    | FindDoomed(key: Key)
    | DeleteVM(key: Key)
    | CheckVM(key: Key)
    // Reconcile
    | FetchNode(name: string)
    | FetchConfig(node: Node)
    | LookupNodeVM(node: Node, key: Key)
    | RemoveNode(node: Node)
    | StampNode(node: Node)
    // ends; a panic kills the process
    | Done(result: Result)
    | Crashed

  /** What the servers and the resolver are free to choose. */
  datatype Choice = Choice(uid: string, status: VMStatus, lingers: bool, lookup: Option<seq<IP>>)

  // -------- the entry points --------

  function StartCreate(m: Machine): Proc {
    if OpenScope(m).None? then Done(Failed) else FetchUserData(m)
  }

  function StartUpdate(cfg: Config, m: Machine): Proc {
    if OpenScope(m).None? then Done(Failed) else WithDesired(m, BuildVM(cfg, OpenScope(m).value, m))
  }

  function WithDesired(m: Machine, build: Build): Proc {
    match build
    case Built(vm) => LookupVM(m, vm)
    case Invalid => PatchMeta(m, m, FAILURE)
    case BadQuantity => Crashed
  }

  function StartDelete(cfg: Config, m: Machine): Proc {
    if OpenScope(m).None? then Done(Failed) else WithDoomed(BuildVM(cfg, OpenScope(m).value, m))
  }

  function WithDoomed(build: Build): Proc {
    match build
    case Built(vm) => FindDoomed(vm.key)
    case Invalid => Done(Failed)
    case BadQuantity => Crashed
  }

  function StartExists(cfg: Config, m: Machine): Proc {
    CheckVM(Key(cfg.infraNamespace, m.key.name))
  }

  function StartReconcile(node: string): Proc { FetchNode(node) }

  // -------- local computation between calls --------

  const USER_DATA_KEY := "userData"
  const NAMESPACE_KEY := "namespace"

  function SecretKey(cfg: Config, name: string): Key { Key(cfg.infraNamespace, IgnitionSecretName(name)) }

  function VMKey(cfg: Config, name: string): Key { Key(cfg.infraNamespace, name) }

  function AfterUserData(cfg: Config, m: Machine, data: map<string, Option<Json>>): Proc {
    if USER_DATA_KEY !in data then Done(Failed) else WithUserData(cfg, m, data[USER_DATA_KEY])
  }

  function WithUserData(cfg: Config, m: Machine, userData: Option<Json>): Proc {
    if !UserData.InDomain(userData) then Crashed
    else MakeSecret(m, IgnitionSecret(cfg, m, UserData.WithHostname(userData.value, m.key.name)))
  }

  function AfterSecret(cfg: Config, m: Machine): Proc {
    if OpenScope(m).None? then Done(Failed) else
    match BuildVM(cfg, OpenScope(m).value, m)
    case Built(vm) => MakeVM(m, vm)
    case Invalid => PatchMeta(m, m, FAILURE)
    case BadQuantity => Crashed
  }

  function AfterVM(m: Machine, vm: VM, wasUpdated: bool): Proc {
    if vm.status.ready then ReadVMI(m, vm, wasUpdated)
    else PatchMeta(m, SyncedWith(m, vm, None, None), Report(Some(vm), None, None, wasUpdated, false))
  }

  function SyncedWith(m: Machine, vm: VM, vmi: Option<VMI>, lookup: Option<seq<IP>>): Machine {
    Synced(m, vm, vmi, FormatProviderID(vm.key.namespace, vm.key.name), lookup)
  }

  predicate SameStatus(a: Machine, b: Machine) {
    a.phase == b.phase && a.addresses == b.addresses && a.providerStatus == b.providerStatus
  }

  function RestoreStatus(response: Machine, saved: Machine): Machine {
    response.(phase := saved.phase, addresses := saved.addresses, providerStatus := saved.providerStatus)
  }

  function Verdict(report: Report): Result {
    if report.failed then Failed else if report.Ready() then Success else NotReady
  }

  // -------- one step --------

  predicate Finished(p: Proc) { p.Done? || p.Crashed? }

  function Step(cfg: Config, w: World, p: Proc, wire: Wire, choice: Choice): (World, Proc) {
    if InfraProc(p) then StepInfra(cfg, w, p, wire, choice)
    else if PatchProc(p) then StepPatch(w, p, wire)
    else if QueryProc(p) then StepQuery(w, p, wire, choice)
    else if NodeProc(p) then StepNode(w, p, wire)
    else (w, p)
  }

  predicate InfraProc(p: Proc) { p.FetchUserData? || p.MakeSecret? || p.MakeVM? || p.LookupVM? || p.PutVM? || p.ReadVMI? }

  predicate PatchProc(p: Proc) { p.PatchMeta? || p.PatchStatus? }

  predicate QueryProc(p: Proc) { p.FindDoomed? || p.DeleteVM? || p.CheckVM? }

  predicate NodeProc(p: Proc) { p.FetchNode? || p.FetchConfig? || p.LookupNodeVM? || p.RemoveNode? || p.StampNode? }

  /** Create and Update up to the patches. */
  function StepInfra(cfg: Config, w: World, p: Proc, wire: Wire, choice: Choice): (World, Proc)
    requires InfraProc(p)
  {
    match p
    case FetchUserData(m) =>
      var r := GetUserSecretCall(w.tenant, Key(m.key.namespace, OpenScope(m).GetOr(NO_SPEC).ignitionSecretName), wire);
      (w, if r.Ok? then AfterUserData(cfg, m, r.value) else Done(Failed))
    case MakeSecret(m, secret) =>
      var (i, r) := CreateSecretCall(w.infra, secret, wire);
      (w.(infra := i), if r.Ok? then AfterSecret(cfg, m) else PatchMeta(m, m, FAILURE))
    case MakeVM(m, desired) =>
      var (i, r) := CreateVMCall(cfg, w.infra, desired, choice.uid, choice.status, wire);
      (w.(infra := i), if r.Ok? then AfterVM(m, r.value, false) else PatchMeta(m, m, FAILURE))
    case LookupVM(m, desired) =>
      var r := GetVMCall(w.infra, desired.key, wire);
      (w, if r.Ok? then PutVM(m, desired, r.value) else PatchMeta(m, m, FAILURE))
    case PutVM(m, desired, seen) =>
      var (i, r) := UpdateVMCall(cfg, w.infra, desired.(resourceVersion := seen.resourceVersion), wire);
      (w.(infra := i),
       if r.Ok? then AfterVM(m, r.value, r.value.resourceVersion != seen.resourceVersion) else PatchMeta(m, m, FAILURE))
    case ReadVMI(m, vm, wasUpdated) =>
      var r := GetVMICall(w.infra, vm.key, wire);
      (w, if r.Ok? then PatchMeta(m, SyncedWith(m, vm, Some(r.value), choice.lookup), Report(Some(vm), Some(r.value), choice.lookup, wasUpdated, false))
          else PatchMeta(m, m, Report(Some(vm), None, None, wasUpdated, true)))
  }

  function StepPatch(w: World, p: Proc, wire: Wire): (World, Proc)
    requires PatchProc(p)
  {
    match p
    case PatchMeta(origin, m, report) =>
      var (t, r) := PatchMachineCall(w.tenant, m, origin, wire);
      (w.(tenant := t), if r.Ok? then PatchStatus(origin, RestoreStatus(r.value, m), report) else Done(Failed))
    case PatchStatus(origin, m, report) =>
      var (t, r) := StatusPatchMachineCall(w.tenant, m, origin, wire);
      (w.(tenant := t), Done(if r.Ok? then Verdict(report) else Failed))
  }

  /** Delete and Exists. */
  function StepQuery(w: World, p: Proc, wire: Wire, choice: Choice): (World, Proc)
    requires QueryProc(p)
  {
    match p
    case FindDoomed(key) =>
      var r := GetVMCall(w.infra, key, wire);
      (w, if r.Ok? then DeleteVM(r.value.key) else Done(if r.NotFound? then Success else Failed))
    case DeleteVM(key) =>
      var (i, r) := DeleteVMCall(w.infra, key, choice.lingers, wire);
      (w.(infra := i), Done(if r.Ok? then Success else Failed))
    case CheckVM(key) =>
      var r := GetVMCall(w.infra, key, wire);
      (w, Done(if r.Ok? then Found(true) else if r.NotFound? then Found(false) else Failed))
  }

  function StepNode(w: World, p: Proc, wire: Wire): (World, Proc)
    requires NodeProc(p)
  {
    match p
    case FetchNode(name) =>
      var r := GetNodeCall(w.tenant, name, wire);
      (w, if r.Ok? then FetchConfig(r.value) else Done(if r.NotFound? then Success else Failed))
    case FetchConfig(node) =>
      var r := GetConfigCall(w.tenant, wire);
      (w, if r.Ok? && NAMESPACE_KEY in r.value then LookupNodeVM(node, Key(r.value[NAMESPACE_KEY], node.name)) else Done(Failed))
    case LookupNodeVM(node, key) =>
      (w, AfterNodeVM(node, key, GetVMCall(w.infra, key, wire)))
    case RemoveNode(node) =>
      var (t, r) := DeleteNodeCall(w.tenant, node.name, wire);
      (w.(tenant := t), Done(if r.Ok? then Success else Failed))
    case StampNode(node) =>
      var (t, r) := UpdateNodeCall(w.tenant, node, wire);
      (w.(tenant := t), Done(if r.Ok? then Success else Failed))
  }

  const NO_SPEC := ProviderSpec("", "", "", "", 0, "", "", "", "")

  function AfterNodeVM(node: Node, key: Key, r: Reply<VM>): Proc {
    match r
    case NotFound => RemoveNode(node)
    case Refused => Done(Failed)
    case Ok(vm) =>
      if !vm.status.ready then Done(RequeueLater)
      else if node.providerID != "" then Done(Success)
      else StampNode(node.(providerID := FormatProviderID(key.namespace, node.name)))
  }

  // -------- a whole call with nothing in between --------

  /** The fate of every call an operation can make; no operation makes the same one twice. */
  datatype Net = Net(
    getSecret: Wire, createSecret: Wire, createVM: Wire, getVM: Wire, updateVM: Wire, deleteVM: Wire, getVMI: Wire,
    patch: Wire, statusPatch: Wire, getNode: Wire, getConfig: Wire, deleteNode: Wire, updateNode: Wire,
    choice: Choice)

  const GOOD := Choice("", NO_STATUS, false, None)

  const ALL_DELIVERED := Net(Delivered, Delivered, Delivered, Delivered, Delivered, Delivered, Delivered,
                             Delivered, Delivered, Delivered, Delivered, Delivered, Delivered, GOOD)

  function WireFor(net: Net, p: Proc): Wire {
    match p
    case FetchUserData(_) => net.getSecret
    case MakeSecret(_, _) => net.createSecret
    case MakeVM(_, _) => net.createVM
    case LookupVM(_, _) => net.getVM
    case PutVM(_, _, _) => net.updateVM
    case ReadVMI(_, _, _) => net.getVMI
    case PatchMeta(_, _, _) => net.patch
    case PatchStatus(_, _, _) => net.statusPatch
    case FindDoomed(_) => net.getVM
    case DeleteVM(_) => net.deleteVM
    case CheckVM(_) => net.getVM
    case FetchNode(_) => net.getNode
    case FetchConfig(_) => net.getConfig
    case LookupNodeVM(_, _) => net.getVM
    case RemoveNode(_) => net.deleteNode
    case StampNode(_) => net.updateNode
    case Done(_) => Delivered
    case Crashed => Delivered
  }

  /** How many calls are still to come at most. */
  function Rank(p: Proc): nat {
    match p
    case FetchUserData(_) => 6
    case MakeSecret(_, _) => 5
    case MakeVM(_, _) => 4
    case LookupVM(_, _) => 5
    case PutVM(_, _, _) => 4
    case ReadVMI(_, _, _) => 3
    case PatchMeta(_, _, _) => 2
    case PatchStatus(_, _, _) => 1
    case FindDoomed(_) => 2
    case DeleteVM(_) => 1
    case CheckVM(_) => 1
    case FetchNode(_) => 4
    case FetchConfig(_) => 3
    case LookupNodeVM(_, _) => 2
    case RemoveNode(_) => 1
    case StampNode(_) => 1
    case Done(_) => 0
    case Crashed => 0
  }

  lemma InfraLowersRank(cfg: Config, w: World, p: Proc, wire: Wire, choice: Choice)
    requires InfraProc(p)
    ensures Rank(StepInfra(cfg, w, p, wire, choice).1) < Rank(p)
  {
  }

  lemma StepLowersRank(cfg: Config, w: World, p: Proc, wire: Wire, choice: Choice)
    ensures !Finished(p) ==> Rank(Step(cfg, w, p, wire, choice).1) < Rank(p)
  {
    if InfraProc(p) {
      InfraLowersRank(cfg, w, p, wire, choice);
    }
  }

  /** The part of an operation that talks to the infra cluster, up to the first patch. */
  function RunInfra(cfg: Config, w: World, p: Proc, net: Net): (World, Proc)
    decreases Rank(p)
  {
    if Finished(p) || p.PatchMeta? then (w, p) else
    StepLowersRank(cfg, w, p, WireFor(net, p), net.choice);
    var (w', p') := Step(cfg, w, p, WireFor(net, p), net.choice);
    RunInfra(cfg, w', p', net)
  }

  lemma RunInfraStep(cfg: Config, w: World, p: Proc, net: Net)
    ensures Finished(p) || p.PatchMeta? ==> RunInfra(cfg, w, p, net) == (w, p)
    ensures !Finished(p) && !p.PatchMeta? ==>
              var (w', p') := Step(cfg, w, p, WireFor(net, p), net.choice); RunInfra(cfg, w, p, net) == RunInfra(cfg, w', p', net)
  {
  }

  function Run(cfg: Config, w: World, p: Proc, net: Net): (World, Proc)
    decreases Rank(p)
  {
    if Finished(p) then (w, p) else
    StepLowersRank(cfg, w, p, WireFor(net, p), net.choice);
    var (w', p') := Step(cfg, w, p, WireFor(net, p), net.choice);
    Run(cfg, w', p', net)
  }

  /** One call at a time, for proofs that follow an operation. */
  lemma RunStep(cfg: Config, w: World, p: Proc, net: Net)
    ensures Finished(p) ==> Run(cfg, w, p, net) == (w, p)
    ensures !Finished(p) ==> var (w', p') := Step(cfg, w, p, WireFor(net, p), net.choice); Run(cfg, w, p, net) == Run(cfg, w', p', net)
  {
  }

  lemma {:induction false} RunSplits(cfg: Config, w: World, p: Proc, net: Net)
    ensures Finished(Run(cfg, w, p, net).1)
    ensures var (w', p') := RunInfra(cfg, w, p, net); Run(cfg, w, p, net) == Run(cfg, w', p', net)
    decreases Rank(p)
  {
    if !Finished(p) {
      StepLowersRank(cfg, w, p, WireFor(net, p), net.choice);
      var (w', p') := Step(cfg, w, p, WireFor(net, p), net.choice);
      RunSplits(cfg, w', p', net);
    }
  }
}
