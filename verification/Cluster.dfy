/**
 The two API servers, call by call. The contract assumed of them: a create fails if the key is
 taken; a VM update needs the stored resource version, replaces labels, annotations and spec,
 ignores the status, and moves the version exactly when the content changes; a Machine has a
 separate status resource; the default machine type is filled in on every VM write.
 */
module Cluster {
  import opened Wrappers
  import opened JsonValue
  import opened Resources
  import opened MachineDocument

  /** What becomes of one call on the wire. */
  datatype Wire = Delivered | Dropped | ReplyLost

  datatype Reply<+T> = Ok(value: T) | NotFound | Refused

  // -------- infra cluster --------

  datatype Infra = Infra(vms: map<Key, VM>, vmis: map<Key, VMI>, secrets: map<Key, Secret>, clock: nat)

  function Defaulted(cfg: Config, spec: VMSpec): VMSpec {
    if spec.template.Some? && spec.template.value.machineType == ""
    then spec.(template := Some(spec.template.value.(machineType := cfg.machineType)))
    else spec
  }

  predicate SameContent(a: VM, b: VM) {
    a.labels == b.labels && a.annotations == b.annotations && a.clusterName == b.clusterName && a.spec == b.spec
  }

  /** The stored VM after its content is replaced. */
  function Replaced(cfg: Config, old_: VM, new_: VM, clock: nat): VM {
    var spec := Defaulted(cfg, new_.spec);
    var next := old_.(labels := new_.labels, annotations := new_.annotations, clusterName := new_.clusterName, spec := spec);
    if SameContent(old_, next) then old_ else next.(resourceVersion := clock + 1)
  }

  function GetVMCall(i: Infra, key: Key, wire: Wire): Reply<VM> {
    if !wire.Delivered? then Refused else if key in i.vms then Ok(i.vms[key]) else NotFound
  }

  function GetVMICall(i: Infra, key: Key, wire: Wire): Reply<VMI> {
    if !wire.Delivered? then Refused else if key in i.vmis then Ok(i.vmis[key]) else NotFound
  }

  /** The reply to a call that did its work. */
  function Answer<T>(wire: Wire, value: T): Reply<T> {
    if wire.Delivered? then Ok(value) else Refused
  }

  function CreateSecretCall(i: Infra, secret: Secret, wire: Wire): (Infra, Reply<Secret>) {
    if wire.Dropped? || secret.key in i.secrets then (i, Refused)
    else (i.(secrets := i.secrets[secret.key := secret]), Answer(wire, secret))
  }

  function CreateVMCall(cfg: Config, i: Infra, vm: VM, uid: string, status: VMStatus, wire: Wire): (Infra, Reply<VM>) {
    if wire.Dropped? || vm.key in i.vms then (i, Refused) else
    var stored := vm.(uid := uid, resourceVersion := i.clock + 1, spec := Defaulted(cfg, vm.spec), status := status);
    (i.(vms := i.vms[vm.key := stored], clock := i.clock + 1), Answer(wire, stored))
  }

  function UpdateVMCall(cfg: Config, i: Infra, vm: VM, wire: Wire): (Infra, Reply<VM>) {
    if wire.Dropped? || vm.key !in i.vms || i.vms[vm.key].resourceVersion != vm.resourceVersion then (i, Refused) else
    var stored := Replaced(cfg, i.vms[vm.key], vm, i.clock);
    (i.(vms := i.vms[vm.key := stored], clock := if stored == i.vms[vm.key] then i.clock else i.clock + 1), Answer(wire, stored))
  }

  /** A deletion may be accepted and take effect later, once finalizers are gone. */
  function DeleteVMCall(i: Infra, key: Key, lingers: bool, wire: Wire): (Infra, Reply<()>) {
    if wire.Dropped? then (i, Refused)
    else if key !in i.vms then (i, if wire.Delivered? then NotFound else Refused)
    else (if lingers then i else i.(vms := i.vms - {key}), Answer(wire, ()))
  }

  /** The version of a VM that is put moves exactly when its content does; UID and status stay. */
  lemma VersionMovesWithContent(cfg: Config, i: Infra, vm: VM, wire: Wire)
    requires vm.key in i.vms && i.vms[vm.key].resourceVersion <= i.clock
    ensures var i' := UpdateVMCall(cfg, i, vm, wire).0;
            && i'.vms.Keys == i.vms.Keys && i'.vms - {vm.key} == i.vms - {vm.key}
            && var before, after := i.vms[vm.key], i'.vms[vm.key];
            && (after.resourceVersion == before.resourceVersion <==> SameContent(after, before))
            && after.uid == before.uid && after.status == before.status
  {
    assert UpdateVMCall(cfg, i, vm, wire).0.vms - {vm.key} == i.vms - {vm.key};
  }

  /** Of two puts under the same version, whatever becomes of the calls, the second is refused if the first changed anything. */
  lemma OneWriterPerVersion(cfg: Config, i: Infra, a: VM, b: VM, first: Wire, second: Wire)
    requires a.key == b.key && a.resourceVersion == b.resourceVersion
    requires a.key in i.vms ==> i.vms[a.key].resourceVersion <= i.clock
    ensures var i1 := UpdateVMCall(cfg, i, a, first).0;
            i1 != i ==> UpdateVMCall(cfg, i1, b, second) == (i1, Refused)
  {
    if a.key in i.vms {
      var i1 := UpdateVMCall(cfg, i, a, first).0;
      if i1.vms[a.key].resourceVersion == i.vms[a.key].resourceVersion {
        assert i1.vms == i.vms;
      }
    }
  }

  /** Of two creates of a secret at most one is answered, and after one that arrived the other changes nothing. */
  lemma OneCreatorPerKey(i: Infra, a: Secret, b: Secret, first: Wire, second: Wire)
    requires a.key == b.key
    ensures var (i1, r1) := CreateSecretCall(i, a, first);
            var (i2, r2) := CreateSecretCall(i1, b, second);
            && !(r1.Ok? && r2.Ok?)
            && (!first.Dropped? ==> i2 == i1 && r2 == Refused && a.key in i1.secrets)
            && (a.key in i.secrets ==> i1 == i)
  {
  }

  class InfraCluster {
    const cfg: Config
    var vms: map<Key, VM>
    var vmis: map<Key, VMI>
    var secrets: map<Key, Secret>
    var clock: nat

    constructor (cfg: Config, i: Infra)
      ensures this.cfg == cfg && State() == i
    {
      this.cfg := cfg;
      vms, vmis, secrets, clock := i.vms, i.vmis, i.secrets, i.clock;
    }

    function State(): Infra
      reads this
    {
      Infra(vms, vmis, secrets, clock)
    }

    method GetVirtualMachine(key: Key, wire: Wire) returns (r: Reply<VM>)
      ensures r == GetVMCall(State(), key, wire)
    {
      if !wire.Delivered? { return Refused; }
      if key in vms { return Ok(vms[key]); }
      return NotFound;
    }

    method GetVirtualMachineInstance(key: Key, wire: Wire) returns (r: Reply<VMI>)
      ensures r == GetVMICall(State(), key, wire)
    {
      if !wire.Delivered? { return Refused; }
      if key in vmis { return Ok(vmis[key]); }
      return NotFound;
    }

    method CreateSecret(secret: Secret, wire: Wire) returns (r: Reply<Secret>)
      modifies this
      ensures (State(), r) == CreateSecretCall(old(State()), secret, wire)
    {
      if wire.Dropped? || secret.key in secrets { return Refused; }
      secrets := secrets[secret.key := secret];
      r := Answer(wire, secret);
    }

    method CreateVirtualMachine(vm: VM, uid: string, status: VMStatus, wire: Wire) returns (r: Reply<VM>)
      modifies this
      ensures (State(), r) == CreateVMCall(cfg, old(State()), vm, uid, status, wire)
    {
      if wire.Dropped? || vm.key in vms { return Refused; }
      clock := clock + 1;
      var stored := vm.(uid := uid, resourceVersion := clock, spec := Defaulted(cfg, vm.spec), status := status);
      vms := vms[vm.key := stored];
      r := Answer(wire, stored);
    }

    method UpdateVirtualMachine(vm: VM, wire: Wire) returns (r: Reply<VM>)
      modifies this
      ensures (State(), r) == UpdateVMCall(cfg, old(State()), vm, wire)
    {
      if wire.Dropped? || vm.key !in vms || vms[vm.key].resourceVersion != vm.resourceVersion { return Refused; }
      var stored := Replaced(cfg, vms[vm.key], vm, clock);
      clock := if stored == vms[vm.key] then clock else clock + 1;
      vms := vms[vm.key := stored];
      r := Answer(wire, stored);
    }

    method DeleteVirtualMachine(key: Key, lingers: bool, wire: Wire) returns (r: Reply<()>)
      modifies this
      ensures (State(), r) == DeleteVMCall(old(State()), key, lingers, wire)
    {
      if wire.Dropped? { return Refused; }
      if key !in vms { return if wire.Delivered? then NotFound else Refused; }
      if !lingers {
        vms := vms - {key};
      }
      r := Answer(wire, ());
    }
  }

  // -------- tenant cluster --------

  /** User-data secrets hold parsed documents; None stands for bytes that are not JSON. */
  datatype Tenant = Tenant(
    machines: map<Key, Machine>, nodes: map<string, Node>,
    userSecrets: map<Key, map<string, Option<Json>>>, configMap: Option<map<string, string>>, clock: nat)

  function GetUserSecretCall(t: Tenant, key: Key, wire: Wire): Reply<map<string, Option<Json>>> {
    if !wire.Delivered? then Refused else if key in t.userSecrets then Ok(t.userSecrets[key]) else NotFound
  }

  /** A patch to the main resource leaves the status alone. */
  function MergeMain(o: Machine, s: Machine, c: Machine): Machine {
    Merge(o, s, c).(phase := c.phase, addresses := c.addresses, providerStatus := c.providerStatus)
  }

  /** A patch to the status resource leaves everything else alone. */
  function MergeStatus(o: Machine, s: Machine, c: Machine): Machine {
    var m := Merge(o, s, c);
    c.(phase := m.phase, addresses := m.addresses, providerStatus := m.providerStatus)
  }

  /** The two resources share nothing: patching both, in either order, stores the whole merge. */
  lemma PatchesCommute(o: Machine, s: Machine, c: Machine)
    ensures MergeStatus(o, s, MergeMain(o, s, c)) == Merge(o, s, c) == MergeMain(o, s, MergeStatus(o, s, c))
  {
  }

  /** The response is decoded over the object that was sent: what it omits stays as it was. */
  function DecodedOver(m: Machine, response: Machine): Machine {
    Machine(response.key, response.clusterName, m.labels + response.labels, m.annotations + response.annotations,
            if response.providerSpec.Some? then response.providerSpec else m.providerSpec,
            if response.providerID.Some? then response.providerID else m.providerID,
            if response.phase.Some? then response.phase else m.phase,
            if response.addresses != [] then response.addresses else m.addresses,
            if response.providerStatus.Some? then response.providerStatus else m.providerStatus)
  }

  function PatchMachineCall(t: Tenant, m: Machine, origin: Machine, wire: Wire): (Tenant, Reply<Machine>) {
    if wire.Dropped? then (t, Refused)
    else if m.key !in t.machines then (t, Refused)
    else
      var stored := MergeMain(origin, m, t.machines[m.key]);
      (t.(machines := t.machines[m.key := stored]), Answer(wire, DecodedOver(m, stored)))
  }

  function StatusPatchMachineCall(t: Tenant, m: Machine, origin: Machine, wire: Wire): (Tenant, Reply<Machine>) {
    if wire.Dropped? then (t, Refused)
    else if m.key !in t.machines then (t, Refused)
    else
      var stored := MergeStatus(origin, m, t.machines[m.key]);
      (t.(machines := t.machines[m.key := stored]), Answer(wire, DecodedOver(m, stored)))
  }

  function GetNodeCall(t: Tenant, name: string, wire: Wire): Reply<Node> {
    if !wire.Delivered? then Refused else if name in t.nodes then Ok(t.nodes[name]) else NotFound
  }

  function GetConfigCall(t: Tenant, wire: Wire): Reply<map<string, string>> {
    if wire.Delivered? && t.configMap.Some? then Ok(t.configMap.value) else Refused
  }

  function UpdateNodeCall(t: Tenant, node: Node, wire: Wire): (Tenant, Reply<()>) {
    if wire.Dropped? || node.name !in t.nodes || t.nodes[node.name].resourceVersion != node.resourceVersion then (t, Refused)
    else if t.nodes[node.name] == node then (t, Answer(wire, ()))
    else (t.(nodes := t.nodes[node.name := node.(resourceVersion := t.clock + 1)], clock := t.clock + 1), Answer(wire, ()))
  }

  function DeleteNodeCall(t: Tenant, name: string, wire: Wire): (Tenant, Reply<()>) {
    if wire.Dropped? || name !in t.nodes then (t, Refused)
    else (t.(nodes := t.nodes - {name}), Answer(wire, ()))
  }

  class TenantCluster {
    var machines: map<Key, Machine>
    var nodes: map<string, Node>
    var userSecrets: map<Key, map<string, Option<Json>>>
    var configMap: Option<map<string, string>>
    var clock: nat

    constructor (t: Tenant)
      ensures State() == t
    {
      machines, nodes, userSecrets, configMap, clock := t.machines, t.nodes, t.userSecrets, t.configMap, t.clock;
    }

    function State(): Tenant
      reads this
    {
      Tenant(machines, nodes, userSecrets, configMap, clock)
    }

    method GetSecret(key: Key, wire: Wire) returns (r: Reply<map<string, Option<Json>>>)
      ensures r == GetUserSecretCall(State(), key, wire)
    {
      if !wire.Delivered? { return Refused; }
      if key in userSecrets { return Ok(userSecrets[key]); }
      return NotFound;
    }

    method PatchMachine(m: Machine, origin: Machine, wire: Wire) returns (r: Reply<Machine>)
      modifies this
      ensures (State(), r) == PatchMachineCall(old(State()), m, origin, wire)
    {
      if wire.Dropped? || m.key !in machines { return Refused; }
      var stored := MergeMain(origin, m, machines[m.key]);
      machines := machines[m.key := stored];
      r := Answer(wire, DecodedOver(m, stored));
    }

    method StatusPatchMachine(m: Machine, origin: Machine, wire: Wire) returns (r: Reply<Machine>)
      modifies this
      ensures (State(), r) == StatusPatchMachineCall(old(State()), m, origin, wire)
    {
      if wire.Dropped? || m.key !in machines { return Refused; }
      var stored := MergeStatus(origin, m, machines[m.key]);
      machines := machines[m.key := stored];
      r := Answer(wire, DecodedOver(m, stored));
    }

    method GetNode(name: string, wire: Wire) returns (r: Reply<Node>)
      ensures r == GetNodeCall(State(), name, wire)
    {
      if !wire.Delivered? { return Refused; }
      if name in nodes { return Ok(nodes[name]); }
      return NotFound;
    }

    method GetConfigMapValue(wire: Wire) returns (r: Reply<map<string, string>>)
      ensures r == GetConfigCall(State(), wire)
    {
      if !wire.Delivered? || configMap.None? { return Refused; }
      return Ok(configMap.value);
    }

    method UpdateNode(node: Node, wire: Wire) returns (r: Reply<()>)
      modifies this
      ensures (State(), r) == UpdateNodeCall(old(State()), node, wire)
    {
      if wire.Dropped? || node.name !in nodes || nodes[node.name].resourceVersion != node.resourceVersion { return Refused; }
      if nodes[node.name] != node {
        clock := clock + 1;
        nodes := nodes[node.name := node.(resourceVersion := clock)];
      }
      r := Answer(wire, ());
    }

    method DeleteNode(name: string, wire: Wire) returns (r: Reply<()>)
      modifies this
      ensures (State(), r) == DeleteNodeCall(old(State()), name, wire)
    {
      if wire.Dropped? || name !in nodes { return Refused; }
      nodes := nodes - {name};
      r := Answer(wire, ());
    }
  }

  datatype World = World(infra: Infra, tenant: Tenant)
}
