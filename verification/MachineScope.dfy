/** Both directions between a Machine and its VirtualMachine (pkg/machinescope). */
module MachineScope {
  import opened Wrappers
  import opened JsonValue
  import opened Resources

  const VM_ID_ANNOTATION := "VmId"
  const STATE_ANNOTATION := "machine.openshift.io/instance-state"
  const TYPE_LABEL := "machine.openshift.io/instance-type"
  const CLUSTER_LABEL := "machine.openshift.io/cluster-api-cluster"

  const ACCESS_MODES := {"ReadWriteMany", "ReadOnlyMany", "ReadWriteOnce"}

  datatype ProviderSpec = ProviderSpec(
    sourcePvcName: string, ignitionSecretName: string, networkName: string,
    requestedMemory: string, requestedCPU: nat, requestedStorage: string,
    storageClassName: string, interfaceBindingMethod: string, accessMode: string)

  // -------- opening a scope --------

  /** A text member; absent and null read as empty, any other type is an error. */
  function TextMember(j: Json, key: string): Option<string> {
    match Member(j, key)
    case None => Some("")
    case Some(Null) => Some("")
    case Some(Str(text)) => Some(text)
    case _ => None
  }

  function CpuMember(j: Json): Option<nat> {
    match Member(j, "requestedCPU")
    case None => Some(0)
    case Some(Null) => Some(0)
    case Some(Num(r)) =>
      if r == r.Floor as real && 0 <= r.Floor < 0x1_0000_0000 then Some(r.Floor) else None
    case _ => None
  }

  /** The provider spec a raw extension holds; None when it does not decode. */
  function ParseProviderSpec(raw: Option<Json>): Option<ProviderSpec> {
    if raw.None? then Some(ProviderSpec("", "", "", "", 0, "", "", "", ""))
    else if !raw.value.Obj? then None
    else
      var j := raw.value;
      var pvc, secret, network := TextMember(j, "sourcePvcName"), TextMember(j, "ignitionSecretName"), TextMember(j, "networkName");
      var memory, cpu, storage := TextMember(j, "requestedMemory"), CpuMember(j), TextMember(j, "requestedStorage");
      var class_, binding, mode :=
        TextMember(j, "storageClassName"), TextMember(j, "interfaceBindingMethod"), TextMember(j, "persistentVolumeAccessMode");
      if pvc.None? || secret.None? || network.None? || memory.None? || cpu.None? || storage.None?
         || class_.None? || binding.None? || mode.None? || TextMember(j, "credentialsSecretName").None? then None
      else Some(ProviderSpec(pvc.value, secret.value, network.value, memory.value, cpu.value, storage.value,
                             class_.value, binding.value, mode.value))
  }

  /** What CreateMachineScope accepts: the cluster label and a decodable provider spec. */
  function OpenScope(m: Machine): Option<ProviderSpec> {
    if CLUSTER_LABEL !in m.labels || m.labels[CLUSTER_LABEL] == "" then None
    else ParseProviderSpec(m.providerSpec)
  }

  /** Members for the texts that are not empty. */
  function TextFields(texts: seq<(string, string)>): map<string, Json> {
    if texts == [] then map[] else
    var front, (key, text) := TextFields(texts[..|texts| - 1]), texts[|texts| - 1];
    if text == "" then front else front[key := Str(text)]
  }

  function TextsOf(s: ProviderSpec): seq<(string, string)> {
    [("sourcePvcName", s.sourcePvcName), ("requestedMemory", s.requestedMemory), ("requestedStorage", s.requestedStorage),
     ("storageClassName", s.storageClassName), ("ignitionSecretName", s.ignitionSecretName), ("networkName", s.networkName),
     ("interfaceBindingMethod", s.interfaceBindingMethod), ("persistentVolumeAccessMode", s.accessMode)]
  }

  /** A provider spec as the Machine API writes it: empty fields are omitted. */
  function EncodeProviderSpec(s: ProviderSpec): Json {
    Obj(TextFields(TextsOf(s)) + if s.requestedCPU == 0 then map[] else map["requestedCPU" := Num(s.requestedCPU as real)])
  }

  predicate AllDiffer(texts: seq<(string, string)>) {
    forall i, j | 0 <= i < j < |texts| :: texts[i].0 != texts[j].0
  }

  lemma {:induction false} TextsRead(texts: seq<(string, string)>)
    requires AllDiffer(texts)
    ensures forall i | 0 <= i < |texts| :: TextMember(Obj(TextFields(texts)), texts[i].0) == Some(texts[i].1)
    ensures forall k | k in TextFields(texts) :: exists i | 0 <= i < |texts| :: texts[i].0 == k
  {
    if texts != [] {
      var front := texts[..|texts| - 1];
      assert forall i | 0 <= i < |front| :: front[i] == texts[i];
      TextsRead(front);
      var (key, text) := texts[|front|];
      var f, g := TextFields(front), TextFields(texts);
      assert g == if text == "" then f else f[key := Str(text)];
      assert key !in f;
      hide TextFields;
      forall i | 0 <= i < |texts| ensures TextMember(Obj(g), texts[i].0) == Some(texts[i].1) {
        if i < |front| {
          assert texts[i].0 != key && TextMember(Obj(f), front[i].0) == Some(front[i].1);
        }
      }
      forall k | k in g ensures exists i | 0 <= i < |texts| :: texts[i].0 == k {
        if k == key {
          assert texts[|front|].0 == k;
        } else {
          var i :| 0 <= i < |front| && front[i].0 == k;
          assert texts[i].0 == k;
        }
      }
    }
  }

  lemma KeysDiffer(s: ProviderSpec)
    ensures AllDiffer(TextsOf(s)) && forall i | 0 <= i < |TextsOf(s)| :: |TextsOf(s)[i].0| != 12 && |TextsOf(s)[i].0| != 21
  {
    var t := TextsOf(s);
    assert t[2].0[0] == 'r' && t[3].0[0] == 's';
    forall i, j | 0 <= i < j < |t| ensures t[i].0 != t[j].0 {
      assert |t[i].0| != |t[j].0| || (i == 2 && j == 3);
    }
  }

  lemma FieldsRead(s: ProviderSpec)
    requires s.requestedCPU < 0x1_0000_0000
    ensures var j := EncodeProviderSpec(s);
            && (forall i | 0 <= i < |TextsOf(s)| :: TextMember(j, TextsOf(s)[i].0) == Some(TextsOf(s)[i].1))
            && CpuMember(j) == Some(s.requestedCPU) && TextMember(j, "credentialsSecretName") == Some("")
  {
    KeysDiffer(s);
    var t, f := TextsOf(s), TextFields(TextsOf(s));
    TextsRead(t);
    assert |"requestedCPU"| == 12 && |"credentialsSecretName"| == 21;
    hide TextsOf, TextFields;
    assert "requestedCPU" !in f && "credentialsSecretName" !in f;
    forall i | 0 <= i < |t| ensures TextMember(EncodeProviderSpec(s), t[i].0) == Some(t[i].1) {
      assert t[i].0 != "requestedCPU";
      assert TextMember(Obj(f), t[i].0) == Some(t[i].1);
    }
  }

  /** Each field is read from its own member. */
  lemma ReadsProviderSpec(s: ProviderSpec)
    requires s.requestedCPU < 0x1_0000_0000
    ensures ParseProviderSpec(Some(EncodeProviderSpec(s))) == Some(s)
  {
    FieldsRead(s);
    var j, t := EncodeProviderSpec(s), TextsOf(s);
    assert j.Obj?;
    hide EncodeProviderSpec, TextMember, CpuMember;
    assert TextMember(j, t[0].0) == Some(t[0].1) && TextMember(j, t[1].0) == Some(t[1].1) && TextMember(j, t[2].0) == Some(t[2].1);
    assert TextMember(j, t[3].0) == Some(t[3].1) && TextMember(j, t[4].0) == Some(t[4].1) && TextMember(j, t[5].0) == Some(t[5].1);
    assert TextMember(j, t[6].0) == Some(t[6].1) && TextMember(j, t[7].0) == Some(t[7].1);
  }

  /** A Machine written with a provider spec opens with it exactly if it names its cluster. */
  lemma OpensWithSpec(m: Machine, s: ProviderSpec)
    requires s.requestedCPU < 0x1_0000_0000 && m.providerSpec == Some(EncodeProviderSpec(s))
    ensures var cluster := "machine.openshift.io/cluster-api-cluster";
            OpenScope(m) == if cluster in m.labels && m.labels[cluster] != "" then Some(s) else None
  {
    ReadsProviderSpec(s);
    hide ParseProviderSpec, EncodeProviderSpec;
  }

  // -------- names and small parts --------

  function IgnitionSecretName(vmName: string): string { vmName + "-ignition" }

  function BootVolumeName(vmName: string): string { vmName + "-bootvolume" }

  function OwnerLabel(infraID: string): string { "tenantcluster-" + infraID + "-machine.openshift.io" }

  function OwnerLabels(infraID: string): map<string, string> { map[OwnerLabel(infraID) := "owned"] }

  function IgnitionSecret(cfg: Config, m: Machine, userData: Json): Secret {
    Secret(Key(cfg.infraNamespace, IgnitionSecretName(m.key.name)), OwnerLabels(cfg.infraID), map["userdata" := userData])
  }

  // -------- the desired VirtualMachine --------

  datatype Build = Built(vm: VM) | Invalid | BadQuantity

  function Memory(spec: ProviderSpec): string {
    if spec.requestedMemory == "" then "2048M" else spec.requestedMemory
  }

  function Storage(spec: ProviderSpec): string {
    if spec.requestedStorage == "" then "35Gi" else spec.requestedStorage
  }

  function AccessMode(spec: ProviderSpec): string {
    if spec.accessMode == "" then "ReadWriteMany" else spec.accessMode
  }

  function BuildTemplate(spec: ProviderSpec, vmName: string): Template {
    Template(
      map["kubevirt.io/vm" := vmName, "name" := vmName], 600,
      [BootVolume("datavolumedisk1", BootVolumeName(vmName)), CloudInitVolume("cloudinitdisk", IgnitionSecretName(vmName))],
      [Network("main", spec.networkName)],
      map["memory" := Memory(spec)] + if spec.requestedCPU == 0 then map[] else map["cpu" := Decimal(spec.requestedCPU)],
      [Disk("datavolumedisk1", "virtio"), Disk("cloudinitdisk", "virtio")],
      [Interface("main", if spec.interfaceBindingMethod == "SRIOV" then Sriov else Bridge)],
      "")
  }

  function BuildDataVolume(cfg: Config, spec: ProviderSpec, vmName: string): DataVolume {
    DataVolume(
      BootVolumeName(vmName), cfg.infraNamespace, Key(cfg.infraNamespace, spec.sourcePvcName),
      [AccessMode(spec)], Storage(spec),
      if spec.storageClassName == "" then None else Some(spec.storageClassName))
  }

  function BuildSpec(cfg: Config, spec: ProviderSpec, vmName: string): VMSpec {
    VMSpec("Always", [BuildDataVolume(cfg, spec, vmName)], Some(BuildTemplate(spec, vmName)))
  }

  function DesiredVM(cfg: Config, spec: ProviderSpec, m: Machine): VM {
    VM(Key(cfg.infraNamespace, m.key.name), "", 0,
       OwnerLabels(cfg.infraID) + m.labels, m.annotations, m.clusterName,
       BuildSpec(cfg, spec, m.key.name), NO_STATUS)
  }

  /**
   The checks in the order the code makes them: mandatory parameters, memory quantity (which
   panics), access mode, storage quantity (which panics).
   */
  function BuildVM(cfg: Config, spec: ProviderSpec, m: Machine): Build {
    if spec.sourcePvcName == "" || spec.ignitionSecretName == "" || spec.networkName == "" then Invalid
    else if !cfg.isQuantity(Memory(spec)) then BadQuantity
    else if spec.accessMode != "" && spec.accessMode !in ACCESS_MODES then Invalid
    else if !cfg.isQuantity(Storage(spec)) then BadQuantity
    else Built(DesiredVM(cfg, spec, m))
  }

  /** What a provider spec must hold for a VM to be built from it. */
  predicate Complete(spec: ProviderSpec) { spec.sourcePvcName != "" && spec.ignitionSecretName != "" && spec.networkName != "" }

  predicate MemoryParses(cfg: Config, spec: ProviderSpec) {
    if spec.requestedMemory == "" then cfg.isQuantity("2048M") else cfg.isQuantity(spec.requestedMemory)
  }

  predicate StorageParses(cfg: Config, spec: ProviderSpec) {
    if spec.requestedStorage == "" then cfg.isQuantity("35Gi") else cfg.isQuantity(spec.requestedStorage)
  }

  predicate ModeKnown(spec: ProviderSpec) { spec.accessMode in {"", "ReadWriteMany", "ReadOnlyMany", "ReadWriteOnce"} }

  predicate Accepted(cfg: Config, spec: ProviderSpec) {
    Complete(spec) && MemoryParses(cfg, spec) && ModeKnown(spec) && StorageParses(cfg, spec)
  }

  /** A complete spec panics on a bad memory quantity, whatever its access mode, and on a bad storage quantity only after that. */
  predicate Panics(cfg: Config, spec: ProviderSpec) {
    Complete(spec) && (!MemoryParses(cfg, spec) || (ModeKnown(spec) && !StorageParses(cfg, spec)))
  }

  lemma BuildOutcomes(cfg: Config, spec: ProviderSpec, m: Machine)
    ensures BuildVM(cfg, spec, m).Built? <==> Accepted(cfg, spec)
    ensures BuildVM(cfg, spec, m).BadQuantity? <==> Panics(cfg, spec)
  {
    assert spec.accessMode in ACCESS_MODES <==> ModeKnown(spec) && spec.accessMode != "";
  }

  /** The metadata of the VM of a Machine: its own, under the owner label, in the infra namespace. */
  predicate MetaAsSpecified(cfg: Config, m: Machine, vm: VM) {
    var owner := "tenantcluster-" + cfg.infraID + "-machine.openshift.io";
    && vm.key.namespace == cfg.infraNamespace && vm.key.name == m.key.name
    && vm.annotations == m.annotations && vm.clusterName == m.clusterName
    && vm.labels.Keys == m.labels.Keys + {owner}
    && (forall k | k in m.labels :: vm.labels[k] == m.labels[k])
    && (owner !in m.labels ==> vm.labels[owner] == "owned")
  }

  /** Its one data volume: a clone of the source PVC. */
  predicate DiskAsSpecified(cfg: Config, spec: ProviderSpec, m: Machine, dv: DataVolume) {
    && dv.name == m.key.name + "-bootvolume" && dv.namespace == cfg.infraNamespace
    && dv.sourcePvc.name == spec.sourcePvcName && dv.sourcePvc.namespace == cfg.infraNamespace
    && |dv.accessModes| == 1
    && (spec.accessMode == "" ==> dv.accessModes[0] == "ReadWriteMany") && (spec.accessMode != "" ==> dv.accessModes[0] == spec.accessMode)
    && (spec.requestedStorage == "" ==> dv.storage == "35Gi") && (spec.requestedStorage != "" ==> dv.storage == spec.requestedStorage)
    && (dv.storageClass.None? <==> spec.storageClassName == "") && (dv.storageClass.Some? ==> dv.storageClass.value == spec.storageClassName)
  }

  /** The instance it runs: what is requested, one network, the boot volume and the cloud-init secret. */
  predicate InstanceAsSpecified(spec: ProviderSpec, m: Machine, t: Template) {
    && t.labels == map["kubevirt.io/vm" := m.key.name, "name" := m.key.name] && t.gracePeriod == 600 && t.machineType == ""
    && t.volumes == [BootVolume("datavolumedisk1", m.key.name + "-bootvolume"), CloudInitVolume("cloudinitdisk", m.key.name + "-ignition")]
    && t.disks == [Disk("datavolumedisk1", "virtio"), Disk("cloudinitdisk", "virtio")]
    && t.networks == [Network("main", spec.networkName)]
    && |t.interfaces| == 1 && t.interfaces[0].name == "main"
    && (t.interfaces[0].binding == Sriov <==> spec.interfaceBindingMethod == "SRIOV")
    && "memory" in t.requests && t.requests.Keys <= {"memory", "cpu"}
    && (spec.requestedMemory == "" ==> t.requests["memory"] == "2048M")
    && (spec.requestedMemory != "" ==> t.requests["memory"] == spec.requestedMemory)
    && ("cpu" in t.requests <==> spec.requestedCPU != 0)
    && ("cpu" in t.requests ==> Numbers(t.requests["cpu"]) == [spec.requestedCPU])
  }

  predicate AsSpecified(cfg: Config, spec: ProviderSpec, m: Machine, vm: VM) {
    && MetaAsSpecified(cfg, m, vm)
    && vm.spec.runStrategy == "Always" && |vm.spec.dataVolumes| == 1 && vm.spec.template.Some?
    && DiskAsSpecified(cfg, spec, m, vm.spec.dataVolumes[0]) && InstanceAsSpecified(spec, m, vm.spec.template.value)
  }

  lemma InstanceIsAsSpecified(spec: ProviderSpec, m: Machine)
    ensures InstanceAsSpecified(spec, m, BuildTemplate(spec, m.key.name))
  {
    RequestedCPU(spec, m.key.name);
    NumbersOfDecimal(spec.requestedCPU);
    hide Numbers, Decimal;
  }

  lemma DesiredAsSpecified(cfg: Config, spec: ProviderSpec, m: Machine)
    ensures AsSpecified(cfg, spec, m, DesiredVM(cfg, spec, m))
  {
    InstanceIsAsSpecified(spec, m);
    hide InstanceAsSpecified, BuildTemplate;
  }

  /** The specs ask for the same VM, defaults filled in; the user-data secret plays no part. */
  predicate SameRequest(s: ProviderSpec, t: ProviderSpec) {
    && s.sourcePvcName == t.sourcePvcName && s.networkName == t.networkName
    && Memory(s) == Memory(t) && s.requestedCPU == t.requestedCPU && Storage(s) == Storage(t)
    && s.storageClassName == t.storageClassName && AccessMode(s) == AccessMode(t)
    && (s.interfaceBindingMethod == "SRIOV" <==> t.interfaceBindingMethod == "SRIOV")
  }

  lemma RequestedCPU(s: ProviderSpec, name: string)
    ensures var r := BuildTemplate(s, name).requests;
            && "memory" in r && r["memory"] == Memory(s)
            && ("cpu" in r <==> s.requestedCPU != 0) && ("cpu" in r ==> r["cpu"] == Decimal(s.requestedCPU))
  {
    assert |"cpu"| != |"memory"|;
  }

  /**
   Nothing of the request is lost in the VM spec and nothing is mixed up with anything else: two
   Machines get the same VM spec exactly if they have the same name and ask for the same.
   */
  lemma RequestDeterminesSpec(cfg: Config, s: ProviderSpec, m: string, t: ProviderSpec, n: string)
    ensures BuildSpec(cfg, s, m) == BuildSpec(cfg, t, n) <==> m == n && SameRequest(s, t)
  {
    RequestedCPU(s, m);
    RequestedCPU(t, n);
    DecimalInjective(s.requestedCPU, t.requestedCPU);
    if BuildSpec(cfg, s, m) == BuildSpec(cfg, t, n) {
      var a, b := BuildTemplate(s, m), BuildTemplate(t, n);
      assert a.labels["name"] == m && b.labels["name"] == n;
      assert a.networks[0] == b.networks[0] && a.interfaces[0] == b.interfaces[0];
      var d, e := BuildDataVolume(cfg, s, m), BuildDataVolume(cfg, t, n);
      assert [d][0] == [e][0];
      assert d.accessModes[0] == e.accessModes[0];
    }
  }

  // -------- addresses --------

  type Byte = b: int | 0 <= b < 256

  /** An address as the resolver returns it: 4 bytes or 16. */
  type IP = seq<Byte>

  const V4_IN_V6: seq<Byte> := [0, 0, 0, 0, 0, 0, 0, 0, 0, 0, 255, 255]

  /** The IPv4 form, if there is one: 4 bytes, or 16 that embed an IPv4 address. */
  function To4(ip: IP): Option<IP> {
    if |ip| == 4 then Some(ip)
    else if |ip| == 16 && ip[..12] == V4_IN_V6 then Some(ip[12..])
    else None
  }

  function Dotted(v4: IP): string
    requires |v4| == 4
  {
    Decimal(v4[0]) + "." + Decimal(v4[1]) + "." + Decimal(v4[2]) + "." + Decimal(v4[3])
  }

  function InternalAddress(ip: IP): Address
    requires To4(ip).Some?
  {
    Address(InternalIP, Dotted(To4(ip).value))
  }

  /**
   An address has an IPv4 form if it is four bytes a.b.c.d or their sixteen-byte form, and then the
   text reads back as these four numbers, in order.
   */
  lemma DottedReadsBack(a: Byte, b: Byte, c: Byte, d: Byte)
    ensures To4([a, b, c, d]) == Some([a, b, c, d])
    ensures To4([0, 0, 0, 0, 0, 0, 0, 0, 0, 0, 255, 255, a, b, c, d]) == Some([a, b, c, d])
    ensures Numbers(InternalAddress([a, b, c, d]).text) == [a, b, c, d] && InternalAddress([a, b, c, d]).kind == InternalIP
  {
    var long: IP := [0, 0, 0, 0, 0, 0, 0, 0, 0, 0, 255, 255, a, b, c, d];
    assert long[..12] == V4_IN_V6 && long[12..] == [a, b, c, d];
    assert InternalAddress([a, b, c, d]) == Address(InternalIP, Dotted([a, b, c, d]));
    DottedNumbers(a, b, c, d);
    hide Dotted, Numbers;
  }

  lemma DottedNumbers(a: Byte, b: Byte, c: Byte, d: Byte)
    ensures Numbers(Dotted([a, b, c, d])) == [a, b, c, d]
  {
    hide Numbers, Decimal;
    NumbersOfDecimal(a);
    NumbersAfterDot(Decimal(a), b);
    NumbersAfterDot(Decimal(a) + "." + Decimal(b), c);
    NumbersAfterDot(Decimal(a) + "." + Decimal(b) + "." + Decimal(c), d);
  }

  /** And no other address has one. */
  lemma OnlyThoseAreV4(ip: IP)
    ensures To4(ip).Some? <==>
              |ip| == 4 || (|ip| == 16 && (forall i | 0 <= i < 10 :: ip[i] == 0) && ip[10] == 255 && ip[11] == 255)
  {
    if |ip| == 16 {
      assert V4_IN_V6 == ip[..12] <==> forall i | 0 <= i < 12 :: V4_IN_V6[i] == ip[i];
    }
  }

  /** How many of the addresses have an IPv4 form. */
  function V4Count(ips: seq<IP>): nat {
    if ips == [] then 0 else V4Count(ips[..|ips| - 1]) + if To4(ips[|ips| - 1]).Some? then 1 else 0
  }

  function InternalAddresses(ips: seq<IP>): seq<Address> {
    if ips == [] then [] else
    var last := ips[|ips| - 1];
    InternalAddresses(ips[..|ips| - 1]) + if To4(last).Some? then [InternalAddress(last)] else []
  }

  function AddressList(name: string, lookup: Option<seq<IP>>): seq<Address> {
    [Address(InternalDNS, name)] + InternalAddresses(lookup.GetOr([]))
  }

  /**
   The list is the DNS name and then one entry for every resolved address with an IPv4 form, in
   order and as often as it was resolved: the entry of the i-th stands right after the DNS name
   and those of the earlier ones, and there are no others.
   */
  lemma {:induction false} AddressesInOrder(name: string, ips: seq<IP>)
    ensures |AddressList(name, Some(ips))| == 1 + V4Count(ips)
    ensures forall i | 0 <= i < |ips| && To4(ips[i]).Some? ::
              V4Count(ips[..i]) < V4Count(ips) &&
              AddressList(name, Some(ips))[1 + V4Count(ips[..i])] == InternalAddress(ips[i])
    ensures AddressList(name, Some(ips))[0] == Address(InternalDNS, name) && AddressList(name, None) == [Address(InternalDNS, name)]
  {
    if ips != [] {
      var front := ips[..|ips| - 1];
      AddressesInOrder(name, front);
      forall i | 0 <= i < |ips| && To4(ips[i]).Some?
        ensures V4Count(ips[..i]) < V4Count(ips) && AddressList(name, Some(ips))[1 + V4Count(ips[..i])] == InternalAddress(ips[i])
      {
        if i < |front| {
          assert front[..i] == ips[..i];
          assert AddressList(name, Some(front))[1 + V4Count(front[..i])] == InternalAddress(front[i]);
        }
      }
    }
  }

  // -------- syncing the Machine with its VM --------

  function StateText(status: VMStatus): string {
    if !status.created then "vmNotCreated"
    else if status.ready then "vmWasCreatedAndReady"
    else "vmWasCreatedButNotReady"
  }

  function ListMember(key: string, items: seq<Json>): map<string, Json> {
    if items == [] then map[] else map[key := Arr(items)]
  }

  function FlagMember(key: string, flag: bool): map<string, Json> {
    if flag then map[key := Bool(true)] else map[]
  }

  /** The raw provider status: false flags and empty lists are omitted. */
  function EncodeStatus(st: VMStatus): Json {
    Obj(FlagMember("created", st.created) + FlagMember("ready", st.ready)
        + ListMember("conditions", st.conditions) + ListMember("stateChangeRequests", st.stateChangeRequests))
  }

  lemma StatusMembers(st: VMStatus)
    ensures Member(EncodeStatus(st), "created") == if st.created then Some(Bool(true)) else None
    ensures Member(EncodeStatus(st), "ready") == if st.ready then Some(Bool(true)) else None
    ensures Member(EncodeStatus(st), "conditions") == if st.conditions == [] then None else Some(Arr(st.conditions))
    ensures Member(EncodeStatus(st), "stateChangeRequests")
            == if st.stateChangeRequests == [] then None else Some(Arr(st.stateChangeRequests))
  {
    var flags := FlagMember("created", st.created) + FlagMember("ready", st.ready);
    var lists := ListMember("conditions", st.conditions) + ListMember("stateChangeRequests", st.stateChangeRequests);
    assert |"created"| == 7 && |"ready"| == 5 && |"conditions"| == 10 && |"stateChangeRequests"| == 19;
    assert flags.Keys !! lists.Keys by {
      assert flags.Keys <= {"created", "ready"};
      assert lists.Keys <= {"conditions", "stateChangeRequests"};
    }
    assert EncodeStatus(st).fields == flags + lists;
  }

  lemma EncodeStatusInjective(s: VMStatus, t: VMStatus)
    ensures EncodeStatus(s) == EncodeStatus(t) <==> s == t
  {
    if EncodeStatus(s) == EncodeStatus(t) {
      StatusMembers(s);
      StatusMembers(t);
    }
  }

  lemma EncodeStatusNullFree(st: VMStatus)
    ensures NullFree(EncodeStatus(st))
  {
    var flags := FlagMember("created", st.created) + FlagMember("ready", st.ready);
    var lists := ListMember("conditions", st.conditions) + ListMember("stateChangeRequests", st.stateChangeRequests);
    assert EncodeStatus(st).fields == flags + lists;
    forall k | k in (flags + lists) ensures NullFree((flags + lists)[k]) {
      assert k in lists ==> lists[k].Arr?;
      assert k in flags ==> flags[k].Bool?;
    }
  }

  function SyncedLabels(labels: map<string, string>, spec: VMSpec): map<string, string> {
    if spec.template.Some? then labels[TYPE_LABEL := spec.template.value.machineType] else labels
  }

  function SyncedAnnotations(annotations: map<string, string>, vm: VM): map<string, string> {
    annotations[VM_ID_ANNOTATION := vm.uid][STATE_ANNOTATION := StateText(vm.status)]
  }

  /** The Machine after SyncMachine; addresses change only when there is a VM instance. */
  function Synced(m: Machine, vm: VM, vmi: Option<VMI>, providerID: string, lookup: Option<seq<IP>>): Machine {
    m.(providerID := Some(providerID),
       labels := SyncedLabels(m.labels, vm.spec),
       annotations := SyncedAnnotations(m.annotations, vm),
       addresses := if vmi.Some? then AddressList(vmi.value.name, lookup) else m.addresses,
       providerStatus := Some(EncodeStatus(vm.status)))
  }

  /** The texts of the three states. */
  predicate StateReads(status: VMStatus, text: string) {
    && (text == "vmNotCreated" <==> !status.created)
    && (text == "vmWasCreatedAndReady" <==> status.created && status.ready)
    && (text == "vmWasCreatedButNotReady" <==> status.created && !status.ready)
  }

  /** What a Machine records of its VM in its labels and annotations, and that nothing else in them changed. */
  ghost predicate RecordsVM(before: Machine, after: Machine, vm: VM) {
    var id, state, kind := "VmId", "machine.openshift.io/instance-state", "machine.openshift.io/instance-type";
    && id in after.annotations && after.annotations[id] == vm.uid
    && state in after.annotations && StateReads(vm.status, after.annotations[state])
    && (vm.spec.template.Some? ==> kind in after.labels && after.labels[kind] == vm.spec.template.value.machineType)
    && (vm.spec.template.None? ==> after.labels == before.labels)
    && after.annotations - {id, state} == before.annotations - {id, state} && after.labels - {kind} == before.labels - {kind}
  }

  lemma SyncedRecordsVM(m: Machine, vm: VM, vmi: Option<VMI>, id: string, lookup: Option<seq<IP>>)
    ensures RecordsVM(m, Synced(m, vm, vmi, id, lookup), vm)
  {
    assert |"vmNotCreated"| == 12 && |"vmWasCreatedAndReady"| == 20 && |"vmWasCreatedButNotReady"| == 23;
    assert |"VmId"| == 4 && |"machine.openshift.io/instance-state"| == 35;
    var a, b := m.annotations, SyncedAnnotations(m.annotations, vm);
    assert b - {VM_ID_ANNOTATION, STATE_ANNOTATION} == a - {VM_ID_ANNOTATION, STATE_ANNOTATION};
    assert SyncedLabels(m.labels, vm.spec) - {TYPE_LABEL} == m.labels - {TYPE_LABEL};
  }

  datatype SyncInput = SyncInput(vm: VM, vmi: Option<VMI>, providerID: string, lookup: Option<seq<IP>>)

  function SyncAll(m: Machine, inputs: seq<SyncInput>): Machine {
    if inputs == [] then m else
    var i := inputs[|inputs| - 1];
    Synced(SyncAll(m, inputs[..|inputs| - 1]), i.vm, i.vmi, i.providerID, i.lookup)
  }

  /** Over any run of syncs the stored addresses are those of the last one that had a VM instance. */
  lemma {:induction false} AddressesOfLastInstance(m: Machine, inputs: seq<SyncInput>, last: nat)
    requires last <= |inputs|
    requires last < |inputs| ==> inputs[last].vmi.Some?
    requires forall i | last < i < |inputs| :: inputs[i].vmi.None?
    requires last == |inputs| ==> forall i | 0 <= i < |inputs| :: inputs[i].vmi.None?
    ensures SyncAll(m, inputs).addresses ==
            if last == |inputs| then m.addresses else AddressList(inputs[last].vmi.value.name, inputs[last].lookup)
  {
    if inputs != [] {
      var front := inputs[..|inputs| - 1];
      if last == |inputs| {
        AddressesOfLastInstance(m, front, |front|);
      } else if last < |front| {
        AddressesOfLastInstance(m, front, last);
      }
    }
  }

  /** Syncing twice with the same VM is syncing once. */
  lemma SyncIdempotent(m: Machine, vm: VM, vmi: Option<VMI>, id: string, lookup: Option<seq<IP>>)
    ensures Synced(Synced(m, vm, vmi, id, lookup), vm, vmi, id, lookup) == Synced(m, vm, vmi, id, lookup)
  {
    var s := Synced(m, vm, vmi, id, lookup);
    assert SyncedLabels(s.labels, vm.spec) == s.labels;
    assert SyncedAnnotations(s.annotations, vm) == s.annotations;
  }

  // -------- the scope object --------

  class Scope {
    const cfg: Config
    const spec: ProviderSpec
    var machine: Machine

    constructor (cfg: Config, spec: ProviderSpec, machine: Machine)
      ensures this.cfg == cfg && this.spec == spec && this.machine == machine
    {
      this.cfg, this.spec, this.machine := cfg, spec, machine;
    }

    /** Label iteration order is arbitrary; the result does not depend on it, and the Machine is only read. */
    method CreateVirtualMachineFromMachine() returns (result: Build)
      ensures result == BuildVM(cfg, spec, machine)
      ensures result.Built? <==> Accepted(cfg, spec)
      ensures result.BadQuantity? <==> Panics(cfg, spec)
      ensures result.Built? ==> AsSpecified(cfg, spec, machine, result.vm)
    {
      BuildOutcomes(cfg, spec, machine);
      DesiredAsSpecified(cfg, spec, machine);
      if spec.sourcePvcName == "" || spec.ignitionSecretName == "" || spec.networkName == "" {
        return Invalid;
      }
      if !cfg.isQuantity(Memory(spec)) {
        return BadQuantity;
      }
      if spec.accessMode != "" && spec.accessMode !in ACCESS_MODES {
        return Invalid;
      }
      if !cfg.isQuantity(Storage(spec)) {
        return BadQuantity;
      }
      var vmSpec := VMSpec("Always", [BuildDataVolume(cfg, spec, machine.key.name)], Some(BuildTemplate(spec, machine.key.name)));
      var labels := OwnerLabels(cfg.infraID);
      var left := machine.labels.Keys;
      while left != {}
        invariant left <= machine.labels.Keys
        invariant labels.Keys == {OwnerLabel(cfg.infraID)} + (machine.labels.Keys - left)
        invariant forall k | k in labels ::
                    labels[k] == if k in machine.labels && k !in left then machine.labels[k] else "owned"
        decreases left
      {
        var k :| k in left;
        labels := labels[k := machine.labels[k]];
        left := left - {k};
      }
      assert labels == OwnerLabels(cfg.infraID) + machine.labels;
      result := Built(VM(Key(cfg.infraNamespace, machine.key.name), "", 0, labels, machine.annotations,
                         machine.clusterName, vmSpec, NO_STATUS));
    }

    method CreateIgnitionSecretFromMachine(userData: Json) returns (secret: Secret)
      ensures secret == IgnitionSecret(cfg, machine, userData)
      ensures secret.key.namespace == cfg.infraNamespace && secret.key.name == machine.key.name + "-ignition"
      ensures secret.labels == map["tenantcluster-" + cfg.infraID + "-machine.openshift.io" := "owned"]
      ensures secret.data == map["userdata" := userData]
    {
      secret := Secret(Key(cfg.infraNamespace, IgnitionSecretName(machine.key.name)), OwnerLabels(cfg.infraID), map["userdata" := userData]);
    }

    method SyncMachine(vm: VM, vmi: Option<VMI>, providerID: string, lookup: Option<seq<IP>>)
      modifies this
      ensures machine == Synced(old(machine), vm, vmi, providerID, lookup)
      ensures RecordsVM(old(machine), machine, vm) && machine.providerID == Some(providerID)
    {
      SyncedRecordsVM(machine, vm, vmi, providerID, lookup);
      SyncProviderID(providerID);
      SyncMachineAnnotationsAndLabels(vm);
      if vmi.Some? {
        SyncNetworkAddresses(vmi.value, lookup);
      }
      SyncProviderStatus(vm);
    }

    method SyncProviderID(providerID: string)
      modifies this
      ensures machine == old(machine).(providerID := Some(providerID))
    {
      if machine.providerID == Some(providerID) {
        return;
      }
      machine := machine.(providerID := Some(providerID));
    }

    method SyncMachineAnnotationsAndLabels(vm: VM)
      modifies this
      ensures machine == old(machine).(labels := SyncedLabels(old(machine).labels, vm.spec),
                                       annotations := SyncedAnnotations(old(machine).annotations, vm))
      ensures RecordsVM(old(machine), machine, vm)
    {
      SyncedRecordsVM(machine, vm, None, "", None);
      var vmState := "vmNotCreated";
      if vm.status.created {
        vmState := "vmWasCreatedButNotReady";
        if vm.status.ready {
          vmState := "vmWasCreatedAndReady";
        }
      }
      machine := machine.(annotations := machine.annotations[VM_ID_ANNOTATION := vm.uid]);
      if vm.spec.template.Some? {
        machine := machine.(labels := machine.labels[TYPE_LABEL := vm.spec.template.value.machineType]);
      }
      machine := machine.(annotations := machine.annotations[STATE_ANNOTATION := vmState]);
    }

    method SyncNetworkAddresses(vmi: VMI, lookup: Option<seq<IP>>)
      modifies this
      ensures machine == old(machine).(addresses := AddressList(vmi.name, lookup))
    {
      var networkAddresses := [Address(InternalDNS, vmi.name)];
      if lookup.Some? {
        var ips := lookup.value;
        for i := 0 to |ips|
          invariant networkAddresses == [Address(InternalDNS, vmi.name)] + InternalAddresses(ips[..i])
        {
          assert ips[..i + 1][..i] == ips[..i];
          var v4 := To4(ips[i]);
          if v4.Some? {
            networkAddresses := networkAddresses + [Address(InternalIP, Dotted(v4.value))];
          }
        }
        assert ips[..|ips|] == ips;
      }
      machine := machine.(addresses := networkAddresses);
    }

    method SyncProviderStatus(vm: VM)
      modifies this
      ensures machine == old(machine).(providerStatus := Some(EncodeStatus(vm.status)))
      ensures forall st :: machine.providerStatus == Some(EncodeStatus(st)) <==> st == vm.status
    {
      machine := machine.(providerStatus := Some(EncodeStatus(vm.status)));
      forall st ensures EncodeStatus(st) == EncodeStatus(vm.status) <==> st == vm.status {
        EncodeStatusInjective(st, vm.status);
      }
    }
  }
}
