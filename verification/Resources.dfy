/** The objects both clusters store, with the fields the provider reads or writes. */
module Resources {
  import opened Wrappers
  import opened JsonValue

  datatype Key = Key(namespace: string, name: string)

  // -------- infra cluster --------

  datatype DataVolume = DataVolume(
    name: string, namespace: string, sourcePvc: Key,
    accessModes: seq<string>, storage: string, storageClass: Option<string>)

  datatype Volume =
    | BootVolume(name: string, dataVolume: string)
    | CloudInitVolume(name: string, secret: string)

  datatype Network = Network(name: string, multus: string)
  datatype Disk = Disk(name: string, bus: string)
  datatype Binding = Bridge | Sriov
  datatype Interface = Interface(name: string, binding: Binding)

  datatype Template = Template(
    labels: map<string, string>, gracePeriod: int,
    volumes: seq<Volume>, networks: seq<Network>, requests: map<string, string>,
    disks: seq<Disk>, interfaces: seq<Interface>, machineType: string)

  datatype VMSpec = VMSpec(runStrategy: string, dataVolumes: seq<DataVolume>, template: Option<Template>)

  datatype VMStatus = VMStatus(created: bool, ready: bool, conditions: seq<Json>, stateChangeRequests: seq<Json>)

  const NO_STATUS := VMStatus(false, false, [], [])

  datatype VM = VM(
    key: Key, uid: string, resourceVersion: nat,
    labels: map<string, string>, annotations: map<string, string>, clusterName: string,
    spec: VMSpec, status: VMStatus)

  datatype VMI = VMI(name: string)

  datatype Secret = Secret(key: Key, labels: map<string, string>, data: map<string, Json>)

  // -------- tenant cluster --------

  datatype AddressType = InternalDNS | InternalIP
  datatype Address = Address(kind: AddressType, text: string)

  datatype Machine = Machine(
    key: Key, clusterName: string,
    labels: map<string, string>, annotations: map<string, string>,
    providerSpec: Option<Json>, providerID: Option<string>,
    phase: Option<string>, addresses: seq<Address>, providerStatus: Option<Json>)

  datatype Node = Node(name: string, providerID: string, resourceVersion: nat)

  // -------- settings both controllers run under --------

  /**
   `infraNamespace` and `infraID` come from the cloud provider config map; `machineType` is the
   infra cluster's default; `isQuantity` tells which strings parse as resource quantities.
   */
  datatype Config = Config(infraNamespace: string, infraID: string, machineType: string, isQuantity: string -> bool)

  /** The decimal text of a number. */
  function Decimal(n: nat): string {
    var digit := ["0123456789"[n % 10]];
    if n < 10 then digit else Decimal(n / 10) + digit
  }

  lemma {:induction false} DecimalInjective(a: nat, b: nat)
    ensures Decimal(a) == Decimal(b) <==> a == b
  {
    if Decimal(a) == Decimal(b) {
      var x, y := Decimal(a), Decimal(b);
      assert x[|x| - 1] == "0123456789"[a % 10] && y[|y| - 1] == "0123456789"[b % 10];
      assert a % 10 == b % 10;
      assert x[..|x| - 1] == if a < 10 then "" else Decimal(a / 10);
      assert y[..|y| - 1] == if b < 10 then "" else Decimal(b / 10);
      if a >= 10 && b >= 10 {
        DecimalInjective(a / 10, b / 10);
      }
    }
  }

  function DigitOf(c: char): nat {
    if '0' <= c <= '9' then c as int - '0' as int else 0
  }

  /** The numbers a text separates by dots. */
  function Numbers(s: string): (ns: seq<nat>)
    ensures |ns| > 0
  {
    if s == "" then [0] else
    var front, last := Numbers(s[..|s| - 1]), s[|s| - 1];
    if last == '.' then front + [0] else AppendDigit(front, DigitOf(last))
  }

  function AppendDigit(ns: seq<nat>, digit: nat): (r: seq<nat>)
    requires |ns| > 0
    ensures |r| > 0
  {
    ns[..|ns| - 1] + [10 * ns[|ns| - 1] + digit]
  }

  lemma AppendDigitToLast(front: seq<nat>, n: nat, digit: nat)
    ensures AppendDigit(front + [n], digit) == front + [10 * n + digit]
  {
    assert (front + [n])[..|front|] == front;
  }

  /** Decimal text is read digit by digit, whatever came before its number. */
  lemma {:induction false} NumbersOf(prefix: string, front: seq<nat>, n: nat)
    requires Numbers(prefix) == front + [0]
    ensures Numbers(prefix + Decimal(n)) == front + [n]
    decreases n
  {
    hide Decimal, Numbers, DigitOf;
    var digit := DecimalSnoc(n);
    if n < 10 {
      assert prefix + Decimal(n) == prefix + [digit];
      NumbersSnoc(prefix, front, 0, digit);
    } else {
      NumbersOf(prefix, front, n / 10);
      NumbersSnoc(prefix + Decimal(n / 10), front, n / 10, digit);
      assert prefix + Decimal(n) == prefix + Decimal(n / 10) + [digit];
    }
  }

  lemma DecimalSnoc(n: nat) returns (digit: char)
    ensures Decimal(n) == (if n < 10 then [] else Decimal(n / 10)) + [digit]
    ensures DigitOf(digit) == n % 10 && digit != '.'
  {
    digit := "0123456789"[n % 10];
    DigitReads(n % 10);
  }

  lemma DigitReads(d: nat)
    requires d < 10
    ensures DigitOf("0123456789"[d]) == d && "0123456789"[d] != '.'
  {
  }

  lemma NumbersSnoc(s: string, front: seq<nat>, n: nat, c: char)
    requires c != '.' && Numbers(s) == front + [n]
    ensures Numbers(s + [c]) == front + [10 * n + DigitOf(c)]
  {
    assert (s + [c])[..|s|] == s;
    assert Numbers(s + [c]) == AppendDigit(Numbers(s), DigitOf(c));
    hide Numbers, AppendDigit, DigitOf;
    AppendDigitToLast(front, n, DigitOf(c));
  }

  lemma NumbersOfDecimal(n: nat)
    ensures Numbers(Decimal(n)) == [n]
  {
    NumbersOf("", [], n);
    assert "" + Decimal(n) == Decimal(n);
  }

  lemma NumbersAfterDot(s: string, n: nat)
    ensures Numbers(s + "." + Decimal(n)) == Numbers(s) + [n]
  {
    assert (s + ".")[..|s|] == s && Numbers(s + ".") == Numbers(s) + [0];
    hide Numbers, Decimal;
    NumbersOf(s + ".", Numbers(s), n);
  }

  // -------- provider IDs --------

  function FormatProviderID(namespace: string, name: string): string {
    "kubevirt://" + namespace + "/" + name
  }

  /** Provider IDs name their VM unambiguously, because a namespace holds no slash. */
  lemma ProviderIDInjective(ns1: string, n1: string, ns2: string, n2: string)
    requires '/' !in ns1 && '/' !in ns2
    ensures FormatProviderID(ns1, n1) == FormatProviderID(ns2, n2) <==> ns1 == ns2 && n1 == n2
  {
    var prefix := "kubevirt://";
    var t1, t2 := ns1 + "/" + n1, ns2 + "/" + n2;
    assert FormatProviderID(ns1, n1) == prefix + t1 && FormatProviderID(ns2, n2) == prefix + t2;
    assert (prefix + t1)[|prefix|..] == t1 && (prefix + t2)[|prefix|..] == t2;
    assert t1[|ns1|] == '/' && t2[|ns2|] == '/';
    assert |ns1| < |ns2| ==> t2[|ns1|] == ns2[|ns1|];
    assert |ns2| < |ns1| ==> t1[|ns2|] == ns1[|ns2|];
    if t1 == t2 {
      assert ns1 == t1[..|ns1|] && ns2 == t2[..|ns2|];
      assert n1 == t1[|ns1| + 1..] && n2 == t2[|ns2| + 1..];
    }
  }

  /** The VM a provider ID names: after the scheme, the namespace up to the first slash, then the name. */
  function ParseProviderID(id: string): Option<Key> {
    if !("kubevirt://" <= id) then None else UpToSlash(id[11..])
  }

  function UpToSlash(s: string): Option<Key> {
    if s == "" then None
    else if s[0] == '/' then Some(Key("", s[1..]))
    else
      match UpToSlash(s[1..])
      case None => None
      case Some(k) => Some(Key([s[0]] + k.namespace, k.name))
  }

  lemma {:induction false} UpToFirstSlash(namespace: string, name: string)
    ensures UpToSlash(namespace + "/" + name) == Some(Key(namespace, name)) <==> '/' !in namespace
  {
    var s := namespace + "/" + name;
    if namespace != "" {
      assert s[1..] == namespace[1..] + "/" + name;
      assert namespace == [namespace[0]] + namespace[1..];
      UpToFirstSlash(namespace[1..], name);
    } else {
      assert s[1..] == name;
    }
  }

  /** A provider ID reads back as the VM it was made from, if and only if the namespace has no slash. */
  lemma ProviderIDReadsBack(namespace: string, name: string)
    ensures ParseProviderID(FormatProviderID(namespace, name)) == Some(Key(namespace, name)) <==> '/' !in namespace
  {
    var id := FormatProviderID(namespace, name);
    assert |"kubevirt://"| == 11;
    assert id == "kubevirt://" + (namespace + "/" + name);
    assert id[11..] == namespace + "/" + name;
    UpToFirstSlash(namespace, name);
  }
}
