/**
 Machines as the documents the tenant API server stores, and what the two merge patches of
 `patchMachine` do to one, field by field.
 */
module MachineDocument {
  import opened Wrappers
  import opened JsonValue
  import opened MergePatch
  import opened Resources

  // -------- documents --------

  function TextsObject(texts: map<string, string>): Json {
    Obj(map k | k in texts :: Str(texts[k]))
  }

  function TextsJson(texts: map<string, string>): Option<Json> {
    if texts == map[] then None else Some(TextsObject(texts))
  }

  function OptionMember(key: string, value: Option<Json>): map<string, Json> {
    if value.None? then map[] else map[key := value.value]
  }

  function TextJson(t: Option<string>): Option<Json> {
    if t.None? then None else Some(Str(t.value))
  }

  function AddressJson(a: Address): Json {
    Obj(map["type" := Str(if a.kind == InternalDNS then "InternalDNS" else "InternalIP"), "address" := Str(a.text)])
  }

  function AddressesJson(addresses: seq<Address>): Option<Json> {
    if addresses == [] then None else Some(Arr(seq(|addresses|, i requires 0 <= i < |addresses| => AddressJson(addresses[i]))))
  }

  function Metadata(m: Machine): Json {
    Obj(map["name" := Str(m.key.name), "namespace" := Str(m.key.namespace), "clusterName" := Str(m.clusterName)]
        + OptionMember("labels", TextsJson(m.labels)) + OptionMember("annotations", TextsJson(m.annotations)))
  }

  function ProviderSpecJson(m: Machine): Json {
    Obj(OptionMember("value", m.providerSpec))
  }

  function Spec(m: Machine): Json {
    Obj(map["providerSpec" := ProviderSpecJson(m)] + OptionMember("providerID", TextJson(m.providerID)))
  }

  function Status(m: Machine): Json {
    Obj(OptionMember("phase", TextJson(m.phase)) + OptionMember("addresses", AddressesJson(m.addresses))
        + OptionMember("providerStatus", m.providerStatus))
  }

  /** Empty maps and lists, and unset pointers, are omitted. */
  function Encode(m: Machine): Json {
    Obj(map["metadata" := Metadata(m), "spec" := Spec(m), "status" := Status(m)])
  }

  // -------- reading documents back --------

  function Texts(j: Option<Json>): map<string, string> {
    if j.Some? && j.value.Obj? then map k | k in j.value.fields && j.value.fields[k].Str? :: j.value.fields[k].text
    else map[]
  }

  function Text(j: Option<Json>): Option<string> {
    if j.Some? && j.value.Str? then Some(j.value.text) else None
  }

  function ReadAddress(j: Json): Address {
    Address(if Member(j, "type") == Some(Str("InternalDNS")) then InternalDNS else InternalIP,
            Text(Member(j, "address")).GetOr(""))
  }

  function Addresses(j: Option<Json>): seq<Address> {
    if j.Some? && j.value.Arr? then
      seq(|j.value.items|, i requires 0 <= i < |j.value.items| => ReadAddress(j.value.items[i]))
    else []
  }

  function Decode(j: Json): Machine {
    var metadata, spec, status :=
      Member(j, "metadata").GetOr(EMPTY), Member(j, "spec").GetOr(EMPTY), Member(j, "status").GetOr(EMPTY);
    Machine(
      Key(Text(Member(metadata, "namespace")).GetOr(""), Text(Member(metadata, "name")).GetOr("")),
      Text(Member(metadata, "clusterName")).GetOr(""),
      Texts(Member(metadata, "labels")), Texts(Member(metadata, "annotations")),
      Member(Member(spec, "providerSpec").GetOr(EMPTY), "value"), Text(Member(spec, "providerID")),
      Text(Member(status, "phase")), Addresses(Member(status, "addresses")), Member(status, "providerStatus"))
  }

  // -------- merging field by field --------

  predicate Changed(o: map<string, string>, s: map<string, string>, k: string) {
    k in s && !(k in o && o[k] == s[k])
  }

  /** Emptying a map removes the whole member, so entries others added go with it. */
  function MergeTexts(o: map<string, string>, s: map<string, string>, c: map<string, string>): map<string, string> {
    if o == s then c
    else if s == map[] then map[]
    else map k | k in c.Keys + s.Keys && (Changed(o, s, k) || (k in c && !(k in o && k !in s))) ::
           if Changed(o, s, k) then s[k] else c[k]
  }

  function MergeOne<T(==)>(o: T, s: T, c: T): T {
    if o == s then c else s
  }

  /**
   The current Machine c after a patch from o to s, for Machines with the same key. `Three` is the
   member-wise merge of nested documents.
   */
  function Merge(o: Machine, s: Machine, c: Machine): Machine {
    Machine(c.key, MergeOne(o.clusterName, s.clusterName, c.clusterName),
            MergeTexts(o.labels, s.labels, c.labels), MergeTexts(o.annotations, s.annotations, c.annotations),
            Three(o.providerSpec, s.providerSpec, c.providerSpec), MergeOne(o.providerID, s.providerID, c.providerID),
            MergeOne(o.phase, s.phase, c.phase), MergeOne(o.addresses, s.addresses, c.addresses),
            Three(o.providerStatus, s.providerStatus, c.providerStatus))
  }

  // -------- the field-wise merge is the document merge --------

  lemma ApplyMember(a: Json, b: Json, c: Json, k: string)
    requires a.Obj? && b.Obj? && c.Obj?
    ensures Apply(Diff(a, b), c).Obj?
    ensures Member(Apply(Diff(a, b), c), k) == Three(Member(a, k), Member(b, k), Member(c, k))
    ensures Three(Some(a), Some(b), Some(c)) == Some(Apply(Diff(a, b), c))
  {
    MergeMember(a, b, c, k);
    if a == b {
      DiffEmpty(a, b);
      SameMembers(Apply(Diff(a, b), c), c);
    }
  }

  lemma TextsRoundTrip(t: map<string, string>)
    ensures Texts(TextsJson(t)) == t
  {
    if t != map[] {
      assert Texts(Some(TextsObject(t))) == t;
    }
  }

  lemma TextsMergeAt(o: map<string, string>, s: map<string, string>, c: map<string, string>, k: string)
    requires o != s && s != map[]
    ensures TextsJson(o) != TextsJson(s)
    ensures var r := Three(TextsJson(o), TextsJson(s), TextsJson(c));
            r.Some? && r.value.Obj? &&
            Member(r.value, k) ==
            if Changed(o, s, k) then Some(Str(s[k])) else if k in c && !(k in o && k !in s) then Some(Str(c[k])) else None
  {
    TextsRoundTrip(o);
    TextsRoundTrip(s);
    var cj := TextsJson(c).GetOr(Null);
    var r := Three(TextsJson(o), TextsJson(s), TextsJson(c));
    assert Member(cj, k) == if k in c then Some(Str(c[k])) else None;
    assert k in s ==> Apply(TextsObject(s).fields[k], Member(cj, k).GetOr(Null)) == Str(s[k]);
    if o != map[] {
      assert r == Some(Apply(Diff(TextsObject(o), TextsObject(s)), cj));
      MergeMember(TextsObject(o), TextsObject(s), cj, k);
      assert Member(TextsObject(o), k) == if k in o then Some(Str(o[k])) else None;
      assert Member(TextsObject(s), k) == if k in s then Some(Str(s[k])) else None;
    } else {
      assert r == Some(Apply(TextsObject(s), cj));
    }
  }

  lemma TextsMerge(o: map<string, string>, s: map<string, string>, c: map<string, string>)
    ensures Texts(Three(TextsJson(o), TextsJson(s), TextsJson(c))) == MergeTexts(o, s, c)
  {
    if o == s {
      TextsRoundTrip(c);
    } else if s == map[] {
      TextsRoundTrip(o);
    } else {
      forall k { TextsMergeAt(o, s, c, k); }
      SameTexts(Three(TextsJson(o), TextsJson(s), TextsJson(c)), MergeTexts(o, s, c));
    }
  }

  lemma SameTexts(r: Option<Json>, t: map<string, string>)
    requires r.Some? && r.value.Obj?
    requires forall k :: Member(r.value, k) == if k in t then Some(Str(t[k])) else None
    ensures Texts(r) == t
  {
    forall k ensures k in r.value.fields <==> k in t
      ensures k in t ==> r.value.fields[k] == Str(t[k])
    {
      assert Member(r.value, k) == if k in t then Some(Str(t[k])) else None;
    }
  }

  lemma OneMerge(o: Option<string>, s: Option<string>, c: Option<string>)
    ensures Text(Three(TextJson(o), TextJson(s), TextJson(c))) == MergeOne(o, s, c)
  {
  }

  lemma AddressRoundTrip(a: Address)
    ensures ReadAddress(AddressJson(a)) == a
  {
    assert "InternalDNS"[8] != "InternalIP"[8];
    assert |"type"| != |"address"|;
    assert Member(AddressJson(a), "type") == Some(Str(if a.kind == InternalDNS then "InternalDNS" else "InternalIP"));
    assert Member(AddressJson(a), "address") == Some(Str(a.text));
  }

  lemma AddressesRoundTrip(addresses: seq<Address>)
    ensures Addresses(AddressesJson(addresses)) == addresses
  {
    forall i | 0 <= i < |addresses| ensures ReadAddress(AddressJson(addresses[i])) == addresses[i] {
      AddressRoundTrip(addresses[i]);
    }
  }

  lemma AddressesMerge(o: seq<Address>, s: seq<Address>, c: seq<Address>)
    ensures Addresses(Three(AddressesJson(o), AddressesJson(s), AddressesJson(c))) == MergeOne(o, s, c)
  {
    AddressesRoundTrip(o);
    AddressesRoundTrip(s);
    AddressesRoundTrip(c);
    if o != s && s != [] {
      var j := AddressesJson(s).value;
      assert Apply(j, AddressesJson(c).GetOr(Null)) == j;
    }
  }

  lemma MetadataMembers(m: Machine)
    ensures Member(Metadata(m), "name") == Some(Str(m.key.name))
    ensures Member(Metadata(m), "namespace") == Some(Str(m.key.namespace))
    ensures Member(Metadata(m), "clusterName") == Some(Str(m.clusterName))
    ensures Member(Metadata(m), "labels") == TextsJson(m.labels)
    ensures Member(Metadata(m), "annotations") == TextsJson(m.annotations)
  {
    assert |"name"| == 4 && |"labels"| == 6 && |"namespace"| == 9 && |"clusterName"| == 11 && |"annotations"| == 11;
    assert "clusterName"[0] != "annotations"[0];
  }

  lemma SpecMembers(m: Machine)
    ensures Member(Spec(m), "providerSpec") == Some(ProviderSpecJson(m))
    ensures Member(Spec(m), "providerID") == TextJson(m.providerID)
    ensures Member(ProviderSpecJson(m), "value") == m.providerSpec
  {
    assert |"providerSpec"| == 12 && |"providerID"| == 10;
  }

  lemma StatusMembers(m: Machine)
    ensures Member(Status(m), "phase") == TextJson(m.phase)
    ensures Member(Status(m), "addresses") == AddressesJson(m.addresses)
    ensures Member(Status(m), "providerStatus") == m.providerStatus
  {
    assert |"phase"| == 5 && |"addresses"| == 9 && |"providerStatus"| == 14;
  }

  lemma DocumentMembers(m: Machine)
    ensures Member(Encode(m), "metadata") == Some(Metadata(m))
    ensures Member(Encode(m), "spec") == Some(Spec(m))
    ensures Member(Encode(m), "status") == Some(Status(m))
  {
    assert |"metadata"| == 8 && |"spec"| == 4 && |"status"| == 6;
  }

  lemma DecodeEncode(m: Machine)
    ensures Decode(Encode(m)) == m
  {
    DocumentMembers(m);
    MetadataMembers(m);
    SpecMembers(m);
    StatusMembers(m);
    TextsRoundTrip(m.labels);
    TextsRoundTrip(m.annotations);
    AddressesRoundTrip(m.addresses);
  }

  lemma DocumentMerge(o: Machine, s: Machine, c: Machine)
    ensures var r := Apply(Diff(Encode(o), Encode(s)), Encode(c));
            Member(r, "metadata") == Some(Apply(Diff(Metadata(o), Metadata(s)), Metadata(c))) &&
            Member(r, "spec") == Some(Apply(Diff(Spec(o), Spec(s)), Spec(c))) &&
            Member(r, "status") == Some(Apply(Diff(Status(o), Status(s)), Status(c)))
  {
    DocumentMembers(o);
    DocumentMembers(s);
    DocumentMembers(c);
    ApplyMember(Encode(o), Encode(s), Encode(c), "metadata");
    ApplyMember(Encode(o), Encode(s), Encode(c), "spec");
    ApplyMember(Encode(o), Encode(s), Encode(c), "status");
    ApplyMember(Metadata(o), Metadata(s), Metadata(c), "");
    ApplyMember(Spec(o), Spec(s), Spec(c), "");
    ApplyMember(Status(o), Status(s), Status(c), "");
  }

  /**
   Patching the stored document with the JSON merge patch and reading it back is the field-wise
   merge, whatever was stored meanwhile.
   */
  lemma PatchMergesFields(o: Machine, s: Machine, c: Machine)
    requires o.key == s.key == c.key
    ensures Decode(Apply(Diff(Encode(o), Encode(s)), Encode(c))) == Merge(o, s, c)
  {
    DocumentMerge(o, s, c);
    MetadataMerge(o, s, c);
    SpecMerge(o, s, c);
    StatusMerge(o, s, c);
  }

  lemma MetadataMerge(o: Machine, s: Machine, c: Machine)
    requires o.key == s.key == c.key
    ensures var j := Apply(Diff(Metadata(o), Metadata(s)), Metadata(c));
            Text(Member(j, "name")) == Some(c.key.name) && Text(Member(j, "namespace")) == Some(c.key.namespace) &&
            Text(Member(j, "clusterName")) == Some(MergeOne(o.clusterName, s.clusterName, c.clusterName)) &&
            Texts(Member(j, "labels")) == MergeTexts(o.labels, s.labels, c.labels) &&
            Texts(Member(j, "annotations")) == MergeTexts(o.annotations, s.annotations, c.annotations)
  {
    MetadataMembers(o);
    MetadataMembers(s);
    MetadataMembers(c);
    ApplyMember(Metadata(o), Metadata(s), Metadata(c), "name");
    ApplyMember(Metadata(o), Metadata(s), Metadata(c), "namespace");
    ApplyMember(Metadata(o), Metadata(s), Metadata(c), "clusterName");
    ApplyMember(Metadata(o), Metadata(s), Metadata(c), "labels");
    ApplyMember(Metadata(o), Metadata(s), Metadata(c), "annotations");
    OneMerge(Some(o.clusterName), Some(s.clusterName), Some(c.clusterName));
    TextsMerge(o.labels, s.labels, c.labels);
    TextsMerge(o.annotations, s.annotations, c.annotations);
  }

  lemma SpecMerge(o: Machine, s: Machine, c: Machine)
    ensures var j := Apply(Diff(Spec(o), Spec(s)), Spec(c));
            Member(Member(j, "providerSpec").GetOr(EMPTY), "value") == Three(o.providerSpec, s.providerSpec, c.providerSpec) &&
            Text(Member(j, "providerID")) == MergeOne(o.providerID, s.providerID, c.providerID)
  {
    SpecMembers(o);
    SpecMembers(s);
    SpecMembers(c);
    ApplyMember(Spec(o), Spec(s), Spec(c), "providerSpec");
    ApplyMember(Spec(o), Spec(s), Spec(c), "providerID");
    ApplyMember(ProviderSpecJson(o), ProviderSpecJson(s), ProviderSpecJson(c), "value");
    OneMerge(o.providerID, s.providerID, c.providerID);
  }

  lemma StatusMerge(o: Machine, s: Machine, c: Machine)
    ensures var j := Apply(Diff(Status(o), Status(s)), Status(c));
            Text(Member(j, "phase")) == MergeOne(o.phase, s.phase, c.phase) &&
            Addresses(Member(j, "addresses")) == MergeOne(o.addresses, s.addresses, c.addresses) &&
            Member(j, "providerStatus") == Three(o.providerStatus, s.providerStatus, c.providerStatus)
  {
    StatusMembers(o);
    StatusMembers(s);
    StatusMembers(c);
    ApplyMember(Status(o), Status(s), Status(c), "phase");
    ApplyMember(Status(o), Status(s), Status(c), "addresses");
    ApplyMember(Status(o), Status(s), Status(c), "providerStatus");
    OneMerge(o.phase, s.phase, c.phase);
    AddressesMerge(o.addresses, s.addresses, c.addresses);
  }
}
