/** What the two patches of `patchMachine` leave in the stored Machine. */
module TwoPhasePatch {
  import opened Wrappers
  import opened JsonValue
  import opened MergePatch
  import opened Resources
  import opened MachineScope
  import opened MachineDocument
  import opened Cluster
  import opened Protocol

  /** The Machine's metadata and spec record the VM. */
  predicate CarriesMeta(c: Machine, vm: VM) {
    && c.providerID == Some(FormatProviderID(vm.key.namespace, vm.key.name))
    && VM_ID_ANNOTATION in c.annotations && c.annotations[VM_ID_ANNOTATION] == vm.uid
    && STATE_ANNOTATION in c.annotations && c.annotations[STATE_ANNOTATION] == StateText(vm.status)
    && (vm.spec.template.Some? ==> TYPE_LABEL in c.labels && c.labels[TYPE_LABEL] == vm.spec.template.value.machineType)
  }

  /** Its status records the VM and, if there was one, the instance. */
  predicate CarriesStatus(c: Machine, vm: VM, vmi: Option<VMI>, lookup: Option<seq<IP>>) {
    && c.providerStatus == Some(EncodeStatus(vm.status))
    && (vmi.Some? ==> c.addresses == AddressList(vmi.value.name, lookup))
  }

  predicate SameEntry(a: map<string, string>, b: map<string, string>, k: string) {
    (k in a <==> k in b) && (k in a && k in b ==> a[k] == b[k])
  }

  /** An entry that sync has set gets to the stored map: sync changed it, or it is there already. */
  predicate EntryGetsThere(o: map<string, string>, s: map<string, string>, c: map<string, string>, k: string)
    requires k in s
  {
    Changed(o, s, k) || (k in c && c[k] == s[k])
  }

  /** Each field of the metadata and spec that sync owns was changed by it or is stored already. */
  predicate MetaGetsThere(o: Machine, vm: VM, c: Machine) {
    var s := SyncedWith(o, vm, None, None);
    && (o.providerID != s.providerID || c.providerID == s.providerID)
    && EntryGetsThere(o.annotations, s.annotations, c.annotations, VM_ID_ANNOTATION)
    && EntryGetsThere(o.annotations, s.annotations, c.annotations, STATE_ANNOTATION)
    && (vm.spec.template.Some? ==> EntryGetsThere(o.labels, s.labels, c.labels, TYPE_LABEL))
  }

  function MemberOf(j: Option<Json>, k: string): Option<Json> { Member(j.GetOr(Null), k) }

  /** The stored provider status still agrees with the synced one wherever that is what the operation read. */
  ghost predicate ProviderStatusGetsThere(o: Option<Json>, st: Json, c: Option<Json>) {
    if o == Some(st) then c == Some(st)
    else forall k :: MemberOf(o, k) == Member(st, k) ==> MemberOf(c, k) == Member(st, k)
  }

  /** Likewise for the status. */
  ghost predicate StatusGetsThere(o: Machine, vm: VM, vmi: Option<VMI>, lookup: Option<seq<IP>>, c: Machine) {
    && ProviderStatusGetsThere(o.providerStatus, EncodeStatus(vm.status), c.providerStatus)
    && (vmi.Some? ==> var list := AddressList(vmi.value.name, lookup); o.addresses != list || c.addresses == list)
  }

  lemma EntryIff(o: map<string, string>, s: map<string, string>, c: map<string, string>, k: string)
    requires k in s
    ensures var r := MergeTexts(o, s, c); (k in r && r[k] == s[k]) <==> EntryGetsThere(o, s, c, k)
  {
  }

  /** An entry that sync leaves alone keeps whatever value it has by now. */
  lemma EntrySurvives(o: map<string, string>, s: map<string, string>, c: map<string, string>, k: string)
    requires SameEntry(o, s, k) && (s == map[] ==> o == map[])
    ensures SameEntry(MergeTexts(o, s, c), c, k)
  {
  }

  /** After the first patch the stored Machine records the VM exactly if each field got there. */
  lemma MetaPatchCarries(o: Machine, vm: VM, vmi: Option<VMI>, lookup: Option<seq<IP>>, c: Machine)
    ensures CarriesMeta(MergeMain(o, SyncedWith(o, vm, vmi, lookup), c), vm) <==> MetaGetsThere(o, vm, c)
  {
    var s := SyncedWith(o, vm, vmi, lookup);
    assert VM_ID_ANNOTATION in s.annotations && s.annotations[VM_ID_ANNOTATION] == vm.uid;
    EntryIff(o.annotations, s.annotations, c.annotations, VM_ID_ANNOTATION);
    EntryIff(o.annotations, s.annotations, c.annotations, STATE_ANNOTATION);
    if vm.spec.template.Some? {
      EntryIff(o.labels, s.labels, c.labels, TYPE_LABEL);
    }
    hide MergeTexts, Three;
  }

  /**
   Whatever others have written meanwhile, every metadata and spec field that sync changed is
   stored by the first patch as sync set it.
   */
  lemma MetaChangesArrive(o: Machine, vm: VM, vmi: Option<VMI>, lookup: Option<seq<IP>>, c: Machine, k: string)
    ensures var s := SyncedWith(o, vm, vmi, lookup); var r := MergeMain(o, s, c);
            && (s.providerID != o.providerID ==> r.providerID == s.providerID)
            && (Changed(o.annotations, s.annotations, k) ==> k in r.annotations && r.annotations[k] == s.annotations[k])
            && (Changed(o.labels, s.labels, k) ==> k in r.labels && r.labels[k] == s.labels[k])
  {
    var s := SyncedWith(o, vm, vmi, lookup);
    ChangeArrives(o.annotations, s.annotations, c.annotations, k);
    ChangeArrives(o.labels, s.labels, c.labels, k);
    hide MergeTexts, EncodeStatus;
  }

  lemma ChangeArrives(o: map<string, string>, s: map<string, string>, c: map<string, string>, k: string)
    ensures Changed(o, s, k) ==> k in MergeTexts(o, s, c) && MergeTexts(o, s, c)[k] == s[k]
  {
  }

  /**
   So is every status field that sync changed by the second, although the first response has
   overwritten the status in memory: the addresses, every leaf of the provider status, and the
   removal of every member the new provider status omits.
   */
  lemma StatusChangesArrive(o: Machine, vm: VM, vmi: Option<VMI>, lookup: Option<seq<IP>>, first: Machine, c: Machine, path: seq<string>)
    ensures var s := SyncedWith(o, vm, vmi, lookup);
            var r := MergeStatus(o, RestoreStatus(DecodedOver(s, first), s), c);
            && (s.addresses != o.addresses ==> r.addresses == s.addresses)
            && LeafArrives(o.providerStatus, EncodeStatus(vm.status), r.providerStatus, path)
  {
    EncodeStatusNullFree(vm.status);
    ThreeArrives(o.providerStatus, EncodeStatus(vm.status), c.providerStatus, path);
    hide EncodeStatus, MergeTexts, LeafArrives, DecodedOver, Three;
  }

  /** What the path leads to in the new document is a changed leaf and is there, or is a removal and is gone. */
  predicate LeafArrives(o: Option<Json>, st: Json, r: Option<Json>, path: seq<string>) {
    var was, leaf := if o.Some? then Get(o.value, path) else None, Get(st, path);
    && (leaf.Some? && !leaf.value.Obj? && was != leaf ==> r.Some? && Get(r.value, path) == leaf)
    && (leaf.None? && was.Some? ==> r.Some? && Get(r.value, path).None?)
  }

  lemma ThreeArrives(o: Option<Json>, st: Json, c: Option<Json>, path: seq<string>)
    requires NullFree(st) && st.Obj?
    ensures LeafArrives(o, st, Three(o, Some(st), c), path)
  {
    var leaf := Get(st, path);
    if leaf.Some? {
      NullFreeLeaf(st, path);
    }
    if o.Some? && o.value.Obj? {
      if o.value != st {
        PatchIsFaithful(o.value, st, c.GetOr(Null), path);
      }
    } else {
      if leaf.Some? && !leaf.value.Obj? {
        ApplyInstallsLeaf(st, c.GetOr(Null), path);
      }
    }
    hide Apply, Diff, NullFree;
  }

  lemma {:induction false} NullFreeLeaf(j: Json, path: seq<string>)
    requires NullFree(j) && Get(j, path).Some?
    ensures !Get(j, path).value.Null?
  {
    if path != [] {
      NullFreeLeaf(j.fields[path[0]], path[1..]);
    }
  }

  /** Merging a null-free object into the very value it was computed from yields the object. */
  lemma ThreeOnSame(o: Option<Json>, s: Json)
    requires NullFree(s) && s.Obj?
    ensures Three(o, Some(s), o) == Some(s)
  {
    if o.Some? && o.value.Obj? {
      RoundTrip(o.value, s);
      NullFreeIsNotFresh(o.value, s);
    } else {
      ApplyFresh(s, o.GetOr(Null));
    }
  }

  /** A provider status has no objects among its members, so it merges member by member. */
  lemma ProviderStatusIff(o: Option<Json>, st: VMStatus, c: Option<Json>)
    ensures Three(o, Some(EncodeStatus(st)), c) == Some(EncodeStatus(st)) <==> ProviderStatusGetsThere(o, EncodeStatus(st), c)
  {
    var s := EncodeStatus(st);
    if o != Some(s) {
      var r := Three(o, Some(s), c).value;
      forall k ensures Member(r, k) == Member(s, k) <==> (MemberOf(o, k) == Member(s, k) ==> MemberOf(c, k) == Member(s, k)) {
        StatusLeaf(st, k);
        MemberIff(o, s, c, k);
      }
      hide EncodeStatus, Three;
      if ProviderStatusGetsThere(o, s, c) {
        SameMembers(r, s);
      }
    }
  }

  lemma StatusLeaf(st: VMStatus, k: string)
    ensures EncodeStatus(st).Obj?
    ensures var v := Member(EncodeStatus(st), k); v.Some? ==> !v.value.Obj? && !v.value.Null?
  {
  }

  lemma MemberIff(o: Option<Json>, s: Json, c: Option<Json>, k: string)
    requires s.Obj? && o != Some(s) && (Member(s, k).Some? ==> !Member(s, k).value.Obj? && !Member(s, k).value.Null?)
    ensures Three(o, Some(s), c).Some? && Three(o, Some(s), c).value.Obj?
    ensures Member(Three(o, Some(s), c).value, k) == Member(s, k) <==> (MemberOf(o, k) == Member(s, k) ==> MemberOf(c, k) == Member(s, k))
  {
    if o.Some? && o.value.Obj? {
      MergeMember(o.value, s, c.GetOr(Null), k);
      hide Apply, Diff;
    } else {
      assert MemberOf(o, k) == None;
      assert Member(Apply(s, c.GetOr(Null)), k) == if k in s.fields then Some(s.fields[k]) else MemberOf(c, k);
    }
  }

  /** After the second patch it records the VM's status and addresses exactly if those got there. */
  lemma StatusPatchCarries(o: Machine, m: Machine, vm: VM, vmi: Option<VMI>, lookup: Option<seq<IP>>, c: Machine)
    requires SameStatus(m, SyncedWith(o, vm, vmi, lookup))
    ensures CarriesStatus(MergeStatus(o, m, c), vm, vmi, lookup) <==> StatusGetsThere(o, vm, vmi, lookup, c)
  {
    ProviderStatusIff(o.providerStatus, vm.status, c.providerStatus);
    hide EncodeStatus, MergeTexts, Three;
  }

  /**
   The condition can fail. Of a Machine that is in sync, someone removes the state annotation while
   an operation is at work: neither patch brings it back, and the operation still ends in success.
   */
  lemma RemovedAnnotationStaysAway(cfg: Config, w: World, o: Machine, vm: VM, vmi: VMI, wasUpdated: bool, choice: Choice)
    requires SyncedWith(o, vm, Some(vmi), choice.lookup) == o && vm.status.ready
    requires o.key in w.tenant.machines && w.tenant.machines[o.key] == o.(annotations := o.annotations - {STATE_ANNOTATION})
    ensures var report := Report(Some(vm), Some(vmi), choice.lookup, wasUpdated, false);
            var (w1, p1) := Step(cfg, w, PatchMeta(o, o, report), Delivered, choice);
            var (w2, p2) := Step(cfg, w1, p1, Delivered, choice);
            p2 == Done(Success) && o.key in w2.tenant.machines && !CarriesMeta(w2.tenant.machines[o.key], vm)
  {
    var c := w.tenant.machines[o.key];
    assert MergeMain(o, o, c) == c;
    hide SyncedWith, EncodeStatus;
  }

  /**
   Whatever others have written meanwhile survives the first patch, as long as sync does not own it:
   the whole status, the provider spec, and every other label and annotation.
   */
  lemma OthersSurviveMeta(o: Machine, vm: VM, vmi: Option<VMI>, lookup: Option<seq<IP>>, c: Machine, k: string)
    ensures var r := MergeMain(o, SyncedWith(o, vm, vmi, lookup), c);
            && SameStatus(r, c) && r.providerSpec == c.providerSpec && r.clusterName == c.clusterName && r.key == c.key
            && (k != VM_ID_ANNOTATION && k != STATE_ANNOTATION ==> SameEntry(r.annotations, c.annotations, k))
            && (k != TYPE_LABEL ==> SameEntry(r.labels, c.labels, k))
  {
    var s := SyncedWith(o, vm, vmi, lookup);
    if k != VM_ID_ANNOTATION && k != STATE_ANNOTATION {
      EntrySurvives(o.annotations, s.annotations, c.annotations, k);
    }
    if k != TYPE_LABEL {
      EntrySurvives(o.labels, s.labels, c.labels, k);
    }
    hide EncodeStatus, MergeTexts;
  }

  /**
   The second patch keeps everything outside the status, the phase, the addresses if no instance was
   read, and every path of the provider status that sync left alone.
   */
  lemma OthersSurviveStatus(o: Machine, vm: VM, vmi: Option<VMI>, lookup: Option<seq<IP>>, c: Machine, path: seq<string>)
    requires o.providerStatus.None? || o.providerStatus.value.Obj?
    ensures var r := MergeStatus(o, SyncedWith(o, vm, vmi, lookup), c);
            && r.labels == c.labels && r.annotations == c.annotations && r.providerID == c.providerID
            && r.providerSpec == c.providerSpec && r.phase == c.phase && (vmi.None? ==> r.addresses == c.addresses)
            && (path != [] && Untouched(o.providerStatus.GetOr(EMPTY), EncodeStatus(vm.status), path) ==>
                  Get(r.providerStatus.GetOr(EMPTY), path) == Get(c.providerStatus.GetOr(EMPTY), path))
  {
    if path != [] && Untouched(o.providerStatus.GetOr(EMPTY), EncodeStatus(vm.status), path) {
      UntouchedSurvives(o.providerStatus, EncodeStatus(vm.status), c.providerStatus, path);
    }
    hide EncodeStatus, MergeTexts, Untouched, Get, Three;
  }

  lemma UntouchedSurvives(o: Option<Json>, st: Json, c: Option<Json>, path: seq<string>)
    requires st.Obj? && (o.None? || o.value.Obj?) && path != [] && Untouched(o.GetOr(EMPTY), st, path)
    ensures Get(Three(o, Some(st), c).GetOr(EMPTY), path) == Get(c.GetOr(EMPTY), path)
  {
    var base := c.GetOr(Null);
    if o.Some? {
      PatchIsFaithful(o.value, st, base, path);
    } else {
      assert Unmentioned(st, path);
      ApplyKeepsUnmentioned(st, base, path);
    }
    assert Get(Null, path) == Get(EMPTY, path) == None;
    hide Get, Untouched, Apply, Diff;
  }

  /**
   Why the status is saved and restored between the patches: the first response carries the stored
   status. If that is what was read, a status patch computed from it would change nothing, and the
   synced status would be lost.
   */
  lemma WithoutRestoreStatusIsLost(o: Machine, vm: VM, vmi: Option<VMI>, lookup: Option<seq<IP>>, c: Machine, d: Machine)
    requires c.providerStatus == o.providerStatus && c.addresses == o.addresses && c.phase == o.phase && o.phase.Some? && o.addresses != [] && o.providerStatus.Some?
    ensures var s := SyncedWith(o, vm, vmi, lookup);
            MergeStatus(o, DecodedOver(s, MergeMain(o, s, c)), d) == d
  {
    hide MergeTexts, EncodeStatus;
  }

  /** With nothing written in between, the two patches store exactly the synced Machine. */
  lemma BothPatchesStoreTarget(o: Machine, vm: VM, vmi: Option<VMI>, lookup: Option<seq<IP>>)
    ensures var s := SyncedWith(o, vm, vmi, lookup);
            var c := MergeMain(o, s, o);
            c == s.(phase := o.phase, addresses := o.addresses, providerStatus := o.providerStatus) &&
            MergeStatus(o, RestoreStatus(DecodedOver(s, c), s), c) == s
  {
    var s := SyncedWith(o, vm, vmi, lookup);
    TextsOnSame(o.labels, s.labels);
    TextsOnSame(o.annotations, s.annotations);
    EncodeStatusNullFree(vm.status);
    ThreeOnSame(o.providerStatus, EncodeStatus(vm.status));
    hide EncodeStatus, MergeTexts, NullFree;
  }

  lemma TextsOnSame(o: map<string, string>, s: map<string, string>)
    ensures MergeTexts(o, s, o) == s
  {
  }
}
