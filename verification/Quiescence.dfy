/**
 The feedback loop stops. In runs where Updates of one Machine do not overlap, but anything may
 happen between any two of their calls, every write lowers a potential that only what others do
 can raise.
 */
module Quiescence {
  import opened Wrappers
  import opened Resources
  import opened MachineScope
  import opened Cluster
  import opened Protocol
  import opened Interleaving
  import opened WholeRuns
  import opened MachineDocument
  import opened Feedback

  function MachineOf(w: World, mk: Key): Option<Machine> {
    if mk in w.tenant.machines then Some(w.tenant.machines[mk]) else None
  }

  function VMOf(cfg: Config, w: World, mk: Key): Option<VM> {
    var key := VMKey(cfg, mk.name);
    if key in w.infra.vms then Some(w.infra.vms[key]) else None
  }

  // -------- the Updates of a Machine --------

  /** Action a starts an Update of the Machine. */
  predicate StartsUpdate(s: System, a: Action, mk: Key) {
    a.Launch? && a.job == UpdateJob(mk) && a.pid !in s.procs && mk in s.world.tenant.machines
  }

  /** The processes that are Updates of the Machine. */
  function Updaters(cfg: Config, s: System, acts: seq<Action>, mk: Key): set<nat> {
    if acts == [] then {} else
    var front, a := acts[..|acts| - 1], acts[|acts| - 1];
    Updaters(cfg, s, front, mk) + if StartsUpdate(After(cfg, s, front), a, mk) then {a.pid} else {}
  }

  /** The one started last. */
  function Latest(cfg: Config, s: System, acts: seq<Action>, mk: Key): Option<nat> {
    if acts == [] then None else
    var front, a := acts[..|acts| - 1], acts[|acts| - 1];
    if StartsUpdate(After(cfg, s, front), a, mk) then Some(a.pid) else Latest(cfg, s, front, mk)
  }

  /** Once another Update of the Machine has started, an earlier one makes no more calls. */
  predicate InTurn(cfg: Config, s: System, acts: seq<Action>, mk: Key, i: nat)
    requires i < |acts|
  {
    acts[i].Advance? && acts[i].pid in Updaters(cfg, s, acts[..i], mk) ==> Latest(cfg, s, acts[..i], mk) == Some(acts[i].pid)
  }

  predicate NoOverlap(cfg: Config, s: System, acts: seq<Action>, mk: Key) {
    forall i | 0 <= i < |acts| :: InTurn(cfg, s, acts, mk, i)
  }

  // -------- writes and costs --------

  predicate Moved(before: Option<VM>, after: Option<VM>) {
    before.Some? && after.Some? && before.value.resourceVersion != after.value.resourceVersion
  }

  /** Action a is a call of an Update of the Machine, and the stored VM changes with it. */
  predicate IsWrite(cfg: Config, s: System, a: Action, mk: Key, updaters: set<nat>) {
    a.Advance? && a.pid in updaters && Moved(VMOf(cfg, s.world, mk), VMOf(cfg, Exec(cfg, s, a).world, mk))
  }

  function Writes(cfg: Config, s: System, acts: seq<Action>, mk: Key): nat {
    if acts == [] then 0 else
    var front, a := acts[..|acts| - 1], acts[|acts| - 1];
    Writes(cfg, s, front, mk) + if IsWrite(cfg, After(cfg, s, front), a, mk, Updaters(cfg, s, front, mk)) then 1 else 0
  }

  predicate SameMarks(a: Machine, b: Machine) { a.labels == b.labels && a.annotations == b.annotations }

  /** What a change by others may add to the writes owed: two only if it can do both kinds of harm. */
  function EventCost(cfg: Config, w: World, mk: Key, e: Event): nat {
    match e
    case SetStatus(k, _) => if k == VMKey(cfg, mk.name) then 1 else 0
    case EditVM(k, _, _, _, _) => if k == VMKey(cfg, mk.name) then 1 else 0
    case ImportVM(vm) => if vm.key == VMKey(cfg, mk.name) then 2 else 0
    case AddMachine(m) => if m.key == mk then 2 else 0
    case WriteMachine(m) =>
      if m.key != mk || mk !in w.tenant.machines then 0 else if SameMarks(m, w.tenant.machines[mk]) then 1 else 2
    case _ => 0
  }

  /** A call of another operation leaves the Machine and its VM alone, or costs two. */
  predicate LeavesAlone(cfg: Config, w: World, w': World, mk: Key) {
    MachineOf(w, mk) == MachineOf(w', mk) && VMOf(cfg, w, mk) == VMOf(cfg, w', mk)
  }

  function Cost(cfg: Config, s: System, a: Action, mk: Key, updaters: set<nat>): nat {
    match a
    case Launch(_, _) => 0
    case Environment(e) => EventCost(cfg, s.world, mk, e)
    case Advance(pid, _, _) => if pid in updaters || LeavesAlone(cfg, s.world, Exec(cfg, s, a).world, mk) then 0 else 2
  }

  function TotalCost(cfg: Config, s: System, acts: seq<Action>, mk: Key): nat {
    if acts == [] then 0 else
    var front, a := acts[..|acts| - 1], acts[|acts| - 1];
    TotalCost(cfg, s, front, mk) + Cost(cfg, After(cfg, s, front), a, mk, Updaters(cfg, s, front, mk))
  }

  // -------- the potential --------

  function Bit(b: bool): nat { if b then 1 else 0 }

  /** Writes owed with no Update in flight: one if the VM differs, one more if what the Machine records is stale. */
  function Owed(cfg: Config, m: Option<Machine>, v: Option<VM>): nat {
    if m.None? || v.None? then 0 else Bit(Differs(cfg, m.value, v.value)) + Bit(Stale(cfg, m.value, v.value))
  }

  predicate BeforePut(p: Proc) { p.LookupVM? || p.PutVM? }

  /**
   An Update that has yet to put will push what the Machine was when it started; if that is no longer
   what the Machine wants, another write is owed.
   */
  function OwedBeforePut(cfg: Config, o: Machine, m: Option<Machine>, v: Option<VM>): nat {
    Bit(v.Some? && Differs(cfg, o, v.value)) + Bit(m.Some? && !SameWish(o, m.value))
    + Bit(m.Some? && v.Some? && Stale(cfg, m.value, v.value))
  }

  /** One that has put may still patch, or not. */
  function OwedAfterPut(cfg: Config, o: Machine, aim: Machine, m: Option<Machine>, v: Option<VM>): nat {
    var patched := if m.None? then None else Some(MergeMain(o, aim, m.value));
    var a, b := Owed(cfg, m, v), Owed(cfg, patched, v);
    if a <= b then b else a
  }

  function OwedBy(cfg: Config, p: Option<Proc>, m: Option<Machine>, v: Option<VM>): nat {
    if p.None? then Owed(cfg, m, v)
    else if BeforePut(p.value) then OwedBeforePut(cfg, p.value.m, m, v)
    else if p.value.ReadVMI? then OwedAfterPut(cfg, p.value.m, SyncedWith(p.value.m, p.value.vm, None, None), m, v)
    else if p.value.PatchMeta? then OwedAfterPut(cfg, p.value.origin, p.value.m, m, v)
    else Owed(cfg, m, v)
  }

  function ProcAt(s: System, pid: Option<nat>): Option<Proc> {
    if pid.Some? && pid.value in s.procs then Some(s.procs[pid.value]) else None
  }

  function Potential(cfg: Config, s: System, mk: Key, latest: Option<nat>): nat {
    OwedBy(cfg, ProcAt(s, latest), MachineOf(s.world, mk), VMOf(cfg, s.world, mk))
  }

  /** What holds of an Update of the Machine at each of its program points. */
  predicate UpdaterOk(cfg: Config, mk: Key, p: Proc) {
    match p
    case LookupVM(o, d) => o.key == mk && Buildable(cfg, o) && d == DesiredVM(cfg, OpenScope(o).value, o)
    case PutVM(o, d, _) => o.key == mk && Buildable(cfg, o) && d == DesiredVM(cfg, OpenScope(o).value, o)
    case ReadVMI(o, _, _) => o.key == mk
    case PatchMeta(o, _, _) => o.key == mk
    case PatchStatus(o, _, _) => o.key == mk
    case Done(_) => true
    case Crashed => true
    case _ => false
  }

  // -------- what others do --------

  lemma SameWishSameOwed(cfg: Config, a: Machine, b: Machine, v: Option<VM>)
    requires a.key == b.key && SameWish(a, b)
    ensures Owed(cfg, Some(a), v) == Owed(cfg, Some(b), v)
  {
    SameWants(cfg, a, b);
    hide Wanted, OpenScope, Buildable;
  }

  /** A VM that was replaced by any other adds two at most, one that kept its identity and status, or its content, one. */
  lemma VMChange(cfg: Config, p: Option<Proc>, m: Option<Machine>, v: Option<VM>, v': Option<VM>)
    ensures OwedBy(cfg, p, m, v') <= OwedBy(cfg, p, m, v) + 2
    ensures v'.None? ==> OwedBy(cfg, p, m, v') <= OwedBy(cfg, p, m, v)
    ensures v.Some? && v'.Some? && (SameContent(v.value, v'.value) || (v.value.uid == v'.value.uid && v.value.status == v'.value.status))
            ==> OwedBy(cfg, p, m, v') <= OwedBy(cfg, p, m, v) + 1
  {
    hide Differs, Stale, SameWish, MergeMain, SyncedWith, SameContent;
    if v.Some? && v'.Some? {
      if m.Some? {
        VMChangeOne(cfg, m.value, v.value, v'.value);
        if p.Some? && p.value.ReadVMI? {
          VMChangeOne(cfg, MergeMain(p.value.m, SyncedWith(p.value.m, p.value.vm, None, None), m.value), v.value, v'.value);
        } else if p.Some? && p.value.PatchMeta? {
          VMChangeOne(cfg, MergeMain(p.value.origin, p.value.m, m.value), v.value, v'.value);
        }
      }
      if p.Some? && BeforePut(p.value) {
        VMChangeOne(cfg, p.value.m, v.value, v'.value);
      }
    }
  }

  lemma VMChangeOne(cfg: Config, m: Machine, v: VM, v': VM)
    ensures SameContent(v, v') ==> Differs(cfg, m, v) == Differs(cfg, m, v')
    ensures v.uid == v'.uid && v.status == v'.status ==> Stale(cfg, m, v) == Stale(cfg, m, v')
  {
    SameDiffers(cfg, m, v, v');
    SameStale(cfg, m, m, v, v');
  }

  lemma MachineChange(cfg: Config, p: Option<Proc>, m: Option<Machine>, m': Option<Machine>, v: Option<VM>)
    ensures OwedBy(cfg, p, m', v) <= OwedBy(cfg, p, m, v) + 2
    ensures m'.None? ==> OwedBy(cfg, p, m', v) <= OwedBy(cfg, p, m, v)
    ensures m.Some? && m'.Some? && SameMarks(m.value, m'.value) ==> OwedBy(cfg, p, m', v) <= OwedBy(cfg, p, m, v) + 1
  {
    hide Differs, Stale, MergeMain, SyncedWith;
    if m.Some? && m'.Some? && v.Some? {
      SameStale(cfg, m.value, m'.value, v.value, v.value);
      if p.Some? && p.value.ReadVMI? {
        MergedMarks(cfg, p.value.m, SyncedWith(p.value.m, p.value.vm, None, None), m.value, m'.value, v.value);
      } else if p.Some? && p.value.PatchMeta? {
        MergedMarks(cfg, p.value.origin, p.value.m, m.value, m'.value, v.value);
      }
    }
  }

  lemma MergedMarks(cfg: Config, o: Machine, s: Machine, m: Machine, m': Machine, v: VM)
    ensures SameMarks(m, m') ==> Stale(cfg, MergeMain(o, s, m), v) == Stale(cfg, MergeMain(o, s, m'), v)
  {
    SameStale(cfg, MergeMain(o, s, m), MergeMain(o, s, m'), v, v);
    hide Stale, MergeTexts;
  }

  lemma EventCosts(cfg: Config, w: World, mk: Key, e: Event, p: Option<Proc>)
    requires VersionsOk(w)
    ensures var w' := World(InfraEvent(w.infra, e), TenantEvent(w.tenant, e));
            OwedBy(cfg, p, MachineOf(w', mk), VMOf(cfg, w', mk))
            <= OwedBy(cfg, p, MachineOf(w, mk), VMOf(cfg, w, mk)) + EventCost(cfg, w, mk, e)
  {
    var w' := World(InfraEvent(w.infra, e), TenantEvent(w.tenant, e));
    hide OwedBy, VMKey;
    if w'.tenant == w.tenant {
      VMChange(cfg, p, MachineOf(w, mk), VMOf(cfg, w, mk), VMOf(cfg, w', mk));
    } else {
      assert w'.infra == w.infra;
      MachineChange(cfg, p, MachineOf(w, mk), MachineOf(w', mk), VMOf(cfg, w, mk));
    }
  }

  lemma ForeignCosts(cfg: Config, w: World, w': World, mk: Key, p: Option<Proc>)
    requires w'.infra == w.infra || w'.tenant == w.tenant
    ensures OwedBy(cfg, p, MachineOf(w', mk), VMOf(cfg, w', mk)) <= OwedBy(cfg, p, MachineOf(w, mk), VMOf(cfg, w, mk)) + 2
  {
    hide OwedBy;
    if w'.tenant == w.tenant {
      VMChange(cfg, p, MachineOf(w, mk), VMOf(cfg, w, mk), VMOf(cfg, w', mk));
    } else {
      MachineChange(cfg, p, MachineOf(w, mk), MachineOf(w', mk), VMOf(cfg, w, mk));
    }
  }

  lemma StepTouchesOneCluster(cfg: Config, w: World, p: Proc, wire: Wire, choice: Choice)
    ensures var w' := Step(cfg, w, p, wire, choice).0; w'.infra == w.infra || w'.tenant == w.tenant
  {
  }

  // -------- what an Update does --------

  /** Whatever is in flight, at least as much is owed as with nothing in flight: that is why an Update may stop anywhere. */
  lemma StoppingIsFree(cfg: Config, p: Option<Proc>, m: Option<Machine>, v: Option<VM>)
    requires p.Some? && BeforePut(p.value) && m.Some? ==> p.value.m.key == m.value.key
    ensures Owed(cfg, m, v) <= OwedBy(cfg, p, m, v)
  {
    hide Differs, Stale, MergeMain, SyncedWith;
    if p.Some? && BeforePut(p.value) && m.Some? && v.Some? && SameWish(p.value.m, m.value) {
      SameWishSameOwed(cfg, p.value.m, m.value, v);
      SameDiff(cfg, p.value.m, m.value, v.value);
    }
  }

  lemma SameDiff(cfg: Config, a: Machine, b: Machine, v: VM)
    requires a.key == b.key && SameWish(a, b)
    ensures Differs(cfg, a, v) == Differs(cfg, b, v)
  {
    SameWants(cfg, a, b);
    hide Wanted, OpenScope, Buildable;
  }

  lemma StartOwes(cfg: Config, w: World, mk: Key)
    requires VersionsOk(w) && mk in w.tenant.machines
    ensures var p := StartUpdate(cfg, w.tenant.machines[mk]);
            && UpdaterOk(cfg, mk, p)
            && OwedBy(cfg, Some(p), MachineOf(w, mk), VMOf(cfg, w, mk)) == Owed(cfg, MachineOf(w, mk), VMOf(cfg, w, mk))
  {
    var m := w.tenant.machines[mk];
    StartShapes(cfg, m);
    NothingToPatch(cfg, m, FAILURE, Some(m), VMOf(cfg, w, mk));
    hide StartUpdate, Buildable, DesiredVM, OpenScope, Differs, Stale, OwedAfterPut, VMOf;
  }

  lemma StartShapes(cfg: Config, m: Machine)
    ensures var p := StartUpdate(cfg, m);
            && UpdaterOk(cfg, m.key, p)
            && ((p.LookupVM? && p.m == m) || p == PatchMeta(m, m, FAILURE) || Finished(p))
  {
    hide DesiredVM;
  }

  lemma MergedIsRecorded(cfg: Config, o: Machine, vm: VM, m: Machine)
    requires vm.spec.template.Some? && vm.spec.template.value.machineType == cfg.machineType
    requires SameWish(o, m) && o.key == m.key
    ensures Recorded(cfg, o, MergeMain(o, SyncedWith(o, vm, None, None), m), vm)
  {
    hide EncodeStatus;
  }

  /** Patching in a sync with a wanted VM leaves no more owed than was stale, or another wish made. */
  lemma MergedOwes(cfg: Config, o: Machine, vm: VM, m: Machine)
    requires OpenScope(o).Some? && SameContent(Wanted(cfg, o), vm) && o.key == m.key
    ensures Owed(cfg, Some(MergeMain(o, SyncedWith(o, vm, None, None), m)), Some(vm)) <= Bit(!SameWish(o, m)) + Bit(Stale(cfg, m, vm))
  {
    WantedSpec(cfg, o);
    hide OpenScope, Wanted, MergeMain, SyncedWith, Differs, SyncedAnnotations, RecordedLabels;
    if SameWish(o, m) {
      MergedIsRecorded(cfg, o, vm, m);
      SyncPays(cfg, o, MergeMain(o, SyncedWith(o, vm, None, None), m), vm);
      SameStale(cfg, o, m, vm, vm);
    } else if !Stale(cfg, m, vm) {
      MergeKeepsRecord(cfg, o, vm, m);
    }
  }

  lemma MergeKeepsRecord(cfg: Config, o: Machine, vm: VM, m: Machine)
    requires vm.spec.template.Some? && vm.spec.template.value.machineType == cfg.machineType
    requires !Stale(cfg, m, vm)
    ensures !Stale(cfg, MergeMain(o, SyncedWith(o, vm, None, None), m), vm)
  {
    var r := MergeMain(o, SyncedWith(o, vm, None, None), m);
    RecordHas(cfg, m, vm);
    assert TYPE_LABEL in r.labels && r.labels[TYPE_LABEL] == cfg.machineType;
    assert VM_ID_ANNOTATION in r.annotations && r.annotations[VM_ID_ANNOTATION] == vm.uid;
    assert STATE_ANNOTATION in r.annotations && r.annotations[STATE_ANNOTATION] == StateText(vm.status);
    hide MergeMain, SyncedWith;
    RecordHas(cfg, r, vm);
  }

  lemma RecordHas(cfg: Config, m: Machine, vm: VM)
    ensures !Stale(cfg, m, vm) <==>
              && TYPE_LABEL in m.labels && m.labels[TYPE_LABEL] == cfg.machineType
              && VM_ID_ANNOTATION in m.annotations && m.annotations[VM_ID_ANNOTATION] == vm.uid
              && STATE_ANNOTATION in m.annotations && m.annotations[STATE_ANNOTATION] == StateText(vm.status)
  {
    assert |VM_ID_ANNOTATION| != |STATE_ANNOTATION|;
    var a := SyncedAnnotations(m.annotations, vm);
    assert VM_ID_ANNOTATION in a && a[VM_ID_ANNOTATION] == vm.uid && STATE_ANNOTATION in a && a[STATE_ANNOTATION] == StateText(vm.status);
    var l := RecordedLabels(cfg, m);
    assert TYPE_LABEL in l && l[TYPE_LABEL] == cfg.machineType;
  }

  /** With the wanted VM stored, what is owed of the Machine as it is by now. */
  lemma StoredWantedOwes(cfg: Config, o: Machine, m: Machine, v: VM)
    requires OpenScope(o).Some? && SameContent(Wanted(cfg, o), v) && o.key == m.key
    ensures Owed(cfg, Some(m), Some(v)) <= Bit(!SameWish(o, m)) + Bit(Stale(cfg, m, v))
  {
    if SameWish(o, m) {
      SameWants(cfg, o, m);
      hide Wanted, OpenScope;
      NoLongerDiffers(cfg, m, v);
    }
  }

  /** Once the wanted VM is stored, no more is owed than before the put, less the write if there was one. */
  lemma AfterPutOwes(cfg: Config, o: Machine, old_: VM, new_: VM, m: Option<Machine>, q: Proc, wasUpdated: bool)
    requires OpenScope(o).Some? && SameContent(Wanted(cfg, o), new_) && new_.uid == old_.uid && new_.status == old_.status
    requires m.Some? ==> m.value.key == o.key
    requires q == AfterVM(o, new_, wasUpdated) || q == PatchMeta(o, o, FAILURE)
    ensures OwedBy(cfg, Some(q), m, Some(new_)) + Bit(Differs(cfg, o, old_)) <= OwedBeforePut(cfg, o, m, Some(old_))
  {
    hide Differs, Stale, Wanted, OpenScope, MergeMain, SyncedWith, SameWish;
    NothingToPatch(cfg, o, FAILURE, m, Some(new_));
    if m.Some? {
      StoredWantedOwes(cfg, o, m.value, new_);
      MergedOwes(cfg, o, new_, m.value);
      SameStale(cfg, m.value, m.value, old_, new_);
    } else {
      assert Owed(cfg, None, Some(new_)) == 0;
    }
  }

  /** The put: what it writes was owed, and what is owed next was owed before. */
  lemma PutPays(cfg: Config, w: World, mk: Key, p: Proc, wire: Wire, choice: Choice)
    requires VersionsOk(w) && ProcOk(cfg, w, p) && UpdaterOk(cfg, mk, p) && p.PutVM?
    ensures var (w', p') := Step(cfg, w, p, wire, choice);
            && UpdaterOk(cfg, mk, p')
            && OwedBy(cfg, Some(p'), MachineOf(w', mk), VMOf(cfg, w', mk)) + Bit(Moved(VMOf(cfg, w, mk), VMOf(cfg, w', mk)))
               <= OwedBy(cfg, Some(p), MachineOf(w, mk), VMOf(cfg, w, mk))
  {
    var o, key := p.m, VMKey(cfg, mk.name);
    var m, v := MachineOf(w, mk), VMOf(cfg, w, mk);
    PutStep(cfg, w, mk, p, wire, choice);
    var (w', p') := Step(cfg, w, p, wire, choice);
    hide Step, StepInfra, DesiredVM, Buildable, Differs, Stale, Wanted, OpenScope, OwedAfterPut, OwedBeforePut;
    if w' == w && p' == PatchMeta(o, o, FAILURE) {
      NothingToPatch(cfg, o, FAILURE, m, v);
      StoppingIsFree(cfg, Some(p), m, v);
    } else {
      hide ProcOk;
      AfterPutOwes(cfg, o, w.infra.vms[key], w'.infra.vms[key], m, p', Moved(v, VMOf(cfg, w', mk)));
    }
  }

  /** A put fails without effect, finds the wanted VM there, or puts it there. */
  lemma PutStep(cfg: Config, w: World, mk: Key, p: Proc, wire: Wire, choice: Choice)
    requires VersionsOk(w) && ProcOk(cfg, w, p) && UpdaterOk(cfg, mk, p) && p.PutVM?
    ensures var (w', p') := Step(cfg, w, p, wire, choice);
            var key := VMKey(cfg, mk.name);
            && OpenScope(p.m).Some? && w'.tenant == w.tenant && UpdaterOk(cfg, mk, p')
            && ((w' == w && p' == PatchMeta(p.m, p.m, FAILURE)) ||
                (key in w.infra.vms && key in w'.infra.vms && PutDone(cfg, p.m, w.infra.vms[key], w'.infra.vms[key], p')))
  {
    PutReply(cfg, w, mk, p, wire, choice);
    hide Step, ProcOk, AfterVM, Wanted, Differs, SameContent, UpdateVMCall, BuildVM, DesiredVM, OpenScope;
    PutCall(cfg, w.infra, p.m, p.seen.resourceVersion, wire);
    hide UpdaterOk, VMKey;
  }

  lemma PutCall(cfg: Config, i: Infra, o: Machine, version: nat, wire: Wire)
    requires Buildable(cfg, o)
    requires VMKey(cfg, o.key.name) in i.vms ==>
               var v := i.vms[VMKey(cfg, o.key.name)]; v.resourceVersion <= i.clock && v.key == VMKey(cfg, o.key.name)
    ensures var (i', r) := UpdateVMCall(cfg, i, DesiredVM(cfg, OpenScope(o).value, o).(resourceVersion := version), wire);
            var key := VMKey(cfg, o.key.name);
            ((i' == i && r == Refused) ||
             (key in i.vms && i.vms[key].resourceVersion == version && key in i'.vms && PutCallDone(cfg, o, i.vms[key], i'.vms[key], r)))
  {
    var key := VMKey(cfg, o.key.name);
    var sent := DesiredVM(cfg, OpenScope(o).value, o).(resourceVersion := version);
    assert sent.key == key;
    if !wire.Dropped? && key in i.vms && i.vms[key].resourceVersion == version {
      PutStoresWanted(cfg, i, o, wire);
    } else {
      assert UpdateVMCall(cfg, i, sent, wire) == (i, Refused);
    }
    hide UpdateVMCall, DesiredVM, Wanted, OpenScope, Differs;
  }

  predicate PutCallDone(cfg: Config, o: Machine, old_: VM, new_: VM, r: Reply<VM>)
    requires OpenScope(o).Some?
  {
    && SameContent(Wanted(cfg, o), new_) && new_.uid == old_.uid && new_.status == old_.status
    && (new_.resourceVersion != old_.resourceVersion ==> Differs(cfg, o, old_))
    && (r == Ok(new_) || r == Refused)
  }

  predicate PutDone(cfg: Config, o: Machine, old_: VM, new_: VM, p': Proc)
    requires OpenScope(o).Some?
  {
    PutCallDone(cfg, o, old_, new_, Refused)
    && (p' == PatchMeta(o, o, FAILURE) || p' == AfterVM(o, new_, new_.resourceVersion != old_.resourceVersion))
  }

  lemma PutReply(cfg: Config, w: World, mk: Key, p: Proc, wire: Wire, choice: Choice)
    requires p.PutVM? && UpdaterOk(cfg, mk, p)
    ensures UpdaterOk(cfg, mk, Step(cfg, w, p, wire, choice).1)
    ensures var (i, r) := UpdateVMCall(cfg, w.infra, p.desired.(resourceVersion := p.seen.resourceVersion), wire);
            Step(cfg, w, p, wire, choice) ==
            (w.(infra := i), if r.Ok? then AfterVM(p.m, r.value, r.value.resourceVersion != p.seen.resourceVersion) else PatchMeta(p.m, p.m, FAILURE))
  {
    hide UpdateVMCall, Buildable, DesiredVM, SyncedWith;
  }

  lemma NothingToPatch(cfg: Config, o: Machine, report: Report, m: Option<Machine>, v: Option<VM>)
    ensures OwedBy(cfg, Some(PatchMeta(o, o, report)), m, v) == Owed(cfg, m, v)
  {
    assert m.Some? ==> MergeMain(o, o, m.value) == m.value;
    hide MergeMain, Differs, Stale;
  }

  lemma LookupPays(cfg: Config, w: World, mk: Key, p: Proc, wire: Wire, choice: Choice)
    requires VersionsOk(w) && UpdaterOk(cfg, mk, p) && p.LookupVM?
    ensures var (w', p') := Step(cfg, w, p, wire, choice);
            && w' == w && UpdaterOk(cfg, mk, p')
            && OwedBy(cfg, Some(p'), MachineOf(w, mk), VMOf(cfg, w, mk)) <= OwedBy(cfg, Some(p), MachineOf(w, mk), VMOf(cfg, w, mk))
  {
    var m, v := MachineOf(w, mk), VMOf(cfg, w, mk);
    hide Buildable, DesiredVM, OpenScope, Owed, OwedBeforePut, OwedAfterPut;
    NothingToPatch(cfg, p.m, FAILURE, m, v);
    StoppingIsFree(cfg, Some(p), m, v);
  }

  lemma ReadPays(cfg: Config, w: World, mk: Key, p: Proc, wire: Wire, choice: Choice)
    requires VersionsOk(w) && UpdaterOk(cfg, mk, p) && p.ReadVMI?
    ensures var (w', p') := Step(cfg, w, p, wire, choice);
            && w' == w && UpdaterOk(cfg, mk, p')
            && OwedBy(cfg, Some(p'), MachineOf(w, mk), VMOf(cfg, w, mk)) <= OwedBy(cfg, Some(p), MachineOf(w, mk), VMOf(cfg, w, mk))
  {
    var m, v, o := MachineOf(w, mk), VMOf(cfg, w, mk), p.m;
    var p' := Step(cfg, w, p, wire, choice).1;
    assert p'.PatchMeta? && p'.origin == o;
    if p'.m == o {
      hide SyncedWith;
      NothingToPatch(cfg, o, p'.report, m, v);
      StoppingIsFree(cfg, Some(p), m, v);
    } else if m.Some? {
      SameMerged(o, SyncedWith(o, p.vm, None, None), p'.m, m.value);
      hide MergeMain, SyncedWith, Step, SameWish;
      SameWishSameOwed(cfg, MergeMain(o, SyncedWith(o, p.vm, None, None), m.value), MergeMain(o, p'.m, m.value), v);
    }
  }

  lemma SameMerged(o: Machine, s: Machine, t: Machine, m: Machine)
    requires SameWish(s, t)
    ensures SameWish(MergeMain(o, s, m), MergeMain(o, t, m)) && MergeMain(o, s, m).key == MergeMain(o, t, m).key == m.key
  {
    hide MergeTexts;
  }

  lemma MetaPays(cfg: Config, w: World, mk: Key, p: Proc, wire: Wire, choice: Choice)
    requires VersionsOk(w) && UpdaterOk(cfg, mk, p) && p.PatchMeta? && p.m.key == mk
    ensures var (w', p') := Step(cfg, w, p, wire, choice);
            && w'.infra == w.infra && UpdaterOk(cfg, mk, p')
            && OwedBy(cfg, Some(p'), MachineOf(w', mk), VMOf(cfg, w, mk)) <= OwedBy(cfg, Some(p), MachineOf(w, mk), VMOf(cfg, w, mk))
  {
    hide MergeMain, DecodedOver, RestoreStatus, Differs, Stale;
  }

  lemma StatusPays(cfg: Config, w: World, mk: Key, p: Proc, wire: Wire, choice: Choice)
    requires VersionsOk(w) && UpdaterOk(cfg, mk, p) && p.PatchStatus? && p.m.key == mk
    ensures var (w', p') := Step(cfg, w, p, wire, choice);
            && w'.infra == w.infra && UpdaterOk(cfg, mk, p')
            && OwedBy(cfg, Some(p'), MachineOf(w', mk), VMOf(cfg, w, mk)) <= OwedBy(cfg, Some(p), MachineOf(w, mk), VMOf(cfg, w, mk))
  {
    var m, v := MachineOf(w, mk), VMOf(cfg, w, mk);
    hide VMOf;
    if m.Some? {
      StatusKeepsWish(p.origin, p.m, m.value);
      hide MergeStatus, SameWish;
      SameWishSameOwed(cfg, m.value, MergeStatus(p.origin, p.m, m.value), v);
    }
    hide DecodedOver, Owed, Verdict;
  }

  lemma StatusKeepsWish(o: Machine, s: Machine, c: Machine)
    ensures SameWish(c, MergeStatus(o, s, c)) && MergeStatus(o, s, c).key == c.key
  {
    hide MergeTexts;
  }

  /** No call of an Update writes for free, and no outcome of one makes anything owed. */
  lemma UpdaterPays(cfg: Config, w: World, mk: Key, p: Proc, wire: Wire, choice: Choice)
    requires VersionsOk(w) && ProcOk(cfg, w, p) && UpdaterOk(cfg, mk, p)
    ensures var (w', p') := Step(cfg, w, p, wire, choice);
            && UpdaterOk(cfg, mk, p')
            && OwedBy(cfg, Some(p'), MachineOf(w', mk), VMOf(cfg, w', mk)) + Bit(Moved(VMOf(cfg, w, mk), VMOf(cfg, w', mk)))
               <= OwedBy(cfg, Some(p), MachineOf(w, mk), VMOf(cfg, w, mk))
  {
    assert PatchProc(p) ==> p.m.key == mk;
    hide OwedBy, ProcOk;
    match p {
      case LookupVM(_, _) =>
        LookupPays(cfg, w, mk, p, wire, choice);
        hide Step;
      case PutVM(_, _, _) =>
        PutPays(cfg, w, mk, p, wire, choice);
        hide Step;
      case ReadVMI(_, _, _) =>
        ReadPays(cfg, w, mk, p, wire, choice);
        hide Step;
      case PatchMeta(_, _, _) =>
        MetaPays(cfg, w, mk, p, wire, choice);
        hide Step;
      case PatchStatus(_, _, _) =>
        StatusPays(cfg, w, mk, p, wire, choice);
        hide Step;
      case _ =>
    }
  }

  // -------- whole runs --------

  /** Every Update of the Machine is at one of an Update's points, and the latest is one of them. */
  predicate UpdatersOk(cfg: Config, s: System, mk: Key, updaters: set<nat>, latest: Option<nat>) {
    && (latest.Some? ==> latest.value in updaters)
    && forall pid | pid in updaters :: pid in s.procs && UpdaterOk(cfg, mk, s.procs[pid])
  }

  function UpdatersNext(s: System, a: Action, mk: Key, updaters: set<nat>): set<nat> {
    updaters + if StartsUpdate(s, a, mk) then {a.pid} else {}
  }

  function LatestNext(s: System, a: Action, mk: Key, latest: Option<nat>): Option<nat> {
    if StartsUpdate(s, a, mk) then Some(a.pid) else latest
  }

  /** One action of a run: what it writes and leaves owed was owed before, or is its cost. */
  lemma ActionPays(cfg: Config, s: System, a: Action, mk: Key, updaters: set<nat>, latest: Option<nat>)
    requires SystemOk(cfg, s) && UpdatersOk(cfg, s, mk, updaters, latest)
    requires a.Advance? && a.pid in updaters ==> latest == Some(a.pid)
    ensures var s' := Exec(cfg, s, a);
            && UpdatersOk(cfg, s', mk, UpdatersNext(s, a, mk, updaters), LatestNext(s, a, mk, latest))
            && Potential(cfg, s', mk, LatestNext(s, a, mk, latest)) + Bit(IsWrite(cfg, s, a, mk, updaters))
               <= Potential(cfg, s, mk, latest) + Cost(cfg, s, a, mk, updaters)
  {
    var m, v, p := MachineOf(s.world, mk), VMOf(cfg, s.world, mk), ProcAt(s, latest);
    match a
    case Launch(pid, job) =>
      hide OwedBy, UpdaterOk, VMOf;
      if StartsUpdate(s, a, mk) {
        StartOwes(cfg, s.world, mk);
        hide StartUpdate;
        LatestStops(cfg, s, mk, updaters, latest);
      } else {
        hide Start;
      }
    case Environment(e) =>
      hide OwedBy, UpdaterOk, InfraEvent, TenantEvent, EventCost, VMOf, MachineOf;
      EventCosts(cfg, s.world, mk, e, p);
    case Advance(pid, wire, choice) =>
      if pid in s.procs {
        assert ProcOk(cfg, s.world, s.procs[pid]);
        hide OwedBy, Step, UpdaterOk, VMOf, MachineOf, ProcOk;
        if pid in updaters {
          UpdaterPays(cfg, s.world, mk, s.procs[pid], wire, choice);
        } else {
          StepTouchesOneCluster(cfg, s.world, s.procs[pid], wire, choice);
          ForeignCosts(cfg, s.world, Exec(cfg, s, a).world, mk, p);
        }
      }
  }

  lemma LatestStops(cfg: Config, s: System, mk: Key, updaters: set<nat>, latest: Option<nat>)
    requires SystemOk(cfg, s) && UpdatersOk(cfg, s, mk, updaters, latest)
    ensures Owed(cfg, MachineOf(s.world, mk), VMOf(cfg, s.world, mk)) <= Potential(cfg, s, mk, latest)
  {
    var p := ProcAt(s, latest);
    assert p.Some? ==> UpdaterOk(cfg, mk, p.value);
    StoppingIsFree(cfg, p, MachineOf(s.world, mk), VMOf(cfg, s.world, mk));
  }

  /**
   In every run in which Updates of the Machine do not overlap, whatever happens between any two of
   their calls, wherever they stop and whichever calls get lost: the writes never exceed two plus the
   cost of what others do.
   */
  lemma {:induction false} BoundedWrites(cfg: Config, s: System, acts: seq<Action>, mk: Key)
    requires VersionsOk(s.world) && s.procs == map[] && NoOverlap(cfg, s, acts, mk)
    ensures UpdatersOk(cfg, After(cfg, s, acts), mk, Updaters(cfg, s, acts, mk), Latest(cfg, s, acts, mk))
    ensures Writes(cfg, s, acts, mk) + Potential(cfg, After(cfg, s, acts), mk, Latest(cfg, s, acts, mk))
            <= Owed(cfg, MachineOf(s.world, mk), VMOf(cfg, s.world, mk)) + TotalCost(cfg, s, acts, mk)
    ensures Writes(cfg, s, acts, mk) <= 2 + TotalCost(cfg, s, acts, mk)
    decreases |acts|
  {
    if acts != [] {
      hide Exec, Owed, OwedBy, UpdaterOk, Cost, IsWrite, StartsUpdate;
      var front, a := acts[..|acts| - 1], acts[|acts| - 1];
      forall i | 0 <= i < |front| ensures InTurn(cfg, s, front, mk, i) {
        assert InTurn(cfg, s, acts, mk, i) && front[..i] == acts[..i];
      }
      assert InTurn(cfg, s, acts, mk, |front|);
      BoundedWrites(cfg, s, front, mk);
      AlwaysOk(cfg, s, front, |front|);
      assert front[..|front|] == front;
      ActionPays(cfg, After(cfg, s, front), a, mk, Updaters(cfg, s, front, mk), Latest(cfg, s, front, mk));
    }
    AtMostTwo(cfg, MachineOf(s.world, mk), VMOf(cfg, s.world, mk));
  }

  lemma AtMostTwo(cfg: Config, m: Option<Machine>, v: Option<VM>)
    ensures Owed(cfg, m, v) <= 2
  {
  }

  /**
   Others change the VM's status or content, or edit the Machine without touching its labels and
   annotations, and no other operation writes either.
   */
  predicate FlipOrEdit(cfg: Config, s: System, a: Action, mk: Key, updaters: set<nat>) {
    match a
    case Launch(_, _) => true
    case Environment(e) => EventCost(cfg, s.world, mk, e) <= 1
    case Advance(pid, _, _) => pid in updaters || LeavesAlone(cfg, s.world, Exec(cfg, s, a).world, mk)
  }

  function Changes(acts: seq<Action>): nat {
    if acts == [] then 0 else Changes(acts[..|acts| - 1]) + Bit(acts[|acts| - 1].Environment?)
  }

  /** Then there are at most two writes plus one per change. */
  lemma {:induction false} WritesWithinChanges(cfg: Config, s: System, acts: seq<Action>, mk: Key)
    requires VersionsOk(s.world) && s.procs == map[] && NoOverlap(cfg, s, acts, mk)
    requires forall i | 0 <= i < |acts| :: FlipOrEdit(cfg, At(cfg, s, acts, i), acts[i], mk, Updaters(cfg, s, acts[..i], mk))
    ensures Writes(cfg, s, acts, mk) <= 2 + Changes(acts)
  {
    hide Exec, Writes, FlipOrEdit, Potential, NoOverlap, UpdatersOk;
    BoundedWrites(cfg, s, acts, mk);
    CostWithinChanges(cfg, s, acts, mk);
  }

  lemma {:induction false} CostWithinChanges(cfg: Config, s: System, acts: seq<Action>, mk: Key)
    requires forall i | 0 <= i < |acts| :: FlipOrEdit(cfg, At(cfg, s, acts, i), acts[i], mk, Updaters(cfg, s, acts[..i], mk))
    ensures TotalCost(cfg, s, acts, mk) <= Changes(acts)
    decreases |acts|
  {
    hide Exec, EventCost, LeavesAlone;
    if acts != [] {
      var front := acts[..|acts| - 1];
      forall i | 0 <= i < |front|
        ensures FlipOrEdit(cfg, At(cfg, s, front, i), front[i], mk, Updaters(cfg, s, front[..i], mk))
      {
        assert front[..i] == acts[..i];
        assert FlipOrEdit(cfg, At(cfg, s, acts, i), acts[i], mk, Updaters(cfg, s, acts[..i], mk));
      }
      CostWithinChanges(cfg, s, front, mk);
      assert FlipOrEdit(cfg, At(cfg, s, acts, |front|), acts[|front|], mk, Updaters(cfg, s, acts[..|front|], mk));
    }
  }
}
