/**
 Why Updates of one Machine must not overlap. An Update that started before the Machine was synced
 keeps pushing what the Machine was then; the next one puts it right again. With nobody else doing
 anything there is no bound on the writes.
 */
module Overlap {
  import opened Wrappers
  import opened Resources
  import opened MachineScope
  import opened Cluster
  import opened Protocol
  import opened Interleaving
  import opened WholeRuns
  import opened Feedback
  import opened Quiescence
  import opened Settling

  /** Running acts from start leads to s, with those Updates, that many writes, and no cost. */
  predicate Reach(cfg: Config, start: System, mk: Key, acts: seq<Action>, s: System, updaters: set<nat>, writes: nat) {
    && After(cfg, start, acts) == s && Updaters(cfg, start, acts, mk) == updaters && Writes(cfg, start, acts, mk) == writes
    && TotalCost(cfg, start, acts, mk) == 0 && VersionsOk(s.world)
    && forall i | 0 <= i < |acts| :: !acts[i].Environment?
  }

  lemma Snoc(cfg: Config, start: System, mk: Key, acts: seq<Action>, s: System, updaters: set<nat>, writes: nat, a: Action)
    requires Reach(cfg, start, mk, acts, s, updaters, writes) && VersionsOk(Exec(cfg, s, a).world)
    requires a.Launch? || (a.Advance? && a.pid in updaters)
    ensures Reach(cfg, start, mk, acts + [a], Exec(cfg, s, a), if StartsUpdate(s, a, mk) then updaters + {a.pid} else updaters,
                  if IsWrite(cfg, s, a, mk, updaters) then writes + 1 else writes)
    ensures a.Advance? ==> !StartsUpdate(s, a, mk)
  {
    assert a.Advance? ==> !StartsUpdate(s, a, mk);
    hide Exec, StartsUpdate, IsWrite, VersionsOk, LeavesAlone, EventCost;
    assert (acts + [a])[..|acts|] == acts;
  }

  function Begun(cfg: Config, o: Machine): Proc
    requires OpenScope(o).Some?
  {
    LookupVM(o, DesiredVM(cfg, OpenScope(o).value, o))
  }

  lemma Launched(cfg: Config, start: System, acts: seq<Action>, s: System, updaters: set<nat>, writes: nat, o: Machine, pid: nat)
    returns (acts': seq<Action>, s': System)
    requires Reach(cfg, start, o.key, acts, s, updaters, writes) && pid !in s.procs
    requires MachineOf(s.world, o.key) == Some(o) && Buildable(cfg, o)
    ensures Reach(cfg, start, o.key, acts', s', updaters + {pid}, writes)
    ensures s' == s.(procs := s.procs[pid := Begun(cfg, o)])
  {
    var a := Launch(pid, UpdateJob(o.key));
    assert StartUpdate(cfg, o) == Begun(cfg, o);
    acts', s' := acts + [a], Exec(cfg, s, a);
    hide BuildVM, OpenScope, DesiredVM, StartUpdate;
    assert s' == s.(procs := s.procs[pid := Begun(cfg, o)]);
    hide Exec;
    Snoc(cfg, start, o.key, acts, s, updaters, writes, a);
  }

  /** The process is about to push its Machine's VM, which is not ready and differs. */
  predicate Pushing(cfg: Config, s: System, o: Machine, pid: nat) {
    && VersionsOk(s.world) && Buildable(cfg, o) && pid in s.procs && s.procs[pid] == Begun(cfg, o)
    && var v := VMOf(cfg, s.world, o.key); v.Some? && !v.value.status.ready && Differs(cfg, o, v.value)
  }

  /** It has. */
  predicate HasPushed(cfg: Config, s: System, s': System, o: Machine, pid: nat)
    requires VMOf(cfg, s.world, o.key).Some?
  {
    && s'.world.tenant == s.world.tenant && VersionsOk(s'.world)
    && Holds(cfg, o, VMOf(cfg, s.world, o.key).value, VMOf(cfg, s'.world, o.key))
    && var v' := VMOf(cfg, s'.world, o.key).value;
       s'.procs == s.procs[pid := PatchMeta(o, SyncedWith(o, v', None, None), Report(Some(v'), None, None, true, false))]
  }

  lemma PushCalls(cfg: Config, s: System, o: Machine, pid: nat, updaters: set<nat>)
    requires Pushing(cfg, s, o, pid) && pid in updaters
    ensures var a := Advance(pid, Delivered, GOOD);
            var s1 := Exec(cfg, s, a);
            && !IsWrite(cfg, s, a, o.key, updaters) && s1.world == s.world
            && IsWrite(cfg, s1, a, o.key, updaters) && HasPushed(cfg, s, Exec(cfg, s1, a), o, pid)
  {
    var a, v := Advance(pid, Delivered, GOOD), VMOf(cfg, s.world, o.key).value;
    PushSteps(cfg, s.world, o, v);
    var put := PutVM(o, DesiredVM(cfg, OpenScope(o).value, o), v);
    var s1 := System(s.world, s.procs[pid := put]);
    Advanced(cfg, s, a, o.key, updaters);
    assert Exec(cfg, s, a) == s1 && !IsWrite(cfg, s, a, o.key, updaters) by {
      hide Step, Exec, IsWrite, VMOf, DesiredVM;
    }
    hide *;
    SecondCall(cfg, s, s1, o, pid, v, updaters);
  }

  lemma SecondCall(cfg: Config, s: System, s1: System, o: Machine, pid: nat, v: VM, updaters: set<nat>)
    requires OpenScope(o).Some? && pid in updaters && VMOf(cfg, s.world, o.key) == Some(v)
    requires s1 == System(s.world, s.procs[pid := PutVM(o, DesiredVM(cfg, OpenScope(o).value, o), v)])
    requires PutDoneAs(cfg, s.world, o, v, Step(cfg, s.world, PutVM(o, DesiredVM(cfg, OpenScope(o).value, o), v), Delivered, GOOD))
    ensures var a := Advance(pid, Delivered, GOOD); IsWrite(cfg, s1, a, o.key, updaters) && HasPushed(cfg, s, Exec(cfg, s1, a), o, pid)
  {
    hide Step, DesiredVM, OpenScope, SyncedWith, Exec, IsWrite, VMOf, Holds, VersionsOk;
    var a := Advance(pid, Delivered, GOOD);
    Advanced(cfg, s1, a, o.key, updaters);
    var p' := Exec(cfg, s1, a).procs[pid];
    assert s.procs[pid := s1.procs[pid]][pid := p'] == s.procs[pid := p'];
  }

  lemma PushSteps(cfg: Config, w: World, o: Machine, v: VM)
    requires VersionsOk(w) && Buildable(cfg, o) && VMOf(cfg, w, o.key) == Some(v) && !v.status.ready && Differs(cfg, o, v)
    ensures OpenScope(o).Some? && Step(cfg, w, Begun(cfg, o), Delivered, GOOD) == (w, PutVM(o, DesiredVM(cfg, OpenScope(o).value, o), v))
    ensures PutDoneAs(cfg, w, o, v, Step(cfg, w, PutVM(o, DesiredVM(cfg, OpenScope(o).value, o), v), Delivered, GOOD))
  {
    var d := DesiredVM(cfg, OpenScope(o).value, o);
    assert d.key == VMKey(cfg, o.key.name);
    hide Step, DesiredVM, OpenScope, BuildVM, Differs, SyncedWith, Holds;
    LookupStep(cfg, w, o, d);
    PutStep(cfg, w, o, v);
  }

  predicate PutDoneAs(cfg: Config, w: World, o: Machine, v: VM, r: (World, Proc)) {
    var v' := VMOf(cfg, r.0, o.key);
    && r.0.tenant == w.tenant && VersionsOk(r.0) && Holds(cfg, o, v, v') && Moved(Some(v), v')
    && r.1 == PatchMeta(o, SyncedWith(o, v'.value, None, None), Report(Some(v'.value), None, None, true, false))
  }

  /** The process looks the VM up and puts what its Machine wanted: one write. */
  lemma Pushed(cfg: Config, start: System, acts: seq<Action>, s: System, updaters: set<nat>, writes: nat, o: Machine, pid: nat)
    returns (acts': seq<Action>, s': System)
    requires Reach(cfg, start, o.key, acts, s, updaters, writes) && pid in updaters && Pushing(cfg, s, o, pid)
    ensures Reach(cfg, start, o.key, acts', s', updaters, writes + 1) && HasPushed(cfg, s, s', o, pid)
  {
    var a := Advance(pid, Delivered, GOOD);
    var s1 := Exec(cfg, s, a);
    PushCalls(cfg, s, o, pid, updaters);
    acts', s' := acts + [a] + [a], Exec(cfg, s1, a);
    assert VersionsOk(s1.world) && VersionsOk(s'.world);
    hide *;
    Snoc(cfg, start, o.key, acts, s, updaters, writes, a);
    Snoc(cfg, start, o.key, acts + [a], s1, updaters, writes, a);
  }

  lemma Advanced(cfg: Config, s: System, a: Action, mk: Key, updaters: set<nat>)
    requires a.Advance? && a.pid in s.procs && a.pid in updaters
    ensures var (w', p') := Step(cfg, s.world, s.procs[a.pid], a.wire, a.choice);
            && Exec(cfg, s, a) == System(w', s.procs[a.pid := p'])
            && (IsWrite(cfg, s, a, mk, updaters) <==> Moved(VMOf(cfg, s.world, mk), VMOf(cfg, w', mk)))
  {
    hide Step;
  }

  /** The VM has the content the Machine wants and the identity and status it had. */
  predicate Holds(cfg: Config, o: Machine, old_: VM, new_: Option<VM>) {
    OpenScope(o).Some? && new_.Some? && SameContent(Wanted(cfg, o), new_.value) && new_.value.uid == old_.uid && new_.value.status == old_.status
  }

  lemma LookupStep(cfg: Config, w: World, o: Machine, d: VM)
    requires d.key in w.infra.vms
    ensures Step(cfg, w, LookupVM(o, d), Delivered, GOOD) == (w, PutVM(o, d, w.infra.vms[d.key]))
  {
  }

  lemma PutStep(cfg: Config, w: World, o: Machine, v: VM)
    requires VersionsOk(w) && Buildable(cfg, o) && VMOf(cfg, w, o.key) == Some(v) && !v.status.ready && Differs(cfg, o, v)
    ensures PutDoneAs(cfg, w, o, v, Step(cfg, w, PutVM(o, DesiredVM(cfg, OpenScope(o).value, o), v), Delivered, GOOD))
  {
    assert OpenScope(o).Some?;
    var p := PutVM(o, DesiredVM(cfg, OpenScope(o).value, o), v);
    assert p.desired.key == VMKey(cfg, o.key.name) && VMKey(cfg, o.key.name) in w.infra.vms && ProcOk(cfg, w, p);
    PutReply(cfg, w, o.key, p, Delivered, GOOD);
    StepOk(cfg, w, p, Delivered, GOOD);
    PutAnswers(cfg, w.infra, o, v);
    var i' := UpdateVMCall(cfg, w.infra, p.desired.(resourceVersion := v.resourceVersion), Delivered).0;
    var r := Step(cfg, w, p, Delivered, GOOD);
    var v' := i'.vms[VMKey(cfg, o.key.name)];
    assert r == (w.(infra := i'), AfterVM(o, v', true));
    hide *;
    PutConcludes(cfg, w, o, v, i', v', r);
  }

  lemma PutConcludes(cfg: Config, w: World, o: Machine, v: VM, i': Infra, v': VM, r: (World, Proc))
    requires r == (w.(infra := i'), AfterVM(o, v', true)) && VersionsOk(r.0) && VMOf(cfg, w, o.key) == Some(v) && !v.status.ready
    requires VMKey(cfg, o.key.name) in i'.vms && i'.vms[VMKey(cfg, o.key.name)] == v'
    requires v'.resourceVersion != v.resourceVersion && v'.status == v.status && Holds(cfg, o, v, Some(v'))
    ensures PutDoneAs(cfg, w, o, v, r)
  {
    hide VersionsOk, SyncedWith, Wanted, OpenScope, SameContent;
  }

  lemma PutAnswers(cfg: Config, i: Infra, o: Machine, v: VM)
    requires Buildable(cfg, o) && VMKey(cfg, o.key.name) in i.vms && i.vms[VMKey(cfg, o.key.name)] == v
    requires v.key == VMKey(cfg, o.key.name) && v.resourceVersion <= i.clock && Differs(cfg, o, v)
    ensures OpenScope(o).Some?
    ensures var (i', r) := UpdateVMCall(cfg, i, DesiredVM(cfg, OpenScope(o).value, o).(resourceVersion := v.resourceVersion), Delivered);
            var key := VMKey(cfg, o.key.name);
            && key in i'.vms && r == Ok(i'.vms[key]) && r.value.resourceVersion != v.resourceVersion && r.value.status == v.status
            && Holds(cfg, o, v, Some(i'.vms[key]))
  {
    PutStoresWanted(cfg, i, o, Delivered);
    hide UpdateVMCall, DesiredVM, Wanted, BuildVM;
  }

  /** The two states of the Machine want different VMs, both can be built, and the VM is not ready. */
  predicate AtOdds(cfg: Config, a: Machine, b: Machine, v0: VM) {
    a.key == b.key && Buildable(cfg, a) && Buildable(cfg, b) && !SameContent(Wanted(cfg, a), Wanted(cfg, b)) && !v0.status.ready
  }

  lemma OddsDiffer(cfg: Config, a: Machine, b: Machine, v0: VM, v: VM)
    requires AtOdds(cfg, a, b, v0) && Holds(cfg, a, v0, Some(v))
    ensures Differs(cfg, b, v)
  {
    hide Wanted, OpenScope, BuildVM;
  }

  /** The synced Machine is stored, over the VM wanted before that, and these Updates have yet to look it up. */
  predicate Waiting(cfg: Config, s: System, m: Machine, m1: Machine, v0: VM, stale: set<nat>) {
    && OpenScope(m).Some? && MachineOf(s.world, m.key) == Some(m1) && Holds(cfg, m, v0, VMOf(cfg, s.world, m.key))
    && forall pid | pid in stale :: pid in s.procs && s.procs[pid] == Begun(cfg, m)
  }

  /** Each of them makes two writes happen: a new Update puts the VM right, and it puts the old one back. */
  lemma OneMore(cfg: Config, start: System, acts: seq<Action>, s: System, updaters: set<nat>, writes: nat,
                m: Machine, m1: Machine, v0: VM, stale: set<nat>, pid: nat)
    returns (acts': seq<Action>, s': System, updaters': set<nat>)
    requires Reach(cfg, start, m.key, acts, s, updaters, writes) && AtOdds(cfg, m, m1, v0) && AtOdds(cfg, m1, m, v0)
    requires Waiting(cfg, s, m, m1, v0, stale) && stale <= updaters && pid in stale
    ensures Reach(cfg, start, m.key, acts', s', updaters', writes + 2)
    ensures Waiting(cfg, s', m, m1, v0, stale - {pid}) && stale - {pid} <= updaters'
  {
    hide Reach, AtOdds, Holds, Buildable, Differs, VersionsOk, Begun, VMOf, SyncedWith;
    var c := FreshPid(s.procs.Keys);
    assert c !in s.procs;
    var acts1, s1 := LaunchedReady(cfg, start, acts, s, updaters, writes, m, m1, v0, c);
    updaters' := updaters + {c};
    var acts2, s2 := Pushed(cfg, start, acts1, s1, updaters', writes, m1, c);
    HeldReady(cfg, s1, s2, m1, m, v0, c, pid);
    acts', s' := Pushed(cfg, start, acts2, s2, updaters', writes + 1, m, pid);
    StillHolds(cfg, s2, s', m1, m, v0, pid);
    assert forall q | q in stale - {pid} :: q != c && q != pid && s'.procs[q] == s.procs[q];
  }

  lemma LaunchedReady(cfg: Config, start: System, acts: seq<Action>, s: System, updaters: set<nat>, writes: nat,
                      m: Machine, m1: Machine, v0: VM, c: nat)
    returns (acts': seq<Action>, s': System)
    requires Reach(cfg, start, m.key, acts, s, updaters, writes) && AtOdds(cfg, m, m1, v0)
    requires OpenScope(m).Some? && MachineOf(s.world, m.key) == Some(m1) && Holds(cfg, m, v0, VMOf(cfg, s.world, m.key)) && c !in s.procs
    ensures OpenScope(m1).Some? && m1.key == m.key && Reach(cfg, start, m1.key, acts', s', updaters + {c}, writes)
    ensures s' == s.(procs := s.procs[c := Begun(cfg, m1)]) && Pushing(cfg, s', m1, c)
    ensures Holds(cfg, m, v0, VMOf(cfg, s'.world, m.key))
  {
    acts', s' := Launched(cfg, start, acts, s, updaters, writes, m1, c);
    assert VersionsOk(s'.world);
    hide Reach, BuildVM, Wanted, OpenScope, Differs, Begun, VMOf, VersionsOk;
    OddsDiffer(cfg, m, m1, v0, VMOf(cfg, s.world, m.key).value);
  }

  lemma HeldReady(cfg: Config, s1: System, s2: System, m1: Machine, m: Machine, v0: VM, c: nat, pid: nat)
    requires AtOdds(cfg, m1, m, v0) && Pushing(cfg, s1, m1, c) && Holds(cfg, m, v0, VMOf(cfg, s1.world, m.key))
    requires HasPushed(cfg, s1, s2, m1, c) && pid != c && OpenScope(m).Some? && pid in s1.procs && s1.procs[pid] == Begun(cfg, m)
    ensures Pushing(cfg, s2, m, pid) && Holds(cfg, m1, v0, VMOf(cfg, s2.world, m.key))
  {
    hide BuildVM, Wanted, OpenScope, Differs, Begun, VMOf, VersionsOk, SyncedWith;
    assert Holds(cfg, m1, v0, VMOf(cfg, s2.world, m.key));
    OddsDiffer(cfg, m1, m, v0, VMOf(cfg, s2.world, m.key).value);
  }

  lemma StillHolds(cfg: Config, s2: System, s3: System, m1: Machine, m: Machine, v0: VM, pid: nat)
    requires Holds(cfg, m1, v0, VMOf(cfg, s2.world, m.key)) && HasPushed(cfg, s2, s3, m, pid)
    ensures Holds(cfg, m, v0, VMOf(cfg, s3.world, m.key)) && s3.world.tenant == s2.world.tenant
  {
    hide Wanted, OpenScope, VMOf, VersionsOk, SyncedWith, SameContent;
  }

  lemma {:induction false} Alternate(cfg: Config, start: System, acts: seq<Action>, s: System, updaters: set<nat>, writes: nat,
                                     m: Machine, m1: Machine, v0: VM, stale: set<nat>)
    returns (acts': seq<Action>, s': System, updaters': set<nat>)
    requires Reach(cfg, start, m.key, acts, s, updaters, writes) && AtOdds(cfg, m, m1, v0) && AtOdds(cfg, m1, m, v0)
    requires Waiting(cfg, s, m, m1, v0, stale) && stale <= updaters
    ensures Reach(cfg, start, m.key, acts', s', updaters', writes + 2 * |stale|)
    decreases |stale|
  {
    hide Reach, AtOdds, Waiting;
    if stale == {} {
      acts', s', updaters' := acts, s, updaters;
    } else {
      var pid :| pid in stale;
      var acts1, s1, updaters1 := OneMore(cfg, start, acts, s, updaters, writes, m, m1, v0, stale, pid);
      acts', s', updaters' := Alternate(cfg, start, acts1, s1, updaters1, writes + 2, m, m1, v0, stale - {pid});
    }
  }

  lemma {:induction false} Queue(cfg: Config, start: System, m: Machine, n: nat)
    returns (acts: seq<Action>, s: System, stale: set<nat>)
    requires VersionsOk(start.world) && start.procs == map[] && MachineOf(start.world, m.key) == Some(m) && Buildable(cfg, m)
    ensures OpenScope(m).Some? && Reach(cfg, start, m.key, acts, s, stale, 0) && s.world == start.world && |stale| == n
    ensures s.procs.Keys == stale && forall pid | pid in stale :: s.procs[pid] == Begun(cfg, m)
  {
    if n == 0 {
      acts, s, stale := [], start, {};
      hide BuildVM, Begun, OpenScope, VersionsOk;
    } else {
      hide *;
      var acts1, s1, stale1 := Queue(cfg, start, m, n - 1);
      var pid := FreshPid(s1.procs.Keys);
      assert pid !in s1.procs.Keys;
      acts, s := Launched(cfg, start, acts1, s1, stale1, 0, m, pid);
      stale := stale1 + {pid};
    }
  }

  /** The process that has pushed patches the Machine's metadata. */
  lemma Patched(cfg: Config, start: System, acts: seq<Action>, s: System, updaters: set<nat>, writes: nat, m: Machine, pid: nat)
    returns (acts': seq<Action>, s': System, m1: Machine)
    requires VersionsOk(start.world) && start.procs == map[]
    requires Reach(cfg, start, m.key, acts, s, updaters, writes) && pid in updaters && pid in s.procs
    requires MachineOf(s.world, m.key) == Some(m) && VMOf(cfg, s.world, m.key).Some?
    requires s.procs[pid].PatchMeta? && s.procs[pid].origin == m && s.procs[pid].m == SyncedWith(m, VMOf(cfg, s.world, m.key).value, None, None)
    ensures Reach(cfg, start, m.key, acts', s', updaters, writes)
    ensures m1 == MergeMain(m, SyncedWith(m, VMOf(cfg, s.world, m.key).value, None, None), m) && MachineOf(s'.world, m.key) == Some(m1)
    ensures s'.world.infra == s.world.infra && s'.procs.Keys == s.procs.Keys && forall q | q in s.procs && q != pid :: s'.procs[q] == s.procs[q]
  {
    var a := Advance(pid, Delivered, GOOD);
    m1 := MergeMain(m, SyncedWith(m, VMOf(cfg, s.world, m.key).value, None, None), m);
    acts', s' := acts + [a], Exec(cfg, s, a);
    assert s.procs[pid].m.key == m.key;
    hide SyncedWith, MergeMain, DecodedOver, RestoreStatus, VMKey;
    assert s'.world.infra == s.world.infra && MachineOf(s'.world, m.key) == Some(m1);
    assert !IsWrite(cfg, s, a, m.key, updaters);
    hide Exec, Step, IsWrite, VMOf, MachineOf;
    assert acts[..|acts|] == acts;
    AlwaysOk(cfg, start, acts, |acts|);
    ExecOk(cfg, s, a);
    Snoc(cfg, start, m.key, acts, s, updaters, writes, a);
  }

  /** The process has pushed the Machine's VM, and nothing is patched yet. */
  predicate AboutToPatch(cfg: Config, s: System, m: Machine, v0: VM, v1: VM, pid: nat) {
    && MachineOf(s.world, m.key) == Some(m) && VMOf(cfg, s.world, m.key) == Some(v1) && Holds(cfg, m, v0, Some(v1))
    && pid in s.procs && s.procs[pid].PatchMeta? && s.procs[pid].origin == m && s.procs[pid].m == SyncedWith(m, v1, None, None)
  }

  lemma FirstPush(cfg: Config, start: System, acts: seq<Action>, s: System, stale: set<nat>, m: Machine, v0: VM, pid: nat)
    returns (acts': seq<Action>, s': System, v1: VM)
    requires OpenScope(m).Some? && Buildable(cfg, m) && !v0.status.ready && Differs(cfg, m, v0)
    requires MachineOf(s.world, m.key) == Some(m) && VMOf(cfg, s.world, m.key) == Some(v0) && pid !in s.procs
    requires Reach(cfg, start, m.key, acts, s, stale, 0)
    ensures Reach(cfg, start, m.key, acts', s', stale + {pid}, 1) && AboutToPatch(cfg, s', m, v0, v1, pid)
    ensures forall q | q in s.procs :: q in s'.procs && s'.procs[q] == s.procs[q]
  {
    hide *;
    var acts1, s1 := Launched(cfg, start, acts, s, stale, 0, m, pid);
    LaunchedIsPushing(cfg, start, acts1, s1, stale + {pid}, m, v0, pid, s);
    acts', s' := Pushed(cfg, start, acts1, s1, stale + {pid}, 0, m, pid);
    v1 := PushedPatches(cfg, s1, s', m, v0, pid);
  }

  lemma LaunchedIsPushing(cfg: Config, start: System, acts: seq<Action>, s1: System, updaters: set<nat>, m: Machine, v0: VM, pid: nat, s: System)
    requires OpenScope(m).Some? && Buildable(cfg, m) && !v0.status.ready && Differs(cfg, m, v0)
    requires VMOf(cfg, s.world, m.key) == Some(v0) && MachineOf(s.world, m.key) == Some(m)
    requires s1 == s.(procs := s.procs[pid := Begun(cfg, m)]) && Reach(cfg, start, m.key, acts, s1, updaters, 0)
    ensures Pushing(cfg, s1, m, pid) && VMOf(cfg, s1.world, m.key) == Some(v0) && MachineOf(s1.world, m.key) == Some(m)
  {
    assert VersionsOk(s1.world);
    hide Reach, VersionsOk, Begun, Buildable, Differs, OpenScope;
  }

  lemma PushedPatches(cfg: Config, s1: System, s': System, m: Machine, v0: VM, pid: nat) returns (v1: VM)
    requires VMOf(cfg, s1.world, m.key) == Some(v0) && MachineOf(s1.world, m.key) == Some(m) && pid in s1.procs
    requires HasPushed(cfg, s1, s', m, pid)
    ensures AboutToPatch(cfg, s', m, v0, v1, pid) && forall q | q in s1.procs && q != pid :: q in s'.procs && s'.procs[q] == s1.procs[q]
  {
    v1 := VMOf(cfg, s'.world, m.key).value;
    hide VMOf, SyncedWith, VersionsOk, Wanted, OpenScope, SameContent;
  }

  /** One more Update pushes and patches, and the waiting ones are stale. */
  lemma FirstSync(cfg: Config, start: System, acts: seq<Action>, s: System, stale: set<nat>, m: Machine, v0: VM)
    returns (acts': seq<Action>, s': System, m1: Machine, updaters: set<nat>)
    requires VersionsOk(start.world) && start.procs == map[]
    requires OpenScope(m).Some? && Buildable(cfg, m) && !v0.status.ready && Differs(cfg, m, v0) && Stale(cfg, m, v0)
    requires MachineOf(s.world, m.key) == Some(m) && VMOf(cfg, s.world, m.key) == Some(v0)
    requires Reach(cfg, start, m.key, acts, s, stale, 0) && s.procs.Keys == stale && forall pid | pid in stale :: s.procs[pid] == Begun(cfg, m)
    ensures Reach(cfg, start, m.key, acts', s', updaters, 1) && stale <= updaters
    ensures Waiting(cfg, s', m, m1, v0, stale) && AtOdds(cfg, m, m1, v0) && AtOdds(cfg, m1, m, v0)
  {
    hide Buildable, Differs, Stale, Begun, Reach, OpenScope, VersionsOk, MachineOf, VMOf, SyncedWith, MergeMain, AtOdds, Holds;
    var pid := FreshPid(s.procs.Keys);
    assert pid !in s.procs.Keys;
    updaters := stale + {pid};
    var acts1, s1, v1 := FirstPush(cfg, start, acts, s, stale, m, v0, pid);
    acts', s', m1 := Patched(cfg, start, acts1, s1, updaters, 1, m, pid);
    SameInfra(cfg, s1.world, s'.world, m.key);
    SyncedAtOdds(cfg, m, v0, v1);
  }

  lemma SameTenant(w: World, w': World, mk: Key)
    requires w.tenant == w'.tenant
    ensures MachineOf(w, mk) == MachineOf(w', mk)
  {
  }

  lemma SameInfra(cfg: Config, w: World, w': World, mk: Key)
    requires w.infra == w'.infra
    ensures VMOf(cfg, w, mk) == VMOf(cfg, w', mk)
  {
  }

  /**
   The input: any Machine that can be built, whose VM is not ready, differs from what the Machine
   wants and is not recorded in it yet. Start n Updates and let them wait, let one more push and
   patch, then let new Updates and waiting ones push in turn. Nobody else does anything, and yet
   there are 1 + 2n writes: without the turns there is no bound at all.
   */
  lemma OverlapBreaksTheBound(cfg: Config, start: System, m: Machine, v0: VM, n: nat) returns (acts: seq<Action>)
    requires VersionsOk(start.world) && start.procs == map[] && MachineOf(start.world, m.key) == Some(m) && VMOf(cfg, start.world, m.key) == Some(v0)
    requires Buildable(cfg, m) && !v0.status.ready && Differs(cfg, m, v0) && Stale(cfg, m, v0)
    ensures Writes(cfg, start, acts, m.key) == 1 + 2 * n
    ensures TotalCost(cfg, start, acts, m.key) == 0 && forall i | 0 <= i < |acts| :: !acts[i].Environment?
    ensures n > 0 ==> !NoOverlap(cfg, start, acts, m.key)
  {
    hide *;
    var acts1, s1, stale := Queue(cfg, start, m, n);
    SameTenant(start.world, s1.world, m.key);
    SameInfra(cfg, start.world, s1.world, m.key);
    var acts2, s2, m1, updaters := FirstSync(cfg, start, acts1, s1, stale, m, v0);
    var acts3, s3, updaters3 := Alternate(cfg, start, acts2, s2, updaters, 1, m, m1, v0, stale);
    acts := acts3;
    BoundBroken(cfg, start, acts, s3, updaters3, m.key, n);
  }

  lemma BoundBroken(cfg: Config, start: System, acts: seq<Action>, s: System, updaters: set<nat>, mk: Key, n: nat)
    requires VersionsOk(start.world) && start.procs == map[] && Reach(cfg, start, mk, acts, s, updaters, 1 + 2 * n)
    ensures Writes(cfg, start, acts, mk) == 1 + 2 * n
    ensures TotalCost(cfg, start, acts, mk) == 0 && forall i | 0 <= i < |acts| :: !acts[i].Environment?
    ensures n > 0 ==> !NoOverlap(cfg, start, acts, mk)
  {
    if n > 0 && NoOverlap(cfg, start, acts, mk) {
      BoundedWrites(cfg, start, acts, mk);
      assert false;
    }
  }

  lemma SyncedAtOdds(cfg: Config, m: Machine, v0: VM, v1: VM)
    requires Buildable(cfg, m) && Stale(cfg, m, v0) && Holds(cfg, m, v0, Some(v1)) && !v0.status.ready
    ensures var m1 := MergeMain(m, SyncedWith(m, v1, None, None), m); AtOdds(cfg, m, m1, v0) && AtOdds(cfg, m1, m, v0)
  {
    var m1 := MergeMain(m, SyncedWith(m, v1, None, None), m);
    WantedSpec(cfg, m);
    MergedIsRecorded(cfg, m, v1, m);
    SyncKeepsBuildable(cfg, m, m1);
    SameStale(cfg, m, m, v0, v1);
    SecondDiffers(cfg, m, m1, v1, v1);
    hide Wanted, BuildVM, OpenScope, MergeMain, SyncedWith, Stale;
  }
}
