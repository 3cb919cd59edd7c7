/**
 The ignition secret as a latch: Create takes it before it creates the VM, and no operation ever
 gives it back. Hence a VM is created at most once per machine name; hence, too, a name whose
 secret is there and whose VM is gone never gets a VM again.
 */
module Latch {
  import opened Resources
  import opened MachineScope
  import opened Cluster
  import opened Protocol
  import opened Interleaving

  predicate Holds(p: Proc, key: Key) { p.MakeVM? && p.desired.key == key }

  /** The processes between taking the latch of a name and their attempt to create its VM. */
  function Holders(s: System, key: Key): set<nat> {
    set pid | pid in s.procs && Holds(s.procs[pid], key)
  }

  predicate IsAttempt(s: System, a: Action, key: Key) {
    a.Advance? && a.pid in s.procs && Holds(s.procs[a.pid], key)
  }

  /** How many times some process has called the infra cluster to create this VM. */
  function Attempts(cfg: Config, s: System, acts: seq<Action>, key: Key): nat {
    if acts == [] then 0 else
    var front := acts[..|acts| - 1];
    Attempts(cfg, s, front, key) + if IsAttempt(After(cfg, s, front), acts[|acts| - 1], key) then 1 else 0
  }

  predicate Latched(cfg: Config, s: System, name: string) { SecretKey(cfg, name) in s.world.infra.secrets }

  /** Nobody deletes the name's secret. */
  predicate KeepsSecret(cfg: Config, a: Action, name: string) {
    a.Environment? ==> !(a.event.DropSecret? && a.event.key == SecretKey(cfg, name))
  }

  /** Nobody but the controllers deletes the name's secret or creates its VM. */
  predicate Undisturbed(cfg: Config, a: Action, name: string) {
    KeepsSecret(cfg, a, name) && (a.Environment? ==> !(a.event.ImportVM? && a.event.new_.key == VMKey(cfg, name)))
  }

  predicate AllUndisturbed(cfg: Config, acts: seq<Action>, name: string) {
    forall i | 0 <= i < |acts| :: Undisturbed(cfg, acts[i], name)
  }

  lemma SecretNamesDiffer(a: string, b: string)
    ensures IgnitionSecretName(a) == IgnitionSecretName(b) <==> a == b
    ensures BootVolumeName(a) == BootVolumeName(b) <==> a == b
  {
    assert IgnitionSecretName(a)[..|a|] == a && IgnitionSecretName(b)[..|b|] == b;
    assert BootVolumeName(a)[..|a|] == a && BootVolumeName(b)[..|b|] == b;
    assert |IgnitionSecretName(a)| == |a| + 9 && |IgnitionSecretName(b)| == |b| + 9;
    assert |BootVolumeName(a)| == |a| + 11 && |BootVolumeName(b)| == |b| + 11;
  }

  /** What one step of one process does to the latch of a name, the process itself, and the VM. */
  lemma LatchStep(cfg: Config, w: World, p: Proc, wire: Wire, choice: Choice, name: string)
    requires VersionsOk(w) && ProcOk(cfg, w, p)
    ensures var (w', p') := Step(cfg, w, p, wire, choice);
            var key := VMKey(cfg, name);
            && (SecretKey(cfg, name) in w.infra.secrets ==> SecretKey(cfg, name) in w'.infra.secrets)
            && (Holds(p, key) ==> !Holds(p', key))
            && (Holds(p', key) ==> SecretKey(cfg, name) !in w.infra.secrets && SecretKey(cfg, name) in w'.infra.secrets
                                   && w'.infra.vms == w.infra.vms)
            && (key in w'.infra.vms && key !in w.infra.vms ==> Holds(p, key))
            && (key in w'.infra.vms && key in w.infra.vms ==> w'.infra.vms[key].uid == w.infra.vms[key].uid)
  {
    if p.MakeSecret? {
      SecretNamesDiffer(p.m.key.name, name);
      AfterSecretHolds(cfg, p.m, VMKey(cfg, name));
    } else if InfraProc(p) {
      InfraHolds(cfg, w, p, wire, choice, VMKey(cfg, name));
    }
  }

  lemma AfterSecretHolds(cfg: Config, m: Machine, key: Key)
    ensures Holds(AfterSecret(cfg, m), key) ==> key == VMKey(cfg, m.key.name)
  {
  }

  lemma InfraHolds(cfg: Config, w: World, p: Proc, wire: Wire, choice: Choice, key: Key)
    requires VersionsOk(w) && ProcOk(cfg, w, p) && InfraProc(p) && !p.MakeSecret?
    ensures var (w', p') := StepInfra(cfg, w, p, wire, choice);
            && w'.infra.secrets == w.infra.secrets
            && !Holds(p', key)
            && (key in w'.infra.vms && key !in w.infra.vms ==> Holds(p, key))
            && (key in w'.infra.vms && key in w.infra.vms ==> w'.infra.vms[key].uid == w.infra.vms[key].uid)
  {
    hide BuildVM;
  }

  lemma EventKeepsLatch(cfg: Config, i: Infra, e: Event, name: string)
    requires KeepsSecret(cfg, Environment(e), name)
    ensures SecretKey(cfg, name) in i.secrets ==> SecretKey(cfg, name) in InfraEvent(i, e).secrets
    ensures Undisturbed(cfg, Environment(e), name) && VMKey(cfg, name) in InfraEvent(i, e).vms ==>
              VMKey(cfg, name) in i.vms && InfraEvent(i, e).vms[VMKey(cfg, name)].uid == i.vms[VMKey(cfg, name)].uid
  {
  }

  /** All attempts so far and all that can still come without taking the latch anew are one at most, and only if it is taken. */
  predicate LatchOk(cfg: Config, s: System, name: string, attempts: nat) {
    && |Holders(s, VMKey(cfg, name))| + attempts <= 1
    && (|Holders(s, VMKey(cfg, name))| + attempts > 0 ==> Latched(cfg, s, name))
  }

  /** While there is a VM the latch is taken and nobody holds it. */
  predicate VMSeals(cfg: Config, s: System, name: string) {
    VMKey(cfg, name) in s.world.infra.vms ==> Sealed(cfg, s, name)
  }

  lemma LaunchHoldsNothing(cfg: Config, s: System, a: Action, key: Key)
    requires a.Launch?
    ensures Exec(cfg, s, a).world == s.world && Holders(Exec(cfg, s, a), key) == Holders(s, key)
  {
    var p := Start(cfg, s.world, a.job);
    StartShape(cfg, s.world, a.job);
    hide Start, Step;
    assert Holders(Exec(cfg, s, a), key) == Holders(s, key);
  }

  lemma HoldersAfterAdvance(cfg: Config, s: System, a: Action, key: Key)
    requires a.Advance? && a.pid in s.procs
    ensures var s', p' := Exec(cfg, s, a), Step(cfg, s.world, s.procs[a.pid], a.wire, a.choice).1;
            Holders(s', key) == Holders(s, key) - {a.pid} + if Holds(p', key) then {a.pid} else {}
  {
    hide Step;
    var s', p' := Exec(cfg, s, a), Step(cfg, s.world, s.procs[a.pid], a.wire, a.choice).1;
    assert s'.procs == s.procs[a.pid := p'];
    forall pid ensures pid in Holders(s', key) <==> pid in Holders(s, key) - {a.pid} + if Holds(p', key) then {a.pid} else {} {
    }
  }

  lemma LatchKept(cfg: Config, s: System, a: Action, name: string, attempts: nat)
    requires SystemOk(cfg, s) && LatchOk(cfg, s, name, attempts) && KeepsSecret(cfg, a, name)
    ensures LatchOk(cfg, Exec(cfg, s, a), name, attempts + if IsAttempt(s, a, VMKey(cfg, name)) then 1 else 0)
    ensures VMSeals(cfg, s, name) && Undisturbed(cfg, a, name) ==> VMSeals(cfg, Exec(cfg, s, a), name)
  {
    var key := VMKey(cfg, name);
    match a
    case Launch(_, _) =>
      LaunchHoldsNothing(cfg, s, a, key);
    case Environment(e) =>
      EventKeepsLatch(cfg, s.world.infra, e, name);
      assert Exec(cfg, s, a).procs == s.procs;
      assert Holders(Exec(cfg, s, a), key) == Holders(s, key);
    case Advance(_, _, _) =>
      AdvanceKeepsLatch(cfg, s, a, name, attempts);
  }

  lemma AdvanceKeepsLatch(cfg: Config, s: System, a: Action, name: string, attempts: nat)
    requires SystemOk(cfg, s) && LatchOk(cfg, s, name, attempts) && a.Advance?
    ensures LatchOk(cfg, Exec(cfg, s, a), name, attempts + if IsAttempt(s, a, VMKey(cfg, name)) then 1 else 0)
    ensures VMSeals(cfg, s, name) ==> VMSeals(cfg, Exec(cfg, s, a), name)
  {
    var key := VMKey(cfg, name);
    hide Step, ProcOk, VersionsOk;
    if a.pid in s.procs {
      var p := s.procs[a.pid];
      assert ProcOk(cfg, s.world, p);
      LatchStep(cfg, s.world, p, a.wire, a.choice, name);
      HoldersAfterAdvance(cfg, s, a, key);
      hide Holders, VMKey, SecretKey;
      if Holds(p, key) {
        assert a.pid in Holders(s, key);
        OneHolder(Holders(s, key), a.pid);
      } else {
        assert a.pid !in Holders(s, key);
      }
    }
  }

  lemma OneHolder(h: set<nat>, pid: nat)
    requires pid in h && |h| <= 1
    ensures h == {pid}
  {
    assert |h - {pid}| == |h| - 1;
  }

  /**
   Over every interleaving of any number of operations, whatever others do short of deleting the
   name's secret, at most one attempt is ever made to create its VM.
   */
  lemma {:induction false} OneShotCreation(cfg: Config, s: System, acts: seq<Action>, name: string)
    requires VersionsOk(s.world) && s.procs == map[]
    requires forall i | 0 <= i < |acts| :: KeepsSecret(cfg, acts[i], name)
    ensures Attempts(cfg, s, acts, VMKey(cfg, name)) <= 1
    ensures LatchOk(cfg, After(cfg, s, acts), name, Attempts(cfg, s, acts, VMKey(cfg, name)))
    ensures VMSeals(cfg, s, name) && AllUndisturbed(cfg, acts, name) ==> VMSeals(cfg, After(cfg, s, acts), name)
    decreases |acts|
  {
    hide Exec, VMSeals;
    if acts == [] {
      assert Holders(s, VMKey(cfg, name)) == {};
    } else {
      var front := acts[..|acts| - 1];
      OneShotCreation(cfg, s, front, name);
      AlwaysOk(cfg, s, front, |front|);
      assert front[..|front|] == front;
      LatchKept(cfg, After(cfg, s, front), acts[|acts| - 1], name, Attempts(cfg, s, front, VMKey(cfg, name)));
      assert AllUndisturbed(cfg, acts, name) ==> AllUndisturbed(cfg, front, name);
    }
  }

  // -------- once the latch is taken and nobody holds it --------

  predicate Sealed(cfg: Config, s: System, name: string) {
    Latched(cfg, s, name) && Holders(s, VMKey(cfg, name)) == {}
  }

  lemma SealedKept(cfg: Config, s: System, a: Action, name: string)
    requires SystemOk(cfg, s) && Sealed(cfg, s, name) && Undisturbed(cfg, a, name)
    ensures Sealed(cfg, Exec(cfg, s, a), name)
    ensures var key, s' := VMKey(cfg, name), Exec(cfg, s, a);
            key in s'.world.infra.vms ==> key in s.world.infra.vms && s'.world.infra.vms[key].uid == s.world.infra.vms[key].uid
  {
    var key := VMKey(cfg, name);
    match a
    case Launch(_, _) =>
      LaunchHoldsNothing(cfg, s, a, key);
    case Environment(e) =>
      EventKeepsLatch(cfg, s.world.infra, e, name);
      assert Holders(Exec(cfg, s, a), key) == Holders(s, key);
    case Advance(pid, wire, choice) =>
      hide Step;
      if pid in s.procs {
        assert ProcOk(cfg, s.world, s.procs[pid]);
        LatchStep(cfg, s.world, s.procs[pid], wire, choice, name);
        HoldersAfterAdvance(cfg, s, a, key);
        assert pid !in Holders(s, key);
      }
  }

  /** From a sealed state on, a VM that is there keeps its identity, and one that is gone stays gone. */
  lemma {:induction false} SealedForever(cfg: Config, s: System, acts: seq<Action>, name: string)
    requires SystemOk(cfg, s) && Sealed(cfg, s, name) && AllUndisturbed(cfg, acts, name)
    ensures SystemOk(cfg, After(cfg, s, acts)) && Sealed(cfg, After(cfg, s, acts), name)
    ensures var key, s' := VMKey(cfg, name), After(cfg, s, acts);
            key in s'.world.infra.vms ==> key in s.world.infra.vms && s'.world.infra.vms[key].uid == s.world.infra.vms[key].uid
    decreases |acts|
  {
    hide Exec;
    if acts != [] {
      var front := acts[..|acts| - 1];
      SealedForever(cfg, s, front, name);
      SealedKept(cfg, After(cfg, s, front), acts[|acts| - 1], name);
      ExecOk(cfg, After(cfg, s, front), acts[|acts| - 1]);
    }
  }

  lemma {:induction false} AfterAppend(cfg: Config, s: System, xs: seq<Action>, ys: seq<Action>)
    ensures After(cfg, s, xs + ys) == After(cfg, After(cfg, s, xs), ys)
    decreases |ys|
  {
    hide Exec;
    if ys == [] {
      assert xs + ys == xs;
    } else {
      assert (xs + ys)[..|xs + ys| - 1] == xs + ys[..|ys| - 1];
      AfterAppend(cfg, s, xs, ys[..|ys| - 1]);
    }
  }

  /** The VM's UID for a name never changes once it is assigned, across deletion and re-creation attempts. */
  lemma UidIsForever(cfg: Config, s: System, acts: seq<Action>, name: string, i: nat, j: nat)
    requires VersionsOk(s.world) && s.procs == map[] && AllUndisturbed(cfg, acts, name) && i <= j <= |acts|
    requires VMKey(cfg, name) in s.world.infra.vms ==> Latched(cfg, s, name)
    requires VMKey(cfg, name) in At(cfg, s, acts, i).world.infra.vms && VMKey(cfg, name) in At(cfg, s, acts, j).world.infra.vms
    ensures At(cfg, s, acts, i).world.infra.vms[VMKey(cfg, name)].uid == At(cfg, s, acts, j).world.infra.vms[VMKey(cfg, name)].uid
  {
    hide Exec;
    assert Holders(s, VMKey(cfg, name)) == {};
    OneShotCreation(cfg, s, acts[..i], name);
    AlwaysOk(cfg, s, acts, i);
    assert acts[..j] == acts[..i] + acts[i..j];
    AfterAppend(cfg, s, acts[..i], acts[i..j]);
    SealedForever(cfg, At(cfg, s, acts, i), acts[i..j], name);
  }
}
