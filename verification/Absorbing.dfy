/**
 Create is documented to make the resources of a Machine "if it does not exist". It does not: which
 names can still get a VM is exactly a matter of the latch.
 */
module Absorbing {
  import opened Wrappers
  import opened JsonValue
  import opened Resources
  import opened MachineScope
  import opened Cluster
  import opened Protocol
  import opened Interleaving
  import opened Latch
  import opened WholeRuns
  import UserData

  /** The Machine is stored, can be built and has usable user data. */
  predicate Usable(cfg: Config, w: World, m: Machine) {
    m.key in w.tenant.machines && w.tenant.machines[m.key] == m && Buildable(cfg, m) && HasUserData(w, m)
  }

  lemma After1(cfg: Config, s: System, a: Action)
    ensures After(cfg, s, [a]) == Exec(cfg, s, a)
  {
    hide Exec;
    assert [a][..0] == [];
    assert After(cfg, s, []) == s;
  }

  lemma AfterSnoc(cfg: Config, s: System, acts: seq<Action>, a: Action)
    ensures After(cfg, s, acts + [a]) == Exec(cfg, After(cfg, s, acts), a)
  {
    hide Exec;
    AfterAppend(cfg, s, acts, [a]);
    After1(cfg, After(cfg, s, acts), a);
  }

  function CreateActions(pid: nat, machine: Key): seq<Action> {
    [Launch(pid, CreateJob(machine)), Advance(pid, Delivered, GOOD), Advance(pid, Delivered, GOOD), Advance(pid, Delivered, GOOD)]
  }

  /** From a free latch, one Create whose calls are answered makes the VM. */
  lemma FreeLatchWorks(cfg: Config, s: System, m: Machine, pid: nat)
    requires Usable(cfg, s.world, m) && pid !in s.procs
    requires !Latched(cfg, s, m.key.name) && VMKey(cfg, m.key.name) !in s.world.infra.vms
    ensures VMKey(cfg, m.key.name) in After(cfg, s, CreateActions(pid, m.key)).world.infra.vms
  {
    hide Step, BuildVM, DesiredVM, Start;
    var acts := CreateActions(pid, m.key);
    var s1 := Exec(cfg, s, acts[0]);
    LaunchStep(cfg, s.world, m);
    assert s1 == System(s.world, s.procs[pid := FetchUserData(m)]);
    var s2 := Exec(cfg, s1, acts[1]);
    var secret := IgnitionSecret(cfg, m, UserData.WithHostname(UserDataOf(s.world, m).value, m.key.name));
    FetchStep(cfg, s.world, m);
    assert s2 == System(s.world, s1.procs[pid := MakeSecret(m, secret)]);
    var s3 := Exec(cfg, s2, acts[2]);
    SecretStep(cfg, s.world, m, secret);
    var desired := DesiredVM(cfg, OpenScope(m).value, m);
    assert s3.procs[pid] == MakeVM(m, desired) && s3.world.infra.vms == s.world.infra.vms;
    var s4 := Exec(cfg, s3, acts[3]);
    VMStep(cfg, s3.world, m, desired);
    hide Exec;
    After1(cfg, s, acts[0]);
    AfterSnoc(cfg, s, [acts[0]], acts[1]);
    AfterSnoc(cfg, s, [acts[0]] + [acts[1]], acts[2]);
    AfterSnoc(cfg, s, [acts[0]] + [acts[1]] + [acts[2]], acts[3]);
    assert [acts[0]] + [acts[1]] + [acts[2]] + [acts[3]] == acts;
  }

  lemma LaunchStep(cfg: Config, w: World, m: Machine)
    requires Usable(cfg, w, m)
    ensures Start(cfg, w, CreateJob(m.key)) == Some(FetchUserData(m))
  {
    hide BuildVM;
  }

  lemma VMStep(cfg: Config, w: World, m: Machine, desired: VM)
    requires desired.key !in w.infra.vms
    ensures desired.key in Step(cfg, w, MakeVM(m, desired), Delivered, GOOD).0.infra.vms
  {
  }

  lemma FetchStep(cfg: Config, w: World, m: Machine)
    requires Usable(cfg, w, m)
    ensures Step(cfg, w, FetchUserData(m), Delivered, GOOD)
            == (w, MakeSecret(m, IgnitionSecret(cfg, m, UserData.WithHostname(UserDataOf(w, m).value, m.key.name))))
  {
    hide BuildVM;
  }

  lemma SecretStep(cfg: Config, w: World, m: Machine, secret: Secret)
    requires Usable(cfg, w, m) && secret.key !in w.infra.secrets
    ensures var (w', p') := Step(cfg, w, MakeSecret(m, secret), Delivered, GOOD);
            w'.infra.vms == w.infra.vms && p' == MakeVM(m, DesiredVM(cfg, OpenScope(m).value, m))
    ensures DesiredVM(cfg, OpenScope(m).value, m).key == VMKey(cfg, m.key.name)
  {
  }

  lemma HolderWorks(cfg: Config, s: System, name: string, pid: nat)
    requires pid in Holders(s, VMKey(cfg, name))
    ensures VMKey(cfg, name) in After(cfg, s, [Advance(pid, Delivered, GOOD)]).world.infra.vms
  {
    After1(cfg, s, Advance(pid, Delivered, GOOD));
  }

  /**
   With a usable Machine of that name and no VM, some run of the controllers brings the VM into
   being if and only if the latch is free or some Create still holds it. Otherwise no finite run
   does, however often Create, Update, Delete and Exists are called.
   */
  lemma RevivableExactly(cfg: Config, s: System, m: Machine)
    requires SystemOk(cfg, s) && Usable(cfg, s.world, m) && VMKey(cfg, m.key.name) !in s.world.infra.vms
    ensures (exists acts :: AllUndisturbed(cfg, acts, m.key.name) &&
                            VMKey(cfg, m.key.name) in After(cfg, s, acts).world.infra.vms)
            <==> !Sealed(cfg, s, m.key.name)
  {
    hide Exec, Buildable, HasUserData;
    var name := m.key.name;
    if Sealed(cfg, s, name) {
      forall acts | AllUndisturbed(cfg, acts, name) ensures VMKey(cfg, name) !in After(cfg, s, acts).world.infra.vms {
        SealedForever(cfg, s, acts, name);
      }
    } else if Holders(s, VMKey(cfg, name)) != {} {
      var pid :| pid in Holders(s, VMKey(cfg, name));
      HolderWorks(cfg, s, name, pid);
      assert AllUndisturbed(cfg, [Advance(pid, Delivered, GOOD)], name);
    } else {
      var pid := FreshPid(s.procs.Keys);
      FreeLatchWorks(cfg, s, m, pid);
      assert AllUndisturbed(cfg, CreateActions(pid, m.key), name);
    }
  }

  /** No run from this world, with no operation in flight, ever gives the name a VM. */
  ghost predicate Lost(cfg: Config, w: World, name: string) {
    forall acts | AllUndisturbed(cfg, acts, name) :: VMKey(cfg, name) !in After(cfg, System(w, map[]), acts).world.infra.vms
  }

  lemma SealedIsLost(cfg: Config, w: World, name: string)
    requires VersionsOk(w) && SecretKey(cfg, name) in w.infra.secrets && VMKey(cfg, name) !in w.infra.vms
    ensures Lost(cfg, w, name)
  {
    var s := System(w, map[]);
    assert Holders(s, VMKey(cfg, name)) == {};
    forall acts | AllUndisturbed(cfg, acts, name) ensures VMKey(cfg, name) !in After(cfg, s, acts).world.infra.vms {
      SealedForever(cfg, s, acts, name);
    }
  }

  lemma CreateKeepsVersions(cfg: Config, w: World, m: Machine, net: Net)
    requires VersionsOk(w)
    ensures VersionsOk(Run(cfg, w, StartCreate(m), net).0)
  {
    RunVersions(cfg, w, StartCreate(m), net);
  }

  /** An ordinary Create of a Machine whose provider spec is rejected loses the name for good. */
  lemma RejectedSpecSeals(cfg: Config, w: World, m: Machine, net: Net)
    requires VersionsOk(w) && TakesLatch(cfg, w, m, net) && !Buildable(cfg, m) && VMKey(cfg, m.key.name) !in w.infra.vms
    ensures Lost(cfg, Run(cfg, w, StartCreate(m), net).0, m.key.name)
  {
    hide Run, BuildVM, Lost;
    CreateRun(cfg, w, m, net);
    CreateKeepsVersions(cfg, w, m, net);
    SealedIsLost(cfg, Run(cfg, w, StartCreate(m), net).0, m.key.name);
  }

  /** So does every Create that took the latch and lost the answer, or whose VM call did not arrive. */
  lemma LostCallSeals(cfg: Config, w: World, m: Machine, net: Net)
    requires VersionsOk(w) && TakesLatch(cfg, w, m, net) && VMKey(cfg, m.key.name) !in w.infra.vms
    requires net.createSecret.ReplyLost? || net.createVM.Dropped?
    ensures Lost(cfg, Run(cfg, w, StartCreate(m), net).0, m.key.name)
  {
    hide Run, BuildVM, Lost;
    CreateRun(cfg, w, m, net);
    CreateKeepsVersions(cfg, w, m, net);
    SealedIsLost(cfg, Run(cfg, w, StartCreate(m), net).0, m.key.name);
  }

  /** And so does an ordinary Delete of a Machine that was created normally. */
  lemma DeleteSeals(cfg: Config, w: World, m: Machine, net: Net)
    requires VersionsOk(w) && SecretKey(cfg, m.key.name) in w.infra.secrets && !net.choice.lingers
    requires Run(cfg, w, StartDelete(cfg, m), net).1 == Done(Success)
    ensures Lost(cfg, Run(cfg, w, StartDelete(cfg, m), net).0, m.key.name)
  {
    hide Run, Lost;
    DeleteRun(cfg, w, m, net);
    assert ProcOk(cfg, w, StartDelete(cfg, m));
    hide StartDelete;
    RunVersions(cfg, w, StartDelete(cfg, m), net);
    SealedIsLost(cfg, Run(cfg, w, StartDelete(cfg, m), net).0, m.key.name);
  }

  /** A Machine with nothing in its provider spec but the name of its user-data secret. */
  const BARE := Machine(Key("ns", "worker"), "", map[CLUSTER_LABEL := "cluster"], map[],
                        Some(Obj(map["ignitionSecretName" := Str("worker-user-data")])), None, None, [], None)

  /** That secret holds an empty JSON object; nothing else is there. */
  const EMPTY_WORLD := World(Infra(map[], map[], map[], 0),
                             Tenant(map[BARE.key := BARE], map[], map[Key("ns", "worker-user-data") := map[USER_DATA_KEY := Some(EMPTY)]], None, 0))

  /**
   The input on which Create fails what it is documented to do: a Machine with no VM, whose first
   Create, every call of it answered, loses the name for good.
   */
  lemma CreateDoesNotCreate(cfg: Config)
    ensures VersionsOk(EMPTY_WORLD) && VMKey(cfg, "worker") !in EMPTY_WORLD.infra.vms
    ensures Lost(cfg, Run(cfg, EMPTY_WORLD, StartCreate(BARE), ALL_DELIVERED).0, "worker")
  {
    hide Run, Lost;
    var j := BARE.providerSpec.value;
    assert |"ignitionSecretName"| == 18 && |"sourcePvcName"| == 13 && |"networkName"| == 11;
    assert Member(j, "ignitionSecretName") == Some(Str("worker-user-data")) && Member(j, "sourcePvcName") == None;
    assert j.fields.Keys == {"ignitionSecretName"};
    RejectedSpecSeals(cfg, EMPTY_WORLD, BARE, ALL_DELIVERED);
  }
}
