/** What each actuator operation, run with nothing in between, does to the infra cluster. */
module WholeRuns {
  import opened Wrappers
  import opened JsonValue
  import opened Resources
  import opened MachineScope
  import opened Cluster
  import opened Protocol
  import opened Interleaving
  import UserData

  predicate PastInfra(p: Proc) { p.ReadVMI? || PatchProc(p) || Finished(p) }

  /** Once the VM call is made, the infra cluster is only read. */
  lemma {:induction false} TailKeepsInfra(cfg: Config, w: World, p: Proc, net: Net)
    requires PastInfra(p)
    ensures Run(cfg, w, p, net).0.infra == w.infra
    decreases Rank(p)
  {
    RunStep(cfg, w, p, net);
    if !Finished(p) {
      hide Run;
      var (w', p') := Step(cfg, w, p, WireFor(net, p), net.choice);
      assert PastInfra(p') && w'.infra == w.infra;
      StepLowersRank(cfg, w, p, WireFor(net, p), net.choice);
      TailKeepsInfra(cfg, w', p', net);
    }
  }

  function UserDataOf(w: World, m: Machine): Option<Json> {
    var key := Key(m.key.namespace, OpenScope(m).GetOr(NO_SPEC).ignitionSecretName);
    if key in w.tenant.userSecrets && USER_DATA_KEY in w.tenant.userSecrets[key]
    then w.tenant.userSecrets[key][USER_DATA_KEY] else None
  }

  /** The Machine opens and its user data can take the host name. */
  predicate HasUserData(w: World, m: Machine) {
    OpenScope(m).Some? && UserData.InDomain(UserDataOf(w, m))
  }

  predicate Buildable(cfg: Config, m: Machine) {
    OpenScope(m).Some? && BuildVM(cfg, OpenScope(m).value, m).Built?
  }

  predicate TakesLatch(cfg: Config, w: World, m: Machine, net: Net) {
    HasUserData(w, m) && net.getSecret.Delivered? && !net.createSecret.Dropped? && SecretKey(cfg, m.key.name) !in w.infra.secrets
  }

  predicate MakesTheVM(cfg: Config, w: World, m: Machine, net: Net) {
    TakesLatch(cfg, w, m, net) && net.createSecret.Delivered? && Buildable(cfg, m) && !net.createVM.Dropped?
    && VMKey(cfg, m.key.name) !in w.infra.vms
  }

  /**
   A Create leaves the secret behind exactly when it got as far as creating it, and the VM exactly
   when it also got the answer, the provider spec was acceptable and the name was free.
   */
  lemma CreateRun(cfg: Config, w: World, m: Machine, net: Net)
    ensures var i := Run(cfg, w, StartCreate(m), net).0.infra;
            && i.secrets.Keys == w.infra.secrets.Keys + (if TakesLatch(cfg, w, m, net) then {SecretKey(cfg, m.key.name)} else {})
            && i.vms.Keys == w.infra.vms.Keys + (if MakesTheVM(cfg, w, m, net) then {VMKey(cfg, m.key.name)} else {})
  {
    RunStep(cfg, w, StartCreate(m), net);
    hide Run;
    if OpenScope(m).Some? {
      var (_, p) := Step(cfg, w, FetchUserData(m), net.getSecret, net.choice);
      if p.MakeSecret? {
        hide Step;
        SecretRun(cfg, w, m, p.secret, net);
      } else {
        RunStep(cfg, w, p, net);
      }
    }
  }

  lemma SecretRun(cfg: Config, w: World, m: Machine, secret: Secret, net: Net)
    requires OpenScope(m).Some? && secret.key == SecretKey(cfg, m.key.name)
    ensures var i := Run(cfg, w, MakeSecret(m, secret), net).0.infra;
            var taken := !net.createSecret.Dropped? && secret.key !in w.infra.secrets;
            && i.secrets.Keys == w.infra.secrets.Keys + (if taken then {secret.key} else {})
            && i.vms.Keys == w.infra.vms.Keys +
                 (if taken && net.createSecret.Delivered? && Buildable(cfg, m) && !net.createVM.Dropped?
                     && VMKey(cfg, m.key.name) !in w.infra.vms then {VMKey(cfg, m.key.name)} else {})
  {
    RunStep(cfg, w, MakeSecret(m, secret), net);
    hide Run;
    var (w', p') := Step(cfg, w, MakeSecret(m, secret), net.createSecret, net.choice);
    if p'.MakeVM? {
      assert p'.desired.key == VMKey(cfg, m.key.name);
      VMRun(cfg, w', m, p'.desired, net);
    } else {
      TailKeepsInfra(cfg, w', p', net);
    }
  }

  lemma VMRun(cfg: Config, w: World, m: Machine, desired: VM, net: Net)
    ensures var i := Run(cfg, w, MakeVM(m, desired), net).0.infra;
            && i.secrets == w.infra.secrets
            && i.vms.Keys == w.infra.vms.Keys + (if !net.createVM.Dropped? then {desired.key} else {})
  {
    RunStep(cfg, w, MakeVM(m, desired), net);
    hide Run;
    var (w', p') := Step(cfg, w, MakeVM(m, desired), net.createVM, net.choice);
    assert PastInfra(p') && w'.infra.secrets == w.infra.secrets;
    assert w'.infra.vms.Keys == w.infra.vms.Keys + (if !net.createVM.Dropped? then {desired.key} else {});
    hide Step;
    TailKeepsInfra(cfg, w', p', net);
  }

  /** The stored VM after an Update of the Machine. */
  function Updated(cfg: Config, w: World, m: Machine, net: Net): Infra {
    if !Buildable(cfg, m) || !net.getVM.Delivered? || VMKey(cfg, m.key.name) !in w.infra.vms then w.infra else
    UpdateVMCall(cfg, w.infra, DesiredVM(cfg, OpenScope(m).value, m).(resourceVersion := w.infra.vms[VMKey(cfg, m.key.name)].resourceVersion),
                 net.updateVM).0
  }

  lemma UpdateRun(cfg: Config, w: World, m: Machine, net: Net)
    ensures Run(cfg, w, StartUpdate(cfg, m), net).0.infra == Updated(cfg, w, m, net)
    ensures Updated(cfg, w, m, net).vms.Keys == w.infra.vms.Keys && Updated(cfg, w, m, net).secrets == w.infra.secrets
  {
    UpdatedKeys(cfg, w, m, net);
    var p := StartUpdate(cfg, m);
    if p.LookupVM? {
      assert p == LookupVM(m, DesiredVM(cfg, OpenScope(m).value, m));
      hide BuildVM, DesiredVM;
      LookupRun(cfg, w, m, p.desired, net);
    } else {
      TailKeepsInfra(cfg, w, p, net);
    }
  }

  lemma UpdatedKeys(cfg: Config, w: World, m: Machine, net: Net)
    ensures Updated(cfg, w, m, net).vms.Keys == w.infra.vms.Keys && Updated(cfg, w, m, net).secrets == w.infra.secrets
  {
  }

  lemma LookupRun(cfg: Config, w: World, m: Machine, desired: VM, net: Net)
    ensures Run(cfg, w, LookupVM(m, desired), net).0.infra ==
            if !net.getVM.Delivered? || desired.key !in w.infra.vms then w.infra else
            UpdateVMCall(cfg, w.infra, desired.(resourceVersion := w.infra.vms[desired.key].resourceVersion), net.updateVM).0
  {
    RunStep(cfg, w, LookupVM(m, desired), net);
    hide Run;
    var (_, p1) := Step(cfg, w, LookupVM(m, desired), net.getVM, net.choice);
    if p1.PutVM? {
      RunStep(cfg, w, p1, net);
      var (w2, p2) := Step(cfg, w, p1, net.updateVM, net.choice);
      assert PastInfra(p2);
      TailKeepsInfra(cfg, w2, p2, net);
    } else {
      TailKeepsInfra(cfg, w, p1, net);
    }
  }

  lemma {:induction false} RunVersions(cfg: Config, w: World, p: Proc, net: Net)
    requires VersionsOk(w) && ProcOk(cfg, w, p)
    ensures var (w', p') := Run(cfg, w, p, net); VersionsOk(w') && ProcOk(cfg, w', p')
    decreases Rank(p)
  {
    RunStep(cfg, w, p, net);
    if !Finished(p) {
      hide Step, Run;
      StepLowersRank(cfg, w, p, WireFor(net, p), net.choice);
      StepOk(cfg, w, p, WireFor(net, p), net.choice);
      var (w', p') := Step(cfg, w, p, WireFor(net, p), net.choice);
      RunVersions(cfg, w', p', net);
    }
  }

  /** A Delete that succeeds has left no VM under the Machine's name, unless the deletion lingers. */
  lemma DeleteRun(cfg: Config, w: World, m: Machine, net: Net)
    requires VersionsOk(w)
    ensures var (w', p') := Run(cfg, w, StartDelete(cfg, m), net);
            && w'.tenant == w.tenant && w'.infra.secrets == w.infra.secrets
            && (w'.infra.vms == w.infra.vms || w'.infra.vms == w.infra.vms - {VMKey(cfg, m.key.name)})
            && (p' == Done(Success) && !net.choice.lingers ==> w'.infra.vms == w.infra.vms - {VMKey(cfg, m.key.name)})
  {
    var p := StartDelete(cfg, m);
    if Finished(p) {
      RunStep(cfg, w, p, net);
    } else {
      assert p == FindDoomed(VMKey(cfg, m.key.name));
      hide Run, StartDelete;
      DoomedRun(cfg, w, VMKey(cfg, m.key.name), net);
    }
  }

  lemma DoomedRun(cfg: Config, w: World, key: Key, net: Net)
    requires VersionsOk(w)
    ensures var (w', p') := Run(cfg, w, FindDoomed(key), net);
            && w'.tenant == w.tenant && w'.infra.secrets == w.infra.secrets
            && (w'.infra.vms == w.infra.vms || w'.infra.vms == w.infra.vms - {key})
            && (p' == Done(Success) && !net.choice.lingers ==> w'.infra.vms == w.infra.vms - {key})
  {
    hide Run;
    RunStep(cfg, w, FindDoomed(key), net);
    var r := GetVMCall(w.infra, key, net.getVM);
    var p1 := if r.Ok? then DeleteVM(r.value.key) else Done(if r.NotFound? then Success else Failed);
    RunStep(cfg, w, p1, net);
    if r.Ok? {
      var (w2, p2) := Step(cfg, w, p1, net.deleteVM, net.choice);
      RunStep(cfg, w2, p2, net);
    }
  }
}
