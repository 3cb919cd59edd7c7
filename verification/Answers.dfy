/**
 What each operation returns to its caller, for every state of the clusters and every fate of its
 calls, said without the steps that lead there.
 */
module Answers {
  import opened Wrappers
  import opened JsonValue
  import opened Resources
  import opened MachineScope
  import opened Cluster
  import opened Protocol
  import opened Interleaving
  import opened WholeRuns
  import opened NodeConvergence
  import opened Feedback
  import UserData

  function KeyOf(cfg: Config, m: Machine): Key { Key(cfg.infraNamespace, m.key.name) }

  // -------- Exists --------

  /** Only an answered lookup tells whether the VM is there; one that failed is an error, never "no". */
  lemma ExistsAnswer(cfg: Config, w: World, m: Machine, net: Net)
    ensures var (w', p) := Run(cfg, w, StartExists(cfg, m), net);
            && w' == w
            && (forall b :: p == Done(Found(b)) <==> net.getVM.Delivered? && b == (KeyOf(cfg, m) in w.infra.vms))
            && (p == Done(Failed) <==> !net.getVM.Delivered?)
  {
    ExistsRun(cfg, w, m, net);
  }

  lemma ExistsRun(cfg: Config, w: World, m: Machine, net: Net)
    ensures Run(cfg, w, StartExists(cfg, m), net)
            == (w, Done(if net.getVM.Delivered? then Found(KeyOf(cfg, m) in w.infra.vms) else Failed))
  {
    RunStep(cfg, w, StartExists(cfg, m), net);
    hide Run;
    var (_, p) := Step(cfg, w, StartExists(cfg, m), net.getVM, net.choice);
    RunStep(cfg, w, p, net);
  }

  // -------- Delete --------

  predicate Opens(cfg: Config, m: Machine) { OpenScope(m).Some? && Accepted(cfg, OpenScope(m).value) }

  predicate OpensToPanic(cfg: Config, m: Machine) { OpenScope(m).Some? && Panics(cfg, OpenScope(m).value) }

  /** Delete is done when it is known that there is no VM, or that its deletion was accepted. */
  predicate DeleteSucceeds(cfg: Config, w: World, m: Machine, net: Net) {
    Opens(cfg, m) && net.getVM.Delivered? && (KeyOf(cfg, m) in w.infra.vms ==> net.deleteVM.Delivered?)
  }

  predicate DeleteTakesEffect(cfg: Config, m: Machine, net: Net) {
    Opens(cfg, m) && net.getVM.Delivered? && !net.deleteVM.Dropped? && !net.choice.lingers
  }

  lemma DeleteAnswer(cfg: Config, w: World, m: Machine, net: Net)
    requires VersionsOk(w)
    ensures var (w', p) := Run(cfg, w, StartDelete(cfg, m), net);
            && !(OpensToPanic(cfg, m) && DeleteSucceeds(cfg, w, m, net))
            && p == (if OpensToPanic(cfg, m) then Crashed else Done(if DeleteSucceeds(cfg, w, m, net) then Success else Failed))
            && w' == w.(infra := w.infra.(vms := if DeleteTakesEffect(cfg, m, net) then w.infra.vms - {KeyOf(cfg, m)} else w.infra.vms))
  {
    var p := StartDelete(cfg, m);
    if OpenScope(m).Some? {
      BuildOutcomes(cfg, OpenScope(m).value, m);
    }
    if Opens(cfg, m) {
      assert p == FindDoomed(KeyOf(cfg, m));
      hide *;
      DoomedAnswer(cfg, w, m, net);
    } else {
      assert p == if OpensToPanic(cfg, m) then Crashed else Done(Failed);
      RunStep(cfg, w, p, net);
    }
  }

  lemma DoomedAnswer(cfg: Config, w: World, m: Machine, net: Net)
    requires VersionsOk(w) && Opens(cfg, m) && !OpensToPanic(cfg, m)
    ensures var (w', p) := Run(cfg, w, FindDoomed(KeyOf(cfg, m)), net);
            && p == Done(if DeleteSucceeds(cfg, w, m, net) then Success else Failed)
            && w' == w.(infra := w.infra.(vms := if DeleteTakesEffect(cfg, m, net) then w.infra.vms - {KeyOf(cfg, m)} else w.infra.vms))
  {
    hide Run, Accepted, Panics, OpenScope;
    var key := KeyOf(cfg, m);
    RunStep(cfg, w, FindDoomed(key), net);
    if key in w.infra.vms && net.getVM.Delivered? {
      RunStep(cfg, w, DeleteVM(key), net);
      var (w', p') := Step(cfg, w, DeleteVM(key), net.deleteVM, net.choice);
      RunStep(cfg, w', p', net);
    } else {
      assert w.infra.vms - {key} == w.infra.vms || !net.getVM.Delivered?;
      RunStep(cfg, w, Done(if net.getVM.Delivered? then Success else Failed), net);
    }
  }

  // -------- Reconcile --------

  /** Reconcile learned where the node's VM is, or is not. */
  predicate Looked(w: World, n: string, net: Net) {
    net.getNode.Delivered? && n in w.tenant.nodes && net.getConfig.Delivered? && NodeVMKey(w, n).Some? && net.getVM.Delivered?
  }

  /** No such node; or its VM is gone and the node removed; or its VM is ready and the node has its ID. */
  predicate ReconcileSucceeds(w: World, n: string, net: Net) {
    || (net.getNode.Delivered? && n !in w.tenant.nodes)
    || (Looked(w, n, net) &&
        var key := NodeVMKey(w, n).value;
        if key !in w.infra.vms then net.deleteNode.Delivered?
        else w.infra.vms[key].status.ready && (w.tenant.nodes[n].providerID != "" || net.updateNode.Delivered?))
  }

  predicate ReconcileWaits(w: World, n: string, net: Net) {
    Looked(w, n, net) && var key := NodeVMKey(w, n).value; key in w.infra.vms && !w.infra.vms[key].status.ready
  }

  lemma ReconcileAnswer(cfg: Config, w: World, n: string, net: Net)
    requires n in w.tenant.nodes ==> w.tenant.nodes[n].name == n
    ensures Run(cfg, w, StartReconcile(n), net).1
            == Done(if ReconcileSucceeds(w, n, net) then Success else if ReconcileWaits(w, n, net) then RequeueLater else Failed)
  {
    hide Run;
    RunStep(cfg, w, StartReconcile(n), net);
    var r := GetNodeCall(w.tenant, n, net.getNode);
    if !r.Ok? {
      RunStep(cfg, w, Done(if r.NotFound? then Success else Failed), net);
    } else {
      RunStep(cfg, w, FetchConfig(r.value), net);
      if net.getConfig.Delivered? && NodeVMKey(w, n).Some? {
        FromLookupAnswer(cfg, w, n, net);
      } else {
        RunStep(cfg, w, Done(Failed), net);
      }
    }
  }

  lemma FromLookupAnswer(cfg: Config, w: World, n: string, net: Net)
    requires net.getNode.Delivered? && n in w.tenant.nodes && w.tenant.nodes[n].name == n && net.getConfig.Delivered? && NodeVMKey(w, n).Some?
    ensures Run(cfg, w, LookupNodeVM(w.tenant.nodes[n], NodeVMKey(w, n).value), net).1
            == Done(if ReconcileSucceeds(w, n, net) then Success else if ReconcileWaits(w, n, net) then RequeueLater else Failed)
  {
    hide Run;
    var node, key := w.tenant.nodes[n], NodeVMKey(w, n).value;
    RunStep(cfg, w, LookupNodeVM(node, key), net);
    var p := AfterNodeVM(node, key, GetVMCall(w.infra, key, net.getVM));
    RunStep(cfg, w, p, net);
    if !Finished(p) {
      var (w', p') := Step(cfg, w, p, WireFor(net, p), net.choice);
      RunStep(cfg, w', p', net);
    }
  }

  /** Success leaves nothing to do for the node; and a Reconcile without errors never fails. */
  lemma ReconcileSuccessSettles(cfg: Config, w: World, n: string, net: Net)
    requires VersionsOk(w)
    ensures var (w', p) := Run(cfg, w, StartReconcile(n), net);
            && (p == Done(Success) ==> Settled(w', n))
            && (NoErrors(net) && NodeVMKey(w, n).Some? ==> p == Done(Success) || p == Done(RequeueLater))
  {
    ReconcileAnswer(cfg, w, n, net);
    hide Run;
    WholeRun(cfg, w, n, net);
    if ReconcileSucceeds(w, n, net) {
      SettlesAsAnswered(cfg, w, n, net);
    }
  }

  lemma SettlesAsAnswered(cfg: Config, w: World, n: string, net: Net)
    requires VersionsOk(w) && ReconcileSucceeds(w, n, net)
    ensures Settled(Run(cfg, w, StartReconcile(n), net).0, n)
  {
    hide Run;
    RunStep(cfg, w, StartReconcile(n), net);
    if n !in w.tenant.nodes {
      RunStep(cfg, w, Done(Success), net);
    } else {
      var node, key := w.tenant.nodes[n], NodeVMKey(w, n).value;
      RunStep(cfg, w, FetchConfig(node), net);
      hide Step, Settled, AfterNodeVM, VersionsOk;
      LookupSettles(cfg, w, n, net);
    }
  }

  lemma LookupSettles(cfg: Config, w: World, n: string, net: Net)
    requires VersionsOk(w) && ReconcileSucceeds(w, n, net) && n in w.tenant.nodes
    ensures Settled(Run(cfg, w, LookupNodeVM(w.tenant.nodes[n], NodeVMKey(w, n).value), net).0, n)
  {
    hide Run;
    var node, key := w.tenant.nodes[n], NodeVMKey(w, n).value;
    RunStep(cfg, w, LookupNodeVM(node, key), net);
    var p := AfterNodeVM(node, key, GetVMCall(w.infra, key, net.getVM));
    RunStep(cfg, w, p, net);
    if !Finished(p) {
      var (w', p') := Step(cfg, w, p, WireFor(net, p), net.choice);
      RunStep(cfg, w', p', net);
    }
  }

  // -------- the end of Create and Update --------

  predicate Patched(w: World, m: Machine, net: Net) {
    m.key in w.tenant.machines && net.patch.Delivered? && net.statusPatch.Delivered?
  }

  lemma PatchesAnswer(cfg: Config, w: World, o: Machine, m: Machine, report: Report, net: Net)
    requires VersionsOk(w)
    ensures Run(cfg, w, PatchMeta(o, m, report), net).1
            == Done(if !Patched(w, m, net) || report.failed then Failed
                    else if report.vm.Some? && report.vm.value.status.ready then Success else NotReady)
  {
    hide Run, MergeMain, MergeStatus;
    RunStep(cfg, w, PatchMeta(o, m, report), net);
    var (w', p') := Step(cfg, w, PatchMeta(o, m, report), net.patch, net.choice);
    if p'.PatchStatus? {
      MergedKey(o, m, w.tenant.machines[m.key]);
      assert p'.m.key == m.key && m.key in w'.tenant.machines;
      hide DecodedOver, RestoreStatus;
      RunStep(cfg, w', p', net);
      var (w2, p2) := Step(cfg, w', p', net.statusPatch, net.choice);
      RunStep(cfg, w2, p2, net);
    } else {
      RunStep(cfg, w', p', net);
    }
  }

  lemma MergedKey(o: Machine, m: Machine, c: Machine)
    ensures MergeMain(o, m, c).key == c.key
  {
  }

  /** The VM is ready and its instance was read. */
  predicate SeenReady(w: World, vm: VM, net: Net) { vm.status.ready && net.getVMI.Delivered? && vm.key in w.infra.vmis }

  lemma AfterVMAnswer(cfg: Config, w: World, m: Machine, vm: VM, wasUpdated: bool, net: Net)
    requires VersionsOk(w)
    ensures Run(cfg, w, AfterVM(m, vm, wasUpdated), net).1
            == Done(if Patched(w, m, net) && SeenReady(w, vm, net) then Success
                    else if Patched(w, m, net) && !vm.status.ready then NotReady else Failed)
  {
    if !vm.status.ready {
      hide Run, SyncedWith;
      SyncedKey(m, vm, None, None);
      PatchesAnswer(cfg, w, m, SyncedWith(m, vm, None, None), Report(Some(vm), None, None, wasUpdated, false), net);
    } else {
      hide Run, SyncedWith;
      RunStep(cfg, w, ReadVMI(m, vm, wasUpdated), net);
      var r := GetVMICall(w.infra, vm.key, net.getVMI);
      if r.Ok? {
        SyncedKey(m, vm, Some(r.value), net.choice.lookup);
        PatchesAnswer(cfg, w, m, SyncedWith(m, vm, Some(r.value), net.choice.lookup),
                      Report(Some(vm), Some(r.value), net.choice.lookup, wasUpdated, false), net);
      } else {
        PatchesAnswer(cfg, w, m, m, Report(Some(vm), None, None, wasUpdated, true), net);
      }
    }
  }

  lemma SyncedKey(m: Machine, vm: VM, vmi: Option<VMI>, lookup: Option<seq<IP>>)
    ensures SyncedWith(m, vm, vmi, lookup).key == m.key
  {
  }

  // -------- Update --------

  /** The VM was found and its put answered. */
  predicate Put(cfg: Config, w: World, m: Machine, net: Net) {
    Opens(cfg, m) && net.getVM.Delivered? && KeyOf(cfg, m) in w.infra.vms && net.updateVM.Delivered?
  }

  predicate UpdateSucceeds(cfg: Config, w: World, m: Machine, net: Net) {
    && Put(cfg, w, m, net) && Patched(w, m, net)
    && w.infra.vms[KeyOf(cfg, m)].status.ready && net.getVMI.Delivered? && KeyOf(cfg, m) in w.infra.vmis
  }

  predicate UpdateWaits(cfg: Config, w: World, m: Machine, net: Net) {
    Put(cfg, w, m, net) && Patched(w, m, net) && !w.infra.vms[KeyOf(cfg, m)].status.ready
  }

  lemma UpdateAnswer(cfg: Config, w: World, m: Machine, net: Net)
    requires VersionsOk(w)
    ensures Run(cfg, w, StartUpdate(cfg, m), net).1
            == if OpensToPanic(cfg, m) then Crashed
               else Done(if UpdateSucceeds(cfg, w, m, net) then Success else if UpdateWaits(cfg, w, m, net) then NotReady else Failed)
    ensures !(UpdateSucceeds(cfg, w, m, net) && UpdateWaits(cfg, w, m, net))
    ensures OpensToPanic(cfg, m) ==> !UpdateSucceeds(cfg, w, m, net) && !UpdateWaits(cfg, w, m, net)
  {
    var p := StartUpdate(cfg, m);
    if OpenScope(m).Some? {
      BuildOutcomes(cfg, OpenScope(m).value, m);
    }
    if Opens(cfg, m) {
      var d := DesiredVM(cfg, OpenScope(m).value, m);
      assert p == LookupVM(m, d) && d.key == KeyOf(cfg, m) && !OpensToPanic(cfg, m);
      hide *;
      FromGetAnswer(cfg, w, m, d, net);
    } else {
      assert p == if OpensToPanic(cfg, m) then Crashed else if OpenScope(m).None? then Done(Failed) else PatchMeta(m, m, FAILURE);
      if p.PatchMeta? {
        PatchesAnswer(cfg, w, m, m, FAILURE, net);
      } else {
        RunStep(cfg, w, p, net);
      }
    }
  }

  lemma FromGetAnswer(cfg: Config, w: World, m: Machine, d: VM, net: Net)
    requires VersionsOk(w) && Opens(cfg, m) && d.key == KeyOf(cfg, m)
    ensures Run(cfg, w, LookupVM(m, d), net).1
            == Done(if UpdateSucceeds(cfg, w, m, net) then Success else if UpdateWaits(cfg, w, m, net) then NotReady else Failed)
  {
    RunStep(cfg, w, LookupVM(m, d), net);
    hide Run, OpenScope, AfterVM;
    if !net.getVM.Delivered? || d.key !in w.infra.vms {
      PatchesAnswer(cfg, w, m, m, FAILURE, net);
    } else {
      var seen := w.infra.vms[d.key];
      RunStep(cfg, w, PutVM(m, d, seen), net);
      var (i, r) := UpdateVMCall(cfg, w.infra, d.(resourceVersion := seen.resourceVersion), net.updateVM);
      var w1 := w.(infra := i);
      PutCallAnswer(cfg, w, d, net.updateVM);
      hide UpdateVMCall, VersionsOk;
      if r.Ok? {
        AfterVMAnswer(cfg, w1, m, r.value, r.value.resourceVersion != seen.resourceVersion, net);
      } else {
        PatchesAnswer(cfg, w1, m, m, FAILURE, net);
      }
    }
  }

  lemma PutCallAnswer(cfg: Config, w: World, d: VM, wire: Wire)
    requires VersionsOk(w) && d.key in w.infra.vms
    ensures var seen := w.infra.vms[d.key];
            var (i, r) := UpdateVMCall(cfg, w.infra, d.(resourceVersion := seen.resourceVersion), wire);
            && VersionsOk(w.(infra := i)) && i.vmis == w.infra.vmis
            && (r.Ok? <==> wire.Delivered?) && (r.Ok? ==> r.value.status == seen.status && r.value.key == d.key)
  {
  }

  // -------- Create --------

  /** The user data Create reads, if it gets to it. */
  function UserDataRead(w: World, m: Machine, net: Net): Option<Option<Json>> {
    if OpenScope(m).None? || !net.getSecret.Delivered? then None else
    var key := Key(m.key.namespace, OpenScope(m).value.ignitionSecretName);
    if key in w.tenant.userSecrets && "userData" in w.tenant.userSecrets[key] then Some(w.tenant.userSecrets[key]["userData"]) else None
  }

  /** The name's secret was free and its create answered. */
  predicate Took(cfg: Config, w: World, m: Machine, net: Net) {
    && UserDataRead(w, m, net).Some? && UserData.InDomain(UserDataRead(w, m, net).value)
    && net.createSecret.Delivered? && Key(cfg.infraNamespace, m.key.name + "-ignition") !in w.infra.secrets
  }

  predicate CreatePanics(cfg: Config, w: World, m: Machine, net: Net) {
    || (UserDataRead(w, m, net).Some? && !UserData.InDomain(UserDataRead(w, m, net).value))
    || (Took(cfg, w, m, net) && OpensToPanic(cfg, m))
  }

  /** So were the VM's. */
  predicate Made(cfg: Config, w: World, m: Machine, net: Net) {
    Took(cfg, w, m, net) && Opens(cfg, m) && KeyOf(cfg, m) !in w.infra.vms && net.createVM.Delivered?
  }

  predicate CreateSucceeds(cfg: Config, w: World, m: Machine, net: Net) {
    && Made(cfg, w, m, net) && Patched(w, m, net)
    && net.choice.status.ready && net.getVMI.Delivered? && KeyOf(cfg, m) in w.infra.vmis
  }

  predicate CreateWaits(cfg: Config, w: World, m: Machine, net: Net) {
    Made(cfg, w, m, net) && Patched(w, m, net) && !net.choice.status.ready
  }

  /** The VM a Create stored: the one wanted, under the identity and status the server gave it. */
  predicate StoredNew(cfg: Config, w': World, m: Machine, net: Net) {
    OpenScope(m).Some? && KeyOf(cfg, m) in w'.infra.vms &&
    var vm := w'.infra.vms[KeyOf(cfg, m)];
    SameContent(Wanted(cfg, m), vm) && vm.uid == net.choice.uid && vm.status == net.choice.status && vm.key == KeyOf(cfg, m)
  }

  /** The secret a Create stored: the user data with the host name put in. */
  predicate StoredSecret(cfg: Config, w': World, m: Machine, userData: Option<Json>) {
    var key := Key(cfg.infraNamespace, m.key.name + "-ignition");
    UserData.InDomain(userData) && key in w'.infra.secrets &&
    var secret := w'.infra.secrets[key];
    && secret.key == key && secret.labels == map["tenantcluster-" + cfg.infraID + "-machine.openshift.io" := "owned"]
    && secret.data == map["userdata" := UserData.WithHostname(userData.value, m.key.name)]
  }

  lemma CreateAnswer(cfg: Config, w: World, m: Machine, net: Net)
    requires VersionsOk(w)
    ensures var (w', p) := Run(cfg, w, StartCreate(m), net);
            && p == (if CreatePanics(cfg, w, m, net) then Crashed
                     else Done(if CreateSucceeds(cfg, w, m, net) then Success else if CreateWaits(cfg, w, m, net) then NotReady else Failed))
            && (Made(cfg, w, m, net) ==> StoredNew(cfg, w', m, net))
            && (Took(cfg, w, m, net) ==> StoredSecret(cfg, w', m, UserDataRead(w, m, net).value))
    ensures !(CreateSucceeds(cfg, w, m, net) && CreateWaits(cfg, w, m, net))
    ensures CreatePanics(cfg, w, m, net) ==> !CreateSucceeds(cfg, w, m, net) && !CreateWaits(cfg, w, m, net)
  {
    RunStep(cfg, w, StartCreate(m), net);
    hide Run, StoredNew, StoredSecret;
    if OpenScope(m).Some? {
      var p := Step(cfg, w, FetchUserData(m), net.getSecret, net.choice).1;
      if p.MakeSecret? {
        assert p.m == m && p.secret.key == Key(cfg.infraNamespace, m.key.name + "-ignition");
        assert UserDataRead(w, m, net).Some? && UserData.InDomain(UserDataRead(w, m, net).value);
        assert p.secret == IgnitionSecret(cfg, m, UserData.WithHostname(UserDataRead(w, m, net).value.value, m.key.name));
        hide *;
        FromSecretAnswer(cfg, w, m, p.secret, net);
      } else {
        RunStep(cfg, w, p, net);
      }
    }
  }

  lemma FromSecretAnswer(cfg: Config, w: World, m: Machine, secret: Secret, net: Net)
    requires VersionsOk(w) && secret.key == Key(cfg.infraNamespace, m.key.name + "-ignition")
    requires UserDataRead(w, m, net).Some? && UserData.InDomain(UserDataRead(w, m, net).value)
    requires secret == IgnitionSecret(cfg, m, UserData.WithHostname(UserDataRead(w, m, net).value.value, m.key.name))
    ensures var (w', p) := Run(cfg, w, MakeSecret(m, secret), net);
            && p == (if CreatePanics(cfg, w, m, net) then Crashed
                     else Done(if CreateSucceeds(cfg, w, m, net) then Success else if CreateWaits(cfg, w, m, net) then NotReady else Failed))
            && (Made(cfg, w, m, net) ==> StoredNew(cfg, w', m, net))
            && (Took(cfg, w, m, net) ==> StoredSecret(cfg, w', m, UserDataRead(w, m, net).value))
  {
    assert OpenScope(m).Some?;
    SecretStays(cfg, w, m, secret, net);
    RunStep(cfg, w, MakeSecret(m, secret), net);
    hide Run, StoredNew, StoredSecret, UserDataRead, UserData.InDomain;
    var (i, r) := CreateSecretCall(w.infra, secret, net.createSecret);
    var w1 := w.(infra := i);
    assert VersionsOk(w1);
    if !r.Ok? {
      PatchesAnswer(cfg, w1, m, m, FAILURE, net);
    } else {
      BuildOutcomes(cfg, OpenScope(m).value, m);
      if Opens(cfg, m) {
        var d := DesiredVM(cfg, OpenScope(m).value, m);
        assert AfterSecret(cfg, m) == MakeVM(m, d);
        assert i.vms == w.infra.vms && i.vmis == w.infra.vmis;
        MakeVMAnswer(cfg, w1, m, net);
      } else if OpensToPanic(cfg, m) {
        RunStep(cfg, w1, Crashed, net);
      } else {
        PatchesAnswer(cfg, w1, m, m, FAILURE, net);
      }
    }
  }

  lemma SecretStays(cfg: Config, w: World, m: Machine, secret: Secret, net: Net)
    requires UserDataRead(w, m, net).Some? && UserData.InDomain(UserDataRead(w, m, net).value)
    requires secret == IgnitionSecret(cfg, m, UserData.WithHostname(UserDataRead(w, m, net).value.value, m.key.name))
    ensures Took(cfg, w, m, net) ==> StoredSecret(cfg, Run(cfg, w, MakeSecret(m, secret), net).0, m, UserDataRead(w, m, net).value)
  {
    if Took(cfg, w, m, net) {
      RunStep(cfg, w, MakeSecret(m, secret), net);
      hide Run, UserDataRead, UserData.InDomain, UserData.WithHostname, BuildVM, OpenScope;
      var (w', p') := Step(cfg, w, MakeSecret(m, secret), net.createSecret, net.choice);
      assert StoredSecret(cfg, w', m, UserDataRead(w, m, net).value);
      if p'.MakeVM? {
        VMRun(cfg, w', m, p'.desired, net);
      } else {
        TailKeepsInfra(cfg, w', p', net);
      }
    }
  }

  lemma MakeVMAnswer(cfg: Config, w: World, m: Machine, net: Net)
    requires VersionsOk(w) && Opens(cfg, m)
    ensures var (w', p) := Run(cfg, w, MakeVM(m, DesiredVM(cfg, OpenScope(m).value, m)), net);
            var made := KeyOf(cfg, m) !in w.infra.vms && net.createVM.Delivered? && Patched(w, m, net);
            && p == Done(if made && net.choice.status.ready && net.getVMI.Delivered? && KeyOf(cfg, m) in w.infra.vmis then Success
                         else if made && !net.choice.status.ready then NotReady else Failed)
            && (KeyOf(cfg, m) !in w.infra.vms && net.createVM.Delivered? ==> StoredNew(cfg, w', m, net))
  {
    var d := DesiredVM(cfg, OpenScope(m).value, m);
    RunStep(cfg, w, MakeVM(m, d), net);
    var (i, r) := CreateVMCall(cfg, w.infra, d, net.choice.uid, net.choice.status, net.createVM);
    var w1 := w.(infra := i);
    assert Run(cfg, w, MakeVM(m, d), net) == Run(cfg, w1, if r.Ok? then AfterVM(m, r.value, false) else PatchMeta(m, m, FAILURE), net);
    hide Run, Step, OpenScope, DesiredVM, StoredNew, AfterVM, CreateVMCall, VersionsOk, Accepted;
    CreateCall(cfg, w, m, net);
    if r.Ok? {
      AfterVMAnswer(cfg, w1, m, r.value, false, net);
      assert PastInfra(AfterVM(m, r.value, false)) by {
        PastAfterVM(m, r.value);
      }
      TailKeepsInfra(cfg, w1, AfterVM(m, r.value, false), net);
      SameInfraStored(cfg, w1, Run(cfg, w1, AfterVM(m, r.value, false), net).0, m, net);
    } else {
      PatchesAnswer(cfg, w1, m, m, FAILURE, net);
    }
  }

  lemma PastAfterVM(m: Machine, vm: VM)
    ensures PastInfra(AfterVM(m, vm, false))
  {
  }

  lemma CreateCall(cfg: Config, w: World, m: Machine, net: Net)
    requires VersionsOk(w) && OpenScope(m).Some?
    ensures var (i, r) := CreateVMCall(cfg, w.infra, DesiredVM(cfg, OpenScope(m).value, m), net.choice.uid, net.choice.status, net.createVM);
            && VersionsOk(w.(infra := i)) && i.vmis == w.infra.vmis
            && (r.Ok? <==> KeyOf(cfg, m) !in w.infra.vms && net.createVM.Delivered?)
            && (r.Ok? ==> StoredNew(cfg, w.(infra := i), m, net) && r.value.status == net.choice.status && r.value.key == KeyOf(cfg, m))
  {
    assert DesiredVM(cfg, OpenScope(m).value, m).key == KeyOf(cfg, m);
    hide OpenScope;
  }

  lemma SameInfraStored(cfg: Config, w: World, w': World, m: Machine, net: Net)
    requires w.infra == w'.infra && StoredNew(cfg, w, m, net)
    ensures StoredNew(cfg, w', m, net)
  {
  }
}
