/** The node controller, safe under every interleaving and quiet once nothing changes. */
module NodeSafety {
  import opened Resources
  import opened MachineScope
  import opened Cluster
  import opened Protocol
  import opened Interleaving

  /** What the process's own lookup must have seen for it to be at p. */
  predicate Justified(w: World, lookup: Proc, p: Proc)
    requires lookup.LookupNodeVM?
  {
    match p
    case RemoveNode(node) => node == lookup.node && lookup.key !in w.infra.vms
    case StampNode(node) =>
      lookup.node.providerID == "" && node == lookup.node.(providerID := FormatProviderID(lookup.key.namespace, node.name))
      && lookup.key in w.infra.vms && w.infra.vms[lookup.key].status.ready
    case Done(RequeueLater) => lookup.key in w.infra.vms && !w.infra.vms[lookup.key].status.ready
    case _ => true
  }

  predicate NeedsLookup(p: Proc) { p.RemoveNode? || p.StampNode? || p == Done(RequeueLater) }

  lemma StepIntoNode(cfg: Config, w: World, p: Proc, wire: Wire, choice: Choice)
    ensures var p' := Step(cfg, w, p, wire, choice).1;
            NeedsLookup(p') && p != p' ==> p.LookupNodeVM? && wire.Delivered? && Justified(w, p, p')
    ensures p.RemoveNode? || p.StampNode? ==> Step(cfg, w, p, wire, choice).1 != p
  {
    if InfraProc(p) {
      InfraAvoidsNodes(cfg, w, p, wire, choice);
    } else {
      hide StepInfra;
      if p.PatchStatus? {
        assert Verdict(p.report) != RequeueLater;
      }
    }
  }

  lemma InfraAvoidsNodes(cfg: Config, w: World, p: Proc, wire: Wire, choice: Choice)
    requires InfraProc(p)
    ensures !NeedsLookup(StepInfra(cfg, w, p, wire, choice).1)
  {
    hide BuildVM, OpenScope, UpdateVMCall, CreateVMCall, SyncedWith;
  }

  /** The lookup of a finished process is the one before its end; a Done process never moves. */
  lemma {:induction false} LookupBehind(cfg: Config, s: System, acts: seq<Action>, n: nat, pid: nat) returns (i: nat)
    requires n <= |acts| && s.procs == map[] && pid in At(cfg, s, acts, n).procs && NeedsLookup(At(cfg, s, acts, n).procs[pid])
    ensures i < n && acts[i].Advance? && acts[i].pid == pid && acts[i].wire.Delivered?
    ensures pid in At(cfg, s, acts, i).procs && At(cfg, s, acts, i).procs[pid].LookupNodeVM?
    ensures Justified(At(cfg, s, acts, i).world, At(cfg, s, acts, i).procs[pid], At(cfg, s, acts, n).procs[pid])
    decreases n
  {
    hide Exec, Step, Start;
    i := MoveInto(cfg, s, acts, n, pid);
    if acts[i].Launch? {
      StartShape(cfg, At(cfg, s, acts, i).world, acts[i].job);
    } else {
      StepIntoNode(cfg, At(cfg, s, acts, i).world, At(cfg, s, acts, i).procs[pid], acts[i].wire, acts[i].choice);
      if At(cfg, s, acts, i).procs[pid] == At(cfg, s, acts, n).procs[pid] {
        i := LookupBehind(cfg, s, acts, i, pid);
      }
    }
  }

  /**
   In every interleaving: when an operation of the controllers removes a node, its own lookup had
   found the node's VM absent; when one changes a node, the stored ID was empty, the new one is the
   node's VM's, and its own lookup had found that VM ready. No step of any operation does anything
   else to any node.
   */
  lemma NodesAreSafe(cfg: Config, s: System, acts: seq<Action>, j: nat, n: string)
    requires VersionsOk(s.world) && s.procs == map[] && j < |acts| && acts[j].Advance?
    requires n in At(cfg, s, acts, j).world.tenant.nodes
    ensures n !in At(cfg, s, acts, j + 1).world.tenant.nodes ==>
              exists i: nat :: i < j && SawAbsent(cfg, s, acts, i, acts[j].pid, n)
    ensures n in At(cfg, s, acts, j + 1).world.tenant.nodes ==>
              var before, after := At(cfg, s, acts, j).world.tenant.nodes[n], At(cfg, s, acts, j + 1).world.tenant.nodes[n];
              before != after ==>
                before.providerID == "" &&
                exists i: nat :: i < j && SawReady(cfg, s, acts, i, acts[j].pid, n, after.providerID)
  {
    hide Exec, Step;
    var pid := acts[j].pid;
    var at := At(cfg, s, acts, j);
    AfterPrefix(cfg, s, acts, j);
    ExecMove(cfg, at, acts[j]);
    AlwaysOk(cfg, s, acts, j);
    if pid !in at.procs {
      assert At(cfg, s, acts, j + 1) == at by {
        AbsentProcess(cfg, at, acts[j]);
      }
    } else {
      var p := at.procs[pid];
      assert ProcOk(cfg, at.world, p);
      NodeEffect(cfg, at.world, p, acts[j].wire, acts[j].choice, n);
      if p.RemoveNode? || p.StampNode? {
        var i := LookupBehind(cfg, s, acts, j, pid);
        AlwaysOk(cfg, s, acts, i);
        assert ProcOk(cfg, At(cfg, s, acts, i).world, At(cfg, s, acts, i).procs[pid]);
        assert p.RemoveNode? && p.node.name == n ==> SawAbsent(cfg, s, acts, i, pid, n);
        assert p.StampNode? && p.node.name == n ==> SawReady(cfg, s, acts, i, pid, n, p.node.providerID);
      }
    }
  }

  lemma AbsentProcess(cfg: Config, s: System, a: Action)
    ensures a.Advance? && a.pid !in s.procs ==> Exec(cfg, s, a) == s
  {
  }

  /** Action i is the delivered VM lookup of pid for node n, and it found no VM. */
  predicate SawAbsent(cfg: Config, s: System, acts: seq<Action>, i: nat, pid: nat, n: string)
    requires i < |acts|
  {
    var at := At(cfg, s, acts, i);
    acts[i].Advance? && acts[i].pid == pid && acts[i].wire.Delivered? && pid in at.procs &&
    var p := at.procs[pid];
    p.LookupNodeVM? && p.node.name == n && p.key.name == n && p.key !in at.world.infra.vms
  }

  /** Action i is the delivered VM lookup of pid for node n, and it found the ready VM with the given ID. */
  predicate SawReady(cfg: Config, s: System, acts: seq<Action>, i: nat, pid: nat, n: string, id: string)
    requires i < |acts|
  {
    var at := At(cfg, s, acts, i);
    acts[i].Advance? && acts[i].pid == pid && acts[i].wire.Delivered? && pid in at.procs &&
    var p := at.procs[pid];
    p.LookupNodeVM? && p.node.name == n && p.key.name == n && p.key in at.world.infra.vms
    && at.world.infra.vms[p.key].status.ready && id == FormatProviderID(p.key.namespace, n)
  }

  lemma NodeEffect(cfg: Config, w: World, p: Proc, wire: Wire, choice: Choice, n: string)
    requires VersionsOk(w) && ProcOk(cfg, w, p) && n in w.tenant.nodes
    ensures var w' := Step(cfg, w, p, wire, choice).0;
            && (n !in w'.tenant.nodes ==> p.RemoveNode? && p.node.name == n)
            && (n in w'.tenant.nodes && w'.tenant.nodes[n] != w.tenant.nodes[n] ==>
                  p.StampNode? && p.node.name == n && w.tenant.nodes[n].providerID == ""
                  && w'.tenant.nodes[n].providerID == p.node.providerID)
  {
  }

  /** A Reconcile asks to be called again later exactly if its lookup found a VM that is not ready. */
  lemma RequeueExactly(cfg: Config, w: World, p: Proc, wire: Wire, choice: Choice)
    ensures !Finished(p) ==>
              (Step(cfg, w, p, wire, choice).1 == Done(RequeueLater) <==>
                 p.LookupNodeVM? && wire.Delivered? && p.key in w.infra.vms && !w.infra.vms[p.key].status.ready)
  {
    if p.PatchStatus? {
      assert Verdict(p.report) != RequeueLater;
    }
  }
}
