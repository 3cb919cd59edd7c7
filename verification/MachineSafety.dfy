/** What the controllers do to stored Machines, under every interleaving. */
module MachineSafety {
  import opened Wrappers
  import opened Resources
  import opened MachineScope
  import opened MachineDocument
  import opened Cluster
  import opened Protocol
  import opened Interleaving
  import opened TwoPhasePatch

  /**
   Outside the fields sync owns the Machine is the same, and its ID, if that changed, is now that of
   the VM of its name.
   */
  ghost predicate OnlySynced(cfg: Config, before: Machine, after: Machine) {
    && after.key == before.key && after.clusterName == before.clusterName
    && after.providerSpec == before.providerSpec && after.phase == before.phase
    && (forall k | k != VM_ID_ANNOTATION && k != STATE_ANNOTATION :: SameEntry(after.annotations, before.annotations, k))
    && (forall k | k != TYPE_LABEL :: SameEntry(after.labels, before.labels, k))
    && (after.providerID == before.providerID || after.providerID == Some(FormatProviderID(cfg.infraNamespace, before.key.name)))
  }

  lemma MetaOnlySyncs(cfg: Config, w: World, p: Proc)
    requires p.PatchMeta? && ProcOk(cfg, w, p) && p.m.key in w.tenant.machines && w.tenant.machines[p.m.key].key == p.m.key
    ensures OnlySynced(cfg, w.tenant.machines[p.m.key], MergeMain(p.origin, p.m, w.tenant.machines[p.m.key]))
  {
    var o, c := p.origin, w.tenant.machines[p.m.key];
    if p.m == o {
      assert MergeMain(o, o, c) == c;
    } else {
      var vm, vmi, lookup := p.report.vm.value, p.report.vmi, p.report.lookup;
      assert p.m == SyncedWith(o, vm, vmi, lookup);
      var r := MergeMain(o, p.m, c);
      assert r.providerID == c.providerID || r.providerID == Some(FormatProviderID(cfg.infraNamespace, c.key.name)) by {
        hide EncodeStatus, MergeTexts;
      }
      hide MergeMain, SyncedWith, SameEntry, ProcOk;
      forall k ensures k != VM_ID_ANNOTATION && k != STATE_ANNOTATION ==> SameEntry(r.annotations, c.annotations, k)
        ensures k != TYPE_LABEL ==> SameEntry(r.labels, c.labels, k)
      {
        OthersSurviveMeta(o, vm, vmi, lookup, c, k);
      }
      OthersSurviveMeta(o, vm, vmi, lookup, c, "");
    }
  }

  lemma StatusOnlySyncs(cfg: Config, w: World, p: Proc)
    requires p.PatchStatus? && ProcOk(cfg, w, p) && p.m.key in w.tenant.machines && w.tenant.machines[p.m.key].key == p.m.key
    ensures OnlySynced(cfg, w.tenant.machines[p.m.key], MergeStatus(p.origin, p.m, w.tenant.machines[p.m.key]))
  {
    assert p.m.phase == p.origin.phase;
    hide ProcOk, MergeTexts;
  }

  lemma MachineEffect(cfg: Config, w: World, p: Proc, wire: Wire, choice: Choice, mk: Key)
    requires VersionsOk(w) && ProcOk(cfg, w, p)
    ensures var w' := Step(cfg, w, p, wire, choice).0;
            && (mk in w'.tenant.machines <==> mk in w.tenant.machines)
            && (mk in w.tenant.machines ==> OnlySynced(cfg, w.tenant.machines[mk], w'.tenant.machines[mk]))
  {
    hide Step, OnlySynced, ProcOk, MergeMain, MergeStatus;
    MachineStep(cfg, w, p, wire, choice);
    if mk in w.tenant.machines {
      SameIsOnlySynced(cfg, w.tenant.machines[mk]);
      if p.PatchMeta? && p.m.key == mk {
        MetaOnlySyncs(cfg, w, p);
      } else if p.PatchStatus? && p.m.key == mk {
        StatusOnlySyncs(cfg, w, p);
      }
    }
  }

  lemma SameIsOnlySynced(cfg: Config, m: Machine)
    ensures OnlySynced(cfg, m, m)
  {
  }

  /** Only the two patches write a Machine, and each the one of its operation. */
  lemma MachineStep(cfg: Config, w: World, p: Proc, wire: Wire, choice: Choice)
    ensures var before, after := w.tenant.machines, Step(cfg, w, p, wire, choice).0.tenant.machines;
            || after == before
            || (p.PatchMeta? && p.m.key in before && after == before[p.m.key := MergeMain(p.origin, p.m, before[p.m.key])])
            || (p.PatchStatus? && p.m.key in before && after == before[p.m.key := MergeStatus(p.origin, p.m, before[p.m.key])])
  {
    hide MergeMain, MergeStatus, DecodedOver, RestoreStatus, BuildVM, AfterVM;
  }

  /**
   In every interleaving no step of any operation adds or removes a Machine, or changes a stored one
   outside the fields sync owns.
   */
  lemma MachinesAreSafe(cfg: Config, s: System, acts: seq<Action>, j: nat, mk: Key)
    requires VersionsOk(s.world) && s.procs == map[] && j < |acts| && acts[j].Advance?
    ensures mk in At(cfg, s, acts, j + 1).world.tenant.machines <==> mk in At(cfg, s, acts, j).world.tenant.machines
    ensures mk in At(cfg, s, acts, j).world.tenant.machines ==>
              OnlySynced(cfg, At(cfg, s, acts, j).world.tenant.machines[mk], At(cfg, s, acts, j + 1).world.tenant.machines[mk])
  {
    var pid, at := acts[j].pid, At(cfg, s, acts, j);
    AfterPrefix(cfg, s, acts, j);
    AlwaysOk(cfg, s, acts, j);
    if pid in at.procs {
      assert ProcOk(cfg, at.world, at.procs[pid]);
      hide Step, OnlySynced;
      ExecMove(cfg, at, acts[j]);
      MachineEffect(cfg, at.world, at.procs[pid], acts[j].wire, acts[j].choice, mk);
    } else {
      assert Exec(cfg, at, acts[j]) == at;
    }
  }
}
