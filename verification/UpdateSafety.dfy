/** Update under concurrency: no write of anyone else is ever overwritten unseen. */
module UpdateSafety {
  import opened Resources
  import opened Cluster
  import opened Protocol
  import opened Interleaving

  lemma StepIntoPut(cfg: Config, w: World, p: Proc, wire: Wire, choice: Choice)
    ensures var p' := Step(cfg, w, p, wire, choice).1;
            p'.PutVM? && p != p' ==>
              p == LookupVM(p'.m, p'.desired) && p.desired.key in w.infra.vms && w.infra.vms[p.desired.key] == p'.seen
              && wire.Delivered?
  {
  }

  /** The call of a process at PutVM that takes effect on the stored VM. */
  predicate PutTakesEffect(s: System, p: Proc, a: Action)
    requires p.PutVM?
  {
    a.Advance? && !a.wire.Dropped? && p.desired.key in s.world.infra.vms
    && s.world.infra.vms[p.desired.key].resourceVersion == p.seen.resourceVersion
  }

  /**
   In every interleaving, a put that takes effect comes after a lookup of the same process, and at
   every moment from that lookup to the put the stored VM was the one looked up. Afterwards its
   labels, annotations, cluster name and spec are the desired ones (with defaults), its identity
   and status are untouched, the version moved exactly if the content did, and that is what the
   operation reports.
   */
  lemma NoLostUpdate(cfg: Config, s: System, acts: seq<Action>, j: nat, pid: nat) returns (i: nat)
    requires VersionsOk(s.world) && s.procs == map[] && j < |acts|
    requires acts[j].Advance? && acts[j].pid == pid && pid in At(cfg, s, acts, j).procs && At(cfg, s, acts, j).procs[pid].PutVM?
    requires PutTakesEffect(At(cfg, s, acts, j), At(cfg, s, acts, j).procs[pid], acts[j])
    ensures var p := At(cfg, s, acts, j).procs[pid];
            && i < j && acts[i].Advance? && acts[i].pid == pid
            && pid in At(cfg, s, acts, i).procs && At(cfg, s, acts, i).procs[pid] == LookupVM(p.m, p.desired)
            && (forall t | i <= t <= j ::
                  p.desired.key in At(cfg, s, acts, t).world.infra.vms &&
                  At(cfg, s, acts, t).world.infra.vms[p.desired.key] == p.seen)
    ensures var p, after := At(cfg, s, acts, j).procs[pid], At(cfg, s, acts, j + 1);
            && p.desired.key in after.world.infra.vms
            && var stored := after.world.infra.vms[p.desired.key];
            && SameContent(stored, p.desired.(spec := Defaulted(cfg, p.desired.spec)))
            && stored.uid == p.seen.uid && stored.status == p.seen.status
            && (stored.resourceVersion == p.seen.resourceVersion <==> SameContent(stored, p.seen))
            && pid in after.procs
            && (acts[j].wire.Delivered? ==>
                  after.procs[pid] == AfterVM(p.m, stored, !SameContent(stored, p.seen)))
  {
    hide Exec;
    var p := At(cfg, s, acts, j).procs[pid];
    i := LookupBeforePut(cfg, s, acts, j, pid);
    forall t | i <= t <= j
      ensures p.desired.key in At(cfg, s, acts, t).world.infra.vms && At(cfg, s, acts, t).world.infra.vms[p.desired.key] == p.seen
    {
      Unchanged(cfg, s, acts, i, t, j, pid);
    }
    AlwaysOk(cfg, s, acts, j);
    AfterPrefix(cfg, s, acts, j);
    ExecMove(cfg, At(cfg, s, acts, j), acts[j]);
    PutEffect(cfg, At(cfg, s, acts, j).world, p, acts[j].wire, acts[j].choice);
  }

  lemma LookupBeforePut(cfg: Config, s: System, acts: seq<Action>, j: nat, pid: nat) returns (i: nat)
    requires VersionsOk(s.world) && s.procs == map[] && j <= |acts|
    requires pid in At(cfg, s, acts, j).procs && At(cfg, s, acts, j).procs[pid].PutVM?
    ensures var p := At(cfg, s, acts, j).procs[pid];
            && i < j && acts[i].Advance? && acts[i].pid == pid
            && pid in At(cfg, s, acts, i).procs && At(cfg, s, acts, i).procs[pid] == LookupVM(p.m, p.desired)
            && p.desired.key in At(cfg, s, acts, i).world.infra.vms
            && At(cfg, s, acts, i).world.infra.vms[p.desired.key] == p.seen
    decreases j
  {
    hide Exec, Step, Start;
    i := MoveInto(cfg, s, acts, j, pid);
    if acts[i].Launch? {
      StartShape(cfg, At(cfg, s, acts, i).world, acts[i].job);
    } else {
      StepIntoPut(cfg, At(cfg, s, acts, i).world, At(cfg, s, acts, i).procs[pid], acts[i].wire, acts[i].choice);
      PutMovesOn(cfg, At(cfg, s, acts, i).world, At(cfg, s, acts, i).procs[pid], acts[i].wire, acts[i].choice);
    }
  }

  lemma PutMovesOn(cfg: Config, w: World, p: Proc, wire: Wire, choice: Choice)
    ensures p.PutVM? ==> !Step(cfg, w, p, wire, choice).1.PutVM?
  {
  }

  lemma Unchanged(cfg: Config, s: System, acts: seq<Action>, i: nat, t: nat, j: nat, pid: nat)
    requires VersionsOk(s.world) && s.procs == map[] && i <= t <= j < |acts|
    requires pid in At(cfg, s, acts, j).procs && At(cfg, s, acts, j).procs[pid].PutVM?
    requires PutTakesEffect(At(cfg, s, acts, j), At(cfg, s, acts, j).procs[pid], acts[j])
    requires var p := At(cfg, s, acts, j).procs[pid];
             p.desired.key in At(cfg, s, acts, i).world.infra.vms && At(cfg, s, acts, i).world.infra.vms[p.desired.key] == p.seen
    ensures var p := At(cfg, s, acts, j).procs[pid];
            p.desired.key in At(cfg, s, acts, t).world.infra.vms && At(cfg, s, acts, t).world.infra.vms[p.desired.key] == p.seen
  {
    hide Exec, Step;
    AlwaysOk(cfg, s, acts, i);
    AlwaysOk(cfg, s, acts, j);
    AlwaysEvolves(cfg, s, acts, i, t);
    AlwaysEvolves(cfg, s, acts, t, j);
    assert ProcOk(cfg, At(cfg, s, acts, j).world, At(cfg, s, acts, j).procs[pid]);
  }

  lemma PutEffect(cfg: Config, w: World, p: Proc, wire: Wire, choice: Choice)
    requires VersionsOk(w) && p.PutVM? && !wire.Dropped?
    requires p.desired.key in w.infra.vms && w.infra.vms[p.desired.key] == p.seen
    ensures var (w', p') := Step(cfg, w, p, wire, choice);
            && p.desired.key in w'.infra.vms
            && var stored := w'.infra.vms[p.desired.key];
            && SameContent(stored, p.desired.(spec := Defaulted(cfg, p.desired.spec)))
            && stored.uid == p.seen.uid && stored.status == p.seen.status
            && (stored.resourceVersion == p.seen.resourceVersion <==> SameContent(stored, p.seen))
            && (wire.Delivered? ==> p' == AfterVM(p.m, stored, !SameContent(stored, p.seen)))
  {
  }
}
