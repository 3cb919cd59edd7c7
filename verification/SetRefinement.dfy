/** With atomic calls the actuator is a set of names, and sometimes a set of Machines. */
module SetRefinement {
  import opened Resources
  import opened Cluster
  import opened Protocol
  import opened Interleaving
  import opened WholeRuns
  import opened Answers

  datatype Call = Create(m: Machine, net: Net) | Update(m: Machine, net: Net) | Delete(m: Machine, net: Net) | Exists(m: Machine, net: Net)

  function Begin(cfg: Config, c: Call): Proc {
    match c
    case Create(m, _) => StartCreate(m)
    case Update(m, _) => StartUpdate(cfg, m)
    case Delete(m, _) => StartDelete(cfg, m)
    case Exists(m, _) => StartExists(cfg, m)
  }

  function Perform(cfg: Config, w: World, c: Call): (World, Proc) { Run(cfg, w, Begin(cfg, c), c.net) }

  function PerformAll(cfg: Config, w: World, calls: seq<Call>): World {
    if calls == [] then w else Perform(cfg, PerformAll(cfg, w, calls[..|calls| - 1]), calls[|calls| - 1]).0
  }

  /** The abstract state: the names that have a VM. */
  function Live(cfg: Config, w: World): set<string> {
    set k | k in w.infra.vms.Keys && k.namespace == cfg.infraNamespace :: k.name
  }

  predicate IsLive(cfg: Config, w: World, name: string) { VMKey(cfg, name) in w.infra.vms }

  lemma LiveIff(cfg: Config, w: World, name: string)
    ensures name in Live(cfg, w) <==> IsLive(cfg, w, name)
  {
    if IsLive(cfg, w, name) {
      assert VMKey(cfg, name) in w.infra.vms.Keys;
    }
  }

  /** What a call may do to a set of names, and what it must do when it says it succeeded. */
  predicate Refines(live: set<string>, live': set<string>, c: Call, made: bool, p: Proc) {
    match c
    case Create(m, _) => live' == live + if made then {m.key.name} else {}
    case Update(_, _) => live' == live
    case Delete(m, net) =>
      (live' == live || live' == live - {m.key.name}) && (p == Done(Success) && !net.choice.lingers ==> live' == live - {m.key.name})
    case Exists(m, net) => live' == live && p == Done(if net.getVM.Delivered? then Found(m.key.name in live) else Failed)
  }

  lemma VersionsKept(cfg: Config, w: World, c: Call)
    requires VersionsOk(w)
    ensures VersionsOk(Perform(cfg, w, c).0)
  {
    BeginOk(cfg, w, c);
    hide Begin, Step, Run, ProcOk, VersionsOk;
    RunVersions(cfg, w, Begin(cfg, c), c.net);
  }

  lemma BeginOk(cfg: Config, w: World, c: Call)
    ensures ProcOk(cfg, w, Begin(cfg, c))
  {
  }

  /**
   Create, Update, Delete and Exists refine add, keep, remove and member on a set of names: all four
   use the key made of the infra namespace and the Machine's name. Create adds exactly when the name
   had neither secret nor VM and nothing failed on the way.
   */
  lemma CallsRefineSet(cfg: Config, w: World, c: Call)
    requires VersionsOk(w)
    ensures var (w', p') := Perform(cfg, w, c);
            Refines(Live(cfg, w), Live(cfg, w'), c, MakesTheVM(cfg, w, c.m, c.net), p')
  {
    hide Run, Step, StartUpdate, StartDelete, MakesTheVM, TakesLatch;
    var (w', p') := Perform(cfg, w, c);
    match c {
      case Create(m, net) =>
        CreateRun(cfg, w, m, net);
        forall n ensures n in Live(cfg, w') <==> n in Live(cfg, w) || (MakesTheVM(cfg, w, m, net) && n == m.key.name) {
          LiveIff(cfg, w, n);
          LiveIff(cfg, w', n);
        }
      case Update(m, net) =>
        UpdateRun(cfg, w, m, net);
      case Delete(m, net) =>
        DeleteRun(cfg, w, m, net);
        forall n ensures n in Live(cfg, w) <==> IsLive(cfg, w, n)
          ensures n in Live(cfg, w') <==> IsLive(cfg, w', n)
        {
          LiveIff(cfg, w, n);
          LiveIff(cfg, w', n);
        }
      case Exists(m, net) =>
        ExistsRun(cfg, w, m, net);
        LiveIff(cfg, w, m.key.name);
    }
  }

  // -------- sets of Machines --------

  /** The Machines whose own Create made a VM that no Delete of theirs has removed since. */
  function Owned(cfg: Config, w: World, calls: seq<Call>): set<Key> {
    if calls == [] then {} else
    var front, c := calls[..|calls| - 1], calls[|calls| - 1];
    var before, after := PerformAll(cfg, w, front), PerformAll(cfg, w, calls);
    var was, is_ := IsLive(cfg, before, c.m.key.name), IsLive(cfg, after, c.m.key.name);
    if c.Create? && !was && is_ then Owned(cfg, w, front) + {c.m.key}
    else if c.Delete? && was && !is_ then Owned(cfg, w, front) - {c.m.key}
    else Owned(cfg, w, front)
  }

  predicate Over(calls: seq<Call>, universe: set<Machine>) {
    forall i | 0 <= i < |calls| :: calls[i].m in universe
  }

  /** After every run of calls, what Exists answers for a Machine is whether the Machine is in the set. */
  ghost predicate Lifts(cfg: Config, w: World, universe: set<Machine>) {
    forall calls, m | Over(calls, universe) && m in universe ::
      IsLive(cfg, PerformAll(cfg, w, calls), m.key.name) <==> m.key in Owned(cfg, w, calls)
  }

  predicate NamesUnique(universe: set<Machine>) {
    forall m1, m2 | m1 in universe && m2 in universe && m1.key.name == m2.key.name :: m1.key == m2.key
  }

  lemma {:induction false} UniqueNamesLift(cfg: Config, w: World, universe: set<Machine>, calls: seq<Call>)
    requires VersionsOk(w) && NamesUnique(universe) && Over(calls, universe)
    requires forall m | m in universe :: !IsLive(cfg, w, m.key.name)
    ensures VersionsOk(PerformAll(cfg, w, calls))
    ensures forall m | m in universe :: IsLive(cfg, PerformAll(cfg, w, calls), m.key.name) <==> m.key in Owned(cfg, w, calls)
    decreases |calls|
  {
    if calls != [] {
      hide Perform, MakesTheVM;
      var front, c := calls[..|calls| - 1], calls[|calls| - 1];
      UniqueNamesLift(cfg, w, universe, front);
      var before := PerformAll(cfg, w, front);
      VersionsKept(cfg, before, c);
      CallsRefineSet(cfg, before, c);
      forall m | m in universe ensures IsLive(cfg, PerformAll(cfg, w, calls), m.key.name) <==> m.key in Owned(cfg, w, calls) {
        LiveIff(cfg, before, m.key.name);
        LiveIff(cfg, PerformAll(cfg, w, calls), m.key.name);
        assert c.m in universe;
      }
    }
  }

  /**
   Starting with none of their VMs or secrets there, the refinement lifts from names to Machines
   exactly when no two Machines of different namespaces share a name: the Machine's own namespace
   is not part of the key.
   */
  lemma LiftsExactlyForUniqueNames(cfg: Config, w: World, universe: set<Machine>)
    requires VersionsOk(w)
    requires forall m | m in universe :: !IsLive(cfg, w, m.key.name) && SecretKey(cfg, m.key.name) !in w.infra.secrets
                                         && Buildable(cfg, m) && HasUserData(w, m)
    ensures Lifts(cfg, w, universe) <==> NamesUnique(universe)
  {
    hide Perform, Buildable, HasUserData;
    if NamesUnique(universe) {
      forall calls, m | Over(calls, universe) && m in universe
        ensures IsLive(cfg, PerformAll(cfg, w, calls), m.key.name) <==> m.key in Owned(cfg, w, calls)
      {
        UniqueNamesLift(cfg, w, universe, calls);
      }
    } else {
      var m1, m2 :| m1 in universe && m2 in universe && m1.key.name == m2.key.name && m1.key != m2.key;
      var calls := [Create(m1, ALL_DELIVERED)];
      OneCreate(cfg, w, m1);
      assert Over(calls, universe);
      assert m2.key !in Owned(cfg, w, calls);
    }
  }

  lemma OneCreate(cfg: Config, w: World, m: Machine)
    requires !IsLive(cfg, w, m.key.name) && SecretKey(cfg, m.key.name) !in w.infra.secrets && Buildable(cfg, m) && HasUserData(w, m)
    ensures var calls := [Create(m, ALL_DELIVERED)];
            IsLive(cfg, PerformAll(cfg, w, calls), m.key.name) && Owned(cfg, w, calls) == {m.key}
  {
    hide Run, Buildable, HasUserData;
    var calls := [Create(m, ALL_DELIVERED)];
    assert calls[..0] == [];
    assert PerformAll(cfg, w, []) == w && Owned(cfg, w, []) == {};
    CreateRun(cfg, w, m, ALL_DELIVERED);
    assert PerformAll(cfg, w, calls) == Run(cfg, w, StartCreate(m), ALL_DELIVERED).0;
  }
}
