/** What a booting VM finds in its ignition secret: its own name. */
module Hostnames {
  import opened Wrappers
  import opened JsonValue
  import opened Resources
  import opened MachineScope
  import opened Cluster
  import opened Protocol
  import opened Interleaving
  import opened Latch
  import opened UserData

  /** The host name a document gives its machine: the decoded source of its one file, if that is the hostname file. */
  function NameIn(document: Json): Option<string> {
    var files := Get(document, FILES_PATH);
    if files.None? || !files.value.Arr? || |files.value.items| != 1 then None else
    var file := files.value.items[0];
    var source := Get(file, ["contents", "source"]);
    if Member(file, "path") != Some(Str("/etc/hostname")) || source.None? || !source.value.Str? then None
    else DecodeDataURL(source.value.text)
  }

  /** A secret that names its machine, exactly if a data URL can carry the name unescaped. */
  predicate Names(secret: Secret, name: string) {
    "userdata" in secret.data && (NameIn(secret.data["userdata"]) == Some(name) <==> '%' !in name)
  }

  ghost predicate SecretsNamed(cfg: Config, i: Infra) {
    forall name :: SecretKey(cfg, name) in i.secrets ==> Names(i.secrets[SecretKey(cfg, name)], name)
  }

  predicate ProcNamed(cfg: Config, p: Proc) {
    p.MakeSecret? ==> Names(p.secret, p.m.key.name)
  }

  lemma IgnitionNamed(cfg: Config, m: Machine, userData: Json)
    requires InDomain(Some(userData))
    ensures Names(IgnitionSecret(cfg, m, WithHostname(userData, m.key.name)), m.key.name)
  {
    HostnameRoundTrip(userData, m.key.name);
    hide WithHostname, Get, DecodeDataURL;
  }

  lemma MakeSecretNamed(cfg: Config, w: World, p: Proc, wire: Wire, choice: Choice)
    requires p.MakeSecret? && ProcOk(cfg, w, p) && SecretsNamed(cfg, w.infra) && ProcNamed(cfg, p)
    ensures SecretsNamed(cfg, Step(cfg, w, p, wire, choice).0.infra)
  {
    hide Names, AfterSecret;
    var i := CreateSecretCall(w.infra, p.secret, wire).0;
    forall name | SecretKey(cfg, name) in i.secrets ensures Names(i.secrets[SecretKey(cfg, name)], name) {
      SecretNamesDiffer(name, p.m.key.name);
    }
  }

  lemma StepNamed(cfg: Config, w: World, p: Proc, wire: Wire, choice: Choice)
    requires VersionsOk(w) && ProcOk(cfg, w, p) && SecretsNamed(cfg, w.infra) && ProcNamed(cfg, p)
    ensures var (w', p') := Step(cfg, w, p, wire, choice); SecretsNamed(cfg, w'.infra) && ProcNamed(cfg, p')
  {
    hide Names;
    if p.MakeSecret? {
      MakeSecretNamed(cfg, w, p, wire, choice);
    } else if p.FetchUserData? {
      var r := GetUserSecretCall(w.tenant, Key(p.m.key.namespace, OpenScope(p.m).GetOr(NO_SPEC).ignitionSecretName), wire);
      if r.Ok? && USER_DATA_KEY in r.value && InDomain(r.value[USER_DATA_KEY]) {
        IgnitionNamed(cfg, p.m, r.value[USER_DATA_KEY].value);
      }
    } else {
      hide BuildVM, OpenScope;
    }
  }

  ghost predicate SystemNamed(cfg: Config, s: System) {
    SecretsNamed(cfg, s.world.infra) && forall pid | pid in s.procs :: ProcNamed(cfg, s.procs[pid])
  }

  /** Others write no ignition secrets: no secret of the infra namespace under such a name. */
  ghost predicate NoForgery(cfg: Config, a: Action) {
    a.Environment? && a.event.PutSecret? ==> forall name :: a.event.secret.key != SecretKey(cfg, name)
  }

  lemma ExecNamed(cfg: Config, s: System, a: Action)
    requires SystemOk(cfg, s) && SystemNamed(cfg, s) && NoForgery(cfg, a)
    ensures SystemNamed(cfg, Exec(cfg, s, a))
  {
    match a
    case Launch(_, job) =>
      StartShape(cfg, s.world, job);
      hide Start, Names;
    case Advance(pid, wire, choice) =>
      hide Step, SecretsNamed, Names;
      if pid in s.procs {
        assert ProcOk(cfg, s.world, s.procs[pid]);
        StepNamed(cfg, s.world, s.procs[pid], wire, choice);
      }
    case Environment(e) =>
      hide Names, TenantEvent;
  }

  /**
   In every reachable state, whatever the tenants wrote into their user data and whatever others do
   short of writing ignition secrets themselves: the ignition secret of a name gives the machine
   exactly that name, unless the name holds a percent sign, and then it never does. DNS names hold
   none.
   */
  lemma {:induction false} SecretsAlwaysName(cfg: Config, s: System, acts: seq<Action>)
    requires VersionsOk(s.world) && s.procs == map[] && SecretsNamed(cfg, s.world.infra)
    requires forall i | 0 <= i < |acts| :: NoForgery(cfg, acts[i])
    ensures SystemNamed(cfg, After(cfg, s, acts))
    ensures forall name :: var key, i := SecretKey(cfg, name), After(cfg, s, acts).world.infra;
              DnsSafe(name) && key in i.secrets ==> "userdata" in i.secrets[key].data && NameIn(i.secrets[key].data["userdata"]) == Some(name)
    decreases |acts|
  {
    hide Exec, NameIn;
    if acts != [] {
      var front := acts[..|acts| - 1];
      SecretsAlwaysName(cfg, s, front);
      AlwaysOk(cfg, s, front, |front|);
      assert front[..|front|] == front;
      ExecNamed(cfg, After(cfg, s, front), acts[|acts| - 1]);
    }
  }
}
