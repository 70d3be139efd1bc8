/** Generation of the Docker Swarm deployment files: choosing the
    orchestrator, dropping the worker services that do not apply, one pair
    of Vault credential files per service, and the clean-up of blank lines
    in rendered templates. Template rendering and the Vault credentials are
    parameters. */
module Deployment {
  import opened Wrappers
  import opened Text

  datatype Orchestrator = Swarm

  /** BaseDeployment.get_instance: the explicit orchestrator, or the
      configured one when none is given; only Docker Swarm is known. */
  function GetInstance(config: map<string, string>, orchestrator: Option<string>): (r: Result<Orchestrator>)
    ensures orchestrator.Some? ==> (r.Ok? <==> orchestrator.value == "swarm")
    ensures orchestrator.None? ==>
              (r.Ok? <==> "DEPLOYMENT_ORCHESTRATOR" in config && config["DEPLOYMENT_ORCHESTRATOR"] == "swarm")
    ensures r.Err? ==>
              r.error == "Invalid orchestrator \"" +
                         Shown(if orchestrator.Some? then orchestrator
                               else if "DEPLOYMENT_ORCHESTRATOR" in config then Some(config["DEPLOYMENT_ORCHESTRATOR"])
                               else None) + "\""
  {
    var chosen :=
      if orchestrator.Some? then orchestrator
      else if "DEPLOYMENT_ORCHESTRATOR" in config then Some(config["DEPLOYMENT_ORCHESTRATOR"])
      else None;
    if chosen == Some("swarm") then Ok(Swarm)
    else Err("Invalid orchestrator \"" + Shown(chosen) + "\"")
  }

  /** The lines that are not blank, in their order. */
  function NonBlank(lines: seq<string>): (r: seq<string>)
    ensures forall i :: 0 <= i < |r| ==> !IsBlank(r[i]) && r[i] in lines
    ensures forall x :: x in lines && !IsBlank(x) ==> x in r
    ensures |r| <= |lines|
  {
    if lines == [] then []
    else if IsBlank(lines[0]) then NonBlank(lines[1..])
    else [lines[0]] + NonBlank(lines[1..])
  }

  /** Filtering keeps the order: the kept lines of a concatenation are the
      kept lines of each part. */
  lemma {:induction false} NonBlankAppend(a: seq<string>, b: seq<string>)
    ensures NonBlank(a + b) == NonBlank(a) + NonBlank(b)
  {
    if a != [] {
      var ab := a + b;
      assert ab != [] && ab[0] == a[0] && ab[1..] == a[1..] + b;
      NonBlankAppend(a[1..], b);
      if IsBlank(a[0]) {
        assert NonBlank(ab) == NonBlank(a[1..] + b);
      } else {
        assert NonBlank(ab) == [a[0]] + NonBlank(a[1..] + b);
        assert [a[0]] + (NonBlank(a[1..]) + NonBlank(b)) == ([a[0]] + NonBlank(a[1..])) + NonBlank(b);
      }
    } else {
      assert a + b == b;
    }
  }

  /** Filtering lines that are all non-blank keeps them all. */
  lemma {:induction false} NonBlankKeepsAll(lines: seq<string>)
    requires forall i :: 0 <= i < |lines| ==> !IsBlank(lines[i])
    ensures NonBlank(lines) == lines
  {
    if lines != [] {
      NonBlankKeepsAll(lines[1..]);
    }
  }

  /** BaseDeployment._remove_empty_lines: the text without its blank lines. */
  function RemoveEmptyLines(text: string): string
  {
    Join(NonBlank(Split(text, '\n')), "\n")
  }

  /** The lines of the result are the non-blank lines of the text, unchanged
      and in order; none of them is blank. */
  lemma {:induction false} RemoveEmptyLinesLines(text: string)
    ensures RemoveEmptyLines(text) == "" <==> NonBlank(Split(text, '\n')) == []
    ensures RemoveEmptyLines(text) != "" ==>
              Split(RemoveEmptyLines(text), '\n') == NonBlank(Split(text, '\n')) &&
              forall i :: 0 <= i < |Split(RemoveEmptyLines(text), '\n')| ==> !IsBlank(Split(RemoveEmptyLines(text), '\n')[i])
  {
    var kept := NonBlank(Split(text, '\n'));
    SplitPartsNoSep(text, '\n');
    if kept != [] {
      assert forall i :: 0 <= i < |kept| ==> '\n' !in kept[i];
      SplitJoin(kept, '\n');
      assert !IsBlank(kept[0]);
      JoinFirst(kept);
    }
  }

  /** A join starts with its first part, so a non-blank first part makes a
      non-empty join. */
  lemma {:induction false} JoinFirst(parts: seq<string>)
    requires |parts| >= 1 && parts[0] != ""
    ensures Join(parts, "\n") != ""
  {
    if |parts| > 1 {
      assert |Join(parts, "\n")| >= |parts[0]|;
    }
  }

  /** Removing blank lines twice removes nothing more. */
  lemma {:induction false} RemoveEmptyLinesIdempotent(text: string)
    ensures RemoveEmptyLines(RemoveEmptyLines(text)) == RemoveEmptyLines(text)
  {
    var r := RemoveEmptyLines(text);
    RemoveEmptyLinesLines(text);
    if r == "" {
      assert Split(r, '\n') == [""];
      assert IsBlank("");
    } else {
      NonBlankKeepsAll(Split(r, '\n'));
    }
  }

  /** The workers that only run with specialized workers. */
  const SpecializedWorkers: set<string> :=
    {"worker-enrolment", "worker-enrolment-storage", "worker-enrolment-validation",
     "worker-verification", "worker-alerts", "worker-reporting"}

  /** The services removed for a worker layout. */
  function Removed(specialized: bool): set<string>
  {
    if specialized then {"worker-all"} else SpecializedWorkers
  }

  /** `del modules[key]`, which fails on a missing key. */
  method Delete(modules: map<string, string>, key: string) returns (r: Result<map<string, string>>)
    ensures r.Ok? <==> key in modules
    ensures r.Ok? ==> r.value == modules - {key}
    ensures r.Err? ==> r.error == key
  {
    if key !in modules {
      return Err(key);
    }
    r := Ok(modules - {key});
  }

  /** The worker selection of SwarmDeployment.get_deployment_scripts: with
      specialized workers only the all-in-one worker goes, otherwise the six
      specialized workers go; a worker missing from the services fails. */
  method SelectModules(modules: map<string, string>, specialized: bool) returns (r: Result<map<string, string>>)
    ensures r.Ok? <==> Removed(specialized) <= modules.Keys
    ensures r.Ok? ==> r.value.Keys == modules.Keys - Removed(specialized)
    ensures r.Ok? ==> forall m :: m in r.value ==> r.value[m] == modules[m]
  {
    if specialized {
      r := Delete(modules, "worker-all");
      return;
    }
    var step := Delete(modules, "worker-enrolment");
    if step.Err? {
      return step;
    }
    step := Delete(step.value, "worker-enrolment-storage");
    if step.Err? {
      return step;
    }
    step := Delete(step.value, "worker-enrolment-validation");
    if step.Err? {
      return step;
    }
    step := Delete(step.value, "worker-verification");
    if step.Err? {
      return step;
    }
    step := Delete(step.value, "worker-alerts");
    if step.Err? {
      return step;
    }
    r := Delete(step.value, "worker-reporting");
  }

  /** The scripts of a Swarm deployment. */
  datatype ScriptName = CoreScript | LbScript | ServicesScript | DashboardsScript

  /** The file a script is written to. */
  function ScriptPath(n: ScriptName): string
  {
    match n
    case CoreScript => "tesla_core.yml"
    case LbScript => "tesla_lb.yml"
    case ServicesScript => "tesla_services.yml"
    case DashboardsScript => "tesla_dashboards.yml"
  }

  /** The template a script is rendered from. */
  function Template(n: ScriptName): string
  {
    match n
    case CoreScript => "deployment/swarm/tesla_core.yml"
    case LbScript => "deployment/swarm/tesla_lb_traefik.yml"
    case ServicesScript => "deployment/swarm/tesla_services.yml"
    case DashboardsScript => "deployment/swarm/tesla_frontend.yml"
  }

  /** A script's content: its template rendered with the selected services,
      without blank lines. */
  function Rendered(n: ScriptName, mods: map<string, string>, render: (string, map<string, string>) -> string): string
  {
    RemoveEmptyLines(render(Template(n), mods))
  }

  /** The name of a generated file: a script, or the Vault role id or
      secret id file of a service, named after its upper-case name. */
  datatype FileName = Script(name: ScriptName) | RoleId(service: string) | SecretId(service: string)

  /** The path the file is written to. */
  function Path(f: FileName): string
  {
    match f
    case Script(name) => ScriptPath(name)
    case RoleId(service) => "secrets/" + service + "_VAULT_ROLE_ID"
    case SecretId(service) => "secrets/" + service + "_VAULT_SECRET_ID"
  }

  /** Distinct file names have distinct paths: the file map keyed by names
      is the file map keyed by paths. */
  lemma {:induction false} PathsDistinct(f: FileName, g: FileName)
    requires f != g
    ensures Path(f) != Path(g)
  {
    var pf := Path(f);
    var pg := Path(g);
    if f.Script? {
      assert pf[0] == 't' && |pf| == |ScriptPath(f.name)|;
    } else {
      assert pf[..8] == "secrets/";
    }
    if g.Script? {
      assert pg[0] == 't';
    } else {
      assert pg[..8] == "secrets/";
    }
    if f.RoleId? {
      assert pf[|pf| - 8] == '_';
      assert pf[8..8 + |f.service|] == f.service;
    }
    if f.SecretId? {
      assert pf[|pf| - 8] == 'E';
      assert pf[8..8 + |f.service|] == f.service;
    }
    if g.RoleId? {
      assert pg[|pg| - 8] == '_';
      assert pg[8..8 + |g.service|] == g.service;
    }
    if g.SecretId? {
      assert pg[|pg| - 8] == 'E';
      assert pg[8..8 + |g.service|] == g.service;
    }
  }

  /** The Vault role id file of a service. */
  function RoleFile(m: string): FileName
  {
    RoleId(Upper(m))
  }

  /** The Vault secret id file of a service. */
  function SecretFile(m: string): FileName
  {
    SecretId(Upper(m))
  }

  /** The deployment files other than the credentials. */
  function ScriptFiles(lb: Option<string>, services: bool): set<FileName>
  {
    {Script(CoreScript), Script(DashboardsScript)} +
    (if lb == Some("traefik") then {Script(LbScript)} else {}) +
    (if services then {Script(ServicesScript)} else {})
  }

  /** No two services share an upper-case name. */
  predicate UpperDistinct(mods: set<string>)
  {
    forall a, b {:trigger SameUpper(a, b)} :: a in mods && b in mods && SameUpper(a, b) ==> a == b
  }

  /** Two services with the same upper-case name. */
  predicate SameUpper(a: string, b: string)
  {
    Upper(a) == Upper(b)
  }

  /** The Vault credentials of a service: its role id and secret id. */
  datatype Credentials = Credentials(roleId: string, secretId: string)

  type Files = map<FileName, string>

  /** The deployment files of the Swarm orchestrator: the core services
      script, one role id and one secret id file per selected service, the
      load balancer script with Traefik only, the services script when
      requested and the dashboards script. */
  method DeploymentScripts(modules: map<string, string>, specialized: bool, lb: Option<string>, services: bool,
                           credentials: string -> Credentials, render: (string, map<string, string>) -> string)
    returns (r: Result<(map<string, string>, Files)>)
    ensures r.Ok? <==> Removed(specialized) <= modules.Keys
    ensures r.Ok? ==> r.value.0.Keys == modules.Keys - Removed(specialized)
    ensures r.Ok? ==> r.value.1.Keys == ScriptFiles(lb, services) + CredentialFiles(r.value.0.Keys)
    ensures r.Ok? ==> r.value.1[Script(CoreScript)] == Rendered(CoreScript, r.value.0, render)
    ensures r.Ok? && lb == Some("traefik") ==> r.value.1[Script(LbScript)] == Rendered(LbScript, r.value.0, render)
    ensures r.Ok? && services ==> r.value.1[Script(ServicesScript)] == Rendered(ServicesScript, r.value.0, render)
    ensures r.Ok? ==> r.value.1[Script(DashboardsScript)] == Rendered(DashboardsScript, r.value.0, render)
    ensures r.Ok? && UpperDistinct(r.value.0.Keys) ==> CredentialsFor(r.value.1, r.value.0.Keys, credentials)
  {
    var selected := SelectModules(modules, specialized);
    if selected.Err? {
      return Err(selected.error);
    }
    var mods := selected.value;
    var files := SwarmFiles(mods, lb, services, credentials, render);
    r := Ok((mods, files));
  }

  /** The files written for the selected services. */
  method SwarmFiles(mods: map<string, string>, lb: Option<string>, services: bool,
                    credentials: string -> Credentials, render: (string, map<string, string>) -> string)
    returns (files: Files)
    ensures files.Keys == ScriptFiles(lb, services) + CredentialFiles(mods.Keys)
    ensures files[Script(CoreScript)] == Rendered(CoreScript, mods, render)
    ensures lb == Some("traefik") ==> files[Script(LbScript)] == Rendered(LbScript, mods, render)
    ensures services ==> files[Script(ServicesScript)] == Rendered(ServicesScript, mods, render)
    ensures files[Script(DashboardsScript)] == Rendered(DashboardsScript, mods, render)
    ensures UpperDistinct(mods.Keys) ==> CredentialsFor(files, mods.Keys, credentials)
  {
    var core := map[Script(CoreScript) := Rendered(CoreScript, mods, render)];
    ghost var distinct := UpperDistinct(mods.Keys);
    files := AddCredentials(mods, credentials, core, distinct);
    ghost var written := files;
    files := AddScripts(files, mods, lb, services, render);
    if distinct {
      CredentialsKept(written, files, mods.Keys, credentials);
    }
  }

  /** Credential files copied unchanged keep their services' values. */
  lemma CredentialsKept(files: Files, r: Files, done: set<string>, credentials: string -> Credentials)
    requires CredentialsFor(files, done, credentials)
    requires forall k :: k in files && !k.Script? ==> k in r && r[k] == files[k]
    ensures CredentialsFor(r, done, credentials)
  {
    forall x | x in done
      ensures RoleFile(x) in r && r[RoleFile(x)] == credentials(x).roleId
      ensures SecretFile(x) in r && r[SecretFile(x)] == credentials(x).secretId
    {
      assert RoleFile(x) in files && !RoleFile(x).Script?;
      assert SecretFile(x) in files && !SecretFile(x).Script?;
    }
  }

  /** Every credential file of the services holds that service's value. */
  ghost predicate CredentialsFor(files: Files, done: set<string>, credentials: string -> Credentials)
  {
    forall x :: x in done ==> RoleFile(x) in files && files[RoleFile(x)] == credentials(x).roleId &&
                              SecretFile(x) in files && files[SecretFile(x)] == credentials(x).secretId
  }

  /** Writing the files of one more service keeps the files of the others
      when no two services share an upper-case name. */
  lemma CredentialsStep(files: Files, done: set<string>, m: string, credentials: string -> Credentials, all: set<string>)
    requires UpperDistinct(all) && m in all && done <= all && m !in done
    requires CredentialsFor(files, done, credentials)
    ensures CredentialsFor(files[RoleFile(m) := credentials(m).roleId][SecretFile(m) := credentials(m).secretId],
                           done + {m}, credentials)
  {
    forall x | x in done
      ensures Upper(x) != Upper(m)
    {
      assert SameUpper(x, m) ==> x == m;
    }
  }

  /** The credential files named after a set of services. */
  function CredentialFiles(done: set<string>): set<FileName>
  {
    (set x | x in done :: RoleFile(x)) + (set x | x in done :: SecretFile(x))
  }

  /** One more service adds its two files. */
  lemma CredentialFilesStep(done: set<string>, m: string)
    ensures CredentialFiles(done + {m}) == CredentialFiles(done) + {RoleFile(m), SecretFile(m)}
  {
  }

  /** The credential loop of SwarmDeployment.get_deployment_scripts: a
      role id and a secret id file per service, the scripts already there
      kept, and each service's values in its files unless two services
      share an upper-case name. */
  method AddCredentials(mods: map<string, string>, credentials: string -> Credentials, start: Files, ghost distinct: bool)
    returns (files: Files)
    requires forall k :: k in start ==> k.Script?
    requires distinct ==> UpperDistinct(mods.Keys)
    ensures Written(files, start, mods.Keys, credentials, distinct)
  {
    files := start;
    var todo := mods.Keys;
    ghost var done: set<string> := {};
    while todo != {}
      invariant todo <= mods.Keys && done == mods.Keys - todo
      invariant Written(files, start, done, credentials, distinct)
      decreases todo
    {
      var m :| m in todo;
      var c := credentials(m);
      WrittenStep(files, start, done, m, credentials, distinct, mods.Keys);
      files := files[RoleFile(m) := c.roleId][SecretFile(m) := c.secretId];
      todo := todo - {m};
      done := done + {m};
    }
  }

  /** The files once the credentials of the services in `done` are written
      over `start`: the start files kept, one role id and one secret id file
      per service, and (when no two services share an upper-case name) each
      holding its service's values. */
  ghost predicate Written(files: Files, start: Files, done: set<string>, credentials: string -> Credentials, distinct: bool)
  {
    files.Keys == start.Keys + CredentialFiles(done) &&
    (forall k :: k in start ==> files[k] == start[k]) &&
    (distinct ==> CredentialsFor(files, done, credentials))
  }

  /** Writing one more service's files keeps Written. */
  lemma WrittenStep(files: Files, start: Files, done: set<string>, m: string, credentials: string -> Credentials,
                    distinct: bool, all: set<string>)
    requires forall k :: k in start ==> k.Script?
    requires Written(files, start, done, credentials, distinct)
    requires m in all && done <= all && m !in done && (distinct ==> UpperDistinct(all))
    ensures Written(files[RoleFile(m) := credentials(m).roleId][SecretFile(m) := credentials(m).secretId],
                    start, done + {m}, credentials, distinct)
  {
    CredentialFilesStep(done, m);
    if distinct {
      CredentialsStep(files, done, m, credentials, all);
    }
  }

  /** The scripts added after the credentials: the load balancer with
      Traefik only, the services when requested, and the dashboards; the
      credential files and the core script stay as they are. */
  method AddScripts(files: Files, mods: map<string, string>, lb: Option<string>, services: bool,
                    render: (string, map<string, string>) -> string)
    returns (r: Files)
    requires Script(CoreScript) in files
    ensures r.Keys == files.Keys + ScriptFiles(lb, services)
    ensures forall k :: k in files && k !in {Script(LbScript), Script(ServicesScript), Script(DashboardsScript)} ==>
                        r[k] == files[k]
    ensures lb == Some("traefik") ==> r[Script(LbScript)] == Rendered(LbScript, mods, render)
    ensures services ==> r[Script(ServicesScript)] == Rendered(ServicesScript, mods, render)
    ensures r[Script(DashboardsScript)] == Rendered(DashboardsScript, mods, render)
  {
    r := files;
    if lb == Some("traefik") {
      r := r[Script(LbScript) := Rendered(LbScript, mods, render)];
    }
    if services {
      r := r[Script(ServicesScript) := Rendered(ServicesScript, mods, render)];
    }
    r := r[Script(DashboardsScript) := Rendered(DashboardsScript, mods, render)];
  }
}
