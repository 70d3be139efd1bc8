/** The configuration manager: when loading may start, how one module's
    information is found, and how the per-module configurations are merged
    into the Django settings, the database connections and the Celery
    broker URL. Modules are kept in the order they were loaded. */
module ConfigManager {
  import opened Wrappers
  import opened Text

  type Config = map<string, string>

  /** The information of one loaded module: its services and its
      configuration, each possibly absent. */
  datatype ModuleInfo = ModuleInfo(services: Option<seq<string>>, config: Option<Config>)

  type Modules = seq<(string, ModuleInfo)>

  /** `dict.get`: a missing key gives None. */
  function Get(c: Config, key: string): (r: Option<string>)
    ensures r.Some? <==> key in c
    ensures r.Some? ==> r.value == c[key]
  {
    if key in c then Some(c[key]) else None
  }

  /** `'{}'.format(v)`: a missing value prints as None. */
  function Str(v: Option<string>): string
  {
    if v.Some? then v.value else "None"
  }

  /** ConfigManager.load: refuses to start when the environment is disabled,
      no file is given and a Vault credential is missing. */
  function LoadRefusal(useEnv: bool, filePath: Option<string>, vaultRole: Option<string>, vaultSecret: Option<string>)
    : (r: Option<string>)
    ensures r.Some? <==> !useEnv && filePath.None? && (vaultRole.None? || vaultSecret.None?)
    ensures r.Some? ==> r.value == "Environment based config is disabled and no alternative is provided"
  {
    if !useEnv && filePath.None? && (vaultRole.None? || vaultSecret.None?)
    then Some("Environment based config is disabled and no alternative is provided")
    else None
  }

  /** The first module with a name. */
  function Find(modules: Modules, name: string): (r: Option<ModuleInfo>)
    ensures r.None? <==> forall k :: 0 <= k < |modules| ==> modules[k].0 != name
  {
    if modules == [] then None
    else if modules[0].0 == name then Some(modules[0].1)
    else
      var r := Find(modules[1..], name);
      assert forall k :: 1 <= k < |modules| ==> modules[k] == modules[1..][k - 1];
      r
  }

  /** A module found is the first one with that name. */
  lemma {:induction false} FindFirst(modules: Modules, name: string)
    requires Find(modules, name).Some?
    ensures exists k :: 0 <= k < |modules| && modules[k].0 == name && modules[k].1 == Find(modules, name).value &&
                        forall j :: 0 <= j < k ==> modules[j].0 != name
  {
    if modules[0].0 != name {
      FindFirst(modules[1..], name);
      var k :| 0 <= k < |modules[1..]| && modules[1..][k].0 == name && modules[1..][k].1 == Find(modules[1..], name).value &&
               forall j :: 0 <= j < k ==> modules[1..][j].0 != name;
      assert modules[k + 1] == modules[1..][k];
      assert forall j :: 1 <= j < k + 1 ==> modules[j] == modules[1..][j - 1];
    }
  }

  /** ConfigManager.get_module */
  function GetModule(modules: Modules, name: Option<string>): (r: Result<ModuleInfo>)
    ensures modules == [] ==> r == Err("No module configuration available")
    ensures |modules| > 1 && name.None? ==> r == Err("Multiple modules enabled. Module must be provided")
    ensures |modules| == 1 && name.None? ==> r == Ok(modules[0].1)
    ensures modules != [] && name.Some? ==>
              (r.Ok? <==> Find(modules, name.value).Some?) &&
              (r.Ok? ==> r.value == Find(modules, name.value).value) &&
              (r.Err? ==> r.error == "No module configuration available for " + name.value)
  {
    if modules == [] then Err("No module configuration available")
    else if name.None? && |modules| > 1 then Err("Multiple modules enabled. Module must be provided")
    else
      var key := if name.None? then modules[0].0 else name.value;
      var found := Find(modules, key);
      if found.Some? then Ok(found.value)
      else Err("No module configuration available for " + key)
  }

  /** ConfigManager.get_module_config */
  function GetModuleConfig(modules: Modules, name: Option<string>): (r: Result<Config>)
    ensures GetModule(modules, name).Err? ==> r == Err(GetModule(modules, name).error)
    ensures GetModule(modules, name).Ok? ==>
              var info := GetModule(modules, name).value;
              if info.config.Some? then r == Ok(info.config.value) else r == Err("No module configuration available")
  {
    var info := GetModule(modules, name);
    if info.Err? then Err(info.error)
    else if info.value.config.Some? then Ok(info.value.config.value)
    else Err("No module configuration available")
  }

  /** The configuration of the modules before position `n` other than
      'api', each one overriding the ones before it. */
  function MergeUpTo(modules: Modules, n: nat): Result<Config>
    requires n <= |modules|
  {
    if n == 0 then Ok(map[])
    else
      var before := MergeUpTo(modules, n - 1);
      var name := modules[n - 1].0;
      if before.Err? || name == "api" then before
      else
        var c := GetModuleConfig(modules, Some(name));
        if c.Err? then Err(c.error) else Ok(before.value + c.value)
  }

  predicate HasApi(modules: Modules)
  {
    exists k :: 0 <= k < |modules| && modules[k].0 == "api"
  }

  /** ConfigManager._get_config: the other modules merged in order, then
      the 'api' module on top. */
  function MergedConfig(modules: Modules): Result<Config>
  {
    var merged := MergeUpTo(modules, |modules|);
    if merged.Err? || !HasApi(modules) then merged
    else
      var api := GetModuleConfig(modules, Some("api"));
      if api.Err? then Err(api.error) else Ok(merged.value + api.value)
  }

  /** The 'api' module's keys win over every other module's. */
  lemma ApiKeysWin(modules: Modules, key: string)
    requires HasApi(modules) && MergedConfig(modules).Ok?
    ensures GetModuleConfig(modules, Some("api")).Ok?
    ensures key in GetModuleConfig(modules, Some("api")).value ==>
              key in MergedConfig(modules).value &&
              MergedConfig(modules).value[key] == GetModuleConfig(modules, Some("api")).value[key]
  {
  }

  /** Among the other modules, a key takes the value of the last module that
      sets it, unless 'api' sets it too. */
  lemma LaterModuleWins(modules: Modules, j: nat, key: string)
    requires j < |modules| && modules[j].0 != "api" && MergedConfig(modules).Ok?
    requires GetModuleConfig(modules, Some(modules[j].0)).Ok? && key in GetModuleConfig(modules, Some(modules[j].0)).value
    requires forall k :: j < k < |modules| && modules[k].0 != "api" && GetModuleConfig(modules, Some(modules[k].0)).Ok? ==>
               key !in GetModuleConfig(modules, Some(modules[k].0)).value
    requires HasApi(modules) ==> GetModuleConfig(modules, Some("api")).Ok? && key !in GetModuleConfig(modules, Some("api")).value
    ensures key in MergedConfig(modules).value &&
            MergedConfig(modules).value[key] == GetModuleConfig(modules, Some(modules[j].0)).value[key]
  {
    MergeKeepsLast(modules, j, key, |modules|);
  }

  lemma {:induction false} MergeKeepsLast(modules: Modules, j: nat, key: string, n: nat)
    requires j < n <= |modules| && modules[j].0 != "api"
    requires GetModuleConfig(modules, Some(modules[j].0)).Ok? && key in GetModuleConfig(modules, Some(modules[j].0)).value
    requires forall k :: j < k < |modules| && modules[k].0 != "api" && GetModuleConfig(modules, Some(modules[k].0)).Ok? ==>
               key !in GetModuleConfig(modules, Some(modules[k].0)).value
    requires MergeUpTo(modules, n).Ok?
    ensures key in MergeUpTo(modules, n).value &&
            MergeUpTo(modules, n).value[key] == GetModuleConfig(modules, Some(modules[j].0)).value[key]
  {
    if n - 1 > j {
      MergeKeepsLast(modules, j, key, n - 1);
    }
  }

  /** ConfigManager._get_config, step by step. */
  method GetConfig(modules: Modules) returns (r: Result<Config>)
    ensures r == MergedConfig(modules)
  {
    var merged, hasApi := MergeModules(modules);
    if merged.Err? {
      return merged;
    }
    var config := merged.value;
    if hasApi {
      var api := GetModuleConfig(modules, Some("api"));
      if api.Err? {
        return Err(api.error);
      }
      config := config + api.value;
    }
    r := Ok(config);
  }

  /** The loop of _get_config over the modules other than 'api', which
      also notes whether 'api' was seen. */
  method MergeModules(modules: Modules) returns (r: Result<Config>, hasApi: bool)
    ensures r == MergeUpTo(modules, |modules|)
    ensures r.Ok? ==> (hasApi <==> HasApi(modules))
  {
    hasApi := false;
    var config: Config := map[];
    var i := 0;
    while i < |modules|
      invariant 0 <= i <= |modules|
      invariant MergeUpTo(modules, i) == Ok(config)
      invariant hasApi <==> exists k :: 0 <= k < i && modules[k].0 == "api"
    {
      if modules[i].0 == "api" {
        hasApi := true;
      } else {
        var c := GetModuleConfig(modules, Some(modules[i].0));
        if c.Err? {
          r := Err(c.error);
          MergeStaysFailed(modules, i + 1, |modules|);
          return;
        }
        assert MergeUpTo(modules, i + 1) == Ok(config + c.value);
        config := config + c.value;
      }
      i := i + 1;
    }
    r := Ok(config);
  }

  lemma {:induction false} MergeStaysFailed(modules: Modules, m: nat, n: nat)
    requires m <= n <= |modules| && MergeUpTo(modules, m).Err?
    ensures MergeUpTo(modules, n) == MergeUpTo(modules, m)
    decreases n - m
  {
    if m < n {
      MergeStaysFailed(modules, m + 1, n);
    }
  }

  predicate HasService(info: ModuleInfo, service: string)
  {
    info.services.Some? && service in info.services.value
  }

  datatype DbEntry = DbEntry(engine: string, host: Option<string>, name: Option<string>, user: Option<string>,
                             password: Option<string>, port: Option<string>)

  function DbEntryOf(c: Config): (e: DbEntry)
    ensures e.engine == "django.db.backends." + Str(Get(c, "DB_ENGINE"))
    ensures e.host == Get(c, "DB_HOST") && e.port == Get(c, "DB_PORT")
  {
    DbEntry("django.db.backends." + Str(Get(c, "DB_ENGINE")), Get(c, "DB_HOST"), Get(c, "DB_NAME"),
            Get(c, "DB_USER"), Get(c, "DB_PASSWORD"), Get(c, "DB_PORT"))
  }

  /** The database entries of the modules before position `n` offering
      'db', in order. */
  function DbEntries(modules: Modules, n: nat): Result<seq<(string, DbEntry)>>
    requires n <= |modules|
  {
    if n == 0 then Ok([])
    else
      var before := DbEntries(modules, n - 1);
      if before.Err? || !HasService(modules[n - 1].1, "db") then before
      else
        var c := GetModuleConfig(modules, Some(modules[n - 1].0));
        if c.Err? then Err(c.error) else Ok(before.value + [(modules[n - 1].0, DbEntryOf(c.value))])
  }

  function ToMap(entries: seq<(string, DbEntry)>): map<string, DbEntry>
  {
    if entries == [] then map[]
    else ToMap(entries[..|entries| - 1])[entries[|entries| - 1].0 := entries[|entries| - 1].1]
  }

  /** ConfigManager.get_database_config: one connection per module offering
      'db', and 'default' set to the first of them. */
  function DatabaseConfig(modules: Modules): Result<map<string, DbEntry>>
  {
    var entries := DbEntries(modules, |modules|);
    if entries.Err? then Err(entries.error)
    else if entries.value == [] then Ok(map[])
    else Ok(ToMap(entries.value)["default" := entries.value[0].1])
  }

  /** Without a module offering 'db' there is no database configuration. */
  lemma NoDbModuleNoDatabase(modules: Modules)
    requires forall k :: 0 <= k < |modules| ==> !HasService(modules[k].1, "db")
    ensures DatabaseConfig(modules) == Ok(map[])
  {
    NoDbEntries(modules, |modules|);
  }

  lemma {:induction false} NoDbEntries(modules: Modules, n: nat)
    requires n <= |modules|
    requires forall k :: 0 <= k < |modules| ==> !HasService(modules[k].1, "db")
    ensures DbEntries(modules, n) == Ok([])
  {
    if n > 0 {
      NoDbEntries(modules, n - 1);
    }
  }

  /** 'default' is the connection of the first module offering 'db'. */
  lemma DefaultIsFirstDb(modules: Modules, j: nat)
    requires j < |modules| && HasService(modules[j].1, "db")
    requires forall k :: 0 <= k < j ==> !HasService(modules[k].1, "db")
    requires DatabaseConfig(modules).Ok?
    ensures GetModuleConfig(modules, Some(modules[j].0)).Ok?
    ensures "default" in DatabaseConfig(modules).value
    ensures DatabaseConfig(modules).value["default"] == DbEntryOf(GetModuleConfig(modules, Some(modules[j].0)).value)
  {
    FirstDbEntry(modules, j, |modules|);
  }

  lemma {:induction false} FirstDbEntry(modules: Modules, j: nat, n: nat)
    requires j < n <= |modules| && HasService(modules[j].1, "db")
    requires forall k :: 0 <= k < j ==> !HasService(modules[k].1, "db")
    requires DbEntries(modules, n).Ok?
    ensures GetModuleConfig(modules, Some(modules[j].0)).Ok?
    ensures |DbEntries(modules, n).value| > 0
    ensures DbEntries(modules, n).value[0] == (modules[j].0, DbEntryOf(GetModuleConfig(modules, Some(modules[j].0)).value))
  {
    if n - 1 > j {
      FirstDbEntry(modules, j, n - 1);
      var before := DbEntries(modules, n - 1).value;
      assert DbEntries(modules, n).value[..|before|] == before;
    } else {
      NoDbEntriesBefore(modules, j, j);
      assert DbEntries(modules, n).value == [(modules[j].0, DbEntryOf(GetModuleConfig(modules, Some(modules[j].0)).value))];
    }
  }

  lemma {:induction false} NoDbEntriesBefore(modules: Modules, j: nat, n: nat)
    requires n <= j < |modules|
    requires forall k :: 0 <= k < j ==> !HasService(modules[k].1, "db")
    ensures DbEntries(modules, n) == Ok([])
  {
    if n > 0 {
      NoDbEntriesBefore(modules, j, n - 1);
    }
  }

  /** ConfigManager.get_database_config, step by step. */
  method GetDatabaseConfig(modules: Modules) returns (r: Result<map<string, DbEntry>>)
    ensures r == DatabaseConfig(modules)
  {
    var entries := CollectDbEntries(modules);
    if entries.Err? {
      return Err(entries.error);
    }
    if entries.value == [] {
      return Ok(map[]);
    }
    var db := EntriesMap(entries.value);
    r := Ok(db["default" := entries.value[0].1]);
  }

  /** The loop over the modules offering 'db', stopping at the first
      module without a configuration. */
  method CollectDbEntries(modules: Modules) returns (r: Result<seq<(string, DbEntry)>>)
    ensures r == DbEntries(modules, |modules|)
  {
    var entries: seq<(string, DbEntry)> := [];
    var i := 0;
    while i < |modules|
      invariant 0 <= i <= |modules|
      invariant DbEntries(modules, i) == Ok(entries)
    {
      if HasService(modules[i].1, "db") {
        var c := GetModuleConfig(modules, Some(modules[i].0));
        if c.Err? {
          DbEntriesStayFailed(modules, i + 1, |modules|);
          return Err(c.error);
        }
        entries := entries + [(modules[i].0, DbEntryOf(c.value))];
      }
      i := i + 1;
    }
    r := Ok(entries);
  }

  /** The connections dictionary filled entry by entry. */
  method EntriesMap(entries: seq<(string, DbEntry)>) returns (db: map<string, DbEntry>)
    ensures db == ToMap(entries)
  {
    db := map[];
    var k := 0;
    while k < |entries|
      invariant 0 <= k <= |entries|
      invariant db == ToMap(entries[..k])
    {
      assert entries[..k + 1][..k] == entries[..k];
      db := db[entries[k].0 := entries[k].1];
      k := k + 1;
    }
    assert entries[..k] == entries;
  }

  lemma {:induction false} DbEntriesStayFailed(modules: Modules, m: nat, n: nat)
    requires m <= n <= |modules| && DbEntries(modules, m).Err?
    ensures DbEntries(modules, n) == DbEntries(modules, m)
    decreases n - m
  {
    if m < n {
      DbEntriesStayFailed(modules, m + 1, n);
    }
  }

  /** The vhost normalisation as written: the length of the value is taken
      before it is compared with None, so a missing vhost raises instead of
      becoming '/'. */
  function NormaliseVhostAsWritten(vhost: Option<string>): (r: Result<string>)
    ensures vhost.None? ==> r.Err?
    ensures vhost.Some? ==> r == Ok(NormaliseVhost(vhost))
  {
    if vhost.None? then Err("object of type 'NoneType' has no len()")
    else if |vhost.value| == 0 then Ok("/")
    else if !StartsWith(vhost.value, "/") then Ok("/" + vhost.value)
    else Ok(vhost.value)
  }

  /** The vhost normalisation as intended: a missing or empty vhost is '/',
      and a leading '/' is added when missing. */
  function NormaliseVhost(vhost: Option<string>): (r: string)
    ensures StartsWith(r, "/")
    ensures vhost.None? || vhost.value == [] ==> r == "/"
    ensures vhost.Some? && StartsWith(vhost.value, "/") ==> r == vhost.value
    ensures vhost.Some? && vhost.value != [] && !StartsWith(vhost.value, "/") ==> r == "/" + vhost.value
  {
    if vhost.None? || |vhost.value| == 0 then "/"
    else if !StartsWith(vhost.value, "/") then "/" + vhost.value
    else vhost.value
  }

  /** A module configuration without CELERY_BROKER_VHOST makes the code as
      written raise, where the normalisation evidently means '/'. */
  lemma MissingVhostRaises()
    ensures NormaliseVhostAsWritten(Get(map[], "CELERY_BROKER_VHOST")).Err?
    ensures NormaliseVhost(Get(map[], "CELERY_BROKER_VHOST")) == "/"
  {
  }

  /** Normalising twice changes nothing more. */
  lemma NormaliseVhostIdempotent(vhost: Option<string>)
    ensures NormaliseVhost(Some(NormaliseVhost(vhost))) == NormaliseVhost(vhost)
  {
  }

  function BrokerUrl(protocol: string, user: string, password: string, host: string, port: string, vhost: string): string
  {
    protocol + "://" + user + ":" + password + "@" + host + ":" + port + vhost
  }

  /** The broker URL of one module offering 'celery'. */
  function ModuleBrokerUrl(c: Config): string
  {
    if Get(c, "CELERY_BROKER_PROTOCOL") == Some("sqs")
    then "sqs://" + Str(Get(c, "CELERY_BROKER_USER")) + ":" + Str(Get(c, "CELERY_BROKER_PASSWORD")) + "@"
    else BrokerUrl(Str(Get(c, "CELERY_BROKER_PROTOCOL")), Str(Get(c, "CELERY_BROKER_USER")),
                   Str(Get(c, "CELERY_BROKER_PASSWORD")), Str(Get(c, "CELERY_BROKER_HOST")),
                   Str(Get(c, "CELERY_BROKER_PORT")), NormaliseVhost(Get(c, "CELERY_BROKER_VHOST")))
  }

  /** The broker URLs of the modules before position `n` offering 'celery'. */
  function CeleryUrls(modules: Modules, n: nat): Result<seq<string>>
    requires n <= |modules|
  {
    if n == 0 then Ok([])
    else
      var before := CeleryUrls(modules, n - 1);
      if before.Err? || !HasService(modules[n - 1].1, "celery") then before
      else
        var c := GetModuleConfig(modules, Some(modules[n - 1].0));
        if c.Err? then Err(c.error) else Ok(before.value + [ModuleBrokerUrl(c.value)])
  }

  /** `s.split(pat)[0]`: what comes before the first occurrence. */
  function BeforeFirst(s: string, pat: string): string
    requires |pat| > 0
    decreases |s|
  {
    if |s| < |pat| then s
    else if s[..|pat|] == pat then ""
    else [s[0]] + BeforeFirst(s[1..], pat)
  }

  /** The first broker URL with the RabbitMQ administrator's credentials:
      what precedes '//', then the part after the first '@'. */
  function AdminUrl(url: string, adminUser: string, adminPassword: string): Result<string>
  {
    var parts := Split(url, '@');
    if |parts| < 2 then Err("list index out of range")
    else Ok(BeforeFirst(url, "//") + "//" + adminUser + ":" + adminPassword + "@" + parts[1])
  }

  /** The broker URL of the global configuration. */
  function DefaultBrokerUrl(config: Config): string
  {
    BrokerUrl(Str(Get(config, "CELERY_BROKER_PROTOCOL")), Str(Get(config, "CELERY_BROKER_USER")),
              Str(Get(config, "CELERY_BROKER_PASSWORD")), Str(Get(config, "CELERY_BROKER_HOST")),
              Str(Get(config, "CELERY_BROKER_PORT")), NormaliseVhost(Get(config, "CELERY_BROKER_VHOST")))
  }

  /** The broker URL chosen from the Celery modules' URLs: the only one;
      with several, the first one's host with the administrator's
      credentials, which must be configured; with none, the global
      settings. */
  function ChooseBrokerUrl(urls: seq<string>, config: Config): Result<string>
  {
    if |urls| > 1 then
      if Get(config, "RABBITMQ_ADMIN_USER").Some? && Get(config, "RABBITMQ_ADMIN_PASSWORD").Some?
      then AdminUrl(urls[0], config["RABBITMQ_ADMIN_USER"], config["RABBITMQ_ADMIN_PASSWORD"])
      else Err("Multiple celery configuration without administration credentials.")
    else if |urls| == 1 then Ok(urls[0])
    else Ok(DefaultBrokerUrl(config))
  }

  /** ConfigManager.get_celery_config: the URL chosen from those of the
      modules offering 'celery', unless reading one of them fails. */
  function CeleryConfig(modules: Modules, config: Config): Result<string>
  {
    var urls := CeleryUrls(modules, |modules|);
    if urls.Err? then Err(urls.error) else ChooseBrokerUrl(urls.value, config)
  }

  /** Several Celery modules without administrator credentials are refused. */
  lemma SeveralCeleryModulesNeedAdmin(modules: Modules, config: Config)
    requires CeleryUrls(modules, |modules|).Ok? && |CeleryUrls(modules, |modules|).value| > 1
    requires "RABBITMQ_ADMIN_USER" !in config || "RABBITMQ_ADMIN_PASSWORD" !in config
    ensures CeleryConfig(modules, config) == Err("Multiple celery configuration without administration credentials.")
  {
  }

  /** Without a module offering 'celery' the global broker settings apply. */
  lemma NoCeleryModuleUsesDefaults(modules: Modules, config: Config)
    requires forall k :: 0 <= k < |modules| ==> !HasService(modules[k].1, "celery")
    ensures CeleryConfig(modules, config) == Ok(DefaultBrokerUrl(config))
  {
    NoCeleryUrls(modules, |modules|);
  }

  lemma {:induction false} NoCeleryUrls(modules: Modules, n: nat)
    requires n <= |modules|
    requires forall k :: 0 <= k < |modules| ==> !HasService(modules[k].1, "celery")
    ensures CeleryUrls(modules, n) == Ok([])
  {
    if n > 0 {
      NoCeleryUrls(modules, n - 1);
    }
  }

  lemma {:induction false} BeforeFirstProtocol(protocol: string, rest: string)
    requires '/' !in protocol
    ensures BeforeFirst(protocol + "://" + rest, "//") == protocol + ":"
  {
    if protocol == [] {
      assert ("://" + rest)[1..] == "//" + rest;
      assert ("//" + rest)[..2] == "//";
    } else {
      assert (protocol + "://" + rest)[1..] == protocol[1..] + "://" + rest;
      BeforeFirstProtocol(protocol[1..], rest);
    }
  }

  /** The administrator URL keeps protocol, host, port and vhost and only
      swaps the credentials, as long as no part holds an '@' and the
      protocol holds no '/'. */
  lemma AdminUrlSwapsCredentials(protocol: string, user: string, password: string, host: string, port: string,
                                 vhost: string, adminUser: string, adminPassword: string)
    requires '/' !in protocol && '@' !in protocol && '@' !in user && '@' !in password
    requires '@' !in host && '@' !in port && '@' !in vhost
    ensures AdminUrl(BrokerUrl(protocol, user, password, host, port, vhost), adminUser, adminPassword) ==
            Ok(BrokerUrl(protocol, adminUser, adminPassword, host, port, vhost))
  {
    var credentials := protocol + "://" + user + ":" + password;
    var location := host + ":" + port + vhost;
    var url := BrokerUrl(protocol, user, password, host, port, vhost);
    assert '@' !in credentials && '@' !in location;
    assert Join([location], "@") == location;
    assert Join([credentials, location], "@") == credentials + "@" + location == url;
    SplitJoin([credentials, location], '@');
    assert Split(url, '@')[1] == location;
    assert url == protocol + "://" + (user + ":" + password + "@" + location);
    BeforeFirstProtocol(protocol, user + ":" + password + "@" + location);
    assert BeforeFirst(url, "//") == protocol + ":";
    assert AdminUrl(url, adminUser, adminPassword) == Ok(protocol + ":" + "//" + adminUser + ":" + adminPassword + "@" + location);
    assert ":" + "//" == "://";
    assert protocol + ":" + "//" + adminUser + ":" + adminPassword + "@" + location ==
           protocol + "://" + adminUser + ":" + adminPassword + "@" + location;
    var adminCredentials := protocol + "://" + adminUser + ":" + adminPassword + "@";
    assert adminCredentials + location == adminCredentials + host + ":" + port + vhost;
  }

  /** ConfigManager.get_celery_config, step by step. */
  method GetCeleryConfig(modules: Modules, config: Config) returns (r: Result<string>)
    ensures r == CeleryConfig(modules, config)
  {
    var urls := CollectCeleryUrls(modules);
    if urls.Err? {
      return Err(urls.error);
    }
    r := ChooseBrokerUrl(urls.value, config);
  }

  /** The loop of get_celery_config over the modules: the broker URL of
      each module offering 'celery', in order, stopping at the first whose
      configuration cannot be read. */
  method CollectCeleryUrls(modules: Modules) returns (r: Result<seq<string>>)
    ensures r == CeleryUrls(modules, |modules|)
  {
    var urls: seq<string> := [];
    var i := 0;
    while i < |modules|
      invariant 0 <= i <= |modules|
      invariant CeleryUrls(modules, i) == Ok(urls)
    {
      if HasService(modules[i].1, "celery") {
        var c := GetModuleConfig(modules, Some(modules[i].0));
        if c.Err? {
          CeleryUrlsStayFailed(modules, i + 1, |modules|);
          return Err(c.error);
        }
        urls := urls + [ModuleBrokerUrl(c.value)];
      }
      i := i + 1;
    }
    r := Ok(urls);
  }

  lemma {:induction false} CeleryUrlsStayFailed(modules: Modules, m: nat, n: nat)
    requires m <= n <= |modules| && CeleryUrls(modules, m).Err?
    ensures CeleryUrls(modules, n) == CeleryUrls(modules, m)
    decreases n - m
  {
    if m < n {
      CeleryUrlsStayFailed(modules, m + 1, n);
    }
  }
}
