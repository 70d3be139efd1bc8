/** The TeSLA client facade: module tokens, the configuration and system
    summaries, the scopes granted when a user logs in, launcher tokens,
    the preparation of an assessment session and the LTI keys of a VLE.
    Vault, the database, clocks and UUID generation are parameters. */
module Client {
  import opened Wrappers
  import opened Text
  import opened Checks

  /** A value in a token payload. */
  datatype Claim = Str(s: string) | Num(n: int) | ScopeList(scopes: seq<string>) | FilterMap(filters: Option<map<string, string>>)

  type Payload = map<string, Claim>

  /** What is handed to Vault to sign: the payload, its time to live in
      minutes and the signing key. */
  datatype TokenRequest = TokenRequest(data: Payload, ttl: int, key: string)

  /** The time to live of a module token when none is given, in minutes. */
  const MODULE_TOKEN_TTL := 60

  // ---------------------------------------------------------------------
  // get_module_token
  // ---------------------------------------------------------------------

  /** The kind a provider or VLE module id starts with. */
  function ModuleKind(id: string): (r: Option<string>)
    ensures r.Some? <==> StartsWith(id, "provider_") || StartsWith(id, "vle_")
    ensures r.Some? ==> StartsWith(id, r.value + "_")
  {
    if StartsWith(id, "provider_") then Some("provider")
    else if StartsWith(id, "vle_") then Some("vle")
    else None
  }

  /** The text between the first and the second '_' of a module id. */
  function ModuleNumber(id: string): string
    requires ModuleKind(id).Some?
  {
    Split(id[|ModuleKind(id).value| + 1..], '_')[0]
  }

  /** Splitting a provider or VLE id on '_' gives its kind, then its number. */
  lemma ModuleIdParts(id: string)
    requires ModuleKind(id).Some?
    ensures |Split(id, '_')| >= 2
    ensures Split(id, '_')[0] == ModuleKind(id).value && Split(id, '_')[1] == ModuleNumber(id)
  {
    var kind := ModuleKind(id).value;
    var rest := id[|kind| + 1..];
    assert id == kind + ['_'] + rest;
    SplitAtSep(kind, rest, '_');
  }

  /** The module a token is for: the given one, or the configured one. */
  function TokenSubject(moduleId: Option<string>, configured: Result<string>): Result<string>
  {
    if moduleId.Some? then Ok(moduleId.value) else configured
  }

  /** The module information get_module_token fills in: for a provider or
      VLE id, `type` from the kind and `pk` from `int` of the number part,
      each unless given; `int` can fail. Other ids are left as given. */
  method FillModuleInfo(id: string, given: Payload) returns (r: Result<Payload>)
    ensures r.Err? <==> ModuleKind(id).Some? && "pk" !in given && ParseInt(ModuleNumber(id)).None?
    ensures r.Ok? ==> r.value.Keys == given.Keys + (if ModuleKind(id).Some? then {"type", "pk"} else {})
    ensures r.Ok? ==> forall k :: k in given ==> r.value[k] == given[k]
    ensures r.Ok? && ModuleKind(id).Some? && "type" !in given ==> r.value["type"] == Str(ModuleKind(id).value)
    ensures r.Ok? && ModuleKind(id).Some? && "pk" !in given ==> r.value["pk"] == Num(ParseInt(ModuleNumber(id)).value)
  {
    var payload := given;
    if StartsWith(id, "provider_") || StartsWith(id, "vle_") {
      var parts := Split(id, '_');
      ModuleIdParts(id);
      if "type" !in payload {
        payload := payload["type" := Str(parts[0])];
      }
      if "pk" !in payload {
        var pk := ParseInt(parts[1]);
        if pk.None? {
          return Err("invalid literal for int() with base 10");
        }
        payload := payload["pk" := Num(pk.value)];
      }
    }
    r := Ok(payload);
  }

  /** The keys get_module_token fills differ from those it overwrites. */
  lemma FilledKeysApart()
    ensures "type" != "sub" && "type" != "scope" && "type" != "filters"
    ensures "pk" != "sub" && "pk" != "scope" && "pk" != "filters"
  {
    assert "type"[0] != "sub"[0] && "type"[0] != "scope"[0] && "type"[0] != "filters"[0];
    assert "pk"[0] != "sub"[0] && "pk"[0] != "scope"[0] && "pk"[0] != "filters"[0];
  }

  /** `req` is the request for module `id`: signed with the module's key;
      `sub`, `scope` and `filters` set; for a provider or VLE id, `type` and
      `pk` from the id unless given; every other given entry kept; living
      `ttl` minutes. */
  predicate ModuleRequest(req: TokenRequest, id: string, given: Payload, scope: seq<string>, filters: Option<map<string, string>>, ttl: int)
  {
    var out := req.data;
    req.key == "module_" + id && req.ttl == ttl &&
    out.Keys == given.Keys + {"sub", "scope", "filters"} + (if ModuleKind(id).Some? then {"type", "pk"} else {}) &&
    "sub" in out && "scope" in out && "filters" in out &&
    out["sub"] == Str(id) && out["scope"] == ScopeList(scope) && out["filters"] == FilterMap(filters) &&
    (forall k :: k in given && k !in {"sub", "scope", "filters"} ==> out[k] == given[k]) &&
    (ModuleKind(id).Some? && "type" !in given ==> "type" in out && out["type"] == Str(ModuleKind(id).value)) &&
    (ModuleKind(id).Some? && "pk" !in given ==>
       ParseInt(ModuleNumber(id)).Some? && "pk" in out && out["pk"] == Num(ParseInt(ModuleNumber(id)).value))
  }

  /** The token request for module `id`: `type` and `pk` filled in for a
      provider or VLE id unless given (`int` of the number part can fail),
      `sub`, `scope` and `filters` always overwritten, and the key of the
      module to sign with. */
  method ModuleToken(id: string, given: Payload, scope: seq<string>, filters: Option<map<string, string>>, ttl: int)
    returns (r: Result<TokenRequest>)
    ensures r.Err? <==> ModuleKind(id).Some? && "pk" !in given && ParseInt(ModuleNumber(id)).None?
    ensures r.Ok? ==> ModuleRequest(r.value, id, given, scope, filters, ttl)
  {
    var filled := FillModuleInfo(id, given);
    if filled.Err? {
      return Err(filled.error);
    }
    FilledKeysApart();
    var payload := filled.value["sub" := Str(id)]["scope" := ScopeList(scope)]["filters" := FilterMap(filters)];
    r := Ok(TokenRequest(payload, ttl, "module_" + id));
  }

  /** get_module_token: without an id the configured module is used (its
      lookup error is raised); the request is then that of ModuleToken,
      living 60 minutes unless a ttl is given. */
  method GetModuleToken(moduleId: Option<string>, configured: Result<string>, scope: seq<string>,
                        filters: Option<map<string, string>>, ttl: Option<int>, data: Option<Payload>)
    returns (r: Result<TokenRequest>)
    ensures TokenSubject(moduleId, configured).Err? ==> r == Err(TokenSubject(moduleId, configured).error)
    ensures TokenSubject(moduleId, configured).Ok? ==>
              var id := TokenSubject(moduleId, configured).value;
              (r.Err? <==> ModuleKind(id).Some? && "pk" !in data.UnwrapOr(map[]) && ParseInt(ModuleNumber(id)).None?)
    ensures r.Ok? ==>
              TokenSubject(moduleId, configured).Ok? &&
              ModuleRequest(r.value, TokenSubject(moduleId, configured).value, data.UnwrapOr(map[]), scope, filters,
                            ttl.UnwrapOr(MODULE_TOKEN_TTL))
  {
    var id: string;
    if moduleId.None? {
      if configured.Err? {
        return Err(configured.error);
      }
      id := configured.value;
    } else {
      id := moduleId.value;
    }
    r := ModuleToken(id, data.UnwrapOr(map[]), scope, filters, ttl.UnwrapOr(MODULE_TOKEN_TTL));
  }

  // ---------------------------------------------------------------------
  // check_configuration
  // ---------------------------------------------------------------------

  datatype ConfigurationReport = ConfigurationReport(
    teslaValid: bool, teslaErrors: seq<string>,
    database: DbReport, vault: VaultReport,
    storageValid: bool, storageErrors: seq<string>,
    valid: bool)

  /** check_configuration: the TeSLA, database and Vault checks, and the
      storage, valid when its status is 1; the whole configuration is valid
      iff every one of the four reports is. */
  method CheckConfiguration(config: Config, defaultConnects: bool, adminConnects: bool,
                            unsealKeys: Option<seq<string>>, probe: VaultProbe,
                            storageStatus: int, storageErrors: seq<string>) returns (r: ConfigurationReport)
    ensures r.storageValid <==> storageStatus == 1
    ensures r.storageErrors == storageErrors
    ensures r.teslaValid <==> "TESLA_DOMAIN" in config && "TESLA_ADMIN_MAIL" in config
    ensures r.teslaErrors == TeslaErrors(config)
    ensures r.database.valid <==> "DB_ENGINE" in config && "DB_HOST" in config && "DB_PORT" in config && HasCredentials(config)
    ensures !r.database.connected <==> r.database.valid && !defaultConnects && !adminConnects
    ensures r.database.errors == DbErrors(config, r.database.connected)
    ensures r.vault.valid <==> r.vault.errors == []
    ensures r.vault.errors == VaultErrors(config, unsealKeys, probe)
    ensures r.vault.status.Some? <==> "VAULT_URL" in config && HasScheme(config["VAULT_URL"])
    ensures r.vault.status.Some? ==> r.vault.status.value == VaultConnection(probe)
    ensures r.valid <==> r.teslaValid && r.database.valid && r.vault.valid && r.storageValid
  {
    var teslaValid, teslaErrors := CheckTeslaConfiguration(config);
    var database := CheckDbConfiguration(config, defaultConnects, adminConnects);
    var vault := CheckVaultConfiguration(config, unsealKeys, probe);
    var services := [teslaValid, database.valid, vault.valid, storageStatus == 1];
    var valid := AllValid(services);
    r := ConfigurationReport(teslaValid, teslaErrors, database, vault, storageStatus == 1, storageErrors, valid);
  }

  /** The loop of check_configuration: valid until the first failing
      service. */
  method AllValid(services: seq<bool>) returns (valid: bool)
    ensures valid <==> false !in services
  {
    valid := true;
    var i := 0;
    while i < |services|
      invariant 0 <= i <= |services|
      invariant valid && false !in services[..i]
    {
      if !services[i] {
        valid := false;
        break;
      }
      i := i + 1;
    }
  }

  // ---------------------------------------------------------------------
  // get_system_status
  // ---------------------------------------------------------------------

  /** The status one service (database, Vault, configuration, storage)
      reports. */
  datatype ModuleStatus = ModuleStatus(status: int, errors: int, warnings: int)

  datatype SystemStatus = SystemStatus(status: int, errors: int, warnings: int)

  function TotalErrors(reports: seq<ModuleStatus>): int
  {
    if reports == [] then 0 else TotalErrors(reports[..|reports| - 1]) + reports[|reports| - 1].errors
  }

  function TotalWarnings(reports: seq<ModuleStatus>): int
  {
    if reports == [] then 0 else TotalWarnings(reports[..|reports| - 1]) + reports[|reports| - 1].warnings
  }

  /** get_system_status: 0 (failing) iff some service reports 0, otherwise
      1; errors and warnings are the sums over the services. */
  method GetSystemStatus(reports: seq<ModuleStatus>) returns (r: SystemStatus)
    ensures r.status == 0 <==> exists i :: 0 <= i < |reports| && reports[i].status == 0
    ensures r.status == 0 || r.status == 1
    ensures r.errors == TotalErrors(reports) && r.warnings == TotalWarnings(reports)
  {
    var status := 1;
    var errors := 0;
    var warnings := 0;
    var i := 0;
    while i < |reports|
      invariant 0 <= i <= |reports|
      invariant status == 0 || status == 1
      invariant status == 0 <==> exists k :: 0 <= k < i && reports[k].status == 0
      invariant errors == TotalErrors(reports[..i]) && warnings == TotalWarnings(reports[..i])
    {
      if reports[i].status == 0 {
        status := 0;
      }
      assert reports[..i + 1][..i] == reports[..i];
      errors := errors + reports[i].errors;
      warnings := warnings + reports[i].warnings;
      i := i + 1;
    }
    assert reports[..i] == reports;
    r := SystemStatus(status, errors, warnings);
  }

  /** With non-negative counts, the system has no errors iff no service has. */
  lemma {:induction false} NoErrorsIffEveryServiceClean(reports: seq<ModuleStatus>)
    requires forall i :: 0 <= i < |reports| ==> reports[i].errors >= 0
    ensures TotalErrors(reports) >= 0
    ensures TotalErrors(reports) == 0 <==> forall i :: 0 <= i < |reports| ==> reports[i].errors == 0
  {
    if reports != [] {
      var init := reports[..|reports| - 1];
      NoErrorsIffEveryServiceClean(init);
      assert forall i :: 0 <= i < |init| ==> init[i] == reports[i];
    }
  }

  // ---------------------------------------------------------------------
  // Users: admin tokens, verify_user scopes, launcher tokens
  // ---------------------------------------------------------------------

  /** An institution user; `learner` is the learner id when the user has
      the LEARNER role. */
  datatype InstitutionUser = InstitutionUser(
    id: int, uid: string, institution: int,
    instAdmin: bool, sendAdmin: bool, legalAdmin: bool,
    learner: Option<string>)

  datatype User = User(id: int, username: string, staff: bool, institutionUser: Option<InstitutionUser>)

  /** A token pair to be created by Vault. */
  datatype TokenPair = TokenPair(data: Payload, ttl: int, maxTtl: int, key: string)

  /** get_admin_token_pair: only staff users get one. */
  function AdminTokenPair(user: User, scope: seq<string>, filters: Option<map<string, string>>, ttl: int, maxTtl: int): (r: Result<TokenPair>)
    ensures r.Err? <==> !user.staff
    ensures r.Err? ==> r.error == "User is not admin"
    ensures r.Ok? ==> r.value.key == "users" && r.value.ttl == ttl && r.value.maxTtl == maxTtl &&
                      var d := r.value.data;
                      d.Keys == {"sub", "type", "pk", "scope", "filters"} &&
                      "sub" in d && "type" in d && "pk" in d && "scope" in d &&
                      d["type"] == Str("admin") && d["sub"] == Str(user.username) &&
                      d["pk"] == Num(user.id) && d["scope"] == ScopeList(scope)
  {
    if !user.staff then Err("User is not admin")
    else
      Ok(TokenPair(map["sub" := Str(user.username), "type" := Str("admin"), "pk" := Num(user.id),
                       "scope" := ScopeList(scope), "filters" := FilterMap(filters)], ttl, maxTtl, "users"))
  }

  /** get_user_token_pair */
  function UserTokenPair(user: InstitutionUser, scope: seq<string>, ttl: int, maxTtl: int): (r: TokenPair)
    ensures r.key == "users" && r.ttl == ttl && r.maxTtl == maxTtl
    ensures "sub" in r.data && "type" in r.data && "pk" in r.data && "scope" in r.data
    ensures r.data["type"] == Str("user") && r.data["sub"] == Str(user.uid) &&
            r.data["pk"] == Num(user.id) && r.data["scope"] == ScopeList(scope)
  {
    TokenPair(map["sub" := Str(user.uid), "type" := Str("user"), "pk" := Num(user.id),
                  "scope" := ScopeList(scope), "filters" := FilterMap(None)], ttl, maxTtl, "users")
  }

  function InstitutionScope(institution: int): string
  {
    "/api/v2/institution/" + IntToString(institution) + "/*"
  }

  function OwnUserScope(u: InstitutionUser): string
  {
    "/api/v2/institution/" + IntToString(u.institution) + "/user/" + IntToString(u.id) + "/*"
  }

  function SendScope(institution: int): string
  {
    "/api/v2/institution/" + IntToString(institution) + "/send/*"
  }

  function LegalScope(institution: int): string
  {
    "/api/v2/institution/" + IntToString(institution) + "/ic/*"
  }

  /** The four scopes of a learner: enrolment, status and alert of the
      learner API, and the learner's own resources. */
  function LearnerScopes(u: InstitutionUser, learnerId: string): seq<string>
  {
    var base := IntToString(u.institution) + "/" + learnerId + "/";
    ["/lapi/v1/enrolment/" + base, "/lapi/v1/status/" + base, "/lapi/v1/alert/" + base,
     "/api/v2/institution/" + IntToString(u.institution) + "/learner/" + IntToString(u.id) + "/*"]
  }

  /** The scopes verify_user grants an institution user, in the order they
      are appended. */
  function UserScopes(u: InstitutionUser): seq<string>
  {
    [OwnUserScope(u)] + AdminScopes(u) + (if u.learner.Some? then LearnerScopes(u, u.learner.value) else [])
  }

  /** verify_user, once the credentials are accepted (`user` is None when
      they are not): staff get an admin pair for the admin and institution
      APIs refreshable for 60 minutes; institution users get a user pair
      for their scopes, lasting 15 minutes and refreshable for a day; anyone
      else is refused. */
  method VerifyUser(user: Option<User>) returns (r: Result<TokenPair>)
    ensures user.None? ==> r == Err("Invalid user credentials")
    ensures user.Some? && user.value.staff ==>
              r == AdminTokenPair(user.value, ["/api/v2/admin/*", "/api/v2/institution/*"], None, 15, 60) && r.Ok?
    ensures user.Some? && !user.value.staff && user.value.institutionUser.None? ==>
              r == Err("Invalid user. Missing Institution or administration rights.")
    ensures user.Some? && !user.value.staff && user.value.institutionUser.Some? ==>
              r == Ok(UserTokenPair(user.value.institutionUser.value, UserScopes(user.value.institutionUser.value), 15, 24 * 60))
  {
    if user.None? {
      return Err("Invalid user credentials");
    }
    var account := user.value;
    if account.staff {
      r := AdminTokenPair(account, ["/api/v2/admin/*", "/api/v2/institution/*"], None, 15, 60);
    } else if account.institutionUser.Some? {
      var u := account.institutionUser.value;
      var scopes := [OwnUserScope(u)];
      if u.instAdmin {
        scopes := scopes + [InstitutionScope(u.institution)];
      }
      assert scopes == [OwnUserScope(u)] + (if u.instAdmin then [InstitutionScope(u.institution)] else []);
      if u.sendAdmin {
        scopes := scopes + [SendScope(u.institution)];
      }
      if u.legalAdmin {
        scopes := scopes + [LegalScope(u.institution)];
      }
      assert scopes == [OwnUserScope(u)] + AdminScopes(u);
      if u.learner.Some? {
        scopes := scopes + LearnerScopes(u, u.learner.value);
      }
      assert scopes == UserScopes(u);
      r := Ok(UserTokenPair(u, scopes, 15, 24 * 60));
    } else {
      r := Err("Invalid user. Missing Institution or administration rights.");
    }
  }

  /** The institution scopes differ from one another after the common
      head, at the first character of their own part. */
  lemma ScopeHeads(u: InstitutionUser)
    ensures var n := |"/api/v2/institution/" + IntToString(u.institution)|;
            |OwnUserScope(u)| > n + 1 && OwnUserScope(u)[n + 1] == 'u' && OwnUserScope(u)[1] == 'a' &&
            |InstitutionScope(u.institution)| > n + 1 && InstitutionScope(u.institution)[n + 1] == '*' &&
            InstitutionScope(u.institution)[1] == 'a' &&
            |SendScope(u.institution)| > n + 1 && SendScope(u.institution)[n + 1] == 's' && SendScope(u.institution)[1] == 'a' &&
            |LegalScope(u.institution)| > n + 1 && LegalScope(u.institution)[n + 1] == 'i' && LegalScope(u.institution)[1] == 'a'
  {
    var head := "/api/v2/institution/" + IntToString(u.institution);
    assert OwnUserScope(u) == head + "/user/" + IntToString(u.id) + "/*";
    assert InstitutionScope(u.institution) == head + "/*";
    assert SendScope(u.institution) == head + "/send/*";
    assert LegalScope(u.institution) == head + "/ic/*";
  }

  /** The administration scopes an institution user is granted, in order. */
  function AdminScopes(u: InstitutionUser): seq<string>
  {
    (if u.instAdmin then [InstitutionScope(u.institution)] else []) +
    (if u.sendAdmin then [SendScope(u.institution)] else []) +
    (if u.legalAdmin then [LegalScope(u.institution)] else [])
  }

  /** Each administration scope is granted iff its flag is set. */
  lemma AdminScopesGrant(u: InstitutionUser)
    ensures InstitutionScope(u.institution) in AdminScopes(u) <==> u.instAdmin
    ensures SendScope(u.institution) in AdminScopes(u) <==> u.sendAdmin
    ensures LegalScope(u.institution) in AdminScopes(u) <==> u.legalAdmin
    ensures OwnUserScope(u) !in AdminScopes(u)
    ensures forall k :: 0 <= k < |AdminScopes(u)| ==> AdminScopes(u)[k][1] == 'a'
  {
    ScopeHeads(u);
    var n := |"/api/v2/institution/" + IntToString(u.institution)|;
    var own := OwnUserScope(u);
    var all := InstitutionScope(u.institution);
    var send := SendScope(u.institution);
    var legal := LegalScope(u.institution);
    assert own[n + 1] != all[n + 1] && own[n + 1] != send[n + 1] && own[n + 1] != legal[n + 1];
    assert all[n + 1] != send[n + 1] && all[n + 1] != legal[n + 1] && send[n + 1] != legal[n + 1];
  }

  /** No learner scope is an administration scope or the user's own. */
  lemma LearnerScopesApart(u: InstitutionUser, learnerId: string)
    ensures var ls := LearnerScopes(u, learnerId);
            OwnUserScope(u) !in ls && InstitutionScope(u.institution) !in ls &&
            SendScope(u.institution) !in ls && LegalScope(u.institution) !in ls
  {
    ScopeHeads(u);
    var n := |"/api/v2/institution/" + IntToString(u.institution)|;
    var head := "/api/v2/institution/" + IntToString(u.institution);
    var ls := LearnerScopes(u, learnerId);
    assert ls[0][1] == 'l' && ls[1][1] == 'l' && ls[2][1] == 'l';
    assert ls[3] == head + "/learner/" + IntToString(u.id) + "/*";
    assert ls[3][n + 1] == 'l';
  }

  /** What an institution user is granted: their own scope first, the
      whole institution iff an institution administrator, the SEND and the
      informed consent areas iff administrator of those, and the four
      learner scopes, last, iff a learner. */
  lemma UserScopesGrant(u: InstitutionUser)
    ensures var s := UserScopes(u);
            |s| >= 1 && s[0] == OwnUserScope(u) &&
            (InstitutionScope(u.institution) in s <==> u.instAdmin) &&
            (SendScope(u.institution) in s <==> u.sendAdmin) &&
            (LegalScope(u.institution) in s <==> u.legalAdmin) &&
            (u.learner.Some? ==> s[|s| - 4..] == LearnerScopes(u, u.learner.value)) &&
            (u.learner.None? ==> s == [OwnUserScope(u)] + AdminScopes(u))
  {
    AdminScopesGrant(u);
    var own := OwnUserScope(u);
    var adm := AdminScopes(u);
    var ls := if u.learner.Some? then LearnerScopes(u, u.learner.value) else [];
    if u.learner.Some? {
      LearnerScopesApart(u, u.learner.value);
    }
    var s := UserScopes(u);
    assert s == [own] + adm + ls;
    assert forall x :: x in s <==> x == own || x in adm || x in ls;
    ScopeHeads(u);
    var n := |"/api/v2/institution/" + IntToString(u.institution)|;
    assert own != InstitutionScope(u.institution) && own != SendScope(u.institution) &&
           own != LegalScope(u.institution) by {
      assert own[n + 1] == 'u';
    }
    assert s[|s| - |ls|..] == ls;
  }

  /** The launcher targets. */
  datatype Launch = Launch(targetId: int, ttl: int, token: TokenPair)

  /** get_launcher_token: DASHBOARD (in any letter case) gives target 0 and a
      user pair for the user's own scope refreshable for `ttl`, 24 hours by
      default; LAPI gives target 1 and a learner pair for the learner API,
      2 hours by default, and needs a learner; anything else is refused. */
  function LauncherToken(target: string, user: InstitutionUser, ttl: Option<int>): (r: Result<Launch>)
    ensures Upper(target) == "DASHBOARD" ==>
              r.Ok? && r.value.targetId == 0 && r.value.ttl == ttl.UnwrapOr(24 * 60) &&
              r.value.token.maxTtl == r.value.ttl &&
              "scope" in r.value.token.data && r.value.token.data["scope"] == ScopeList([OwnUserScope(user)])
    ensures Upper(target) == "LAPI" ==>
              (r.Ok? <==> user.learner.Some?) &&
              (r.Err? ==> r.error == "Provided user is not a learner") &&
              (r.Ok? ==> r.value.targetId == 1 && r.value.ttl == ttl.UnwrapOr(2 * 60) &&
                         r.value.token.maxTtl == r.value.ttl && r.value.token.key == "learners" &&
                         r.value.token.data.Keys == {"sub", "type", "pk", "scope", "filters"} &&
                         r.value.token.data["sub"] == Str(user.learner.value) &&
                         r.value.token.data["type"] == Str("learner") && r.value.token.data["pk"] == Num(user.id) &&
                         r.value.token.data["scope"] == ScopeList(["/lapi/*"]))
    ensures Upper(target) != "DASHBOARD" && Upper(target) != "LAPI" ==> r == Err("Invalid target type")
  {
    if Upper(target) == "DASHBOARD" then
      var t := ttl.UnwrapOr(24 * 60);
      Ok(Launch(0, t, UserTokenPair(user, [OwnUserScope(user)], 15, t)))
    else if Upper(target) == "LAPI" then
      var t := ttl.UnwrapOr(2 * 60);
      if user.learner.None? then Err("Provided user is not a learner")
      else
        Ok(Launch(1, t, TokenPair(map["sub" := Str(user.learner.value), "type" := Str("learner"), "pk" := Num(user.id),
                                      "scope" := ScopeList(["/lapi/*"]), "filters" := FilterMap(None)],
                                  15, t, "learners")))
    else Err("Invalid target type")
  }

  /** The error that escapes get_launcher_token as written when a LAPI
      launcher is asked for a user without a learner: the except clause
      evaluates `user.learner` again, which raises the same
      RelatedObjectDoesNotExist instead of the TeslaAuthException. */
  const LEARNER_NOT_FOUND := "RelatedObjectDoesNotExist"

  /** get_launcher_token as written: as LauncherToken, except that a LAPI
      request for a user without a learner ends in RelatedObjectDoesNotExist. */
  function LauncherTokenAsWritten(target: string, user: InstitutionUser, ttl: Option<int>): (r: Result<Launch>)
    ensures Upper(target) == "LAPI" && user.learner.None? ==> r == Err(LEARNER_NOT_FOUND)
    ensures Upper(target) != "LAPI" || user.learner.Some? ==> r == LauncherToken(target, user, ttl)
  {
    if Upper(target) == "LAPI" && user.learner.None? then Err(LEARNER_NOT_FOUND)
    else LauncherToken(target, user, ttl)
  }

  /** A user who is not a learner never sees the intended "not a learner"
      refusal from the code as written. */
  lemma LauncherNonLearnerEscapes(user: InstitutionUser)
    requires user.learner.None?
    ensures LauncherTokenAsWritten("lapi", user, None).Err?
    ensures LauncherTokenAsWritten("lapi", user, None).error != "Provided user is not a learner"
    ensures LauncherToken("lapi", user, None) == Err("Provided user is not a learner")
  {
    assert Upper("lapi") == "LAPI";
  }

  /** The target name is compared in upper case: a name and its upper-case
      form launch the same thing. */
  lemma LauncherTargetIgnoresCase(target: string, user: InstitutionUser, ttl: Option<int>)
    ensures LauncherToken(Upper(target), user, ttl) == LauncherToken(target, user, ttl)
  {
    UpperIdempotent(target);
  }

  // ---------------------------------------------------------------------
  // create_assessment_session
  // ---------------------------------------------------------------------

  /** What the session creation knows about the learner's informed consent. */
  datatype ConsentState = ConsentState(externalIc: bool, consentAccepted: Option<int>, consentRejected: Option<int>, icStatus: string)

  datatype SessionRefusal = MissingIc | InvalidIc | MissingEnrolment

  /** The checks before a session is created: unless the institution manages
      consent outside TeSLA, an accepted and not rejected consent whose
      status starts with VALID; for an enabled activity, no missing
      enrolment. */
  function SessionRefusalOf(consent: ConsentState, activityEnabled: bool, missingEnrolments: bool): (r: Option<SessionRefusal>)
    ensures r == Some(MissingIc) <==>
              !consent.externalIc && (consent.consentAccepted.None? || consent.consentRejected.Some?)
    ensures r == Some(InvalidIc) <==>
              !consent.externalIc && consent.consentAccepted.Some? && consent.consentRejected.None? &&
              !StartsWith(consent.icStatus, "VALID")
    ensures r.None? <==>
              (consent.externalIc || (consent.consentAccepted.Some? && consent.consentRejected.None? &&
                                      StartsWith(consent.icStatus, "VALID"))) &&
              !(activityEnabled && missingEnrolments)
  {
    if !consent.externalIc && (consent.consentAccepted.None? || consent.consentRejected.Some?) then Some(MissingIc)
    else if !consent.externalIc && !StartsWith(consent.icStatus, "VALID") then Some(InvalidIc)
    else if activityEnabled && missingEnrolments then Some(MissingEnrolment)
    else None
  }

  /** An institution with external informed consent never has a session
      refused for consent reasons. */
  lemma ExternalIcSkipsConsent(consent: ConsentState, activityEnabled: bool, missingEnrolments: bool)
    requires consent.externalIc
    ensures SessionRefusalOf(consent, activityEnabled, missingEnrolments) != Some(MissingIc)
    ensures SessionRefusalOf(consent, activityEnabled, missingEnrolments) != Some(InvalidIc)
  {
  }

  /** An instrument of the learner in the activity, with the sensors it uses. */
  datatype LearnerInstrument = LearnerInstrument(instrument: int, sensors: seq<string>)

  /** `id` once per occurrence of `sensor` in `sensors`. */
  function Occurrences(sensors: seq<string>, sensor: string, id: int): (r: seq<int>)
    ensures r == [] <==> sensor !in sensors
    ensures forall k :: 0 <= k < |r| ==> r[k] == id
  {
    if sensors == [] then []
    else Occurrences(sensors[..|sensors| - 1], sensor, id) + (if sensors[|sensors| - 1] == sensor then [id] else [])
  }

  /** The instruments that use `sensor`, in order, once per use. */
  function SensorUsers(instruments: seq<LearnerInstrument>, sensor: string): seq<int>
  {
    if instruments == [] then []
    else
      var last := instruments[|instruments| - 1];
      SensorUsers(instruments[..|instruments| - 1], sensor) + Occurrences(last.sensors, sensor, last.instrument)
  }

  predicate UsedBy(inst: LearnerInstrument, sensor: string, id: int)
  {
    inst.instrument == id && sensor in inst.sensors
  }

  /** An instrument is listed for a sensor iff it uses that sensor. */
  lemma {:induction false} SensorUsersMembers(instruments: seq<LearnerInstrument>, sensor: string, id: int)
    ensures id in SensorUsers(instruments, sensor) <==>
              exists i :: 0 <= i < |instruments| && UsedBy(instruments[i], sensor, id)
  {
    if instruments != [] {
      var init := instruments[..|instruments| - 1];
      var last := instruments[|instruments| - 1];
      SensorUsersMembers(init, sensor, id);
      var occ := Occurrences(last.sensors, sensor, last.instrument);
      assert id in occ <==> UsedBy(last, sensor, id) by {
        if UsedBy(last, sensor, id) {
          assert occ[0] == id;
        }
      }
      assert SensorUsers(instruments, sensor) == SensorUsers(init, sensor) + occ;
      assert forall i :: 0 <= i < |init| ==> init[i] == instruments[i];
      if id in occ {
        assert UsedBy(instruments[|instruments| - 1], sensor, id);
      }
    }
  }

  /** A sensor with no user has no entry. */
  lemma {:induction false} NoUserNoEntry(instruments: seq<LearnerInstrument>, sensor: string)
    ensures SensorUsers(instruments, sensor) == [] <==> forall i :: 0 <= i < |instruments| ==> sensor !in instruments[i].sensors
  {
    if instruments != [] {
      var init := instruments[..|instruments| - 1];
      NoUserNoEntry(init, sensor);
      assert forall i :: 0 <= i < |init| ==> init[i] == instruments[i];
    }
  }

  lemma OccurrencesStep(sensors: seq<string>, j: int, sensor: string, id: int)
    requires 0 <= j < |sensors|
    ensures Occurrences(sensors[..j + 1], sensor, id) ==
            Occurrences(sensors[..j], sensor, id) + (if sensors[j] == sensor then [id] else [])
  {
    assert sensors[..j + 1][..j] == sensors[..j];
  }

  lemma SensorUsersStep(instruments: seq<LearnerInstrument>, i: int, sensor: string)
    requires 0 <= i < |instruments|
    ensures SensorUsers(instruments[..i + 1], sensor) ==
            SensorUsers(instruments[..i], sensor) + Occurrences(instruments[i].sensors, sensor, instruments[i].instrument)
  {
    assert instruments[..i + 1][..i] == instruments[..i];
  }

  /** The instruments a map lists for a sensor, none when it has no entry. */
  function Listed(m: map<string, seq<int>>, sensor: string): seq<int>
  {
    if sensor in m then m[sensor] else []
  }

  /** `out` is `sensors` with the first `j` sensor names of an instrument added. */
  ghost predicate Accumulated(out: map<string, seq<int>>, sensors: map<string, seq<int>>, names: seq<string>, j: int, id: int)
    requires 0 <= j <= |names|
  {
    (forall s :: s in out <==> s in sensors || Occurrences(names[..j], s, id) != []) &&
    (forall s :: s in out ==> out[s] == Listed(sensors, s) + Occurrences(names[..j], s, id))
  }

  /** One step of AddSensors, for one sensor `s` of the map. */
  lemma AddSensorStep(sensors: map<string, seq<int>>, prev: map<string, seq<int>>, names: seq<string>, j: int, id: int, s: string)
    requires 0 <= j < |names|
    requires Accumulated(prev, sensors, names, j, id)
    ensures var out := prev[names[j] := Listed(prev, names[j]) + [id]];
            (s in out <==> s in sensors || Occurrences(names[..j + 1], s, id) != []) &&
            (s in out ==> out[s] == Listed(sensors, s) + Occurrences(names[..j + 1], s, id))
  {
    var k := names[j];
    if k in prev {
      assert prev[k] == Listed(sensors, k) + Occurrences(names[..j], k, id);
    } else {
      assert k !in sensors && Occurrences(names[..j], k, id) == [];
      assert Listed(sensors, k) + [] == [];
    }
    assert Listed(prev, k) == Listed(sensors, k) + Occurrences(names[..j], k, id);
    OccurrencesStep(names, j, s, id);
    var occ := Occurrences(names[..j], s, id);
    if s == k {
      AppendAssoc(Listed(sensors, s), occ, id);
    } else {
      assert s in prev <==> s in sensors || occ != [];
      assert occ + [] == occ;
    }
  }

  lemma AddSensorPreserves(out: map<string, seq<int>>, sensors: map<string, seq<int>>, names: seq<string>, j: int, id: int)
    requires 0 <= j < |names|
    requires Accumulated(out, sensors, names, j, id)
    ensures Accumulated(out[names[j] := Listed(out, names[j]) + [id]], sensors, names, j + 1, id)
  {
    forall s
      ensures var next := out[names[j] := Listed(out, names[j]) + [id]];
              (s in next <==> s in sensors || Occurrences(names[..j + 1], s, id) != []) &&
              (s in next ==> next[s] == Listed(sensors, s) + Occurrences(names[..j + 1], s, id))
    {
      AddSensorStep(sensors, out, names, j, id, s);
    }
  }

  lemma AccumulatedStart(sensors: map<string, seq<int>>, names: seq<string>, id: int)
    ensures Accumulated(sensors, sensors, names, 0, id)
  {
    assert names[..0] == [];
  }

  lemma AccumulatedAll(out: map<string, seq<int>>, sensors: map<string, seq<int>>, names: seq<string>, id: int)
    requires Accumulated(out, sensors, names, |names|, id)
    ensures forall s :: s in out <==> s in sensors || s in names
    ensures forall s :: s in out ==> out[s] == Listed(sensors, s) + Occurrences(names, s, id)
  {
    assert names[..|names|] == names;
  }

  /** Adds the sensors of one instrument to the map, appending the
      instrument once per listed sensor. */
  method AddSensors(sensors: map<string, seq<int>>, current: LearnerInstrument) returns (out: map<string, seq<int>>)
    ensures forall s :: s in out <==> s in sensors || s in current.sensors
    ensures forall s :: s in out ==> out[s] == Listed(sensors, s) + Occurrences(current.sensors, s, current.instrument)
  {
    var id := current.instrument;
    out := sensors;
    var j := 0;
    AccumulatedStart(sensors, current.sensors, id);
    while j < |current.sensors|
      invariant 0 <= j <= |current.sensors|
      invariant Accumulated(out, sensors, current.sensors, j, id)
    {
      var sensor := current.sensors[j];
      var before := Listed(out, sensor);
      AddSensorPreserves(out, sensors, current.sensors, j, id);
      out := out[sensor := before + [id]];
      j := j + 1;
    }
    AccumulatedAll(out, sensors, current.sensors, id);
  }

  lemma AppendAssoc(base: seq<int>, occ: seq<int>, id: int)
    ensures (base + occ) + [id] == base + (occ + [id])
  {
  }

  /** The sensor map of create_assessment_session: the instrument ids in
      order, and for each sensor used by some instrument the instruments
      that use it, in order. */
  method SensorMap(instruments: seq<LearnerInstrument>) returns (ids: seq<int>, sensors: map<string, seq<int>>)
    ensures |ids| == |instruments| && forall i :: 0 <= i < |instruments| ==> ids[i] == instruments[i].instrument
    ensures forall s :: s in sensors <==> SensorUsers(instruments, s) != []
    ensures forall s :: s in sensors ==> sensors[s] == SensorUsers(instruments, s)
  {
    ids := [];
    sensors := map[];
    var i := 0;
    while i < |instruments|
      invariant 0 <= i <= |instruments|
      invariant |ids| == i && forall k :: 0 <= k < i ==> ids[k] == instruments[k].instrument
      invariant forall s :: s in sensors <==> SensorUsers(instruments[..i], s) != []
      invariant forall s :: s in sensors ==> sensors[s] == SensorUsers(instruments[..i], s)
    {
      var current := instruments[i];
      ids := ids + [current.instrument];
      ghost var prev := sensors;
      sensors := AddSensors(sensors, current);
      forall s
        ensures (s in sensors <==> SensorUsers(instruments[..i + 1], s) != []) &&
                (s in sensors ==> sensors[s] == SensorUsers(instruments[..i + 1], s))
      {
        SensorUsersStep(instruments, i, s);
      }
      i := i + 1;
    }
    assert instruments[..i] == instruments;
  }

  /** The session options: `floating_menu_initial_pos` defaults to
      'top-right', and every given option is kept. */
  function SessionOptions(options: Option<map<string, string>>): (r: map<string, string>)
    ensures "floating_menu_initial_pos" in r
    ensures r.Keys == options.UnwrapOr(map[]).Keys + {"floating_menu_initial_pos"}
    ensures forall k :: k in options.UnwrapOr(map[]) ==> r[k] == options.value[k]
    ensures options.None? || "floating_menu_initial_pos" !in options.value ==> r["floating_menu_initial_pos"] == "top-right"
  {
    var given := options.UnwrapOr(map[]);
    if "floating_menu_initial_pos" in given then given else given["floating_menu_initial_pos" := "top-right"]
  }

  // ---------------------------------------------------------------------
  // register_vle: LTI data
  // ---------------------------------------------------------------------

  /** The LTI settings of a VLE; None stands for a JSON null. */
  type Lti = map<string, Option<string>>

  /** A key holds a non-empty string. */
  predicate Present(lti: Lti, key: string)
  {
    key in lti && lti[key].Some? && |lti[key].value| > 0
  }

  function MoodleUrls(url: string): map<string, Option<string>>
  {
    map["auth_login_url" := Some(url + "/mod/lti/auth.php"),
        "auth_token_url" := Some(url + "/mod/lti/token.php"),
        "key_set_url" := Some(url + "/mod/lti/certs.php")]
  }

  /** register_vle: the LTI 1.1 consumer key and secret are kept when they
      hold a non-empty string and replaced by fresh values otherwise; a
      Moodle VLE with a URL gets its LTI 1.3 endpoints under that URL. */
  function LtiSettings(lti: Option<Lti>, url: Option<string>, vleType: string, freshKey: string, freshSecret: string): (r: Lti)
    ensures var touched := {"consumer_key", "consumer_secret"} +
                           (if url.Some? && Upper(vleType) == "MOODLE" then MoodleUrls(url.value).Keys else {});
            r.Keys == lti.UnwrapOr(map[]).Keys + touched &&
            forall k :: k in lti.UnwrapOr(map[]) && k !in touched ==> r[k] == lti.UnwrapOr(map[])[k]
    ensures var given := lti.UnwrapOr(map[]);
            "consumer_key" in r && "consumer_secret" in r &&
            (Present(given, "consumer_key") ==> r["consumer_key"] == given["consumer_key"]) &&
            (!Present(given, "consumer_key") ==> r["consumer_key"] == Some(freshKey)) &&
            (Present(given, "consumer_secret") ==> r["consumer_secret"] == given["consumer_secret"]) &&
            (!Present(given, "consumer_secret") ==> r["consumer_secret"] == Some(freshSecret))
    ensures url.Some? && Upper(vleType) == "MOODLE" ==>
              forall k :: k in MoodleUrls(url.value) ==> k in r && r[k] == MoodleUrls(url.value)[k]
  {
    var given := lti.UnwrapOr(map[]);
    var withKey := if Present(given, "consumer_key") then given else given["consumer_key" := Some(freshKey)];
    var withSecret := if Present(withKey, "consumer_secret") then withKey else withKey["consumer_secret" := Some(freshSecret)];
    if url.Some? && Upper(vleType) == "MOODLE" then withSecret + MoodleUrls(url.value) else withSecret
  }

  /** Registering a VLE again keeps its consumer key and secret: once
      generated (non-empty), they are never replaced. */
  lemma LtiSettingsStable(lti: Option<Lti>, url: Option<string>, vleType: string,
                          key1: string, secret1: string, key2: string, secret2: string)
    requires |key1| > 0 && |secret1| > 0
    ensures var once := LtiSettings(lti, url, vleType, key1, secret1);
            LtiSettings(Some(once), url, vleType, key2, secret2) == once
  {
    var once := LtiSettings(lti, url, vleType, key1, secret1);
    assert Present(once, "consumer_key") && Present(once, "consumer_secret");
    var twice := LtiSettings(Some(once), url, vleType, key2, secret2);
    assert twice.Keys == once.Keys;
    assert forall k :: k in once ==> twice[k] == once[k];
  }
}
