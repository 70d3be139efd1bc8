/** Vault setup: placing the standard policies under the configured mount
    points, checking that the policies exist, testing whether a secret
    engine or authentication method is mounted, collecting the
    configuration values and policies a module is granted, and naming the
    modules of VLEs and providers. The Vault client and the policy and
    configuration maps are parameters. */
module VaultSetup {
  import opened Wrappers
  import opened Text
  import Client

  /** The configured mount points and the policy name prefix. */
  datatype Mounts = Mounts(kv: string, transit: string, approle: string, policyPrefix: string)

  /** The capabilities a policy grants on a path. */
  type Rule = seq<string>

  /** A policy: its rule for each path. */
  type Policy = map<string, Rule>

  /** A policy path with its placeholders replaced by the mount points. */
  function AdaptPath(key: string, m: Mounts): string
  {
    Replace(Replace(Replace(Replace(key, "<kv_path>", m.kv), "<transit_path>", m.transit),
                    "<approle_path>", m.approle), "<policy_prefix>", m.policyPrefix)
  }

  /** A policy whose paths, in order, are adapted; when two paths adapt to
      the same one, the later rule is kept. */
  function Adapted(paths: seq<(string, Rule)>, m: Mounts): Policy
  {
    if paths == [] then map[]
    else
      var last := paths[|paths| - 1];
      Adapted(paths[..|paths| - 1], m)[AdaptPath(last.0, m) := last.1]
  }

  /** Every adapted path comes from an original path, and every original
      path is present once adapted, with the rule of the last path that
      adapts to it. */
  lemma {:induction false} AdaptedPaths(paths: seq<(string, Rule)>, m: Mounts, i: int)
    requires 0 <= i < |paths|
    ensures AdaptPath(paths[i].0, m) in Adapted(paths, m)
    ensures (forall j :: i < j < |paths| ==> AdaptPath(paths[j].0, m) != AdaptPath(paths[i].0, m)) ==>
              Adapted(paths, m)[AdaptPath(paths[i].0, m)] == paths[i].1
  {
    var init := paths[..|paths| - 1];
    if i < |paths| - 1 {
      AdaptedPaths(init, m, i);
      assert init[i] == paths[i];
      assert forall j :: i < j < |init| ==> init[j] == paths[j];
    }
  }

  /** Only adapted original paths appear. */
  lemma {:induction false} AdaptedOnlyOriginals(paths: seq<(string, Rule)>, m: Mounts, path: string)
    requires path in Adapted(paths, m)
    ensures exists i :: 0 <= i < |paths| && AdaptPath(paths[i].0, m) == path
  {
    var init := paths[..|paths| - 1];
    if path != AdaptPath(paths[|paths| - 1].0, m) {
      AdaptedOnlyOriginals(init, m, path);
      var i :| 0 <= i < |init| && AdaptPath(init[i].0, m) == path;
      assert paths[i] == init[i];
    }
  }

  /** A path without placeholders is kept as it is. */
  lemma PlainPathKept(key: string, m: Mounts)
    requires '<' !in key
    ensures AdaptPath(key, m) == key
  {
    NoPlaceholder(key, "<kv_path>");
    ReplaceAbsent(key, "<kv_path>", m.kv);
    LaterPlaceholdersKept(key, m);
  }

  lemma NoPlaceholder(s: string, pat: string)
    requires |pat| > 0 && pat[0] == '<' && '<' !in s
    ensures forall i: nat :: !OccursAt(s, pat, i)
  {
    forall i: nat
      ensures !OccursAt(s, pat, i)
    {
      if i + |pat| <= |s| {
        assert s[i..i + |pat|][0] == s[i] != '<';
      }
    }
  }

  /** The replacements after the key-value one leave a string without
      placeholders unchanged. */
  lemma LaterPlaceholdersKept(s: string, m: Mounts)
    requires '<' !in s
    ensures Replace(Replace(Replace(s, "<transit_path>", m.transit), "<approle_path>", m.approle),
                    "<policy_prefix>", m.policyPrefix) == s
  {
    NoPlaceholder(s, "<transit_path>");
    ReplaceAbsent(s, "<transit_path>", m.transit);
    NoPlaceholder(s, "<approle_path>");
    ReplaceAbsent(s, "<approle_path>", m.approle);
    NoPlaceholder(s, "<policy_prefix>");
    ReplaceAbsent(s, "<policy_prefix>", m.policyPrefix);
  }

  /** A path under the key-value mount is moved under the configured one. */
  lemma KvPathAdapted(rest: string, m: Mounts)
    requires '<' !in rest && '<' !in m.kv
    ensures AdaptPath("<kv_path>" + rest, m) == m.kv + rest
  {
    ReplaceLeading("<kv_path>", rest, m.kv);
    NoPlaceholder(rest, "<kv_path>");
    ReplaceAbsent(rest, "<kv_path>", m.kv);
    assert Replace("<kv_path>" + rest, "<kv_path>", m.kv) == m.kv + rest;
    LaterPlaceholdersKept(m.kv + rest, m);
  }

  /** The path loop of _adapt_policies_path for one policy. */
  method AdaptPaths(paths: seq<(string, Rule)>, m: Mounts) returns (adapted: Policy)
    ensures adapted == Adapted(paths, m)
  {
    adapted := map[];
    var i := 0;
    while i < |paths|
      invariant 0 <= i <= |paths|
      invariant adapted == Adapted(paths[..i], m)
    {
      assert paths[..i + 1][..i] == paths[..i];
      adapted := adapted[AdaptPath(paths[i].0, m) := paths[i].1];
      i := i + 1;
    }
    assert paths[..i] == paths;
  }

  /** _adapt_policies_path: the same policy names, each with its paths
      adapted to the mount points. */
  method AdaptPoliciesPath(policies: map<string, seq<(string, Rule)>>, m: Mounts) returns (adapted: map<string, Policy>)
    ensures adapted.Keys == policies.Keys
    ensures forall p :: p in adapted ==> adapted[p] == Adapted(policies[p], m)
  {
    adapted := map[];
    var todo := policies.Keys;
    while todo != {}
      invariant todo <= policies.Keys
      invariant adapted.Keys == policies.Keys - todo
      invariant forall p :: p in adapted ==> adapted[p] == Adapted(policies[p], m)
      decreases |todo|
    {
      var p :| p in todo;
      var paths := AdaptPaths(policies[p], m);
      adapted := adapted[p := paths];
      todo := todo - {p};
    }
  }

  /** One policy in the report of check_policies. */
  datatype PolicyCheck = PolicyCheck(name: string, expected: Policy, current: Policy, isValid: bool)

  datatype PolicyReport = PolicyReport(policies: seq<PolicyCheck>, isValid: bool)

  /** check_policies: each expected policy is read from Vault under the
      prefixed name (`stored` holds what Vault has); a missing policy makes
      the report invalid, and a present one is listed with whether it
      matches. A present policy that differs is reported but leaves the
      report valid. */
  method CheckPolicies(expected: map<string, Policy>, prefix: string, stored: map<string, Policy>) returns (r: PolicyReport)
    ensures r.isValid <==> forall p :: p in expected ==> prefix + p in stored
    ensures forall k :: 0 <= k < |r.policies| ==> Reported(r.policies[k], expected, prefix, stored)
    ensures forall p :: p in expected && prefix + p in stored ==> Listed(r.policies, prefix + p)
  {
    var checks: seq<PolicyCheck> := [];
    var valid := true;
    var todo := expected.Keys;
    while todo != {}
      invariant todo <= expected.Keys
      invariant valid <==> forall p :: p in expected && p !in todo ==> prefix + p in stored
      invariant forall k :: 0 <= k < |checks| ==> Reported(checks[k], expected, prefix, stored)
      invariant forall p :: p in expected && p !in todo && prefix + p in stored ==> Listed(checks, prefix + p)
      decreases |todo|
    {
      var p :| p in todo;
      var name := prefix + p;
      ghost var before := checks;
      if name in stored {
        var check := PolicyCheck(name, expected[p], stored[name], expected[p] == stored[name]);
        assert Reported(check, expected, prefix, stored);
        checks := checks + [check];
        assert checks[|checks| - 1] == check;
        assert forall k :: 0 <= k < |before| ==> checks[k] == before[k];
        assert Listed(checks, name);
        assert forall q :: Listed(before, q) ==> Listed(checks, q);
      } else {
        valid := false;
      }
      todo := todo - {p};
    }
    r := PolicyReport(checks, valid);
  }

  /** A check reports an expected policy present in Vault, with whether it
      matches. */
  ghost predicate Reported(c: PolicyCheck, expected: map<string, Policy>, prefix: string, stored: map<string, Policy>)
  {
    exists p :: p in expected && prefix + p in stored &&
      c == PolicyCheck(prefix + p, expected[p], stored[prefix + p], expected[p] == stored[prefix + p])
  }

  /** Some check is about the named policy. */
  ghost predicate Listed(checks: seq<PolicyCheck>, name: string)
  {
    exists k :: 0 <= k < |checks| && checks[k].name == name
  }

  /** _is_secret_engine_enabled and _is_auth_method_enabled: whether the
      mount point is one of the listed mounts, compared exactly. */
  method IsMounted(mounts: seq<string>, mount: string) returns (enabled: bool)
    ensures enabled <==> mount in mounts
  {
    var i := 0;
    while i < |mounts|
      invariant 0 <= i <= |mounts|
      invariant mount !in mounts[..i]
    {
      if mounts[i] == mount {
        return true;
      }
      assert mounts[..i + 1] == mounts[..i] + [mounts[i]];
      i := i + 1;
    }
    assert mounts[..i] == mounts;
    return false;
  }

  /** An entry of the service configuration map: the configuration values
      it opens and the policy that grants them. */
  datatype Access = Access(values: seq<string>, policy: string)

  /** The service configuration map: the services it knows, and the access
      entry reached by each role path. */
  datatype ConfMap = ConfMap(public: Access, services: set<string>, roles: map<string, Access>)

  /** A module: its name and, for each of its services in order, the roles
      it plays. */
  datatype Module = Module(name: string, services: seq<(string, seq<string>)>)

  /** The entries reached by the roles of one service. */
  function Reached(conf: ConfMap, roles: seq<string>): seq<Access>
  {
    if roles == [] then []
    else
      var r := roles[|roles| - 1];
      Reached(conf, roles[..|roles| - 1]) + (if r in conf.roles then [conf.roles[r]] else [])
  }

  /** The entries reached by the services of a module that the map knows. */
  function AllReached(conf: ConfMap, services: seq<(string, seq<string>)>): seq<Access>
  {
    if services == [] then []
    else
      var s := services[|services| - 1];
      AllReached(conf, services[..|services| - 1]) + (if s.0 in conf.services then Reached(conf, s.1) else [])
  }

  function ValuesOf(accesses: seq<Access>): set<string>
  {
    set i, v | 0 <= i < |accesses| && v in accesses[i].values :: v
  }

  function PoliciesOf(accesses: seq<Access>): set<string>
  {
    set i | 0 <= i < |accesses| :: accesses[i].policy
  }

  /** A role that is not in the map adds nothing. */
  lemma MissingRoleAddsNothing(conf: ConfMap, roles: seq<string>, role: string)
    requires role !in conf.roles
    ensures Reached(conf, roles + [role]) == Reached(conf, roles)
  {
    assert (roles + [role])[..|roles|] == roles;
  }

  /** A service the map does not know adds nothing, whatever its roles. */
  lemma MissingServiceAddsNothing(conf: ConfMap, services: seq<(string, seq<string>)>, service: string, roles: seq<string>)
    requires service !in conf.services
    ensures AllReached(conf, services + [(service, roles)]) == AllReached(conf, services)
  {
    assert (services + [(service, roles)])[..|services|] == services;
  }

  /** A role found in the map adds all its values and its policy. */
  lemma {:induction false} FoundRoleGrants(conf: ConfMap, services: seq<(string, seq<string>)>, i: int, j: int)
    requires 0 <= i < |services| && 0 <= j < |services[i].1|
    requires services[i].0 in conf.services && services[i].1[j] in conf.roles
    ensures conf.roles[services[i].1[j]] in AllReached(conf, services)
  {
    var init := services[..|services| - 1];
    if i < |services| - 1 {
      assert init[i] == services[i];
      FoundRoleGrants(conf, init, i, j);
    } else {
      ReachedRole(conf, services[i].1, j);
    }
  }

  lemma {:induction false} ReachedRole(conf: ConfMap, roles: seq<string>, j: int)
    requires 0 <= j < |roles| && roles[j] in conf.roles
    ensures conf.roles[roles[j]] in Reached(conf, roles)
  {
    if j < |roles| - 1 {
      assert roles[..|roles| - 1][j] == roles[j];
      ReachedRole(conf, roles[..|roles| - 1], j);
    }
  }

  /** The role loop of _add_generic_service_access for one service. */
  method AddRoles(conf: ConfMap, roles: seq<string>, config: set<string>, policies: set<string>)
    returns (config': set<string>, policies': set<string>)
    ensures config' == config + ValuesOf(Reached(conf, roles))
    ensures policies' == policies + PoliciesOf(Reached(conf, roles))
  {
    config', policies' := config, policies;
    var j := 0;
    while j < |roles|
      invariant 0 <= j <= |roles|
      invariant config' == config + ValuesOf(Reached(conf, roles[..j]))
      invariant policies' == policies + PoliciesOf(Reached(conf, roles[..j]))
    {
      assert roles[..j + 1][..j] == roles[..j];
      var reached := Reached(conf, roles[..j]);
      if roles[j] in conf.roles {
        var access := conf.roles[roles[j]];
        config' := config' + (set v | v in access.values);
        policies' := policies' + {access.policy};
        AppendAccess(reached, access);
      } else {
        assert Reached(conf, roles[..j + 1]) == reached + [];
        assert reached + [] == reached;
      }
      j := j + 1;
    }
    assert roles[..j] == roles;
  }

  lemma AppendAccess(accesses: seq<Access>, a: Access)
    ensures ValuesOf(accesses + [a]) == ValuesOf(accesses) + (set v | v in a.values)
    ensures PoliciesOf(accesses + [a]) == PoliciesOf(accesses) + {a.policy}
  {
    var all := accesses + [a];
    assert all[|accesses|] == a;
    forall v | v in ValuesOf(all)
      ensures v in ValuesOf(accesses) || v in a.values
    {
      var i :| 0 <= i < |all| && v in all[i].values;
      if i < |accesses| {
        assert all[i] == accesses[i];
      }
    }
    forall v | v in ValuesOf(accesses)
      ensures v in ValuesOf(all)
    {
      var i :| 0 <= i < |accesses| && v in accesses[i].values;
      assert all[i] == accesses[i];
    }
    forall p | p in PoliciesOf(all)
      ensures p in PoliciesOf(accesses) || p == a.policy
    {
      var i :| 0 <= i < |all| && all[i].policy == p;
      if i < |accesses| {
        assert all[i] == accesses[i];
      }
    }
    forall p | p in PoliciesOf(accesses)
      ensures p in PoliciesOf(all)
    {
      var i :| 0 <= i < |accesses| && accesses[i].policy == p;
      assert all[i] == accesses[i];
    }
  }

  lemma AppendAccesses(a: seq<Access>, b: seq<Access>)
    ensures ValuesOf(a + b) == ValuesOf(a) + ValuesOf(b)
    ensures PoliciesOf(a + b) == PoliciesOf(a) + PoliciesOf(b)
  {
    var all := a + b;
    forall v | v in ValuesOf(all)
      ensures v in ValuesOf(a) || v in ValuesOf(b)
    {
      var i :| 0 <= i < |all| && v in all[i].values;
      if i < |a| {
        assert all[i] == a[i];
      } else {
        assert all[i] == b[i - |a|];
      }
    }
    forall v | v in ValuesOf(a)
      ensures v in ValuesOf(all)
    {
      var i :| 0 <= i < |a| && v in a[i].values;
      assert all[i] == a[i];
    }
    forall v | v in ValuesOf(b)
      ensures v in ValuesOf(all)
    {
      var i :| 0 <= i < |b| && v in b[i].values;
      assert all[|a| + i] == b[i];
    }
    forall p | p in PoliciesOf(all)
      ensures p in PoliciesOf(a) || p in PoliciesOf(b)
    {
      var i :| 0 <= i < |all| && all[i].policy == p;
      if i < |a| {
        assert all[i] == a[i];
      } else {
        assert all[i] == b[i - |a|];
      }
    }
    forall p | p in PoliciesOf(a)
      ensures p in PoliciesOf(all)
    {
      var i :| 0 <= i < |a| && a[i].policy == p;
      assert all[i] == a[i];
    }
    forall p | p in PoliciesOf(b)
      ensures p in PoliciesOf(all)
    {
      var i :| 0 <= i < |b| && b[i].policy == p;
      assert all[|a| + i] == b[i];
    }
  }

  /** _add_generic_service_access: for each service the map knows, each
      role that reaches an entry adds that entry's values to the
      configuration and its policy to the policies. */
  method AddGenericServiceAccess(services: seq<(string, seq<string>)>, conf: ConfMap, config: set<string>, policies: set<string>)
    returns (config': set<string>, policies': set<string>)
    ensures config' == config + ValuesOf(AllReached(conf, services))
    ensures policies' == policies + PoliciesOf(AllReached(conf, services))
  {
    config', policies' := config, policies;
    var i := 0;
    while i < |services|
      invariant 0 <= i <= |services|
      invariant config' == config + ValuesOf(AllReached(conf, services[..i]))
      invariant policies' == policies + PoliciesOf(AllReached(conf, services[..i]))
    {
      assert services[..i + 1][..i] == services[..i];
      var before := AllReached(conf, services[..i]);
      if services[i].0 in conf.services {
        config', policies' := AddRoles(conf, services[i].1, config', policies');
        AppendAccesses(before, Reached(conf, services[i].1));
      } else {
        assert AllReached(conf, services[..i + 1]) == before + [];
        assert before + [] == before;
      }
      i := i + 1;
    }
    assert services[..i] == services;
  }

  /** Whether a module has a service. */
  predicate HasService(mod: Module, service: string)
  {
    exists i :: 0 <= i < |mod.services| && mod.services[i].0 == service
  }

  /** The policies a module is granted before they are prefixed. */
  function GrantedPolicies(mod: Module, conf: ConfMap): set<string>
  {
    {conf.public.policy, "modules_" + mod.name} + (if HasService(mod, "django") then {"django_config"} else {}) +
    PoliciesOf(AllReached(conf, mod.services))
  }

  /** _build_config_and_policies: the public configuration and policy, the
      Django configuration policy iff the module has the django service,
      the module's own policy and the generic service access; every policy
      gets the prefix. */
  method BuildConfigAndPolicies(mod: Module, conf: ConfMap, prefix: string) returns (config: set<string>, policies: set<string>)
    ensures config == (set v | v in conf.public.values) + ValuesOf(AllReached(conf, mod.services))
    ensures policies == set p | p in GrantedPolicies(mod, conf) :: prefix + p
    ensures prefix + conf.public.policy in policies && prefix + "modules_" + mod.name in policies
    ensures HasService(mod, "django") ==> prefix + "django_config" in policies
    ensures forall p :: p in policies ==> StartsWith(p, prefix)
  {
    var granted: set<string> := {conf.public.policy};
    config := set v | v in conf.public.values;
    var hasDjango := false;
    var i := 0;
    while i < |mod.services|
      invariant 0 <= i <= |mod.services|
      invariant hasDjango <==> exists k :: 0 <= k < i && mod.services[k].0 == "django"
    {
      if mod.services[i].0 == "django" {
        hasDjango := true;
      }
      i := i + 1;
    }
    if hasDjango {
      granted := granted + {"django_config"};
    }
    granted := granted + {"modules_" + mod.name};
    config, granted := AddGenericServiceAccess(mod.services, conf, config, granted);
    policies := set p | p in granted :: prefix + p;
    assert granted == GrantedPolicies(mod, conf);
    assert prefix + conf.public.policy in policies;
    assert "modules_" + mod.name in granted;
    assert prefix + ("modules_" + mod.name) == prefix + "modules_" + mod.name;
    assert prefix + "modules_" + mod.name in policies;
    assert hasDjango ==> prefix + "django_config" in policies;
    forall p | p in policies
      ensures StartsWith(p, prefix)
    {
      var q :| q in granted && p == prefix + q;
      assert p[..|prefix|] == prefix;
    }
  }

  /** Without the django service the Django policy comes only from the
      service map. */
  lemma NoDjangoWithoutService(mod: Module, conf: ConfMap)
    requires !HasService(mod, "django")
    requires conf.public.policy != "django_config" && "modules_" + mod.name != "django_config"
    requires "django_config" !in PoliciesOf(AllReached(conf, mod.services))
    ensures "django_config" !in GrantedPolicies(mod, conf)
  {
  }

  /** `str(id).zfill(3)` */
  function PaddedId(id: nat): string
  {
    ZFill(IntToString(id), 3)
  }

  /** register_vle: the module of a VLE. */
  function VleModuleName(id: nat): (r: string)
    ensures StartsWith(r, "vle_") && |r| >= 7
  {
    "vle_" + PaddedId(id)
  }

  /** register_provider: the module of a provider. */
  function ProviderModuleName(id: nat): (r: string)
    ensures StartsWith(r, "provider_") && |r| >= 12
  {
    "provider_" + PaddedId(id)
  }

  /** Leading zeros do not change a decimal value. */
  lemma {:induction false} LeadingZerosValue(zeros: string, s: string)
    requires forall i :: 0 <= i < |zeros| ==> zeros[i] == '0'
    requires forall i :: 0 <= i < |s| ==> IsDigit(s[i])
    ensures forall i :: 0 <= i < |zeros + s| ==> IsDigit((zeros + s)[i])
    ensures DigitsValue(zeros + s) == DigitsValue(s)
    decreases |s| + |zeros|
  {
    var z := zeros + s;
    if s == [] {
      assert z == zeros;
      if zeros != [] {
        LeadingZerosValue(zeros[..|zeros| - 1], []);
        assert zeros[..|zeros| - 1] + [] == zeros[..|zeros| - 1];
      }
    } else {
      assert z[..|z| - 1] == zeros + s[..|s| - 1];
      LeadingZerosValue(zeros, s[..|s| - 1]);
    }
  }

  /** The padded id is all digits and parses back to the id. */
  lemma PaddedIdParses(id: nat)
    ensures '_' !in PaddedId(id)
    ensures ParseInt(PaddedId(id)) == Some(id as int)
  {
    var digits := NatToString(id);
    assert IntToString(id) == digits;
    var padded := PaddedId(id);
    var k := |padded| - |digits|;
    var zeros := padded[..k];
    assert padded[k..] == digits;
    assert padded == zeros + digits;
    LeadingZerosValue(zeros, digits);
    NatToStringValue(id);
    DigitsParse(padded);
  }

  /** The token of a registered module carries its kind and id: the number
      part of its name parses back to the provider or VLE id. */
  lemma ModuleNamesRoundTrip(id: nat)
    ensures Client.ModuleKind(VleModuleName(id)) == Some("vle")
    ensures Client.ModuleNumber(VleModuleName(id)) == PaddedId(id)
    ensures Client.ModuleKind(ProviderModuleName(id)) == Some("provider")
    ensures Client.ModuleNumber(ProviderModuleName(id)) == PaddedId(id)
    ensures ParseInt(PaddedId(id)) == Some(id as int)
  {
    PaddedIdParses(id);
    SplitNoSep(PaddedId(id), '_');
    assert VleModuleName(id)[4..] == PaddedId(id);
    assert !StartsWith(VleModuleName(id), "provider_") by {
      assert VleModuleName(id)[0] == 'v';
    }
    assert ProviderModuleName(id)[9..] == PaddedId(id);
  }
}
