/** The system checks run before deployment: required TeSLA settings, the
    database settings and connection, and the Vault settings and status.
    The database and Vault probes are parameters: the outcome of trying to
    connect. */
module Checks {
  import opened Wrappers
  import opened Text

  type Config = map<string, string>

  /** What contacting Vault gave: a connection error, or whether it is
      initialized and, when it is, sealed. */
  datatype VaultProbe = Unreachable(error: string) | Reachable(initialized: bool, sealed: bool)

  datatype VaultStatus = VaultStatus(connected: bool, initialized: Option<bool>, sealed: Option<bool>, ready: bool)

  /** check_vault_connection: sealed is asked only of an initialized Vault,
      and ready means connected, initialized and not sealed. */
  function VaultConnection(probe: VaultProbe): (r: VaultStatus)
    ensures r.connected <==> probe.Reachable?
    ensures r.sealed.Some? <==> probe.Reachable? && probe.initialized
    ensures r.ready <==> r.connected && r.initialized == Some(true) && r.sealed == Some(false)
  {
    match probe
    case Unreachable(_) => VaultStatus(false, None, None, false)
    case Reachable(initialized, sealed) =>
      if initialized then VaultStatus(true, Some(true), Some(sealed), !sealed)
      else VaultStatus(true, Some(false), None, false)
  }

  /** The errors of the TeSLA settings, in the order they are checked. */
  function TeslaErrors(config: Config): seq<string>
  {
    (if "TESLA_DOMAIN" in config then [] else ["TeSLA domain is missing"]) +
    (if "TESLA_ADMIN_MAIL" in config then [] else ["TeSLA administrator email is missing"])
  }

  /** check_tesla_configuration: one error per missing setting. */
  method CheckTeslaConfiguration(config: Config) returns (valid: bool, errors: seq<string>)
    ensures valid <==> "TESLA_DOMAIN" in config && "TESLA_ADMIN_MAIL" in config
    ensures valid <==> errors == []
    ensures errors == TeslaErrors(config)
  {
    valid := true;
    errors := [];
    if "TESLA_DOMAIN" !in config {
      valid := false;
      errors := errors + ["TeSLA domain is missing"];
    }
    if "TESLA_ADMIN_MAIL" !in config {
      valid := false;
      errors := errors + ["TeSLA administrator email is missing"];
    }
  }

  predicate HasCredentials(config: Config)
  {
    ("DB_USER" in config && "DB_PASSWORD" in config) || ("DB_ROOT_USER" in config && "DB_ROOT_PASSWORD" in config)
  }

  datatype DbReport = DbReport(valid: bool, connected: bool, probed: bool, errors: seq<string>)

  /** The errors of the database settings, in the order they are checked,
      and then the failed connection. */
  function DbErrors(config: Config, connected: bool): seq<string>
  {
    (if "DB_ENGINE" in config then [] else ["Database engine not provided"]) +
    (if "DB_HOST" in config then [] else ["Database host not provided"]) +
    (if "DB_PORT" in config then [] else ["Database port not provided"]) +
    (if HasCredentials(config) then [] else ["Database credentials not provided."]) +
    (if connected then [] else ["Cannot connect to database."])
  }

  /** check_db_configuration: engine, host, port and one full pair of
      credentials are required; the connections (default and admin) are
      tried only with a valid configuration, and failing both clears
      `connected` without clearing `valid`. */
  method CheckDbConfiguration(config: Config, defaultConnects: bool, adminConnects: bool) returns (r: DbReport)
    ensures r.valid <==> "DB_ENGINE" in config && "DB_HOST" in config && "DB_PORT" in config && HasCredentials(config)
    ensures r.probed <==> r.valid
    ensures !r.connected <==> r.valid && !defaultConnects && !adminConnects
    ensures r.errors == DbErrors(config, r.connected)
    ensures r.valid && r.connected <==> r.errors == []
  {
    var valid := true;
    var connected := true;
    var errors: seq<string> := [];
    if "DB_ENGINE" !in config {
      valid := false;
      errors := errors + ["Database engine not provided"];
    }
    if "DB_HOST" !in config {
      valid := false;
      errors := errors + ["Database host not provided"];
    }
    if "DB_PORT" !in config {
      valid := false;
      errors := errors + ["Database port not provided"];
    }
    if ("DB_USER" !in config || "DB_PASSWORD" !in config) && ("DB_ROOT_USER" !in config || "DB_ROOT_PASSWORD" !in config) {
      valid := false;
      errors := errors + ["Database credentials not provided."];
    }
    if valid {
      if !defaultConnects && !adminConnects {
        connected := false;
        errors := errors + ["Cannot connect to database."];
      }
    }
    r := DbReport(valid, connected, valid, errors);
  }

  datatype VaultReport = VaultReport(valid: bool, errors: seq<string>, status: Option<VaultStatus>)

  /** Whether a Vault URL names its scheme. */
  predicate HasScheme(url: string)
  {
    StartsWith(url, "https://") || StartsWith(url, "http://")
  }

  /** The errors of the Vault settings and status: the URL first; with a
      usable URL, the connection, then the root token and the unseal keys of
      an initialized Vault. */
  function VaultErrors(config: Config, unsealKeys: Option<seq<string>>, probe: VaultProbe): seq<string>
  {
    if "VAULT_URL" !in config then ["Vault URL is not provided"]
    else if !HasScheme(config["VAULT_URL"]) then ["Vault URL schema is not provided. Use http or https."]
    else if probe.Unreachable? then ["Cannot connect with Vault: " + probe.error]
    else
      (if probe.initialized && "VAULT_TOKEN" !in config
       then ["Vault is initialized, but root token is not provided"] else []) +
      (if probe.initialized && probe.sealed && (unsealKeys.None? || unsealKeys.value == [])
       then ["Vault is sealed, but unseal keys are not provided"] else [])
  }

  /** check_vault_configuration: a missing URL, or one without an http or
      https scheme, is invalid and Vault is not contacted; otherwise Vault
      must answer, and an initialized Vault needs the root token and, when
      sealed, the unseal keys. */
  method CheckVaultConfiguration(config: Config, unsealKeys: Option<seq<string>>, probe: VaultProbe) returns (r: VaultReport)
    ensures "VAULT_URL" !in config ==> r == VaultReport(false, ["Vault URL is not provided"], None)
    ensures "VAULT_URL" in config && !HasScheme(config["VAULT_URL"]) ==>
              r == VaultReport(false, ["Vault URL schema is not provided. Use http or https."], None)
    ensures r.status.Some? <==> "VAULT_URL" in config && HasScheme(config["VAULT_URL"])
    ensures r.status.Some? ==> r.status.value == VaultConnection(probe)
    ensures r.status.Some? && probe.Unreachable? ==> r == VaultReport(false, ["Cannot connect with Vault: " + probe.error], r.status)
    ensures r.status.Some? && probe.Reachable? ==>
              r.errors == (if probe.initialized && "VAULT_TOKEN" !in config
                           then ["Vault is initialized, but root token is not provided"] else []) +
                          (if probe.initialized && probe.sealed && (unsealKeys.None? || unsealKeys.value == [])
                           then ["Vault is sealed, but unseal keys are not provided"] else [])
    ensures r.valid <==> r.errors == []
    ensures r.errors == VaultErrors(config, unsealKeys, probe)
  {
    var valid := true;
    var errors: seq<string> := [];
    if "VAULT_URL" !in config {
      valid := false;
      errors := errors + ["Vault URL is not provided"];
    } else if !StartsWith(config["VAULT_URL"], "https://") && !StartsWith(config["VAULT_URL"], "http://") {
      valid := false;
      errors := errors + ["Vault URL schema is not provided. Use http or https."];
    }
    var status: Option<VaultStatus> := None;
    if valid {
      status := Some(VaultConnection(probe));
      valid, errors := CheckVaultStatus(config, unsealKeys, probe);
    }
    r := VaultReport(valid, errors, status);
  }

  /** The connection part of check_vault_configuration, for a URL with a
      scheme: an unreachable Vault is an error; an initialized one needs the
      root token and, when sealed, the unseal keys. */
  method CheckVaultStatus(config: Config, unsealKeys: Option<seq<string>>, probe: VaultProbe)
    returns (valid: bool, errors: seq<string>)
    ensures probe.Unreachable? ==> errors == ["Cannot connect with Vault: " + probe.error]
    ensures probe.Reachable? ==>
              errors == (if probe.initialized && "VAULT_TOKEN" !in config
                         then ["Vault is initialized, but root token is not provided"] else []) +
                        (if probe.initialized && probe.sealed && (unsealKeys.None? || unsealKeys.value == [])
                         then ["Vault is sealed, but unseal keys are not provided"] else [])
    ensures valid <==> errors == []
  {
    valid := true;
    errors := [];
    var report := VaultConnection(probe);
    if !report.connected {
      valid := false;
      errors := errors + ["Cannot connect with Vault: " + probe.error];
    } else if report.initialized == Some(true) {
      if "VAULT_TOKEN" !in config {
        valid := false;
        errors := errors + ["Vault is initialized, but root token is not provided"];
      }
      if report.sealed == Some(true) && (unsealKeys.None? || |unsealKeys.value| == 0) {
        valid := false;
        errors := errors + ["Vault is sealed, but unseal keys are not provided"];
      }
    }
  }
}
