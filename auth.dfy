/** JWT authentication of API requests: extracting the token from the
    Authorization header, resolving the token's payload to the user or
    module it names, and the debug authentication that stands in for a
    configured object. Token validation by Vault and the database lookups
    are parameters: the validation outcome and a directory of the stored
    users and modules. */
module Auth {
  import opened Wrappers
  import opened Text

  /** The authentication scheme TeSLA tokens are sent with. */
  const JwtScheme: string := "JWT"

  /** _get_token as written: a request without an Authorization header
      makes `startswith` fail on None. */
  function GetTokenAsWritten(header: Option<string>): (r: Result<Option<string>>)
    ensures header.None? ==> r.Err?
    ensures header.Some? ==> r == Ok(GetToken(header))
  {
    if header.None? then Err("'NoneType' object has no attribute 'startswith'")
    else Ok(GetToken(header))
  }

  /** A missing header is the input that shows the failure. */
  lemma MissingHeaderFails()
    ensures GetTokenAsWritten(None).Err?
    ensures GetToken(None) == None
  {
  }

  /** _get_token, with a missing header read as no token: the second word
      of a header that starts with the scheme and has exactly two words. */
  function GetToken(header: Option<string>): (r: Option<string>)
    ensures r.Some? <==> header.Some? && StartsWith(header.value, JwtScheme) && |Words(header.value, false)| == 2
    ensures r.Some? ==> IsWord(r.value, false)
  {
    if header.None? || !StartsWith(header.value, JwtScheme) then None
    else
      var words := Words(header.value, false);
      if |words| == 2 then Some(words[1]) else None
  }

  /** A header made of the scheme and a token gives that token back. */
  lemma {:induction false} GetTokenRoundTrip(token: string)
    requires IsWord(token, false)
    ensures GetToken(Some(JwtScheme + " " + token)) == Some(token)
  {
    assert IsWord(JwtScheme, false);
    WordsOfWordThenSpace(JwtScheme, token, false);
    WordsOfWord(token, false);
    assert (JwtScheme + " " + token)[..|JwtScheme|] == JwtScheme;
  }

  /** The check is on the prefix only: a longer first word that starts with
      the scheme is accepted as well. */
  lemma {:induction false} SchemePrefixAccepted(token: string)
    requires IsWord(token, false)
    ensures GetToken(Some("JWTX " + token)) == Some(token)
  {
    assert IsWord("JWTX", false);
    assert "JWTX " + token == "JWTX" + " " + token;
    WordsOfWordThenSpace("JWTX", token, false);
    WordsOfWord(token, false);
    assert ("JWTX " + token)[..3] == JwtScheme;
  }

  /** The claims of a validated token. */
  datatype TokenPayload = TokenPayload(group: string, kind: string, pk: string, sub: string,
                                       scope: seq<string>, filters: Option<map<string, string>>)

  /** _is_allowed_url: every request is allowed. */
  predicate IsAllowedUrl(scope: seq<string>, filters: Option<map<string, string>>)
  {
    true
  }

  /** is_authenticated_request: the payload of a valid token, nothing
      without a token; a failed validation propagates. */
  function IsAuthenticatedRequest(header: Option<string>, validate: string -> Result<TokenPayload>): (r: Result<Option<TokenPayload>>)
    ensures GetToken(header).None? ==> r == Ok(None)
    ensures GetToken(header).Some? ==>
              (r.Ok? <==> validate(GetToken(header).value).Ok?) &&
              (r.Ok? ==> r.value == Some(validate(GetToken(header).value).value))
  {
    var token := GetToken(header);
    if token.None? then Ok(None)
    else
      var payload := validate(token.value);
      if payload.Err? then Err(payload.error)
      else if IsAllowedUrl(payload.value.scope, payload.value.filters) then Ok(Some(payload.value))
      else Ok(None)
  }

  /** The stored accounts and modules, with whether each account is active:
      learners by learner id, users by primary key, institution users by uid
      and by id, providers and VLEs by primary key. */
  datatype Directory = Directory(learners: map<string, bool>, users: map<string, bool>,
                                 membersByUid: map<string, bool>, membersById: map<string, bool>,
                                 providers: set<string>, vles: set<string>)

  /** Who a request is authenticated as. */
  datatype Principal =
    | Unauthenticated
    | LearnerAccount(learnerId: string, active: bool)
    | UserAccount(pk: string, active: bool)
    | MemberAccount(key: string, byUid: bool, active: bool)
    | ModuleAccount(kind: string, pk: string, sub: string)
    | TokenAccount(kind: string, sub: string, pk: string, scope: seq<string>, filters: Option<map<string, string>>)

  /** `is_active`: stored for accounts, false for the unauthenticated user,
      true for modules and for token users built without a database. */
  predicate IsActive(p: Principal)
  {
    match p
    case Unauthenticated => false
    case LearnerAccount(_, active) => active
    case UserAccount(_, active) => active
    case MemberAccount(_, _, active) => active
    case ModuleAccount(_, _, _) => true
    case TokenAccount(_, _, _, _, _) => true
  }

  /** JWTAuthentication._get_module_model: only provider and VLE modules,
      each of which must exist. */
  function GetModuleModel(p: TokenPayload, dir: Directory): (r: Result<Principal>)
    ensures r.Ok? <==> (p.kind == "provider" && p.pk in dir.providers) || (p.kind == "vle" && p.pk in dir.vles)
    ensures r.Ok? ==> r.value == ModuleAccount(p.kind, p.pk, p.sub)
    ensures p.kind != "provider" && p.kind != "vle" ==> r == Err("Invalid module type.")
  {
    if p.kind == "provider" then
      if p.pk in dir.providers then Ok(ModuleAccount(p.kind, p.pk, p.sub)) else Err("Invalid provider.")
    else if p.kind == "vle" then
      if p.pk in dir.vles then Ok(ModuleAccount(p.kind, p.pk, p.sub)) else Err("Invalid VLE.")
    else Err("Invalid module type.")
  }

  /** JWTAuthentication._get_user_model: the group of the payload decides
      where the principal is looked up. */
  function GetUserModel(p: TokenPayload, dir: Directory): (r: Result<Principal>)
    ensures p.group == "learners" ==>
              if p.sub in dir.learners then r == Ok(LearnerAccount(p.sub, dir.learners[p.sub]))
              else r == Err("Invalid learner.")
    ensures p.group == "users" && p.kind == "admin" ==>
              if p.pk in dir.users then r == Ok(UserAccount(p.pk, dir.users[p.pk]))
              else r == Err("Invalid user.")
    ensures p.group == "users" && p.kind != "admin" ==>
              if p.sub in dir.membersByUid then r == Ok(MemberAccount(p.sub, true, dir.membersByUid[p.sub]))
              else if p.pk in dir.membersById then r == Ok(MemberAccount(p.pk, false, dir.membersById[p.pk]))
              else r == Err("Invalid user.")
    ensures p.group != "learners" && p.group != "users" && StartsWith(p.group, "module_") ==> r == GetModuleModel(p, dir)
    ensures p.group != "learners" && p.group != "users" && !StartsWith(p.group, "module_") ==>
              r == Err("Invalid payload group.")
  {
    if p.group == "learners" then
      if p.sub in dir.learners then Ok(LearnerAccount(p.sub, dir.learners[p.sub])) else Err("Invalid learner.")
    else if p.group == "users" then
      if p.kind == "admin" then
        if p.pk in dir.users then Ok(UserAccount(p.pk, dir.users[p.pk])) else Err("Invalid user.")
      else if p.sub in dir.membersByUid then Ok(MemberAccount(p.sub, true, dir.membersByUid[p.sub]))
      else if p.pk in dir.membersById then Ok(MemberAccount(p.pk, false, dir.membersById[p.pk]))
      else Err("Invalid user.")
    else if StartsWith(p.group, "module_") then GetModuleModel(p, dir)
    else Err("Invalid payload group.")
  }

  /** A resolved principal is never the unauthenticated user. */
  lemma ResolvedIsAuthenticated(p: TokenPayload, dir: Directory)
    requires GetUserModel(p, dir).Ok?
    ensures GetUserModel(p, dir).value != Unauthenticated
  {
  }

  /** The result of authenticating: the principal and the token, if any. */
  type Authentication = (Principal, Option<string>)

  /** JWTAuthentication.authenticate_credentials: a failed validation, a
      failed lookup or an inactive principal is refused; without a usable
      database the principal is built from the payload alone. */
  function AuthenticateCredentials(token: string, validation: Result<TokenPayload>, database: bool, dir: Directory)
    : (r: Result<Authentication>)
    ensures validation.Err? ==> r == Err("Invalid token: " + validation.error)
    ensures r.Ok? ==> validation.Ok? && IsActive(r.value.0) && r.value.1 == Some(token)
    ensures r.Ok? && database ==> GetUserModel(validation.value, dir) == Ok(r.value.0)
    ensures (validation.Ok? && database && GetUserModel(validation.value, dir).Ok? &&
             !IsActive(GetUserModel(validation.value, dir).value)) ==> r == Err("User inactive or deleted.")
    ensures validation.Ok? && !database ==> r.Ok?
  {
    if validation.Err? then Err("Invalid token: " + validation.error)
    else
      var p := validation.value;
      var user :=
        if database then GetUserModel(p, dir)
        else Ok(TokenAccount(p.kind, p.sub, p.pk, p.scope, p.filters));
      if user.Err? then Err(user.error)
      else if !IsActive(user.value) then Err("User inactive or deleted.")
      else Ok((user.value, Some(token)))
  }

  /** JWTAuthentication.authenticate: the header bytes are split on ASCII
      whitespace; no words means an anonymous request, one word or more
      than two is refused, and the second of two words is the token. */
  function Authenticate(header: string, validate: string -> Result<TokenPayload>, database: bool, dir: Directory)
    : (r: Result<Authentication>)
    ensures |Words(header, true)| == 0 ==> r == Ok((Unauthenticated, None))
    ensures |Words(header, true)| == 1 ==> r == Err("Invalid token header. No credentials provided.")
    ensures |Words(header, true)| > 2 ==> r == Err("Invalid token header. Token string should not contain spaces.")
    ensures |Words(header, true)| == 2 ==>
              r == AuthenticateCredentials(Words(header, true)[1], validate(Words(header, true)[1]), database, dir)
  {
    var auth := Words(header, true);
    if |auth| == 1 then Err("Invalid token header. No credentials provided.")
    else if |auth| > 2 then Err("Invalid token header. Token string should not contain spaces.")
    else if |auth| == 0 then Ok((Unauthenticated, None))
    else
      var token := auth[1];
      AuthenticateCredentials(token, validate(token), database, dir)
  }

  /** The first word of the header is not checked: any scheme gives the
      same outcome for the same token. */
  lemma {:induction false} SchemeIgnored(scheme1: string, scheme2: string, token: string,
                                         validate: string -> Result<TokenPayload>, database: bool, dir: Directory)
    requires IsWord(scheme1, true) && IsWord(scheme2, true) && IsWord(token, true)
    ensures Authenticate(scheme1 + " " + token, validate, database, dir) ==
            Authenticate(scheme2 + " " + token, validate, database, dir)
  {
    WordsOfWordThenSpace(scheme1, token, true);
    WordsOfWordThenSpace(scheme2, token, true);
    WordsOfWord(token, true);
  }

  /** A valid token of an inactive stored account is refused. */
  lemma {:induction false} InactiveRefused(token: string, validate: string -> Result<TokenPayload>, dir: Directory)
    requires IsWord(token, true)
    requires validate(token).Ok? && GetUserModel(validate(token).value, dir).Ok?
    requires !IsActive(GetUserModel(validate(token).value, dir).value)
    ensures Authenticate(JwtScheme + " " + token, validate, true, dir) == Err("User inactive or deleted.")
  {
    assert IsWord(JwtScheme, true);
    WordsOfWordThenSpace(JwtScheme, token, true);
    WordsOfWord(token, true);
  }

  /** The group and type of the payload the debug authentication builds
      for each configured object type. */
  function DebugClaims(objType: string, pk: string): (r: Option<(string, string)>)
    ensures r.Some? <==> objType in {"admin", "user", "vle", "provider"}
    ensures r.Some? && (objType == "admin" || objType == "user") ==> r.value == ("users", objType)
    ensures objType == "vle" ==> r == Some(("module_vle_" + pk, "vle"))
    ensures objType == "provider" ==> r == Some(("module_provider_" + pk, "provider"))
  {
    if objType == "admin" then Some(("users", "admin"))
    else if objType == "user" then Some(("users", "user"))
    else if objType == "vle" then Some(("module_vle_" + pk, "vle"))
    else if objType == "provider" then Some(("module_provider_" + pk, "provider"))
    else None
  }

  /** DebugJWTAuthentication.authenticate_credentials: without a configured
      object the request is anonymous; otherwise the object's type and key
      make a payload, resolved as a real one when databases are configured.
      The token is ignored and the activity of the principal is not
      checked. */
  function DebugCredentials(obj: Option<seq<string>>, databases: bool, dir: Directory): (r: Result<Authentication>)
    ensures obj.None? ==> r == Ok((Unauthenticated, None))
    ensures r.Ok? ==> r.value.1.None?
    ensures obj.Some? && |obj.value| >= 2 && DebugClaims(obj.value[0], obj.value[1]).None? ==>
              r == Err("Invalid user credentials.")
    ensures obj.Some? && |obj.value| >= 2 && DebugClaims(obj.value[0], obj.value[1]).Some? && databases ==>
              r.Ok? == GetUserModel(DebugPayload(obj.value), dir).Ok?
  {
    if obj.None? then Ok((Unauthenticated, None))
    else if |obj.value| < 2 then Err("list index out of range")
    else
      var claims := DebugClaims(obj.value[0], obj.value[1]);
      if claims.None? then Err("Invalid user credentials.")
      else
        var p := DebugPayload(obj.value);
        if databases then
          var user := GetUserModel(p, dir);
          if user.Err? then Err(user.error) else Ok((user.value, None))
        else Ok((TokenAccount(p.kind, p.sub, p.pk, p.scope, p.filters), None))
  }

  /** The payload built from the configured object: its key is both the
      subject and the primary key; scopes and filters are empty. */
  function DebugPayload(obj: seq<string>): (p: TokenPayload)
    requires |obj| >= 2 && DebugClaims(obj[0], obj[1]).Some?
    ensures p.sub == obj[1] && p.pk == obj[1] && p.kind == obj[0]
  {
    var claims := DebugClaims(obj[0], obj[1]).value;
    TokenPayload(claims.0, claims.1, obj[1], obj[1], [], None)
  }

  /** The debug VLE and provider objects resolve as modules: they are
      accepted exactly when the module exists. */
  lemma {:induction false} DebugModulesResolve(obj: seq<string>, dir: Directory)
    requires |obj| >= 2 && obj[0] in {"vle", "provider"}
    ensures DebugCredentials(Some(obj), true, dir).Ok? <==>
              (obj[0] == "vle" && obj[1] in dir.vles) || (obj[0] == "provider" && obj[1] in dir.providers)
  {
    var p := DebugPayload(obj);
    assert p.group[..7] == "module_";
    assert p.group != "users" && p.group != "learners" by {
      assert |p.group| > 7;
    }
  }

  /** DebugJWTAuthentication.authenticate: a header without words goes
      straight to the debug credentials, and so does a well-formed one, whose
      token is then ignored; malformed headers are refused as usual. */
  function DebugAuthenticate(header: string, obj: Option<seq<string>>, databases: bool, dir: Directory)
    : (r: Result<Authentication>)
    ensures |Words(header, true)| == 0 || |Words(header, true)| == 2 ==> r == DebugCredentials(obj, databases, dir)
    ensures |Words(header, true)| == 1 ==> r == Err("Invalid token header. No credentials provided.")
    ensures |Words(header, true)| > 2 ==> r == Err("Invalid token header. Token string should not contain spaces.")
  {
    var auth := Words(header, true);
    if |auth| == 0 then DebugCredentials(obj, databases, dir)
    else if |auth| == 1 then Err("Invalid token header. No credentials provided.")
    else if |auth| > 2 then Err("Invalid token header. Token string should not contain spaces.")
    else DebugCredentials(obj, databases, dir)
  }

  /** Under debug authentication every token gives the same principal. */
  lemma {:induction false} DebugIgnoresToken(t1: string, t2: string, obj: Option<seq<string>>, databases: bool, dir: Directory)
    requires IsWord(t1, true) && IsWord(t2, true)
    ensures DebugAuthenticate(JwtScheme + " " + t1, obj, databases, dir) ==
            DebugAuthenticate(JwtScheme + " " + t2, obj, databases, dir)
  {
    assert IsWord(JwtScheme, true);
    WordsOfWordThenSpace(JwtScheme, t1, true);
    WordsOfWordThenSpace(JwtScheme, t2, true);
    WordsOfWord(t1, true);
    WordsOfWord(t2, true);
  }
}
