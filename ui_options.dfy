/** User-interface options: which dashboard routes each role may see, which
    routes a given user sees once the institution's and the user's own
    blocks are applied, and the validation of new options. */
module UIOptions {
  import opened Wrappers
  import opened Text

  /** A stored UI option. `institution` and `user` are None for a global
      option; `roles` is the comma-separated list of required roles. */
  datatype UIOption = UIOption(id: int, route: string, enabled: bool, institution: Option<int>,
                               user: Option<int>, roles: Option<string>)

  const ALL := "__all__"
  const GLOBAL_ADMIN := "GLOBAL_ADMIN"

  predicate Global(o: UIOption)
  {
    o.enabled && o.institution.None?
  }

  /** The routes of the enabled global options without roles. */
  function BaseRoutes(options: seq<UIOption>): (r: set<string>)
    ensures forall route :: route in r <==>
              exists k :: 0 <= k < |options| && Global(options[k]) && options[k].roles.None? && options[k].route == route
  {
    set k | 0 <= k < |options| && Global(options[k]) && options[k].roles.None? :: options[k].route
  }

  /** The roles an option requires, when it is an enabled global option
      with roles. */
  function RequiredRoles(o: UIOption): seq<string>
  {
    if Global(o) && o.roles.Some? then Split(o.roles.value, ',') else []
  }

  /** The routes of the enabled global options whose roles list `role`. */
  function RoleRoutes(options: seq<UIOption>, role: string): set<string>
  {
    if options == [] then {}
    else
      var last := options[|options| - 1];
      RoleRoutes(options[..|options| - 1], role) + (if role in RequiredRoles(last) then {last.route} else {})
  }

  /** Every role named by an enabled global option. */
  function RoleNames(options: seq<UIOption>): set<string>
  {
    if options == [] then {}
    else
      var last := options[|options| - 1];
      RoleNames(options[..|options| - 1]) + set i | 0 <= i < |RequiredRoles(last)| :: RequiredRoles(last)[i]
  }

  lemma {:induction false} RoleRoutesMeaning(options: seq<UIOption>, role: string, route: string)
    ensures route in RoleRoutes(options, role) <==>
              exists k :: 0 <= k < |options| && role in RequiredRoles(options[k]) && options[k].route == route
  {
    if options != [] {
      var init := options[..|options| - 1];
      RoleRoutesMeaning(init, role, route);
      assert forall k :: 0 <= k < |init| ==> init[k] == options[k];
    }
  }

  lemma {:induction false} RoleNamesMeaning(options: seq<UIOption>, role: string)
    ensures role in RoleNames(options) <==> exists k :: 0 <= k < |options| && role in RequiredRoles(options[k])
  {
    if options != [] {
      var init := options[..|options| - 1];
      RoleNamesMeaning(init, role);
      assert forall k :: 0 <= k < |init| ==> init[k] == options[k];
    }
  }

  /** One route added under every role of a list. */
  method AddUnderRoles(routes: map<string, set<string>>, roles: seq<string>, route: string)
    returns (r: map<string, set<string>>)
    ensures r.Keys == routes.Keys + set i | 0 <= i < |roles| :: roles[i]
    ensures forall key :: key in r ==>
              r[key] == (if key in routes then routes[key] else {}) + (if key in roles then {route} else {})
  {
    r := routes;
    var i := 0;
    while i < |roles|
      invariant 0 <= i <= |roles|
      invariant r.Keys == routes.Keys + set j | 0 <= j < i :: roles[j]
      invariant forall key :: key in r ==>
                  r[key] == (if key in routes then routes[key] else {}) + (if key in roles[..i] then {route} else {})
    {
      var role := roles[i];
      if role !in r {
        r := r[role := {}];
      }
      r := r[role := r[role] + {route}];
      assert roles[..i + 1] == roles[..i] + [role];
      i := i + 1;
    }
    assert roles[..i] == roles;
  }

  /** A role nobody names has no routes. */
  lemma {:induction false} UnnamedRoleHasNoRoutes(options: seq<UIOption>, role: string)
    requires role !in RoleNames(options)
    ensures RoleRoutes(options, role) == {}
  {
    if options != [] {
      var last := options[|options| - 1];
      UnnamedRoleHasNoRoutes(options[..|options| - 1], role);
      forall j | 0 <= j < |RequiredRoles(last)| ensures RequiredRoles(last)[j] != role {
        assert RequiredRoles(last)[j] in RoleNames(options);
      }
    }
  }

  lemma RoutesStep(options: seq<UIOption>, i: int, key: string)
    requires 0 <= i < |options|
    ensures RoleRoutes(options[..i + 1], key) ==
              RoleRoutes(options[..i], key) + (if key in RequiredRoles(options[i]) then {options[i].route} else {})
  {
    assert options[..i + 1][..i] == options[..i];
  }

  lemma NamesStep(options: seq<UIOption>, i: int)
    requires 0 <= i < |options|
    ensures RoleNames(options[..i + 1]) ==
              RoleNames(options[..i]) + set j | 0 <= j < |RequiredRoles(options[i])| :: RequiredRoles(options[i])[j]
  {
    assert options[..i + 1][..i] == options[..i];
  }

  /** One option's roles added to the role-route map built from the
      options before it. */
  method AddOptionRoles(routes: map<string, set<string>>, options: seq<UIOption>, i: int, base: set<string>)
    returns (next: map<string, set<string>>)
    requires 0 <= i < |options|
    requires routes.Keys == {ALL} + RoleNames(options[..i])
    requires forall key :: key in routes ==> routes[key] == (if key == ALL then base else {}) + RoleRoutes(options[..i], key)
    ensures next.Keys == {ALL} + RoleNames(options[..i + 1])
    ensures forall key :: key in next ==> next[key] == (if key == ALL then base else {}) + RoleRoutes(options[..i + 1], key)
  {
    NamesStep(options, i);
    var roles := RequiredRoles(options[i]);
    next := AddUnderRoles(routes, roles, options[i].route);
    forall key | key in next
      ensures next[key] == (if key == ALL then base else {}) + RoleRoutes(options[..i + 1], key)
    {
      RoleEntryStep(routes, options, i, base, key);
    }
  }

  /** The entry of one key once an option's route is added under its
      roles. */
  lemma RoleEntryStep(routes: map<string, set<string>>, options: seq<UIOption>, i: int, base: set<string>, key: string)
    requires 0 <= i < |options|
    requires routes.Keys == {ALL} + RoleNames(options[..i])
    requires forall key :: key in routes ==> routes[key] == (if key == ALL then base else {}) + RoleRoutes(options[..i], key)
    ensures (if key in routes then routes[key] else {}) +
            (if key in RequiredRoles(options[i]) then {options[i].route} else {}) ==
            (if key == ALL then base else {}) + RoleRoutes(options[..i + 1], key)
  {
    RoutesStep(options, i, key);
    if key !in routes {
      UnnamedRoleHasNoRoutes(options[..i], key);
    }
  }

  /** get_role_base_ui_routes: `__all__` holds the enabled global routes
      without roles, and each role the enabled global routes listing it (a
      role spelled `__all__` adds to the same key). */
  method RoleBaseRoutes(options: seq<UIOption>) returns (routes: map<string, set<string>>)
    ensures routes.Keys == {ALL} + RoleNames(options)
    ensures forall key :: key in routes ==>
              routes[key] == (if key == ALL then BaseRoutes(options) else {}) + RoleRoutes(options, key)
  {
    var base := BaseRoutes(options);
    routes := map[ALL := base];
    var i := 0;
    while i < |options|
      invariant 0 <= i <= |options|
      invariant routes.Keys == {ALL} + RoleNames(options[..i])
      invariant forall key :: key in routes ==> routes[key] == (if key == ALL then base else {}) + RoleRoutes(options[..i], key)
    {
      routes := AddOptionRoles(routes, options, i, base);
      i := i + 1;
    }
    assert options[..i] == options;
  }

  /** The institution user of a user, when there is one. */
  datatype InstitutionUser = InstitutionUser(id: int, institution: int)

  /** The routes of the roles in `roles` that the map knows. */
  function RolesUnion(roleRoutes: map<string, set<string>>, roles: seq<string>): (r: set<string>)
    ensures forall route :: route in r <==>
              exists i :: 0 <= i < |roles| && roles[i] in roleRoutes && route in roleRoutes[roles[i]]
  {
    if roles == [] then {}
    else
      var init := roles[..|roles| - 1];
      var last := roles[|roles| - 1];
      assert forall i :: 0 <= i < |init| ==> init[i] == roles[i];
      RolesUnion(roleRoutes, init) + (if last in roleRoutes then roleRoutes[last] else {})
  }

  /** The routes the institution has disabled, and those disabled for one
      of its users. */
  function InstitutionBlocked(options: seq<UIOption>, institution: int): set<string>
  {
    set k | 0 <= k < |options| && options[k].institution == Some(institution) && !options[k].enabled :: options[k].route
  }

  function UserBlocked(options: seq<UIOption>, u: InstitutionUser): set<string>
  {
    set k | 0 <= k < |options| && options[k].institution == Some(u.institution) &&
            options[k].user == Some(u.id) && !options[k].enabled :: options[k].route
  }

  /** The routes granted before blocking: `__all__`, the global-admin routes
      for a global admin. */
  function AdminRoutes(roleRoutes: map<string, set<string>>, globalAdmin: bool): set<string>
    requires ALL in roleRoutes
  {
    roleRoutes[ALL] + (if globalAdmin && GLOBAL_ADMIN in roleRoutes then roleRoutes[GLOBAL_ADMIN] else {})
  }

  /** get_user_ui_routes for a user with the given institution user, staff
      flag and institution roles, given the role-route map and the stored
      options. */
  method UserRoutes(instUser: Option<InstitutionUser>, globalAdmin: bool, roles: seq<string>,
                    roleRoutes: map<string, set<string>>, options: seq<UIOption>)
    returns (r: set<string>)
    requires ALL in roleRoutes
    ensures instUser.None? && !globalAdmin ==> r == {}
    ensures instUser.None? && globalAdmin ==> r == AdminRoutes(roleRoutes, true)
    ensures instUser.Some? ==>
              forall route :: route in r <==>
                (route in AdminRoutes(roleRoutes, globalAdmin) + RolesUnion(roleRoutes, roles) &&
                 route !in InstitutionBlocked(options, instUser.value.institution) &&
                 route !in UserBlocked(options, instUser.value))
    ensures forall route :: route in r ==> exists key :: key in roleRoutes && route in roleRoutes[key]
  {
    if instUser.None? && !globalAdmin {
      return {};
    }
    var routes := roleRoutes[ALL];
    if globalAdmin && GLOBAL_ADMIN in roleRoutes {
      routes := routes + roleRoutes[GLOBAL_ADMIN];
    }
    if instUser.None? {
      return routes;
    }
    var i := 0;
    while i < |roles|
      invariant 0 <= i <= |roles|
      invariant routes == AdminRoutes(roleRoutes, globalAdmin) + RolesUnion(roleRoutes, roles[..i])
    {
      assert roles[..i + 1][..i] == roles[..i];
      if roles[i] in roleRoutes {
        routes := routes + roleRoutes[roles[i]];
      }
      i := i + 1;
    }
    assert roles[..i] == roles;
    var u := instUser.value;
    r := routes - InstitutionBlocked(options, u.institution) - UserBlocked(options, u);
  }

  /** The items of a list, each upper-cased. */
  function UpperAll(items: seq<string>): (r: seq<string>)
    ensures |r| == |items| && forall i :: 0 <= i < |items| ==> r[i] == Upper(items[i])
  {
    if items == [] then [] else [Upper(items[0])] + UpperAll(items[1..])
  }

  /** The role items checked one by one: the first whose upper-cased form
      is not a valid role stops the check. */
  function CheckRoles(items: seq<string>, validRoles: set<string>): (r: Result<seq<string>>)
    ensures r.Ok? <==> forall i :: 0 <= i < |items| ==> Upper(items[i]) in validRoles
    ensures r.Ok? ==> r.value == UpperAll(items)
    ensures r.Err? ==> exists i :: 0 <= i < |items| && Upper(items[i]) !in validRoles &&
                                   (forall j :: 0 <= j < i ==> Upper(items[j]) in validRoles) &&
                                   r.error == "Role " + items[i] + " is not valid"
  {
    if items == [] then Ok([])
    else if Upper(items[0]) !in validRoles then Err("Role " + items[0] + " is not valid")
    else
      match CheckRoles(items[1..], validRoles)
      case Err(e) =>
        assert forall i :: 1 <= i < |items| ==> items[i] == items[1..][i - 1];
        Err(e)
      case Ok(rest) => Ok([Upper(items[0])] + rest)
  }

  /** UIOptionSerializer.validate_roles: nothing or blank input is no
      roles; otherwise every comma item must be a valid role once upper
      cased, and the upper-cased items are joined back in order. */
  function RolesValidation(value: Option<string>, validRoles: set<string>): (r: Result<Option<string>>)
    ensures value.None? || IsBlank(value.value) ==> r == Ok(None)
    ensures r.Ok? && r.value.Some? ==>
              value.Some? && r.value.value == Join(UpperAll(Split(value.value, ',')), ",")
  {
    if value.None? || Strip(value.value) == [] then Ok(None)
    else
      match CheckRoles(Split(value.value, ','), validRoles)
      case Err(e) => Err(e)
      case Ok(roles) => Ok(Some(Join(roles, ",")))
  }

  /** The first item that is not a valid role decides the error. */
  lemma CheckRolesFirstInvalid(items: seq<string>, validRoles: set<string>, i: int)
    requires 0 <= i < |items| && Upper(items[i]) !in validRoles
    requires forall j :: 0 <= j < i ==> Upper(items[j]) in validRoles
    ensures CheckRoles(items, validRoles) == Err("Role " + items[i] + " is not valid")
  {
    var r := CheckRoles(items, validRoles);
    var j :| 0 <= j < |items| && Upper(items[j]) !in validRoles &&
             (forall k :: 0 <= k < j ==> Upper(items[k]) in validRoles) &&
             r.error == "Role " + items[j] + " is not valid";
    assert j == i;
  }

  /** The loop of validate_roles over the comma items. */
  method CheckItems(items: seq<string>, validRoles: set<string>) returns (r: Result<seq<string>>)
    ensures r == CheckRoles(items, validRoles)
  {
    var roles: seq<string> := [];
    var i := 0;
    while i < |items|
      invariant 0 <= i <= |items|
      invariant forall j :: 0 <= j < i ==> Upper(items[j]) in validRoles
      invariant |roles| == i && forall j :: 0 <= j < i ==> roles[j] == Upper(items[j])
    {
      if Upper(items[i]) !in validRoles {
        CheckRolesFirstInvalid(items, validRoles, i);
        return Err("Role " + items[i] + " is not valid");
      }
      roles := roles + [Upper(items[i])];
      i := i + 1;
    }
    assert roles == UpperAll(items);
    r := Ok(roles);
  }

  /** UIOptionSerializer.validate_roles, run as the source runs it. */
  method ValidateRoles(value: Option<string>, validRoles: set<string>) returns (r: Result<Option<string>>)
    ensures r == RolesValidation(value, validRoles)
  {
    if value.None? || Strip(value.value) == [] {
      return Ok(None);
    }
    var checked := CheckItems(Split(value.value, ','), validRoles);
    if checked.Err? {
      r := Err(checked.error);
    } else {
      r := Ok(Some(Join(checked.value, ",")));
    }
  }

  lemma UpperKeepsComma(s: string)
    requires ',' !in s
    ensures ',' !in Upper(s)
  {
    forall i | 0 <= i < |s| ensures Upper(s)[i] != ',' {
      assert s[i] != ',';
    }
  }

  lemma JoinedNotBlank(roles: seq<string>, validRoles: set<string>)
    requires |roles| >= 1 && roles[0] in validRoles
    requires forall role :: role in validRoles ==> !IsBlank(role)
    ensures !IsBlank(Join(roles, ","))
  {
    if |roles| > 1 {
      var joined := Join(roles, ",");
      assert joined == roles[0] + "," + Join(roles[1..], ",");
      assert joined[|roles[0]|] == ',';
    }
  }

  /** A list of valid, upper-case, comma-free roles validates to its own
      join. */
  lemma JoinedRolesRevalidate(roles: seq<string>, validRoles: set<string>)
    requires |roles| >= 1
    requires forall role :: role in validRoles ==> !IsBlank(role)
    requires forall i :: 0 <= i < |roles| ==> ',' !in roles[i] && Upper(roles[i]) == roles[i] && roles[i] in validRoles
    ensures RolesValidation(Some(Join(roles, ",")), validRoles) == Ok(Some(Join(roles, ",")))
  {
    var joined := Join(roles, ",");
    JoinedNotBlank(roles, validRoles);
    SplitJoin(roles, ',');
    assert Split(joined, ',') == roles;
    assert UpperAll(roles) == roles;
    assert CheckRoles(roles, validRoles) == Ok(roles);
  }

  /** Validating accepted roles again gives them back unchanged, as long as
      no valid role is blank. */
  lemma RolesValidationIdempotent(value: Option<string>, validRoles: set<string>)
    requires forall role :: role in validRoles ==> !IsBlank(role)
    requires RolesValidation(value, validRoles).Ok? && RolesValidation(value, validRoles).value.Some?
    ensures var out := RolesValidation(value, validRoles).value;
            RolesValidation(out, validRoles) == Ok(out)
  {
    var items := Split(value.value, ',');
    assert CheckRoles(items, validRoles).Ok?;
    var roles := UpperAll(items);
    SplitPartsNoSep(value.value, ',');
    forall i | 0 <= i < |roles| ensures ',' !in roles[i] && Upper(roles[i]) == roles[i] && roles[i] in validRoles {
      UpperKeepsComma(items[i]);
      UpperIdempotent(items[i]);
    }
    JoinedRolesRevalidate(roles, validRoles);
  }

  /** UIOptionSerializer.validate_route: a route is required and must not
      be used by any other option than the one being edited. */
  function RouteValidation(value: Option<string>, options: seq<UIOption>, instance: Option<int>): (r: Result<string>)
    ensures value.None? ==> r == Err("Route cannot be empty")
    ensures r.Ok? <==>
              value.Some? &&
              forall k :: 0 <= k < |options| && options[k].route == value.value ==> Some(options[k].id) == instance
    ensures r.Ok? ==> r.value == value.value
  {
    if value.None? then Err("Route cannot be empty")
    else if exists k :: 0 <= k < |options| && options[k].route == value.value && Some(options[k].id) != instance then
      Err("This route already exists")
    else Ok(value.value)
  }
}
