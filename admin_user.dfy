/** The administration serializer of users: validation of the submitted
    attributes, the institution summary and role list shown for a user, and
    the institution link changes an update makes. */
module AdminUser {
  import opened Wrappers

  /** A submitted attribute value. */
  datatype Value = Null | Flag(b: bool) | Number(n: int) | Text(s: string)

  type Attrs = map<string, Value>

  /** `attrs.get(key)`: a missing key reads as None. */
  function Get(attrs: Attrs, key: string): Value
  {
    if key in attrs then attrs[key] else Null
  }

  /** Python truthiness of a value. */
  predicate Truthy(v: Value)
  {
    match v
    case Null => false
    case Flag(b) => b
    case Number(n) => n != 0
    case Text(s) => s != ""
  }

  /** `attrs.get('login_allowed', True)`. */
  predicate LoginAllowed(attrs: Attrs)
  {
    "login_allowed" !in attrs || Truthy(attrs["login_allowed"])
  }

  /** The attribute names validation looks at differ from one another. */
  lemma KeysApart()
    ensures "login_allowed"[0] == 'l' && "institution_id"[0] == 'i' && "uid"[0] == 'u'
    ensures "password2"[0] == 'p' && |"password"| == 8 && |"password2"| == 9
  {
  }

  /** UserSerializer.validate. `linked` says whether the user being edited
      exists and has an institution. Passwords must match when login is
      allowed, and only then is `password2` dropped; otherwise
      `login_allowed` is forced to false. An institution id of -1 means none,
      and assigning an institution to a user without one needs a `uid`. */
  method Validate(attrs: Attrs, linked: bool) returns (r: Result<Attrs>)
    ensures LoginAllowed(attrs) && "password" in attrs && attrs["password"] != Get(attrs, "password2") ==>
              r == Err("Passwords does not match")
    ensures r.Ok? ==> !(LoginAllowed(attrs) && "password" in attrs && attrs["password"] != Get(attrs, "password2"))
    ensures r.Ok? ==> r.value.Keys == (if LoginAllowed(attrs) then attrs.Keys - {"password2"} else attrs.Keys)
    ensures r.Ok? && !LoginAllowed(attrs) ==> r.value["login_allowed"] == Flag(false)
    ensures r.Ok? ==> (Get(r.value, "institution_id") ==
              if Get(attrs, "institution_id") == Number(-1) then Null else Get(attrs, "institution_id"))
    ensures r.Ok? ==> forall k :: k in r.value && k != "login_allowed" && k != "institution_id" ==> r.value[k] == attrs[k]
    ensures r.Ok? && LoginAllowed(attrs) && "login_allowed" in attrs ==> r.value["login_allowed"] == attrs["login_allowed"]
    ensures r.Err? && r.error != "Passwords does not match" ==>
              r.error == "uid value is required when assigning an institution"
    ensures r.Ok? <==>
              !(LoginAllowed(attrs) && "password" in attrs && attrs["password"] != Get(attrs, "password2")) &&
              (linked || Get(attrs, "institution_id") in {Null, Number(-1)} || Get(attrs, "uid") != Null)
  {
    KeysApart();
    var checked := CheckLogin(attrs);
    if checked.Err? {
      return checked;
    }
    var a := checked.value;
    assert Get(a, "institution_id") == Get(attrs, "institution_id") by {
      assert "institution_id" in a <==> "institution_id" in attrs;
    }
    assert Get(a, "uid") == Get(attrs, "uid") by {
      assert "uid" in a <==> "uid" in attrs;
    }
    r := LinkInstitution(a, linked);
  }

  /** The login part of validation: with login allowed the passwords must
      match and `password2` is dropped; otherwise `login_allowed` is forced
      to false. */
  method CheckLogin(attrs: Attrs) returns (r: Result<Attrs>)
    ensures r.Err? <==> LoginAllowed(attrs) && "password" in attrs && attrs["password"] != Get(attrs, "password2")
    ensures r.Err? ==> r.error == "Passwords does not match"
    ensures r.Ok? ==> r.value.Keys == (if LoginAllowed(attrs) then attrs.Keys - {"password2"} else attrs.Keys)
    ensures r.Ok? ==> forall k :: k in r.value && k != "login_allowed" ==> r.value[k] == attrs[k]
    ensures r.Ok? && !LoginAllowed(attrs) ==> r.value["login_allowed"] == Flag(false)
    ensures r.Ok? && LoginAllowed(attrs) && "login_allowed" in attrs ==> r.value["login_allowed"] == attrs["login_allowed"]
  {
    if LoginAllowed(attrs) {
      if "password" in attrs && Get(attrs, "password") != Get(attrs, "password2") {
        return Err("Passwords does not match");
      }
      r := Ok(attrs - {"password2"});
    } else {
      r := Ok(attrs["login_allowed" := Flag(false)]);
    }
  }

  /** The institution part of validation: an institution id of -1 becomes
      None, and a user without an institution can only be given one along
      with a `uid`. */
  method LinkInstitution(attrs: Attrs, linked: bool) returns (r: Result<Attrs>)
    ensures r.Ok? <==> linked || Get(attrs, "institution_id") in {Null, Number(-1)} || Get(attrs, "uid") != Null
    ensures r.Err? ==> r.error == "uid value is required when assigning an institution"
    ensures r.Ok? ==> r.value.Keys == attrs.Keys
    ensures r.Ok? ==> Get(r.value, "institution_id") ==
                      if Get(attrs, "institution_id") == Number(-1) then Null else Get(attrs, "institution_id")
    ensures r.Ok? ==> forall k :: k in r.value && k != "institution_id" ==> r.value[k] == attrs[k]
  {
    var a := attrs;
    if "institution_id" in a && a["institution_id"] == Number(-1) {
      a := a["institution_id" := Null];
    }
    if !linked && Get(a, "institution_id") != Null && Get(a, "uid") == Null {
      return Err("uid value is required when assigning an institution");
    }
    r := Ok(a);
  }

  /** An institution user: the link of a user to one institution, with its
      administration flags and whether it is also an instructor or a
      learner. */
  datatype Member = Member(institution: int, uid: Option<string>, locale: string,
                           instructor: bool, learner: bool, instAdmin: bool, sendAdmin: bool,
                           legalAdmin: bool, dataAdmin: bool, loginAllowed: bool)

  datatype Account = Account(staff: bool, member: Option<Member>)

  /** The roles the serializer lists, in the order it lists them. */
  datatype Role = Instructor | Learner | Admin | Send | Legal | Data | GlobalAdmin

  /** The role names the API returns. */
  function Name(role: Role): string
  {
    match role
    case Instructor => "INSTRUCTOR"
    case Learner => "LEARNER"
    case Admin => "ADMIN"
    case Send => "SEND"
    case Legal => "LEGAL"
    case Data => "DATA"
    case GlobalAdmin => "GLOBAL_ADMIN"
  }

  /** Distinct roles have distinct names. */
  lemma NamesDistinct(a: Role, b: Role)
    requires Name(a) == Name(b)
    ensures a == b
  {
  }

  /** The position of a role in the listing order. */
  function Rank(role: Role): nat
  {
    match role
    case Instructor => 0
    case Learner => 1
    case Admin => 2
    case Send => 3
    case Legal => 4
    case Data => 5
    case GlobalAdmin => 6
  }

  /** Whether a member holds an institution role. */
  predicate HasRole(m: Member, role: Role)
  {
    match role
    case Instructor => m.instructor
    case Learner => m.learner
    case Admin => m.instAdmin
    case Send => m.sendAdmin
    case Legal => m.legalAdmin
    case Data => m.dataAdmin
    case GlobalAdmin => false
  }

  /** The roles are listed without repetition and in the listing order. */
  predicate Ordered(roles: seq<Role>)
  {
    forall i, j :: 0 <= i < j < |roles| ==> Rank(roles[i]) < Rank(roles[j])
  }

  datatype InstitutionInfo = InstitutionInfo(id: int, acronym: string, uid: Option<string>,
                                             roles: seq<Role>, locale: string)

  /** UserSerializer.get_institution: nothing for a user without an
      institution; otherwise its institution with the acronym the
      institution record holds (`acronymOf`), its uid, locale and exactly
      the roles it holds, in the listing order. */
  method GetInstitution(a: Account, acronymOf: int -> string) returns (r: Option<InstitutionInfo>)
    ensures r.None? <==> a.member.None?
    ensures r.Some? ==> r.value.id == a.member.value.institution && r.value.acronym == acronymOf(a.member.value.institution) &&
                        r.value.uid == a.member.value.uid && r.value.locale == a.member.value.locale
    ensures r.Some? ==> Ordered(r.value.roles)
    ensures r.Some? ==> forall role :: role in r.value.roles <==> HasRole(a.member.value, role)
  {
    if a.member.None? {
      return None;
    }
    var m := a.member.value;
    var roles := MemberRoles(m);
    ListedBelow(m, Rank(Data) + 1);
    RolesAll(m, roles);
    r := Some(InstitutionInfo(m.institution, acronymOf(m.institution), m.uid, roles, m.locale));
  }

  /** The role list get_institution builds for a member. */
  method MemberRoles(m: Member) returns (roles: seq<Role>)
    ensures roles == Listed(m, Rank(Data) + 1)
  {
    roles := [];
    if m.instructor {
      roles := roles + [Instructor];
    }
    assert roles == Listed(m, 1);
    if m.learner {
      roles := roles + [Learner];
    }
    assert roles == Listed(m, 2);
    if m.instAdmin {
      roles := roles + [Admin];
    }
    assert roles == Listed(m, 3);
    if m.sendAdmin {
      roles := roles + [Send];
    }
    assert roles == Listed(m, 4);
    if m.legalAdmin {
      roles := roles + [Legal];
    }
    assert roles == Listed(m, 5);
    if m.dataAdmin {
      roles := roles + [Data];
    }
  }

  /** The role of a given rank. */
  function RoleAt(k: nat): (role: Role)
    requires k <= Rank(GlobalAdmin)
    ensures Rank(role) == k
  {
    if k == 0 then Instructor else if k == 1 then Learner else if k == 2 then Admin
    else if k == 3 then Send else if k == 4 then Legal else if k == 5 then Data else GlobalAdmin
  }

  /** The held roles ranked below `k`, in rank order. */
  function Listed(m: Member, k: nat): seq<Role>
    requires k <= Rank(GlobalAdmin)
  {
    if k == 0 then [] else Listed(m, k - 1) + (if HasRole(m, RoleAt(k - 1)) then [RoleAt(k - 1)] else [])
  }

  /** The listed roles are the held roles ranked below `k`, in order. */
  lemma {:induction false} ListedBelow(m: Member, k: nat)
    requires k <= Rank(GlobalAdmin)
    ensures RolesBelow(m, Listed(m, k), k)
  {
    if k > 0 {
      ListedBelow(m, k - 1);
      RolesStep(m, Listed(m, k - 1), Listed(m, k), RoleAt(k - 1));
    }
  }

  /** The roles listed once the roles ranked below `k` have been looked at. */
  ghost predicate RolesBelow(m: Member, roles: seq<Role>, k: nat)
  {
    Ordered(roles) &&
    (forall i :: 0 <= i < |roles| ==> Rank(roles[i]) < k) &&
    forall role :: role in roles <==> HasRole(m, role) && Rank(role) < k
  }

  /** Once every institution role has been looked at, the list holds
      exactly the roles held. */
  lemma RolesAll(m: Member, roles: seq<Role>)
    requires RolesBelow(m, roles, Rank(Data) + 1)
    ensures forall role :: role in roles <==> HasRole(m, role)
  {
    forall role
      ensures role in roles <==> HasRole(m, role)
    {
      assert role != GlobalAdmin ==> Rank(role) <= Rank(Data);
    }
  }

  /** Looking at the next role appends it exactly when it is held. */
  lemma RolesStep(m: Member, before: seq<Role>, after: seq<Role>, role: Role)
    requires RolesBelow(m, before, Rank(role))
    requires role != GlobalAdmin
    requires after == if HasRole(m, role) then before + [role] else before
    ensures RolesBelow(m, after, Rank(role) + 1)
  {
    forall x
      ensures x in after <==> HasRole(m, x) && Rank(x) < Rank(role) + 1
    {
      if Rank(x) == Rank(role) {
        assert x == role;
      }
    }
  }

  /** UserSerializer.get_roles: the institution roles, then GLOBAL_ADMIN
      exactly when the user is staff. */
  method GetRoles(a: Account, acronymOf: int -> string) returns (roles: seq<Role>)
    ensures GlobalAdmin in roles <==> a.staff
    ensures a.staff ==> roles[|roles| - 1] == GlobalAdmin
    ensures forall role :: role in roles && role != GlobalAdmin <==> a.member.Some? && HasRole(a.member.value, role)
    ensures Ordered(roles)
  {
    roles := [];
    var inst := GetInstitution(a, acronymOf);
    if inst.Some? {
      roles := inst.value.roles;
    }
    if a.staff {
      roles := roles + [GlobalAdmin];
    }
  }

  /** The institution part of a validated update: present keys, each with
      the value the serializer fields admit. */
  datatype Update = Update(institutionId: Option<Option<int>>, instAdmin: Option<bool>, sendAdmin: Option<bool>,
                           legalAdmin: Option<bool>, dataAdmin: Option<bool>, uid: Option<Option<string>>,
                           loginAllowed: Option<bool>)

  /** The new institution user an update creates: nothing allowed yet. */
  function NewMember(institution: int): Member
  {
    Member(institution, None, "", false, false, false, false, false, false, false)
  }

  /** A present field replaces the old value. */
  function Pick<T>(field: Option<T>, current: T): T
  {
    if field.Some? then field.value else current
  }

  /** The link `m'` is `m` with every present field of the update applied:
      the four administration flags, the uid, login_allowed and the
      institution id; the locale and the instructor and learner roles stay
      as they were. */
  predicate Applied(m': Member, m: Member, u: Update)
  {
    m'.instAdmin == Pick(u.instAdmin, m.instAdmin) && m'.sendAdmin == Pick(u.sendAdmin, m.sendAdmin) &&
    m'.legalAdmin == Pick(u.legalAdmin, m.legalAdmin) && m'.dataAdmin == Pick(u.dataAdmin, m.dataAdmin) &&
    m'.uid == Pick(u.uid, m.uid) && m'.loginAllowed == Pick(u.loginAllowed, m.loginAllowed) &&
    m'.institution == (if u.institutionId.Some? && u.institutionId.value.Some? then u.institutionId.value.value
                       else m.institution) &&
    m'.locale == m.locale && m'.learner == m.learner && m'.instructor == m.instructor
  }

  /** The institution link after UserSerializer.update: a user without an
      institution gets a new one when an id is given; a user with one loses
      it when the id is None; a user keeping or getting one has the present
      fields applied. */
  function UpdateInstitution(a: Account, u: Update): (r: Account)
    ensures r.staff == a.staff
    ensures a.member.Some? && u.institutionId == Some(None) ==> r.member.None?
    ensures a.member.None? && (u.institutionId.None? || u.institutionId == Some(None)) ==> r.member.None?
    ensures a.member.None? && u.institutionId.Some? && u.institutionId.value.Some? ==>
              r.member.Some? && Applied(r.member.value, NewMember(u.institutionId.value.value), u)
    ensures a.member.Some? && u.institutionId != Some(None) ==>
              r.member.Some? && Applied(r.member.value, a.member.value, u)
  {
    var hasInst := a.member.Some?;
    var created := !hasInst && u.institutionId.Some? && u.institutionId.value.Some?;
    var removed := hasInst && u.institutionId == Some(None);
    if removed then Account(a.staff, None)
    else if !hasInst && !created then a
    else
      var m := if created then NewMember(u.institutionId.value.value) else a.member.value;
      var m' := m.(instAdmin := Pick(u.instAdmin, m.instAdmin),
                   sendAdmin := Pick(u.sendAdmin, m.sendAdmin),
                   legalAdmin := Pick(u.legalAdmin, m.legalAdmin),
                   dataAdmin := Pick(u.dataAdmin, m.dataAdmin),
                   uid := Pick(u.uid, m.uid),
                   loginAllowed := Pick(u.loginAllowed, m.loginAllowed),
                   institution := if u.institutionId.Some? then u.institutionId.value.value else m.institution);
      Account(a.staff, Some(m'))
  }

  /** An update without institution fields leaves the link as it was. */
  lemma EmptyUpdateKeepsMember(a: Account)
    ensures UpdateInstitution(a, Update(None, None, None, None, None, None, None)) == a
  {
    if a.member.Some? {
      var m := a.member.value;
      assert m.(instAdmin := m.instAdmin, sendAdmin := m.sendAdmin, legalAdmin := m.legalAdmin,
                dataAdmin := m.dataAdmin, uid := m.uid, loginAllowed := m.loginAllowed,
                institution := m.institution) == m;
    }
  }

  /** The typed institution fields of validated attributes, as the field
      declarations give them. */
  function UpdateOf(attrs: Attrs): Update
  {
    Update(
      if "institution_id" in attrs then Some(if attrs["institution_id"].Number? then Some(attrs["institution_id"].n) else None) else None,
      if "inst_admin" in attrs && attrs["inst_admin"].Flag? then Some(attrs["inst_admin"].b) else None,
      if "send_admin" in attrs && attrs["send_admin"].Flag? then Some(attrs["send_admin"].b) else None,
      if "legal_admin" in attrs && attrs["legal_admin"].Flag? then Some(attrs["legal_admin"].b) else None,
      if "data_admin" in attrs && attrs["data_admin"].Flag? then Some(attrs["data_admin"].b) else None,
      if "uid" in attrs then Some(if attrs["uid"].Text? then Some(attrs["uid"].s) else None) else None,
      if "login_allowed" in attrs && attrs["login_allowed"].Flag? then Some(attrs["login_allowed"].b) else None)
  }

  /** The value kinds the serializer fields admit for the institution
      fields and is_staff: an integer or None, a string or None, booleans. */
  predicate WellTyped(attrs: Attrs)
  {
    ("institution_id" in attrs ==> attrs["institution_id"].Number? || attrs["institution_id"].Null?) &&
    ("uid" in attrs ==> attrs["uid"].Text? || attrs["uid"].Null?) &&
    forall k :: k in attrs && k in {"is_staff", "inst_admin", "send_admin", "legal_admin", "data_admin", "login_allowed"} ==>
      attrs[k].Flag?
  }

  /** The declared defaults of the serializer fields the model follows. */
  const DEFAULTS: Attrs := map["institution_id" := Null, "uid" := Null, "password" := Null, "password2" := Null,
                               "login_allowed" := Flag(true), "is_staff" := Flag(false), "inst_admin" := Flag(false),
                               "legal_admin" := Flag(false), "send_admin" := Flag(false), "data_admin" := Flag(false)]

  /** The attributes that reach validation: a full update (PUT) gives every
      field the request omits its declared default; a partial update (PATCH)
      has only the fields sent. */
  function WithDefaults(request: Attrs, partial: bool): (r: Attrs)
    ensures partial ==> r == request
    ensures !partial ==> r.Keys == request.Keys + DEFAULTS.Keys
    ensures forall k :: k in request ==> r[k] == request[k]
    ensures !partial ==> forall k :: k in DEFAULTS && k !in request ==> r[k] == DEFAULTS[k]
  {
    if partial then request else DEFAULTS + request
  }

  /** is_staff after ModelSerializer.update: the validated value when present. */
  function StaffOf(attrs: Attrs, staff: bool): bool
  {
    if "is_staff" in attrs && attrs["is_staff"].Flag? then attrs["is_staff"].b else staff
  }

  /** A full update that omits a field behaves as one that sends its default. */
  lemma {:induction false} PutFillsDefaults(request: Attrs, k: string)
    requires k in DEFAULTS && k !in request
    ensures WithDefaults(request, false) == WithDefaults(request[k := DEFAULTS[k]], false)
  {
    var l := WithDefaults(request, false);
    var r := WithDefaults(request[k := DEFAULTS[k]], false);
    assert l.Keys == r.Keys;
    forall j | j in l
      ensures l[j] == r[j]
    {
    }
  }

  /** Validation followed by the update of the user and its institution
      link. A user without an institution that is given one always ends up
      with a uid, since validation refuses the assignment without it. */
  method ValidateThenUpdate(a: Account, attrs: Attrs) returns (r: Result<Account>)
    requires WellTyped(attrs)
    ensures r.Ok? ==> r.value.staff == StaffOf(attrs, a.staff)
    ensures r.Ok? && a.member.None? && r.value.member.Some? ==> r.value.member.value.uid.Some?
    ensures r.Ok? && a.member.None? && Get(attrs, "institution_id").Number? && Get(attrs, "institution_id") != Number(-1) ==>
              r.value.member.Some? && r.value.member.value.institution == Get(attrs, "institution_id").n
    ensures r.Ok? && "institution_id" in attrs && attrs["institution_id"].Null? ==> r.value.member.None?
    ensures r.Ok? && (forall k :: k in attrs ==> k !in INSTITUTION_FIELDS) ==> r.value.member == a.member
  {
    var valid := Validate(attrs, a.member.Some?);
    if valid.Err? {
      return Err(valid.error);
    }
    assert "institution_id" in attrs && attrs["institution_id"].Null? ==> UpdateOf(valid.value).institutionId == Some(None) by {
      assert "institution_id" in attrs ==> "institution_id" in valid.value;
    }
    var linked := UpdateInstitution(a, UpdateOf(valid.value));
    r := Ok(linked.(staff := StaffOf(valid.value, a.staff)));
  }

  /** The fields that reach the institution link. */
  const INSTITUTION_FIELDS: set<string> :=
    {"institution_id", "inst_admin", "send_admin", "legal_admin", "data_admin", "uid", "login_allowed"}

  /** What the defaults give the fields ValidateThenUpdate reads. */
  lemma DefaultsRead(request: Attrs, partial: bool)
    requires WellTyped(request)
    ensures WellTyped(WithDefaults(request, partial))
    ensures Get(WithDefaults(request, partial), "institution_id") == Get(request, "institution_id")
    ensures !partial ==> "institution_id" in WithDefaults(request, partial)
    ensures StaffOf(WithDefaults(request, partial), false) == StaffOf(request, false)
    ensures partial ==> StaffOf(WithDefaults(request, partial), true) == StaffOf(request, true)
  {
  }

  /** UserSerializer.update on a request: the defaults of a full update,
      then validation and the update. A full update that omits institution_id
      removes the link and one that omits is_staff clears it; a partial update
      without institution fields leaves the link alone. */
  method Save(a: Account, request: Attrs, partial: bool) returns (r: Result<Account>)
    requires WellTyped(request)
    ensures r.Ok? && partial ==> r.value.staff == StaffOf(request, a.staff)
    ensures r.Ok? && !partial ==> r.value.staff == StaffOf(request, false)
    ensures r.Ok? && a.member.None? && Get(request, "institution_id").Number? && Get(request, "institution_id") != Number(-1) ==>
              r.value.member.Some? && r.value.member.value.institution == Get(request, "institution_id").n
    ensures r.Ok? && !partial && "institution_id" !in request ==> r.value.member.None?
    ensures r.Ok? && partial && (forall k :: k in request ==> k !in INSTITUTION_FIELDS) ==> r.value.member == a.member
  {
    DefaultsRead(request, partial);
    r := ValidateThenUpdate(a, WithDefaults(request, partial));
  }
}
