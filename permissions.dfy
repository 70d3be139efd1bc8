/** The REST API permission classes: global administrators, institution
    members and institution administrators, each with a read-only variant
    that refuses every method but GET, HEAD and OPTIONS. */
module Permissions {
  import opened Wrappers
  import opened Text

  datatype Membership = Membership(institution: int, instAdmin: bool)

  /** The authenticated principal: an institution user (always a member), a
      plain user (a member when linked to an institution), or anonymous. */
  datatype Account =
    | InstitutionAccount(staff: bool, membership: Membership)
    | UserAccount(staff: bool, link: Option<Membership>)
    | Anonymous

  datatype Request = Request(account: Account, verb: string, version: string, path: string)

  predicate IsSafe(verb: string)
  {
    verb in {"GET", "HEAD", "OPTIONS"}
  }

  /** get_institution_user */
  function GetInstitutionUser(a: Account): (r: Option<Membership>)
    ensures a.InstitutionAccount? ==> r == Some(a.membership)
    ensures a.UserAccount? ==> r == a.link
    ensures a.Anonymous? ==> r.None?
  {
    match a
    case InstitutionAccount(_, m) => Some(m)
    case UserAccount(_, link) => link
    case Anonymous => None
  }

  /** is_global_admin: the staff flag, for both kinds of user. */
  function IsGlobalAdmin(a: Account): (r: bool)
    ensures r <==> !a.Anonymous? && a.staff
  {
    match a
    case InstitutionAccount(staff, _) => staff
    case UserAccount(staff, _) => staff
    case Anonymous => false
  }

  /** GlobalAdminPermission.has_permission: the staff flag of the user. */
  function GlobalAdmin(req: Request): (r: bool)
    ensures r <==> IsGlobalAdmin(req.account)
  {
    match req.account
    case InstitutionAccount(staff, _) => staff
    case UserAccount(staff, _) => staff
    case Anonymous => false
  }

  /** GlobalAdminReadOnlyPermission.has_permission */
  function GlobalAdminReadOnly(req: Request): (r: bool)
    ensures r <==> IsSafe(req.verb) && IsGlobalAdmin(req.account)
  {
    if IsSafe(req.verb) then GlobalAdmin(req) else false
  }

  /** The path prefix of an institution's API. */
  function InstitutionPrefix(version: string, institution: int): string
  {
    "/api/" + version + "/institution/" + IntToString(institution) + "/"
  }

  /** InstitutionMemberPermission.has_permission: the user belongs to an
      institution and the path is under that institution's API. */
  function InstitutionMember(req: Request): (r: bool)
    ensures r <==> GetInstitutionUser(req.account).Some? &&
                   StartsWith(req.path, InstitutionPrefix(req.version, GetInstitutionUser(req.account).value.institution))
  {
    var m := GetInstitutionUser(req.account);
    if m.None? || !StartsWith(req.path, InstitutionPrefix(req.version, m.value.institution)) then false else true
  }

  /** InstitutionAdminPermission.has_permission */
  function InstitutionAdmin(req: Request): (r: bool)
    ensures r <==> InstitutionMember(req) && GetInstitutionUser(req.account).value.instAdmin
  {
    if InstitutionMember(req) then GetInstitutionUser(req.account).value.instAdmin else false
  }

  /** InstitutionMemberReadOnlyPermission.has_permission */
  function InstitutionMemberReadOnly(req: Request): (r: bool)
    ensures r <==> IsSafe(req.verb) && InstitutionMember(req)
  {
    if IsSafe(req.verb) then InstitutionMember(req) else false
  }

  /** InstitutionAdminReadOnlyPermission.has_permission */
  function InstitutionAdminReadOnly(req: Request): (r: bool)
    ensures r <==> IsSafe(req.verb) && InstitutionAdmin(req)
  {
    if IsSafe(req.verb) then InstitutionAdmin(req) else false
  }

  /** Thanks to the trailing '/', a path lies under the API of one
      institution at most: institution 1 never reaches /institution/12/. */
  lemma {:induction false} PrefixNamesOneInstitution(version: string, path: string, a: int, b: int)
    requires StartsWith(path, InstitutionPrefix(version, a)) && StartsWith(path, InstitutionPrefix(version, b))
    ensures a == b
  {
    var head := "/api/" + version + "/institution/";
    var sa := IntToString(a);
    var sb := IntToString(b);
    assert InstitutionPrefix(version, a) == head + sa + "/";
    assert InstitutionPrefix(version, b) == head + sb + "/";
    assert forall k :: 0 <= k < |sa| ==> path[|head| + k] == sa[k];
    assert forall k :: 0 <= k < |sb| ==> path[|head| + k] == sb[k];
    assert path[|head| + |sa|] == '/' && path[|head| + |sb|] == '/';
    assert '/' !in sa && '/' !in sb;
    assert |sa| == |sb|;
    assert sa == sb;
    IntToStringParses(a);
    IntToStringParses(b);
  }

  /** A member is granted access only inside its own institution. */
  lemma MemberOnlyInOwnInstitution(req: Request, other: int)
    requires InstitutionMember(req) && StartsWith(req.path, InstitutionPrefix(req.version, other))
    ensures GetInstitutionUser(req.account).value.institution == other
  {
    PrefixNamesOneInstitution(req.version, req.path, GetInstitutionUser(req.account).value.institution, other);
  }

  /** Each permission class narrows the one it extends: the read-only
      variants grant a subset and nothing but safe methods, and every
      institution administrator is a member; an anonymous request is never
      granted anything. */
  lemma PermissionsNarrow(req: Request)
    ensures GlobalAdminReadOnly(req) ==> GlobalAdmin(req) && IsSafe(req.verb)
    ensures InstitutionMemberReadOnly(req) ==> InstitutionMember(req) && IsSafe(req.verb)
    ensures InstitutionAdminReadOnly(req) ==> InstitutionAdmin(req) && IsSafe(req.verb)
    ensures InstitutionAdmin(req) ==> InstitutionMember(req)
    ensures IsSafe(req.verb) ==> (GlobalAdminReadOnly(req) <==> GlobalAdmin(req))
    ensures req.account.Anonymous? ==>
              !GlobalAdmin(req) && !InstitutionMember(req) && !InstitutionAdmin(req)
  {
  }
}
