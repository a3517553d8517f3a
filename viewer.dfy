/** What the user, store and settings pages read from storage at render time:
    `JSON.parse(sessionStorage.getItem('userData') || '{}')`, the viewer's token and
    the `roles?.includes('ROLE_ADMIN') || false` administrator flag. */
module Viewers {
  import opened Options
  import opened JsStrings
  import opened JsValues

  const AdminRole := "ROLE_ADMIN"

  /** The viewer as a page sees it, or `Crashed` when reading it throws (stored
      text that is not JSON, or stored JSON `null`, whose `.token` throws). */
  datatype Viewer = Crashed | Viewer(userData: Value, token: Value, isAdmin: bool)

  /** `userRoles.includes('ROLE_ADMIN')` on whatever `roles` holds: a substring test
      on a string, an element test on an array, `false` through `?.` and `|| false`
      on a nullish value; any other value has no `includes` and the call throws
      (`None`). */
  function RolesIncludeAdmin(roles: Value): (r: Option<bool>)
    ensures r.None? <==> !(IsNullish(roles) || roles.Str? || roles.Arr?)
  {
    match roles
    case Undefined => Some(false)
    case Null => Some(false)
    case Str(s) => Some(Includes(s, AdminRole))
    case Arr(items) => Some(Str(AdminRole) in items)
    case _ => None
  }

  /** The viewer of a stored `userData` (`None` stands for the missing key). */
  function ViewerOf(stored: Option<string>, parse: Parser): (v: Viewer)
    ensures (stored.None? || stored.value == "") ==> v == Viewer(Obj(map[]), Undefined, false)
  {
    // `'{}'` is what a missing or empty item is replaced with.
    var parsed := if stored.None? || stored.value == "" then Parsed(Obj(map[])) else parse(stored.value);
    match parsed
    case SyntaxError(_) => Crashed
    case Parsed(data) =>
      if IsNullish(data) then Crashed
      else
        match RolesIncludeAdmin(Get(data, "roles"))
        case None => Crashed
        case Some(admin) => Viewer(data, Get(data, "token"), admin)
  }

  /** `isUserAdmin(roles)`, the per-row badge on the user list: an array holding
      'ROLE_ADMIN'. */
  predicate IsUserAdmin(roles: Value)
    ensures IsUserAdmin(roles) ==> RolesIncludeAdmin(roles) == Some(true)
  {
    roles.Arr? && Str(AdminRole) in roles.items
  }

  // ---- properties ----

  /** For an array of roles the viewer flag and the row badge agree. */
  lemma ViewerFlagMatchesBadgeOnArrays(data: Value, stored: string, parse: Parser)
    requires stored != "" && parse(stored) == Parsed(data) && !IsNullish(data)
    requires Get(data, "roles").Arr?
    ensures ViewerOf(Some(stored), parse).Viewer?
    ensures ViewerOf(Some(stored), parse).isAdmin <==> IsUserAdmin(Get(data, "roles"))
  {
  }

  /** With no stored data the viewer is an anonymous non-administrator with no
      token. */
  lemma NoStoredDataIsAnonymous(parse: Parser)
    ensures ViewerOf(None, parse) == Viewer(Obj(map[]), Undefined, false)
  {
  }

  /** For a role string the viewer flag is a substring test, so a string that only
      contains the role name makes an administrator the badge does not recognise. */
  lemma RoleStringIsSubstringTest(data: Value, stored: string, parse: Parser)
    requires stored != "" && parse(stored) == Parsed(data) && !IsNullish(data)
    requires Get(data, "roles") == Str("ROLE_ADMIN_VIEWER")
    ensures ViewerOf(Some(stored), parse).Viewer? && ViewerOf(Some(stored), parse).isAdmin
    ensures !IsUserAdmin(Get(data, "roles"))
  {
    IncludesAt("ROLE_ADMIN_VIEWER", AdminRole, 0);
  }
}
