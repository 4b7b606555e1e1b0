/** The route guard (src/components/common/ProtectedRoute.jsx): authentication first, taken
    from the store's `isAuthenticated`; then the route's roles and permissions, checked with the
    role utilities against the identity read from storage. */
module ProtectedRoute {
  import opened Wrappers
  import opened Session
  import RoleUtils

  /** The guard's props. None is a null (absent) list. */
  datatype RouteRequirement = RouteRequirement(roles: Option<seq<string>>, permissions: Option<seq<string>>, requireAllPermissions: bool)

  /** What the guard renders: a redirect, one of the two denial screens (listing what the route
      requires), or the protected children. */
  datatype Outcome = Redirect(to: string) | RoleDenied(requiredRoles: seq<string>) | PermDenied(requiredPermissions: seq<string>) | Render

  /** `roles && roles.length > 0`: the route declares a non-empty list. */
  predicate Declares(list: Option<seq<string>>) {
    list.Some? && |list.value| > 0
  }

  /** The permission test of a route that declares permissions: every one of them one at a
      time when all are required, otherwise any of them. */
  function PermissionAccess(user: Option<User>, permissions: seq<string>, requireAll: bool): (r: bool)
    ensures requireAll ==> (r <==> forall i :: 0 <= i < |permissions| ==> RoleUtils.HasPermission(user, permissions[i]))
    ensures !requireAll ==> (r <==> exists i :: 0 <= i < |permissions| && RoleUtils.HasPermission(user, permissions[i]))
  {
    SingletonsAreSingleChecks(user, permissions);
    if requireAll then forall i :: 0 <= i < |permissions| ==> RoleUtils.HasAnyPermission(user, Some([permissions[i]]))
    else RoleUtils.HasAnyPermission(user, Some(permissions))
  }

  /** `hasAnyPermission([p])` is the check of `p` alone. */
  lemma SingletonsAreSingleChecks(user: Option<User>, permissions: seq<string>)
    ensures forall i :: 0 <= i < |permissions| ==>
              RoleUtils.HasAnyPermission(user, Some([permissions[i]])) == RoleUtils.HasPermission(user, permissions[i])
  {
    forall i | 0 <= i < |permissions|
      ensures RoleUtils.HasAnyPermission(user, Some([permissions[i]])) == RoleUtils.HasPermission(user, permissions[i])
    {
      RoleUtils.SingletonAnyAll(user, permissions[i]);
    }
  }

  /** The decision cascade, checked in order: authentication, roles, permissions. */
  function Decide(isAuthenticated: bool, user: Option<User>, req: RouteRequirement): (o: Outcome)
    ensures !isAuthenticated ==> o == Redirect("/login")
    ensures o.Redirect? <==> !isAuthenticated
    ensures o.RoleDenied? <==> isAuthenticated && Declares(req.roles) && !RoleUtils.HasAnyRole(user, req.roles)
    ensures o.RoleDenied? ==> req.roles == Some(o.requiredRoles)
    ensures o.PermDenied? <==>
              isAuthenticated &&
              (!Declares(req.roles) || RoleUtils.HasAnyRole(user, req.roles)) &&
              Declares(req.permissions) && !PermissionAccess(user, req.permissions.value, req.requireAllPermissions)
    ensures o.PermDenied? ==> req.permissions == Some(o.requiredPermissions)
    ensures o == Render <==>
              isAuthenticated &&
              (!Declares(req.roles) || RoleUtils.HasAnyRole(user, req.roles)) &&
              (!Declares(req.permissions) || PermissionAccess(user, req.permissions.value, req.requireAllPermissions))
  {
    if !isAuthenticated then Redirect("/login")
    else if Declares(req.roles) && !RoleUtils.HasAnyRole(user, req.roles) then RoleDenied(req.roles.value)
    else if Declares(req.permissions) && !PermissionAccess(user, req.permissions.value, req.requireAllPermissions) then
      PermDenied(req.permissions.value)
    else Render
  }

  /** The guard renders exactly for an authenticated user who holds one of the declared roles
      and, as `requireAllPermissions` says, all or one of the declared permissions. */
  lemma RenderIff(isAuthenticated: bool, user: Option<User>, req: RouteRequirement)
    ensures Decide(isAuthenticated, user, req) == Render <==>
              isAuthenticated &&
              (!Declares(req.roles) || RoleUtils.HasAnyRole(user, req.roles)) &&
              (!Declares(req.permissions) ||
                 (if req.requireAllPermissions then RoleUtils.HasAllPermissions(user, req.permissions)
                  else RoleUtils.HasAnyPermission(user, req.permissions)))
  {
    if Declares(req.permissions) {
      RequireAllMeansAll(user, req.permissions.value);
    }
  }

  /** Checking each permission on its own as a one-element "any" list is the same as requiring
      all of them. */
  lemma RequireAllMeansAll(user: Option<User>, permissions: seq<string>)
    requires |permissions| > 0
    ensures PermissionAccess(user, permissions, true) == RoleUtils.HasAllPermissions(user, Some(permissions))
  {
  }

  /** A route with no role or permission list admits every authenticated user. */
  lemma UnrestrictedRouteRenders(user: Option<User>, roles: Option<seq<string>>, permissions: Option<seq<string>>, requireAll: bool)
    requires roles == None || roles == Some([])
    requires permissions == None || permissions == Some([])
    ensures Decide(true, user, RouteRequirement(roles, permissions, requireAll)) == Render
  {
  }

  /** A role mismatch is reported before, and regardless of, the permissions. */
  lemma RoleDenialIgnoresPermissions(user: Option<User>, roles: seq<string>, p1: Option<seq<string>>, p2: Option<seq<string>>, a1: bool, a2: bool)
    requires |roles| > 0 && !RoleUtils.HasAnyRole(user, Some(roles))
    ensures Decide(true, user, RouteRequirement(Some(roles), p1, a1)) == RoleDenied(roles)
    ensures Decide(true, user, RouteRequirement(Some(roles), p1, a1)) == Decide(true, user, RouteRequirement(Some(roles), p2, a2))
  {
  }

  /** Requiring all permissions is at least as strict as requiring any of them. */
  lemma RequireAllIsStricter(user: Option<User>, roles: Option<seq<string>>, permissions: Option<seq<string>>)
    requires Decide(true, user, RouteRequirement(roles, permissions, true)) == Render
    ensures Decide(true, user, RouteRequirement(roles, permissions, false)) == Render
  {
    if Declares(permissions) {
      RequireAllMeansAll(user, permissions.value);
      RoleUtils.AllImpliesAny(user, permissions.value);
    }
  }
}
