/** The permissions hook (src/hooks/usePermissions.js): one snapshot of what the role
    utilities say about the identity read from storage, optionally bound to one resource. */
module UsePermissions {
  import opened Wrappers
  import opened Session
  import Js
  import RoleUtils
  import Strings
  import Seqs

  /** The fields the hook adds when it is given a resource. */
  datatype ResourceAccess = ResourceAccess(canRead: bool, canCreate: bool, canUpdate: bool, canDelete: bool, allowedActions: seq<string>)

  /** The data part of the hook's result (the functions it re-exports are the role utilities). */
  datatype PermissionsView = PermissionsView(
    user: Option<User>,
    isAuthenticated: bool,
    username: Js.Value,
    roles: seq<string>,
    isAdmin: bool,
    isDoctor: bool,
    isNurse: bool,
    permissions: seq<Js.Value>,
    permissionsByResource: map<string, seq<string>>,
    resource: Option<ResourceAccess>)

  /** `usePermissions(resource)` for the identity `user`; a missing or empty resource adds no
      resource fields. */
  function UsePermissions(user: Option<User>, resource: Option<string>): (v: PermissionsView)
    ensures v.user == user
    ensures v.isAuthenticated <==> user.Some?
    ensures user.Some? ==> v.username == user.value.username
    ensures v.roles == RoleUtils.GetUserRoles(user) && v.permissions == RoleUtils.GetUserPermissions(user)
    ensures v.isAdmin == RoleUtils.IsAdmin(user) && v.isDoctor == RoleUtils.IsDoctor(user) && v.isNurse == RoleUtils.IsNurse(user)
    ensures v.resource.Some? <==> resource.Some? && resource.value != ""
    ensures v.permissionsByResource == RoleUtils.Grouped(RoleUtils.GetUserPermissions(user))
    ensures v.resource.Some? ==> v.resource.value.allowedActions == RoleUtils.GetAllowedActions(user, resource.value)
  {
    PermissionsView(
      user,
      user.Some?,
      if user.Some? then user.value.username else Js.Undefined,
      RoleUtils.GetUserRoles(user),
      RoleUtils.IsAdmin(user),
      RoleUtils.IsDoctor(user),
      RoleUtils.IsNurse(user),
      RoleUtils.GetUserPermissions(user),
      RoleUtils.Grouped(RoleUtils.GetUserPermissions(user)),
      if resource.None? || resource.value == "" then None
      else
        var r := resource.value;
        Some(ResourceAccess(
          RoleUtils.HasResourcePermission(user, r, "read"),
          RoleUtils.HasResourcePermission(user, r, "create"),
          RoleUtils.HasResourcePermission(user, r, "update"),
          RoleUtils.HasResourcePermission(user, r, "delete"),
          RoleUtils.GetAllowedActions(user, r))))
  }

  /** The resource flags are the four "resource:action" permission checks. */
  lemma ResourceFlags(user: Option<User>, r: string)
    requires r != ""
    ensures var a := UsePermissions(user, Some(r)).resource.value;
            (a.canRead <==> RoleUtils.HoldsPermission(user, r + ":read")) &&
            (a.canCreate <==> RoleUtils.HoldsPermission(user, r + ":create")) &&
            (a.canUpdate <==> RoleUtils.HoldsPermission(user, r + ":update")) &&
            (a.canDelete <==> RoleUtils.HoldsPermission(user, r + ":delete"))
  {
    assert r + ":" + "read" == r + ":read";
    assert r + ":" + "create" == r + ":create";
    assert r + ":" + "update" == r + ":update";
    assert r + ":" + "delete" == r + ":delete";
  }

  /** A stored "resource:read" permission sets `canRead` and lists "read" among the allowed actions. */
  lemma StoredReadPermission(user: Option<User>, r: string)
    requires r != "" && ':' !in r
    requires Js.Str(r + ":read") in RoleUtils.GetUserPermissions(user)
    ensures UsePermissions(user, Some(r)).resource.value.canRead
    ensures "read" in UsePermissions(user, Some(r)).resource.value.allowedActions
  {
    assert r + ":" + "read" == r + ":read";
    RoleUtils.StoredPermissionGrantsAction(user, r, "read");
  }

  /** The flags ignore letter case but the allowed actions do not: a user holding only
      "PACIENTE:READ" may read "paciente" yet has no allowed action on it. */
  lemma FlagsAndActionsDisagreeOnCase()
    ensures var user := Some(User(Js.Undefined, None, Some([Js.Str("PACIENTE:READ")])));
            var a := UsePermissions(user, Some("paciente")).resource.value;
            a.canRead && a.allowedActions == []
  {
    var user := Some(User(Js.Undefined, None, Some([Js.Str("PACIENTE:READ")])));
    UpperCaseReadPermission(user);
    NoActionForUpperCasePermission(user);
  }

  lemma UpperCaseReadPermission(user: Option<User>)
    requires user == Some(User(Js.Undefined, None, Some([Js.Str("PACIENTE:READ")])))
    ensures RoleUtils.HasResourcePermission(user, "paciente", "read")
  {
    var p := "paciente:read";
    assert "paciente" + ":" + "read" == p;
    assert Strings.Lower("PACIENTE:READ") == p;
    assert Strings.Lower(p) == p;
    Strings.TrimOfTrimmed(p);
    assert RoleUtils.NormPerm("PACIENTE:READ") == RoleUtils.NormPerm(p);
    assert Js.Str("PACIENTE:READ") in user.value.permissions.value;
  }

  lemma NoActionForUpperCasePermission(user: Option<User>)
    requires user == Some(User(Js.Undefined, None, Some([Js.Str("PACIENTE:READ")])))
    ensures RoleUtils.GetAllowedActions(user, "paciente") == []
  {
    assert !RoleUtils.OnResource("paciente", Js.Str("PACIENTE:READ")) by {
      assert "PACIENTE:READ"[0] == 'P' && ("paciente" + ":")[0] == 'p';
    }
    var kept := Seqs.Filter(RoleUtils.GetUserPermissions(user), (q: Js.Value) => RoleUtils.OnResource("paciente", q));
    assert kept == [];
  }
}
