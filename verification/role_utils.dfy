/** Client-side role and permission checks (src/utils/roleUtils.js). Every check reads the
    current identity from localStorage through `GetCurrentUser`; here the identity it found is
    passed in as the `user` parameter. Array arguments are `Option<seq<...>>`, None standing for
    a value that is not an array. */
module RoleUtils {
  import opened Wrappers
  import Seqs
  import opened Strings
  import Js
  import opened Session

  /** The identity the checks read: the parsed 'user' entry when that entry is truthy text (null
      when it does not parse), otherwise the user inside the persisted 'auth-storage' entry. */
  function GetCurrentUser(st: Storage): (r: Option<User>)
    ensures UserDocTruthy(st.user) && st.user.value.Unparsable? ==> r == None
    ensures UserDocTruthy(st.user) && st.user.value.Parsed? ==> r == st.user.value.value
    ensures !UserDocTruthy(st.user) && st.authStorage.Some? ==> r == st.authStorage.value.user
    ensures !UserDocTruthy(st.user) && st.authStorage.None? ==> r == None
  {
    if UserDocTruthy(st.user) then
      match st.user.value
      case Parsed(u) => u
      case Unparsable(_) => None
    else if st.authStorage.Some? && st.authStorage.value.user.Some? then
      st.authStorage.value.user
    else
      None
  }

  /** How role names are compared: upper-cased, then trimmed. */
  function NormRole(s: string): string {
    Trim(Upper(s))
  }

  /** How permission names are compared: lower-cased, then trimmed. */
  function NormPerm(s: string): string {
    Trim(Lower(s))
  }

  lemma NormRoleIdempotent(s: string)
    ensures NormRole(NormRole(s)) == NormRole(s)
  {
    UpperTrim(Upper(s));
    UpperIdempotent(s);
    TrimIdempotent(Upper(s));
  }

  lemma NormPermIdempotent(s: string)
    ensures NormPerm(NormPerm(s)) == NormPerm(s)
  {
    LowerTrim(Lower(s));
    LowerIdempotent(s);
    TrimIdempotent(Lower(s));
  }

  /** A role name written in capitals, digits and underscores is already in normal form. */
  lemma CanonicalRoleName(s: string)
    requires s != []
    requires forall i :: 0 <= i < |s| ==> 'A' <= s[i] <= 'Z' || '0' <= s[i] <= '9' || s[i] == '_'
    ensures NormRole(s) == s
  {
    assert Upper(s) == s;
    TrimOfTrimmed(s);
  }

  /** The identity holds a role that names `roleName` up to case and surrounding white space. */
  ghost predicate HoldsRole(user: Option<User>, roleName: string) {
    user.Some? && user.value.roles.Some? &&
    exists x :: x in user.value.roles.value && NormRole(x) == NormRole(roleName)
  }

  /** The identity holds a string permission that names `name` up to case and surrounding white space. */
  ghost predicate HoldsPermission(user: Option<User>, name: string) {
    user.Some? && user.value.permissions.Some? &&
    exists p :: p in user.value.permissions.value && p.Str? && NormPerm(p.s) == NormPerm(name)
  }

  /** `hasRole(roleName)`: false without an identity or without roles. */
  function HasRole(user: Option<User>, roleName: string): (r: bool)
    ensures r <==> HoldsRole(user, roleName)
  {
    if user.None? || user.value.roles.None? then false
    else
      var want := NormRole(roleName);
      Seqs.Any(user.value.roles.value, (x: string) => NormRole(x) == want)
  }

  /** The check cannot tell role names apart that differ only in case or surrounding white space. */
  lemma HasRoleIgnoresCaseAndSpace(user: Option<User>, roleName: string)
    ensures HasRole(user, roleName) == HasRole(user, NormRole(roleName))
  {
    NormRoleIdempotent(roleName);
  }

  /** `hasAnyRole(roleNames)`: fails closed on a non-array or empty list. */
  function HasAnyRole(user: Option<User>, roleNames: Option<seq<string>>): (r: bool)
    ensures r <==> roleNames.Some? && |roleNames.value| > 0 &&
                   exists n :: n in roleNames.value && HoldsRole(user, n)
  {
    if roleNames.None? || |roleNames.value| == 0 then false
    else Seqs.Any(roleNames.value, (n: string) => HasRole(user, n))
  }

  /** `hasAllRoles(roleNames)`: fails closed on a non-array or empty list. */
  function HasAllRoles(user: Option<User>, roleNames: Option<seq<string>>): (r: bool)
    ensures r <==> roleNames.Some? && |roleNames.value| > 0 &&
                   forall n :: n in roleNames.value ==> HoldsRole(user, n)
  {
    if roleNames.None? || |roleNames.value| == 0 then false
    else Seqs.All(roleNames.value, (n: string) => HasRole(user, n))
  }

  /** `hasPermission(permissionName)`: false without an identity or without permissions. */
  function HasPermission(user: Option<User>, permissionName: string): (r: bool)
    ensures r <==> HoldsPermission(user, permissionName)
  {
    if user.None? || user.value.permissions.None? then false
    else
      var want := NormPerm(permissionName);
      Seqs.Any(user.value.permissions.value, (p: Js.Value) => p.Str? && NormPerm(p.s) == want)
  }

  lemma HasPermissionIgnoresCaseAndSpace(user: Option<User>, name: string)
    ensures HasPermission(user, name) == HasPermission(user, NormPerm(name))
  {
    NormPermIdempotent(name);
  }

  /** `hasAnyPermission(permissionNames)`: fails closed on a non-array or empty list. */
  function HasAnyPermission(user: Option<User>, names: Option<seq<string>>): (r: bool)
    ensures r <==> names.Some? && |names.value| > 0 &&
                   exists n :: n in names.value && HoldsPermission(user, n)
  {
    if names.None? || |names.value| == 0 then false
    else Seqs.Any(names.value, (n: string) => HasPermission(user, n))
  }

  /** `hasAllPermissions(permissionNames)`: fails closed on a non-array or empty list. */
  function HasAllPermissions(user: Option<User>, names: Option<seq<string>>): (r: bool)
    ensures r <==> names.Some? && |names.value| > 0 &&
                   forall n :: n in names.value ==> HoldsPermission(user, n)
  {
    if names.None? || |names.value| == 0 then false
    else Seqs.All(names.value, (n: string) => HasPermission(user, n))
  }

  /** On a one-element list, "any" and "all" both mean holding that one entry. */
  lemma SingletonAnyAll(user: Option<User>, n: string)
    ensures HasAnyRole(user, Some([n])) == HasRole(user, n) == HasAllRoles(user, Some([n]))
    ensures HasAnyPermission(user, Some([n])) == HasPermission(user, n) == HasAllPermissions(user, Some([n]))
  {
    assert forall m :: m in [n] <==> m == n;
  }

  /** Holding every entry of a non-empty list implies holding some entry of it. */
  lemma AllImpliesAny(user: Option<User>, names: seq<string>)
    ensures HasAllRoles(user, Some(names)) ==> HasAnyRole(user, Some(names))
    ensures HasAllPermissions(user, Some(names)) ==> HasAnyPermission(user, Some(names))
  {
    if names != [] {
      assert names[0] in names;
    }
  }

  /** Widening the list of accepted roles never takes access away. */
  lemma HasAnyRoleMonotone(user: Option<User>, a: seq<string>, b: seq<string>)
    ensures HasAnyRole(user, Some(a)) ==> HasAnyRole(user, Some(a + b))
  {
    if HasAnyRole(user, Some(a)) {
      var n :| n in a && HoldsRole(user, n);
      assert n in a + b;
    }
  }

  /** `hasResourcePermission(resource, action)`: the permission named "resource:action". */
  function HasResourcePermission(user: Option<User>, resource: string, action: string): (r: bool)
    ensures r <==> HoldsPermission(user, resource + ":" + action)
  {
    HasPermission(user, resource + ":" + action)
  }

  /** `isAdmin()`: holds the ADMIN role. */
  function IsAdmin(user: Option<User>): (r: bool)
    ensures r <==> user.Some? && user.value.roles.Some? &&
                   exists x :: x in user.value.roles.value && NormRole(x) == "ADMIN"
  {
    CanonicalRoleName("ADMIN");
    HasRole(user, "ADMIN")
  }

  /** `isDoctor()`: holds the DOCTOR role. */
  function IsDoctor(user: Option<User>): (r: bool)
    ensures r <==> user.Some? && user.value.roles.Some? &&
                   exists x :: x in user.value.roles.value && NormRole(x) == "DOCTOR"
  {
    CanonicalRoleName("DOCTOR");
    HasRole(user, "DOCTOR")
  }

  /** `isNurse()`: holds the ENFERMERO role. */
  function IsNurse(user: Option<User>): (r: bool)
    ensures r <==> user.Some? && user.value.roles.Some? &&
                   exists x :: x in user.value.roles.value && NormRole(x) == "ENFERMERO"
  {
    CanonicalRoleName("ENFERMERO");
    HasRole(user, "ENFERMERO")
  }

  /** `getUserRoles()`: the identity's roles, or an empty list. */
  function GetUserRoles(user: Option<User>): (r: seq<string>)
    ensures user.Some? && user.value.roles.Some? ==> r == user.value.roles.value
    ensures user.None? || user.value.roles.None? ==> r == []
  {
    if user.Some? && user.value.roles.Some? then user.value.roles.value else []
  }

  /** `getUserPermissions()`: the identity's permissions, or an empty list. */
  function GetUserPermissions(user: Option<User>): (r: seq<Js.Value>)
    ensures user.Some? && user.value.permissions.Some? ==> r == user.value.permissions.value
    ensures user.None? || user.value.permissions.None? ==> r == []
  {
    if user.Some? && user.value.permissions.Some? then user.value.permissions.value else []
  }

  /** The role check reads exactly the list `GetUserRoles` reports. */
  lemma HasRoleReadsUserRoles(user: Option<User>, roleName: string)
    ensures HasRole(user, roleName) <==>
              exists x :: x in GetUserRoles(user) && NormRole(x) == NormRole(roleName)
  {
  }

  // ---- Grouping permissions by resource ----

  /** `const [resource, action] = permission.split(':')`, kept only when both parts are non-empty. */
  function ResourceAction(p: Js.Value): (r: Option<(string, string)>)
    ensures r.Some? ==> p.Str? && r.value.0 != "" && r.value.1 != "" && ':' !in r.value.0 && ':' !in r.value.1
    ensures r.Some? ==> StartsWith(p.s, r.value.0 + ":")
  {
    if !p.Str? then None
    else
      var parts := Split(p.s, ':');
      if |parts| >= 2 && parts[0] != "" && parts[1] != "" then
        var k := IndexOf(p.s, ':');
        assert p.s[..k + 1] == parts[0] + ":";
        Some((parts[0], parts[1]))
      else None
  }

  /** One step of the grouping loop: append the action to its resource's list. */
  function AddPermission(grouped: map<string, seq<string>>, p: Js.Value): map<string, seq<string>> {
    match ResourceAction(p)
    case None => grouped
    case Some((resource, action)) =>
      grouped[resource := (if resource in grouped then grouped[resource] else []) + [action]]
  }

  /** The grouping of a list of permissions, in the order the loop visits them. */
  function Grouped(perms: seq<Js.Value>): map<string, seq<string>> {
    if perms == [] then map[] else AddPermission(Grouped(perms[..|perms| - 1]), perms[|perms| - 1])
  }

  /** The action one permission grants on `resource`, if any. */
  function Granted(resource: string, p: Js.Value): seq<string> {
    match ResourceAction(p)
    case None => []
    case Some((r, action)) => if r == resource then [action] else []
  }

  /** Reference definition: the actions the permissions grant on `resource`, in order. */
  function ActionsFor(perms: seq<Js.Value>, resource: string): seq<string> {
    Seqs.FlatMap(perms, (p: Js.Value) => Granted(resource, p))
  }

  lemma ActionsForAppend(a: seq<Js.Value>, b: seq<Js.Value>, resource: string)
    ensures ActionsFor(a + b, resource) == ActionsFor(a, resource) + ActionsFor(b, resource)
  {
    Seqs.FlatMapAppend(a, b, (p: Js.Value) => Granted(resource, p));
  }

  lemma ActionsForCons(perms: seq<Js.Value>, resource: string)
    requires perms != []
    ensures ActionsFor(perms, resource) == Granted(resource, perms[0]) + ActionsFor(perms[1..], resource)
  {
  }

  /** The grouping maps each resource to exactly the actions granted on it, in the order the
      permissions list them, and holds no resource without actions. */
  lemma {:induction false} GroupedEntry(perms: seq<Js.Value>, resource: string)
    ensures resource in Grouped(perms) <==> ActionsFor(perms, resource) != []
    ensures resource in Grouped(perms) ==> Grouped(perms)[resource] == ActionsFor(perms, resource)
    decreases |perms|
  {
    if perms != [] {
      var init, last := perms[..|perms| - 1], perms[|perms| - 1];
      GroupedEntry(init, resource);
      assert perms == init + [last];
      ActionsForAppend(init, [last], resource);
      ActionsForCons([last], resource);
      assert [last][1..] == [];
    }
  }

  /** `getPermissionsByResource()`: groups the actions of "resource:action" permissions by resource. */
  method GetPermissionsByResource(user: Option<User>) returns (grouped: map<string, seq<string>>)
    ensures grouped == Grouped(GetUserPermissions(user))
    ensures forall resource :: resource in grouped ==> grouped[resource] != []
  {
    var permissions := GetUserPermissions(user);
    grouped := map[];
    var i := 0;
    while i < |permissions|
      invariant 0 <= i <= |permissions|
      invariant grouped == Grouped(permissions[..i])
    {
      var permission := permissions[i];
      ghost var before := grouped;
      if permission.Str? {
        var parts := Split(permission.s, ':');
        if |parts| >= 2 && parts[0] != "" && parts[1] != "" {
          var resource, action := parts[0], parts[1];
          if resource !in grouped {
            grouped := grouped[resource := []];
          }
          grouped := grouped[resource := grouped[resource] + [action]];
        }
      }
      assert grouped == AddPermission(before, permission);
      assert permissions[..i + 1] == permissions[..i] + [permission];
      assert permissions[..i + 1][..i] == permissions[..i];
      i := i + 1;
    }
    assert permissions[..i] == permissions;
    forall resource | resource in grouped
      ensures grouped[resource] != []
    {
      GroupedEntry(permissions, resource);
    }
  }

  /** The permission prefix that marks a resource: "resource:". */
  predicate OnResource(resource: string, p: Js.Value) {
    p.Str? && StartsWith(p.s, resource + ":")
  }

  /** `canAccessResource(resource)`: some permission starts with "resource:". */
  function CanAccessResource(user: Option<User>, resource: string): (r: bool)
    ensures r <==> exists p :: p in GetUserPermissions(user) && OnResource(resource, p)
  {
    Seqs.Any(GetUserPermissions(user), (p: Js.Value) => OnResource(resource, p))
  }

  /** `permission.split(':')[1]` for a permission on `resource`, which contains a ':'. */
  function ActionPart(resource: string, p: Js.Value): (a: string)
    requires OnResource(resource, p)
    ensures ':' !in a
    ensures ':' !in resource ==>
      p.s == resource + ":" + a || StartsWith(p.s, resource + ":" + a + ":")
  {
    assert p.s[|resource|] == ':';
    if ':' in resource then Split(p.s, ':')[1]
    else ActionPartShape(resource, p); Split(p.s, ':')[1]
  }

  /** For a resource name without ':', the action is the text after "resource:" up to the
      next ':' or the end. */
  lemma ActionPartShape(resource: string, p: Js.Value)
    requires OnResource(resource, p) && ':' !in resource
    ensures |Split(p.s, ':')| >= 2
    ensures var a := Split(p.s, ':')[1];
      p.s == resource + ":" + a || StartsWith(p.s, resource + ":" + a + ":")
  {
    var tail := p.s[|resource| + 1..];
    assert p.s == resource + [':'] + tail;
    SplitAfterPrefix(resource, tail, ':');
    var a := Split(p.s, ':')[1];
    assert a == Split(tail, ':')[0];
    if ':' in tail {
      var k := IndexOf(tail, ':');
      assert tail == a + [':'] + tail[k + 1..];
      assert p.s == resource + ":" + a + ":" + tail[k + 1..];
    } else {
      assert a == tail;
    }
  }

  /** The action part of every permission on `resource`, in order. */
  function AllowedActions(perms: seq<Js.Value>, resource: string): (r: seq<string>)
    ensures var kept := Seqs.Filter(perms, (p: Js.Value) => OnResource(resource, p));
      |r| == |kept| &&
      forall i :: 0 <= i < |r| ==>
        (OnResource(resource, kept[i]) && ':' !in r[i] &&
         (':' !in resource ==>
           kept[i].s == resource + ":" + r[i] || StartsWith(kept[i].s, resource + ":" + r[i] + ":")))
  {
    var kept := Seqs.Filter(perms, (p: Js.Value) => OnResource(resource, p));
    assert forall i :: 0 <= i < |kept| ==> kept[i] in kept;
    seq(|kept|, i requires 0 <= i < |kept| => ActionPart(resource, kept[i]))
  }

  /** `getAllowedActions(resource)`: the actions of the identity's permissions on `resource`. */
  function GetAllowedActions(user: Option<User>, resource: string): (r: seq<string>)
    ensures var kept := Seqs.Filter(GetUserPermissions(user), (p: Js.Value) => OnResource(resource, p));
      |r| == |kept| &&
      forall i :: 0 <= i < |r| ==>
        (OnResource(resource, kept[i]) && ':' !in r[i] &&
         (':' !in resource ==>
           kept[i].s == resource + ":" + r[i] || StartsWith(kept[i].s, resource + ":" + r[i] + ":")))
  {
    AllowedActions(GetUserPermissions(user), resource)
  }

  lemma AllowedActionsCons(x: Js.Value, rest: seq<Js.Value>, resource: string)
    ensures AllowedActions([x] + rest, resource) ==
      (if OnResource(resource, x) then [ActionPart(resource, x)] else []) + AllowedActions(rest, resource)
  {
    var onIt := (p: Js.Value) => OnResource(resource, p);
    assert ([x] + rest)[0] == x && ([x] + rest)[1..] == rest;
    assert Seqs.Filter([x] + rest, onIt) == (if onIt(x) then [x] else []) + Seqs.Filter(rest, onIt);
  }

  predicate NonEmpty(s: string) {
    s != ""
  }

  /** For a resource name without ':', the grouping and `getAllowedActions` agree, except that
      the grouping drops empty actions (a permission such as "paciente:"). */
  lemma {:induction false} GroupedAgreesWithAllowedActions(perms: seq<Js.Value>, resource: string)
    requires resource != "" && ':' !in resource
    ensures ActionsFor(perms, resource) == Seqs.Filter(AllowedActions(perms, resource), NonEmpty)
  {
    if perms != [] {
      var x, rest := perms[0], perms[1..];
      assert perms == [x] + rest;
      AllowedActionsCons(x, rest, resource);
      ActionsForCons(perms, resource);
      GroupedAgreesWithAllowedActions(rest, resource);
      var head := if OnResource(resource, x) then [ActionPart(resource, x)] else [];
      Seqs.FilterAppend(head, AllowedActions(rest, resource), NonEmpty);
      HeadAgrees(x, resource);
    }
  }

  lemma HeadAgrees(x: Js.Value, resource: string)
    requires resource != "" && ':' !in resource
    ensures Granted(resource, x) ==
      Seqs.Filter(if OnResource(resource, x) then [ActionPart(resource, x)] else [], NonEmpty)
  {
    if OnResource(resource, x) {
      var tail := x.s[|resource| + 1..];
      assert x.s == resource + [':'] + tail;
      SplitAfterPrefix(resource, tail, ':');
    }
  }

  /** A resource is accessible exactly when it has at least one allowed action. */
  lemma CanAccessIffAllowedActions(user: Option<User>, resource: string)
    ensures CanAccessResource(user, resource) <==> |GetAllowedActions(user, resource)| > 0
  {
    var kept := Seqs.Filter(GetUserPermissions(user), (p: Js.Value) => OnResource(resource, p));
    if CanAccessResource(user, resource) {
      var p :| p in GetUserPermissions(user) && OnResource(resource, p);
      assert p in kept;
    }
    if kept != [] {
      assert kept[0] in kept;
    }
  }

  /** A stored permission "resource:action" both passes `hasResourcePermission(resource, action)`
      and lists `action` among the allowed actions of `resource`. */
  lemma StoredPermissionGrantsAction(user: Option<User>, resource: string, action: string)
    requires ':' !in resource && ':' !in action
    requires Js.Str(resource + ":" + action) in GetUserPermissions(user)
    ensures HasResourcePermission(user, resource, action)
    ensures action in GetAllowedActions(user, resource)
  {
    var perms := GetUserPermissions(user);
    var p := Js.Str(resource + ":" + action);
    ActionPartOfPermission(resource, action);
    var kept := Seqs.Filter(perms, (q: Js.Value) => OnResource(resource, q));
    assert p in kept;
    var i :| 0 <= i < |kept| && kept[i] == p;
    var allowed := AllowedActions(perms, resource);
    assert allowed[i] == action;
  }

  lemma ActionPartOfPermission(resource: string, action: string)
    requires ':' !in resource && ':' !in action
    ensures OnResource(resource, Js.Str(resource + ":" + action))
    ensures ActionPart(resource, Js.Str(resource + ":" + action)) == action
  {
    var s := resource + ":" + action;
    assert s[..|resource| + 1] == resource + ":";
    assert s == resource + [':'] + action;
    SplitAfterPrefix(resource, action, ':');
  }
}
