/** The shaping of the login answer (src/services/authService.js, normalizeAuthResponse): the
    token must be present; roles become a non-empty list of upper-cased, trimmed strings. */
module AuthService {
  import opened Wrappers
  import Js
  import opened Strings
  import RoleUtils
  import AuthStore

  const MissingToken := "Token no encontrado en la respuesta del servidor"
  const TypeError := "TypeError"

  /** The user object built from the answer. */
  datatype AuthUser = AuthUser(username: Js.Value, nombre: Js.Value, roles: seq<string>, permissions: Js.Value)

  datatype AuthResponse = AuthResponse(token: Js.Value, user: AuthUser)

  /** `response.roles || []`, then a truthy non-array wrapped in a one-element list. */
  function RawRoles(roles: Js.Value): (r: seq<Js.Value>)
    ensures roles.Arr? ==> r == roles.items
    ensures !roles.Arr? && Js.Truthy(roles) ==> r == [roles]
    ensures !Js.Truthy(roles) ==> r == []
  {
    if roles.Arr? then roles.items else if Js.Truthy(roles) then [roles] else []
  }

  /** `String(role).toUpperCase().trim()` for each role, in order. */
  function NormalizeRoles(roles: seq<Js.Value>): (r: seq<string>)
    ensures |r| == |roles|
    ensures forall i :: 0 <= i < |r| ==> r[i] == Trim(Upper(Js.ToStr(roles[i])))
  {
    seq(|roles|, i requires 0 <= i < |roles| => Trim(Upper(Js.ToStr(roles[i]))))
  }

  /** `normalizeAuthResponse(response)`: an error without a token (or without a response at all,
      where reading `response.token` throws); otherwise the token and the built user. */
  function NormalizeAuthResponse(response: Js.Value): (r: Result<AuthResponse>)
    ensures Js.IsNullish(response) ==> r == Err(TypeError)
    ensures !Js.IsNullish(response) && !Js.Truthy(Js.Get(response, "token")) ==> r == Err(MissingToken)
    ensures r.Ok? <==> !Js.IsNullish(response) && Js.Truthy(Js.Get(response, "token"))
    ensures r.Ok? ==> r.value.token == Js.Get(response, "token") && Js.Truthy(r.value.token)
    ensures r.Ok? ==> r.value.user.nombre == r.value.user.username == Js.Get(response, "username")
    ensures r.Ok? ==> |r.value.user.roles| >= 1
    ensures r.Ok? && !Js.Truthy(Js.Get(response, "permissions")) ==> r.value.user.permissions == Js.Arr([])
    ensures r.Ok? && Js.Truthy(Js.Get(response, "permissions")) ==> r.value.user.permissions == Js.Get(response, "permissions")
  {
    if Js.IsNullish(response) then Err(TypeError)
    else
      var token := Js.Get(response, "token");
      if !Js.Truthy(token) then Err(MissingToken)
      else
        var username := Js.Get(response, "username");
        var normalizedRoles := NormalizeRoles(RawRoles(Js.Get(response, "roles")));
        var finalRoles := if |normalizedRoles| > 0 then normalizedRoles else ["ADMIN"];
        var perms := Js.Get(response, "permissions");
        var permissions := if Js.Truthy(perms) then perms else Js.Arr([]);
        Ok(AuthResponse(token, AuthUser(username, username, finalRoles, permissions)))
  }

  /** A role given as an object is not reduced to its name here either: it becomes the text of
      `String({...})`, upper-cased. */
  lemma AnswerRoleObjectBecomesText(token: string, name: string)
    requires token != ""
    ensures var answer := Js.Obj(map["token" := Js.Str(token), "roles" := Js.Arr([Js.Obj(map["name" := Js.Str(name)])])]);
            NormalizeAuthResponse(answer).Ok? && NormalizeAuthResponse(answer).value.user.roles == ["[OBJECT OBJECT]"]
  {
    assert Upper("[object Object]") == "[OBJECT OBJECT]";
    TrimOfTrimmed("[OBJECT OBJECT]");
  }

  /** The role list of a successful answer: the normalized roles in order, or ['ADMIN'] when
      there are none. */
  lemma RolesOfAnswer(response: Js.Value)
    requires NormalizeAuthResponse(response).Ok?
    ensures var raw := RawRoles(Js.Get(response, "roles"));
            var roles := NormalizeAuthResponse(response).value.user.roles;
            (|raw| > 0 ==> roles == NormalizeRoles(raw)) && (raw == [] ==> roles == ["ADMIN"])
  {
  }

  /** Every role of a successful answer is already in the normal form the role utilities
      compare with, so those checks match it exactly. */
  lemma AnswerRolesAreNormalized(response: Js.Value)
    requires NormalizeAuthResponse(response).Ok?
    ensures forall x :: x in NormalizeAuthResponse(response).value.user.roles ==> RoleUtils.NormRole(x) == x
  {
    var raw := RawRoles(Js.Get(response, "roles"));
    RolesOfAnswer(response);
    if raw == [] {
      RoleUtils.CanonicalRoleName("ADMIN");
    } else {
      NormalizedRolesAreNormalized(raw);
    }
  }

  lemma NormalizedRolesAreNormalized(raw: seq<Js.Value>)
    ensures forall x :: x in NormalizeRoles(raw) ==> RoleUtils.NormRole(x) == x
  {
    var roles := NormalizeRoles(raw);
    forall x | x in roles
      ensures RoleUtils.NormRole(x) == x
    {
      var i :| 0 <= i < |roles| && roles[i] == x;
      RoleUtils.NormRoleIdempotent(Js.ToStr(raw[i]));
    }
  }

  /** The answer's user as the object handed to the store's login. */
  function UserData(u: AuthUser): Js.Value {
    Js.Obj(map["username" := u.username, "nombre" := u.nombre,
               "roles" := Js.Arr(seq(|u.roles|, i requires 0 <= i < |u.roles| => Js.Str(u.roles[i]))),
               "permissions" := u.permissions])
  }

  /** Handing a successful answer to the store's login keeps its roles exactly: the store's own
      upper-casing changes nothing in them. */
  lemma LoginKeepsAnswerRoles(response: Js.Value)
    requires NormalizeAuthResponse(response).Ok?
    ensures AuthStore.LoginRoles(UserData(NormalizeAuthResponse(response).value.user)) ==
            NormalizeAuthResponse(response).value.user.roles
  {
    var u := NormalizeAuthResponse(response).value.user;
    var stored := AuthStore.LoginRoles(UserData(u));
    AnswerRolesAreNormalized(response);
    assert AuthStore.RolesField(UserData(u)).Arr?;
    forall i | 0 <= i < |u.roles|
      ensures stored[i] == u.roles[i]
    {
      assert u.roles[i] in u.roles;
      UpperOfNormalized(u.roles[i]);
    }
  }

  /** A role in normal form is its own upper-case. */
  lemma UpperOfNormalized(x: string)
    requires RoleUtils.NormRole(x) == x
    ensures Upper(x) == x
  {
    UpperTrim(Upper(x));
    UpperIdempotent(x);
  }
}
