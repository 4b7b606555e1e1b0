/** The authentication store (src/store/authStore.js): the fields `user`, `token` and
    `isAuthenticated`, the localStorage keys 'jwt_token' and 'user' it writes through, and the
    persisted copy of its state kept under 'auth-storage'. The transitions are first given as
    functions on a `World` (store state plus storage), then carried out by the methods of the
    class `AuthStore`, whose contracts tie each call to its transition. */
module AuthStore {
  import opened Wrappers
  import Js
  import opened Strings
  import opened Session
  import RoleUtils
  import Seqs

  datatype AuthState = AuthState(user: Option<User>, token: Option<string>, isAuthenticated: bool)

  /** The initial state, and the state logout and a detected desynchronization return to. */
  const LoggedOut := AuthState(None, None, false)

  /** The store and the storage it writes, taken together. */
  datatype World = World(state: AuthState, storage: Storage)

  /** The store claims a session exactly when it holds a token. */
  predicate Valid(s: AuthState) {
    s.isAuthenticated <==> s.token.Some?
  }

  /** The fields the persistence layer saves under 'auth-storage'. */
  function Partialize(s: AuthState): (p: Persisted)
    ensures p.user == s.user && p.token == s.token && p.isAuthenticated == s.isAuthenticated
  {
    Persisted(s.user, s.token, s.isAuthenticated)
  }

  /** `set(...)`: the new state, which the persistence layer also saves under 'auth-storage'. */
  function Commit(w: World, s: AuthState): World {
    World(s, w.storage.(authStorage := Some(Partialize(s))))
  }

  // ---- Login normalization ----

  /** `userData?.roles` */
  function RolesField(userData: Js.Value): Js.Value {
    if Js.IsNullish(userData) then Js.Undefined else Js.Get(userData, "roles")
  }

  /** `userData?.permissions` */
  function PermissionsField(userData: Js.Value): Js.Value {
    if Js.IsNullish(userData) then Js.Undefined else Js.Get(userData, "permissions")
  }

  /** The roles login stores: an array has each entry converted with String() and upper-cased,
      any other truthy value becomes a one-element list, and a missing value becomes ['ADMIN']. */
  function LoginRoles(userData: Js.Value): (r: seq<string>)
    ensures RolesField(userData).Arr? ==> |r| == |RolesField(userData).items|
    ensures RolesField(userData).Arr? ==>
              forall i :: 0 <= i < |r| ==> r[i] == Upper(Js.ToStr(RolesField(userData).items[i]))
    ensures !RolesField(userData).Arr? && Js.Truthy(RolesField(userData)) ==>
              r == [Upper(Js.ToStr(RolesField(userData)))]
    ensures !Js.Truthy(RolesField(userData)) ==> r == ["ADMIN"]
  {
    var roles := RolesField(userData);
    if roles.Arr? then seq(|roles.items|, i requires 0 <= i < |roles.items| => Upper(Js.ToStr(roles.items[i])))
    else if Js.Truthy(roles) then [Upper(Js.ToStr(roles))]
    else ["ADMIN"]
  }

  /** Every role login stores is already upper-case. */
  lemma LoginRolesAreUpperCase(userData: Js.Value)
    ensures forall r :: r in LoginRoles(userData) ==> Upper(r) == r
  {
    forall r | r in LoginRoles(userData)
      ensures Upper(r) == r
    {
      var roles := RolesField(userData);
      if roles.Arr? {
        var i :| 0 <= i < |LoginRoles(userData)| && LoginRoles(userData)[i] == r;
        UpperIdempotent(Js.ToStr(roles.items[i]));
      } else if Js.Truthy(roles) {
        UpperIdempotent(Js.ToStr(roles));
      }
    }
  }

  /** A role given as an object is not reduced to its name: it is stored as the text of
      `String({...})`, upper-cased. */
  lemma LoginRoleObjectBecomesText(name: string)
    ensures LoginRoles(Js.Obj(map["roles" := Js.Arr([Js.Obj(map["name" := Js.Str(name)])])])) == ["[OBJECT OBJECT]"]
  {
    assert Upper("[object Object]") == "[OBJECT OBJECT]";
  }

  /** The identity login stores: the payload's fields with roles normalized and permissions
      kept when they form an array, else replaced by an empty list. */
  function NormalizeLoginUser(userData: Js.Value): (u: User)
    ensures u.roles == Some(LoginRoles(userData))
    ensures PermissionsField(userData).Arr? ==> u.permissions == Some(PermissionsField(userData).items)
    ensures !PermissionsField(userData).Arr? ==> u.permissions == Some([])
    ensures userData.Obj? && "username" in userData.fields ==> u.username == userData.fields["username"]
  {
    var perms := PermissionsField(userData);
    User(
      Js.Get(Js.Obj(Js.Fields(userData)), "username"),
      Some(LoginRoles(userData)),
      Some(if perms.Arr? then perms.items else []))
  }

  // ---- Transitions ----

  /** `initialize()`: adopts the stored session when both keys hold truthy text and the user
      parses; removes both keys when it does not parse. */
  function Initialized(w: World): (r: World)
    ensures Valid(w.state) ==> Valid(r.state)
    ensures r.state == w.state ||
            (r.state.isAuthenticated && r.state.token == w.storage.jwtToken && TextTruthy(r.state.token) &&
             r.storage.authStorage == Some(Partialize(r.state)))
    ensures r.storage.jwtToken == w.storage.jwtToken || (r.storage.jwtToken == None && r.storage.user == None)
  {
    var token := w.storage.jwtToken;
    var doc := w.storage.user;
    if TextTruthy(token) && UserDocTruthy(doc) then
      match doc.value
      case Parsed(u) => Commit(w, AuthState(u, token, true))
      case Unparsable(_) => w.(storage := w.storage.(jwtToken := None, user := None))
    else w
  }

  /** `checkAuth()`: the new world and the answer. A token missing from storage while the
      state still holds one clears the state; otherwise nothing changes. */
  function CheckedAuth(w: World): (r: (World, bool))
    ensures r.1 <==> TextTruthy(w.storage.jwtToken)
    ensures r.0.storage.jwtToken == w.storage.jwtToken && r.0.storage.user == w.storage.user
    ensures r.0 == w || (r.0.state == LoggedOut && TextTruthy(w.state.token))
    ensures Valid(w.state) ==> Valid(r.0.state)
  {
    if !TextTruthy(w.storage.jwtToken) && TextTruthy(w.state.token) then (Commit(w, LoggedOut), false)
    else (w, TextTruthy(w.storage.jwtToken))
  }

  /** `login(userData, token)`: writes both keys through, then enters the session. */
  function LoggedIn(w: World, userData: Js.Value, token: string): (r: World)
    ensures r.state.user == Some(NormalizeLoginUser(userData)) && r.state.token == Some(token)
    ensures r.state.isAuthenticated && Valid(r.state)
    ensures r.storage.jwtToken == Some(token) && r.storage.authStorage == Some(Partialize(r.state))
    ensures RoleUtils.GetCurrentUser(r.storage) == r.state.user
  {
    var u := NormalizeLoginUser(userData);
    var written := w.storage.(jwtToken := Some(token), user := Some(Parsed(Some(u))));
    Commit(World(w.state, written), AuthState(Some(u), Some(token), true))
  }

  /** `logout()`: removes both keys and clears the state. */
  function LoggedOutFrom(w: World): (r: World)
    ensures r.state == LoggedOut && Valid(r.state)
    ensures r.storage.jwtToken == None && r.storage.user == None
    ensures r.storage.authStorage == Some(Partialize(LoggedOut))
    ensures RoleUtils.GetCurrentUser(r.storage) == None
  {
    Commit(w.(storage := w.storage.(jwtToken := None, user := None)), LoggedOut)
  }

  /** `updateUser(userData)`: replaces the user only; the 'user' key is not rewritten. */
  function UserUpdated(w: World, u: Option<User>): (r: World)
    ensures r.state.user == u && r.state.token == w.state.token && r.state.isAuthenticated == w.state.isAuthenticated
    ensures Valid(w.state) ==> Valid(r.state)
    ensures r.storage.jwtToken == w.storage.jwtToken && r.storage.user == w.storage.user
    ensures r.storage.authStorage == Some(Partialize(r.state))
  {
    Commit(w, w.state.(user := u))
  }

  /** What the API client does on a 401 answer: it removes 'jwt_token' and 'user' from storage,
      leaving the store itself and 'auth-storage' alone. */
  function Unauthorized(st: Storage): (r: Storage)
    ensures r.jwtToken == None && r.user == None && r.authStorage == st.authStorage
  {
    st.(jwtToken := None, user := None)
  }

  // ---- Properties of the transitions ----

  /** After login the state, both storage keys and the identity the role checks read all
      describe the same normalized user and token. */
  lemma LoginEstablishesSession(w: World, userData: Js.Value, token: string)
    ensures var w' := LoggedIn(w, userData, token);
            w'.state.user == Some(NormalizeLoginUser(userData)) && w'.state.token == Some(token) &&
            w'.state.isAuthenticated && w'.storage.jwtToken == Some(token) &&
            w'.storage.user == Some(Parsed(Some(NormalizeLoginUser(userData)))) &&
            RoleUtils.GetCurrentUser(w'.storage) == w'.state.user
  {
  }

  /** After logout nothing remains: no state, no keys, and the role checks find no identity. */
  lemma LogoutEndsSession(w: World)
    ensures var w' := LoggedOutFrom(w);
            w'.state == LoggedOut && w'.storage.jwtToken == None && w'.storage.user == None &&
            RoleUtils.GetCurrentUser(w'.storage) == None
    ensures LoggedOutFrom(LoggedOutFrom(w)) == LoggedOutFrom(w)
  {
  }

  /** checkAuth clears a session whose token vanished from storage, and is otherwise a pure query
      of whether storage holds a token. */
  lemma CheckAuthCases(w: World)
    ensures !TextTruthy(w.storage.jwtToken) && TextTruthy(w.state.token) ==>
              CheckedAuth(w).0.state == LoggedOut && !CheckedAuth(w).1
    ensures !(!TextTruthy(w.storage.jwtToken) && TextTruthy(w.state.token)) ==>
              CheckedAuth(w).0 == w && CheckedAuth(w).1 == TextTruthy(w.storage.jwtToken)
    ensures CheckedAuth(CheckedAuth(w).0) == (CheckedAuth(w).0, CheckedAuth(w).1)
  {
  }

  /** A session whose token is removed from storage behind the store's back (a 401 answer, or
      another tab) is detected by the next checkAuth. */
  lemma ExternalTokenRemovalDetected(w: World, userData: Js.Value, token: string)
    requires token != ""
    ensures var w1 := LoggedIn(w, userData, token);
            var w2 := w1.(storage := Unauthorized(w1.storage));
            CheckedAuth(w2).0.state == LoggedOut && !CheckedAuth(w2).1
  {
  }

  /** Until checkAuth runs, a 401 does not end the session for the role checks: they fall back to
      the user persisted under 'auth-storage', which is still the logged-in user. */
  lemma UnauthorizedKeepsPersistedUser(w: World, userData: Js.Value, token: string)
    ensures var w1 := LoggedIn(w, userData, token);
            RoleUtils.GetCurrentUser(Unauthorized(w1.storage)) == Some(NormalizeLoginUser(userData))
  {
  }

  /** initialize adopts a session only from a truthy token and a parsable user; an unparsable
      user removes both keys and leaves the state as it was. */
  lemma InitializeCases(w: World)
    ensures Initialized(w).state.isAuthenticated && !w.state.isAuthenticated ==>
              TextTruthy(w.storage.jwtToken) && w.storage.user.Some? && w.storage.user.value.Parsed?
    ensures TextTruthy(w.storage.jwtToken) && w.storage.user.Some? && w.storage.user.value.Parsed? ==>
              Initialized(w).state == AuthState(w.storage.user.value.value, w.storage.jwtToken, true)
    ensures UserDocTruthy(w.storage.user) && w.storage.user.value.Unparsable? && TextTruthy(w.storage.jwtToken) ==>
              Initialized(w).state == w.state &&
              Initialized(w).storage.jwtToken == None && Initialized(w).storage.user == None
  {
  }

  /** Every transition keeps `Valid`. */
  lemma TransitionsPreserveValid(w: World, userData: Js.Value, token: string, u: Option<User>)
    requires Valid(w.state)
    ensures Valid(Initialized(w).state)
    ensures Valid(CheckedAuth(w).0.state)
    ensures Valid(LoggedIn(w, userData, token).state)
    ensures Valid(LoggedOutFrom(w).state)
    ensures Valid(UserUpdated(w, u).state)
  {
  }

  /** Every transition leaves 'auth-storage' holding exactly the persisted slice of the new
      state (initialize on an unparsable user and a checkAuth that changes nothing write nothing). */
  lemma PersistedSliceFollowsState(w: World, userData: Js.Value, token: string, u: Option<User>)
    ensures LoggedIn(w, userData, token).storage.authStorage == Some(Partialize(LoggedIn(w, userData, token).state))
    ensures LoggedOutFrom(w).storage.authStorage == Some(Persisted(None, None, false))
    ensures UserUpdated(w, u).storage.authStorage == Some(Partialize(UserUpdated(w, u).state))
  {
  }

  // ---- The store's own queries ----

  /** Whether a role name starts with "ROLE_", in any letter case. */
  predicate HasRolePrefix(s: string) {
    |s| >= 5 && Upper(s[..5]) == "ROLE_"
  }

  /** `String(role).replace(/^ROLE_/i, '')` */
  function StripRolePrefix(s: string): (r: string)
    ensures HasRolePrefix(s) ==> r == s[5..]
    ensures !HasRolePrefix(s) ==> r == s
  {
    if HasRolePrefix(s) then s[5..] else s
  }

  /** How the store normalizes a role it is asked about. */
  function NormalizeRequiredRole(s: string): string {
    Upper(StripRolePrefix(s))
  }

  /** Any spelling of the prefix is removed, and only once. */
  lemma StripRolePrefixOf(prefix: string, x: string)
    requires |prefix| == 5 && Upper(prefix) == "ROLE_"
    ensures StripRolePrefix(prefix + x) == x
  {
    assert (prefix + x)[..5] == prefix;
    assert (prefix + x)[5..] == x;
  }

  class AuthStore {
    var user: Option<User>
    var token: Option<string>
    var isAuthenticated: bool
    const storage: LocalStorage

    function State(): (s: AuthState)
      reads this
    {
      AuthState(user, token, isAuthenticated)
    }

    function Current(): (w: World)
      reads this, storage
    {
      World(State(), storage.Snapshot())
    }

    /** The store as created: logged out, over the given storage. */
    constructor (storage: LocalStorage)
      ensures State() == LoggedOut && this.storage == storage
    {
      user := None;
      token := None;
      isAuthenticated := false;
      this.storage := storage;
    }

    /** `set(...)` followed by the persistence layer's write of the new slice. */
    method Set(s: AuthState)
      modifies this, storage`authStorage
      ensures Current() == Commit(old(Current()), s)
    {
      user, token, isAuthenticated := s.user, s.token, s.isAuthenticated;
      storage.authStorage := Some(Partialize(s));
    }

    method Initialize()
      modifies this, storage
      ensures Current() == Initialized(old(Current()))
    {
      var storedToken := storage.jwtToken;
      var userStr := storage.user;
      if TextTruthy(storedToken) && UserDocTruthy(userStr) {
        match userStr.value
        case Parsed(u) =>
          Set(AuthState(u, storedToken, true));
        case Unparsable(_) =>
          storage.jwtToken := None;
          storage.user := None;
      }
    }

    method CheckAuth() returns (ok: bool)
      modifies this, storage
      ensures (Current(), ok) == CheckedAuth(old(Current()))
    {
      var storedToken := storage.jwtToken;
      if !TextTruthy(storedToken) && TextTruthy(token) {
        Set(LoggedOut);
        return false;
      }
      ok := TextTruthy(storedToken);
    }

    method Login(userData: Js.Value, newToken: string)
      modifies this, storage
      ensures Current() == LoggedIn(old(Current()), userData, newToken)
    {
      var normalizedUser := NormalizeLoginUser(userData);
      storage.jwtToken := Some(newToken);
      storage.user := Some(Parsed(Some(normalizedUser)));
      Set(AuthState(Some(normalizedUser), Some(newToken), true));
    }

    method Logout()
      modifies this, storage
      ensures Current() == LoggedOutFrom(old(Current()))
    {
      storage.jwtToken := None;
      storage.user := None;
      Set(LoggedOut);
    }

    method UpdateUser(userData: Option<User>)
      modifies this, storage
      ensures Current() == UserUpdated(old(Current()), userData)
    {
      Set(State().(user := userData));
    }

    /** `hasPermission(permission)`: exact, case-sensitive membership in the user's permissions. */
    function HasPermission(permission: string): (r: bool)
      reads this
      ensures r <==> user.Some? && user.value.permissions.Some? &&
                     exists i :: 0 <= i < |user.value.permissions.value| &&
                                 user.value.permissions.value[i] == Js.Str(permission)
    {
      if user.None? || user.value.permissions.None? then false
      else Js.Str(permission) in user.value.permissions.value
    }

    /** `hasRole(role)`: membership of the role with any "ROLE_" prefix removed and upper-cased. */
    function HasRole(role: string): (r: bool)
      reads this
      ensures r <==> user.Some? && user.value.roles.Some? &&
                     exists i :: 0 <= i < |user.value.roles.value| &&
                                 user.value.roles.value[i] == NormalizeRequiredRole(role)
    {
      if user.None? || user.value.roles.None? then false
      else NormalizeRequiredRole(role) in user.value.roles.value
    }

    /** `hasAnyRole(roles)`: some required role, normalized as in `HasRole`, is held; an empty
        list is never satisfied. */
    function HasAnyRole(roles: seq<string>): (r: bool)
      reads this
      ensures r <==> exists role :: role in roles && HasRole(role)
      ensures roles == [] ==> !r
    {
      if user.None? || user.value.roles.None? then false
      else
        var held := user.value.roles.value;
        var normalizedRequired := seq(|roles|, i requires 0 <= i < |roles| => NormalizeRequiredRole(roles[i]));
        var r := Seqs.Any(normalizedRequired, (role: string) => role in held);
        assert r ==> exists role :: role in roles && HasRole(role) by {
          if r {
            var x :| x in normalizedRequired && x in held;
            var i :| 0 <= i < |roles| && normalizedRequired[i] == x;
            assert roles[i] in roles && HasRole(roles[i]);
          }
        }
        assert (exists role :: role in roles && HasRole(role)) ==> r by {
          if exists role :: role in roles && HasRole(role) {
            var role :| role in roles && HasRole(role);
            var i :| 0 <= i < |roles| && roles[i] == role;
            assert normalizedRequired[i] in normalizedRequired;
          }
        }
        r
    }
  }

  /** The store's role check ignores a "ROLE_" prefix written in any case. */
  lemma StoreHasRoleIgnoresPrefix(store: AuthStore, prefix: string, role: string)
    requires |prefix| == 5 && Upper(prefix) == "ROLE_"
    requires !HasRolePrefix(role)
    ensures store.HasRole(prefix + role) == store.HasRole(role)
  {
    StripRolePrefixOf(prefix, role);
  }

  /** The store's permission check and the role utilities' check disagree on letter case: a
      user holding "paciente:read" passes one and fails the other for "PACIENTE:READ". */
  lemma PermissionChecksDisagreeOnCase(store: AuthStore)
    requires store.user == Some(User(Js.Undefined, None, Some([Js.Str("paciente:read")])))
    ensures !store.HasPermission("PACIENTE:READ")
    ensures RoleUtils.HasPermission(store.user, "PACIENTE:READ")
  {
    var p := "paciente:read";
    assert p[0] != "PACIENTE:READ"[0];
    assert store.user.value.permissions.value == [Js.Str(p)];
    assert Lower("PACIENTE:READ") == p;
    assert Lower(p) == p;
    assert p[0] == 'p' && p[|p| - 1] == 'd';
    TrimOfTrimmed(p);
    assert RoleUtils.NormPerm(p) == RoleUtils.NormPerm("PACIENTE:READ");
    assert Js.Str(p) in store.user.value.permissions.value;
  }
}
