/** The client-side half of the user service (src/services/userService.js): role
    normalization of the user records the backend returns, client-side search filtering with
    the recomputed page data, and the create and update payloads. The HTTP calls themselves are
    outside the model; the backend's answer is a parameter. */
module UserService {
  import opened Wrappers
  import Js
  import opened Strings
  import Seqs

  const TypeError := "TypeError"

  /** One role entry: an object with a truthy `idRoles` gives that value, anything else its text. */
  function NormalizeRole(role: Js.Value): (r: Js.Value)
    ensures role.Obj? && Js.Truthy(Js.Get(role, "idRoles")) ==> r == role.fields["idRoles"]
    ensures !(role.Obj? && Js.Truthy(Js.Get(role, "idRoles"))) ==> r == Js.Str(Js.ToStr(role))
  {
    if role.Obj? && Js.Truthy(Js.Get(role, "idRoles")) then Js.Get(role, "idRoles") else Js.Str(Js.ToStr(role))
  }

  /** `roles.map(...)` with `NormalizeRole`. */
  function NormalizeRoleList(roles: seq<Js.Value>): (r: seq<Js.Value>)
    ensures |r| == |roles|
    ensures forall i :: 0 <= i < |r| ==> r[i] == NormalizeRole(roles[i])
  {
    seq(|roles|, i requires 0 <= i < |roles| => NormalizeRole(roles[i]))
  }

  /** `normalizeUserRoles(user)`: a falsy user is returned as is; otherwise a copy whose roles are
      normalized, or empty when they are not an array. */
  function NormalizeUserRoles(user: Js.Value): (r: Js.Value)
    ensures !Js.Truthy(user) ==> r == user
    ensures Js.Truthy(user) ==> r.Obj? && "roles" in r.fields
    ensures Js.Truthy(user) ==> forall k :: k in Js.Fields(user) && k != "roles" ==> k in r.fields && r.fields[k] == Js.Fields(user)[k]
    ensures Js.Truthy(user) && Js.Get(user, "roles").Arr? ==> r.fields["roles"] == Js.Arr(NormalizeRoleList(Js.Get(user, "roles").items))
    ensures Js.Truthy(user) && !Js.Get(user, "roles").Arr? ==> r.fields["roles"] == Js.Arr([])
  {
    if !Js.Truthy(user) then user
    else
      var roles := Js.Get(user, "roles");
      Js.Obj(Js.Fields(user)["roles" := if roles.Arr? then Js.Arr(NormalizeRoleList(roles.items)) else Js.Arr([])])
  }

  /** Normalizing a user a second time changes nothing once its roles are all strings (a role
      object whose `idRoles` is not a string would be turned into text by the second pass). */
  lemma NormalizeUserRolesIdempotent(user: Js.Value)
    requires Js.Truthy(user)
    requires forall v :: v in NormalizeUserRoles(user).fields["roles"].items ==> v.Str?
    ensures NormalizeUserRoles(NormalizeUserRoles(user)) == NormalizeUserRoles(user)
  {
    var once := NormalizeUserRoles(user);
    var roles := once.fields["roles"].items;
    assert Js.Get(once, "roles") == Js.Arr(roles);
    forall i | 0 <= i < |roles|
      ensures NormalizeRole(roles[i]) == roles[i]
    {
      assert roles[i] in roles;
    }
    assert NormalizeRoleList(roles) == roles;
    assert Js.Fields(once)["roles" := Js.Arr(roles)] == once.fields;
  }

  /** `normalizeUsersResponse(response)`: each item of a paginated `content` array, each element
      of an array, or the single object. */
  function NormalizeUsersResponse(response: Js.Value): (r: Js.Value)
    ensures !Js.Truthy(response) ==> r == response
    ensures Js.Truthy(response) && Js.Get(response, "content").Arr? ==>
              r == Js.Obj(Js.Fields(response)["content" := Js.Arr(MapNormalize(Js.Get(response, "content").items))])
    ensures Js.Truthy(response) && !Js.Get(response, "content").Arr? && response.Arr? ==>
              r == Js.Arr(MapNormalize(response.items))
    ensures Js.Truthy(response) && !Js.Get(response, "content").Arr? && !response.Arr? ==>
              r == NormalizeUserRoles(response)
  {
    if !Js.Truthy(response) then response
    else if Js.Truthy(Js.Get(response, "content")) && Js.Get(response, "content").Arr? then
      Js.Obj(Js.Fields(response)["content" := Js.Arr(MapNormalize(Js.Get(response, "content").items))])
    else if response.Arr? then Js.Arr(MapNormalize(response.items))
    else NormalizeUserRoles(response)
  }

  /** `list.map(normalizeUserRoles)` */
  function MapNormalize(users: seq<Js.Value>): (r: seq<Js.Value>)
    ensures |r| == |users|
    ensures forall i :: 0 <= i < |r| ==> r[i] == NormalizeUserRoles(users[i])
  {
    seq(|users|, i requires 0 <= i < |users| => NormalizeUserRoles(users[i]))
  }

  /** `getRoles()` on the backend's answer: an array is mapped entry by entry, anything else is
      returned as is. */
  function GetRoles(data: Js.Value): (r: Js.Value)
    ensures data.Arr? ==> r == Js.Arr(NormalizeRoleList(data.items))
    ensures !data.Arr? ==> r == data
  {
    if data.Arr? then Js.Arr(NormalizeRoleList(data.items)) else data
  }

  // ---- Client-side search ----

  /** `params.search?.toLowerCase().trim()`: None when absent; an error when `search` is a
      value without `toLowerCase`. */
  function SearchTerm(params: Js.Value): (r: Result<Option<string>>)
    requires !Js.IsNullish(params)
    ensures Js.IsNullish(Js.Get(params, "search")) ==> r == Ok(None)
    ensures Js.Get(params, "search").Str? ==> r == Ok(Some(Trim(Lower(Js.Get(params, "search").s))))
  {
    var search := Js.Get(params, "search");
    if Js.IsNullish(search) then Ok(None)
    else if search.Str? then Ok(Some(Trim(Lower(search.s))))
    else Err(TypeError)
  }

  /** The filter test of one user: the lower-cased `nombreUsuario` or the text of `idUsuario`
      contains the term. Reading a field of a null user, or lower-casing a non-string name,
      throws. */
  function MatchesSearch(user: Js.Value, term: string): (r: Result<bool>)
    ensures r.Err? <==> (Js.IsNullish(user) ||
              (!Js.IsNullish(Js.Get(user, "nombreUsuario")) && !Js.Get(user, "nombreUsuario").Str?))
    ensures r.Ok? ==> (r.value <==>
              (Js.Get(user, "nombreUsuario").Str? && Contains(Lower(Js.Get(user, "nombreUsuario").s), term)) ||
              (!Js.IsNullish(Js.Get(user, "idUsuario")) && Contains(Js.ToStr(Js.Get(user, "idUsuario")), term)))
  {
    if Js.IsNullish(user) then Err(TypeError)
    else
      var name := Js.Get(user, "nombreUsuario");
      if !Js.IsNullish(name) && !name.Str? then Err(TypeError)
      else
        var matchName := name.Str? && Contains(Lower(name.s), term);
        var id := Js.Get(user, "idUsuario");
        var matchId := !Js.IsNullish(id) && Contains(Js.ToStr(id), term);
        Ok(matchName || matchId)
  }

  /** `users.filter(...)` with `MatchesSearch`; the first user whose test throws makes the whole
      call fail. */
  function FilterUsers(users: seq<Js.Value>, term: string): (r: Result<seq<Js.Value>>)
    ensures r.Ok? <==> forall u :: u in users ==> MatchesSearch(u, term).Ok?
    ensures r.Ok? ==> r.value == Seqs.Filter(users, (u: Js.Value) => MatchesSearch(u, term) == Ok(true))
  {
    if users == [] then Ok([])
    else
      match MatchesSearch(users[0], term)
      case Err(e) => Err(e)
      case Ok(keep) =>
        match FilterUsers(users[1..], term)
        case Err(e) => Err(e)
        case Ok(rest) => Ok((if keep then [users[0]] else []) + rest)
  }

  /** The name test ignores the letter case of the stored name. */
  lemma SearchIgnoresNameCase(fields: map<string, Js.Value>, name: string, term: string)
    ensures MatchesSearch(Js.Obj(fields["nombreUsuario" := Js.Str(name)]), term) ==
            MatchesSearch(Js.Obj(fields["nombreUsuario" := Js.Str(Lower(name))]), term)
  {
    LowerIdempotent(name);
  }

  /** `Math.ceil(count / size)` for a non-zero size, floored at 1 by `Math.max(1, ...)`. */
  function TotalPages(count: nat, size: int): (r: int)
    requires size != 0
    ensures r >= 1
    ensures size > 0 ==> (r - 1) * size < count || (count == 0 && r == 1)
    ensures size > 0 && count > 0 ==> count <= r * size
  {
    if size > 0 then
      var c := (count + size - 1) / size;
      if c > 1 then c else 1
    else 1
  }

  /** What `getAll(params)` hands back, and the parameters it forwards to the backend. */
  datatype GetAllResult = GetAllResult(backendParams: map<string, Js.Value>, data: Js.Value)

  /** The page size used after filtering: `params.size || 10`. */
  function SizeParam(params: Js.Value): (r: Js.Value)
    requires !Js.IsNullish(params)
    ensures Js.Truthy(r)
    ensures Js.Truthy(Js.Get(params, "size")) ==> r == Js.Get(params, "size")
  {
    var size := Js.Get(params, "size");
    if Js.Truthy(size) then size else Js.Num(10)
  }

  /** The page number reported after filtering: `params.page || 0`. */
  function PageParam(params: Js.Value): Js.Value
    requires !Js.IsNullish(params)
  {
    var page := Js.Get(params, "page");
    if Js.Truthy(page) then page else Js.Num(0)
  }

  /** The rebuilt page of a filtered paginated answer: `{...normalized}` with the content, the
      counts, the page count, the size and the page number replaced, every other field kept. */
  function FilteredPage(normalized: Js.Value, filtered: seq<Js.Value>, size: int, page: Js.Value): (r: Js.Value)
    requires size != 0
    ensures r.Obj?
    ensures r.fields.Keys == Js.Fields(normalized).Keys + PageKeys
    ensures forall k :: k in Js.Fields(normalized) && k !in PageKeys ==> r.fields[k] == Js.Fields(normalized)[k]
  {
    Js.Obj(Js.Fields(normalized) + map[
      "content" := Js.Arr(filtered),
      "totalElements" := Js.Num(|filtered|),
      "numberOfElements" := Js.Num(|filtered|),
      "totalPages" := Js.Num(TotalPages(|filtered|, size)),
      "size" := Js.Num(size),
      "number" := page])
  }

  /** The fields the rebuilt page sets. */
  const PageKeys: set<string> := {"content", "totalElements", "numberOfElements", "totalPages", "size", "number"}

  /** The term `getAll` filters with: a non-empty search term, when the normalized answer is
      truthy (`searchTerm && normalized`). */
  function ActiveTerm(params: Js.Value, data: Js.Value): Option<string>
    requires !Js.IsNullish(params)
  {
    match SearchTerm(params)
    case Ok(Some(t)) => if t != "" && Js.Truthy(NormalizeUsersResponse(data)) then Some(t) else None
    case _ => None
  }

  /** `normalized.content && Array.isArray(normalized.content)` */
  predicate Paginated(normalized: Js.Value) {
    !Js.IsNullish(normalized) && Js.Truthy(Js.Get(normalized, "content")) && Js.Get(normalized, "content").Arr?
  }

  /** `getAll(params)` once the backend has answered `data`: normalize, then filter on the
      client when there is a non-empty search term. A truthy page size that is not a number is
      reported as an error. */
  function GetAll(params: Js.Value, data: Js.Value): (r: Result<GetAllResult>)
    requires params.Obj?
    ensures r.Ok? ==> "search" !in r.value.backendParams
    ensures r.Ok? ==> forall k :: k in params.fields && k != "search" ==> k in r.value.backendParams && r.value.backendParams[k] == params.fields[k]
    ensures SearchTerm(params).Err? ==> r.Err?
    // No filtering: no term, an empty one, or a falsy answer.
    ensures SearchTerm(params).Ok? && ActiveTerm(params, data).None? ==>
              r == Ok(GetAllResult(params.fields - {"search"}, NormalizeUsersResponse(data)))
    // A paginated answer: its content filtered, and the page data recomputed.
    ensures ActiveTerm(params, data).Some? && Paginated(NormalizeUsersResponse(data)) ==>
              var filtered := FilterUsers(Js.Get(NormalizeUsersResponse(data), "content").items, ActiveTerm(params, data).value);
              (filtered.Err? || !SizeParam(params).Num? ==> r.Err?) &&
              (filtered.Ok? && SizeParam(params).Num? ==>
                 r == Ok(GetAllResult(params.fields - {"search"},
                           FilteredPage(NormalizeUsersResponse(data), filtered.value, SizeParam(params).n, PageParam(params)))))
    // A plain array answer: filtered, nothing else.
    ensures ActiveTerm(params, data).Some? && !Paginated(NormalizeUsersResponse(data)) && NormalizeUsersResponse(data).Arr? ==>
              var filtered := FilterUsers(NormalizeUsersResponse(data).items, ActiveTerm(params, data).value);
              (filtered.Err? ==> r.Err?) &&
              (filtered.Ok? ==> r == Ok(GetAllResult(params.fields - {"search"}, Js.Arr(filtered.value))))
    // Any other answer is returned unfiltered.
    ensures ActiveTerm(params, data).Some? && !Paginated(NormalizeUsersResponse(data)) && !NormalizeUsersResponse(data).Arr? ==>
              r == Ok(GetAllResult(params.fields - {"search"}, NormalizeUsersResponse(data)))
  {
    match SearchTerm(params)
    case Err(e) => Err(e)
    case Ok(term) =>
      var backendParams := params.fields - {"search"};
      var normalized := NormalizeUsersResponse(data);
      if term.None? || term.value == "" || !Js.Truthy(normalized) then Ok(GetAllResult(backendParams, normalized))
      else
        var content := Js.Get(normalized, "content");
        if Js.Truthy(content) && content.Arr? then
          match FilterUsers(content.items, term.value)
          case Err(e) => Err(e)
          case Ok(filtered) =>
            var size := SizeParam(params);
            if !size.Num? || size.n == 0 then Err("non-numeric page size")
            else Ok(GetAllResult(backendParams, FilteredPage(normalized, filtered, size.n, PageParam(params))))
        else if normalized.Arr? then
          match FilterUsers(normalized.items, term.value)
          case Err(e) => Err(e)
          case Ok(filtered) => Ok(GetAllResult(backendParams, Js.Arr(filtered)))
        else Ok(GetAllResult(backendParams, normalized))
  }

  /** A filtered paginated answer reports the filtered count as both element counts, at least
      one page, the requested size (10 by default) and the requested page (0 by default). */
  lemma FilteredPageFields(normalized: Js.Value, filtered: seq<Js.Value>, size: int, page: Js.Value)
    requires size != 0
    ensures var p := FilteredPage(normalized, filtered, size, page).fields;
            p["content"] == Js.Arr(filtered) &&
            p["totalElements"] == p["numberOfElements"] == Js.Num(|filtered|) &&
            p["totalPages"].Num? && p["totalPages"].n >= 1 &&
            p["size"] == Js.Num(size) && p["number"] == page
  {
  }

  /** A search over a paginated answer returns a page whose content is exactly the users of the
      answer that match the term, in their order, with the counts and the page count taken from
      that filtered list and the requested size and page. */
  lemma SearchedPage(params: Js.Value, data: Js.Value)
    requires params.Obj?
    requires ActiveTerm(params, data).Some? && Paginated(NormalizeUsersResponse(data))
    requires GetAll(params, data).Ok?
    ensures var users := Js.Get(NormalizeUsersResponse(data), "content").items;
            var t := ActiveTerm(params, data).value;
            var p := GetAll(params, data).value.data;
            p.Obj? && "content" in p.fields && p.fields["content"].Arr? &&
            (forall u :: u in p.fields["content"].items <==> u in users && MatchesSearch(u, t) == Ok(true)) &&
            p.fields["totalElements"] == p.fields["numberOfElements"] == Js.Num(|p.fields["content"].items|) &&
            p.fields["totalPages"].Num? && p.fields["totalPages"].n >= 1 &&
            p.fields["size"] == SizeParam(params) && p.fields["number"] == PageParam(params)
  {
    var users := Js.Get(NormalizeUsersResponse(data), "content").items;
    var t := ActiveTerm(params, data).value;
    var filtered := FilterUsers(users, t);
    FilteredPageFields(NormalizeUsersResponse(data), filtered.value, SizeParam(params).n, PageParam(params));
  }

  // ---- Payloads ----

  /** `create(userData)`: the backend's field names; password and roles are renamed. */
  function CreatePayload(userData: Js.Value): (r: map<string, Js.Value>)
    requires !Js.IsNullish(userData)
    ensures "nombreUsuario" in r && r["nombreUsuario"] == Js.Get(userData, "nombreUsuario")
    ensures "passUsuario" in r && r["passUsuario"] == Js.Get(userData, "password")
    ensures "rolesIds" in r && r["rolesIds"] == Js.Get(userData, "roles")
  {
    map["nombreUsuario" := Js.Get(userData, "nombreUsuario"),
        "passUsuario" := Js.Get(userData, "password"),
        "rolesIds" := Js.Get(userData, "roles")]
  }

  /** `update(id, userData)`: as create, but the password is sent only when it is truthy. */
  function UpdatePayload(userData: Js.Value): (r: map<string, Js.Value>)
    requires !Js.IsNullish(userData)
    ensures "nombreUsuario" in r && r["nombreUsuario"] == Js.Get(userData, "nombreUsuario")
    ensures "passUsuario" in r <==> Js.Truthy(Js.Get(userData, "password"))
    ensures "passUsuario" in r ==> r["passUsuario"] == Js.Get(userData, "password")
    ensures "rolesIds" in r && r["rolesIds"] == Js.Get(userData, "roles")
  {
    var base := map["nombreUsuario" := Js.Get(userData, "nombreUsuario"), "rolesIds" := Js.Get(userData, "roles")];
    if Js.Truthy(Js.Get(userData, "password")) then base["passUsuario" := Js.Get(userData, "password")] else base
  }

  /** The two payloads carry exactly the backend's three fields, the update dropping the
      password when it is falsy; they agree on everything else. */
  lemma PayloadKeys(userData: Js.Value)
    requires !Js.IsNullish(userData)
    ensures CreatePayload(userData).Keys == {"nombreUsuario", "passUsuario", "rolesIds"}
    ensures UpdatePayload(userData).Keys ==
              if Js.Truthy(Js.Get(userData, "password")) then {"nombreUsuario", "passUsuario", "rolesIds"}
              else {"nombreUsuario", "rolesIds"}
    ensures UpdatePayload(userData) - {"passUsuario"} == CreatePayload(userData) - {"passUsuario"}
  {
  }
}
