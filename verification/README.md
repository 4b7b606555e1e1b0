# Client-side authorization of the clinical-evaluation front end, in Dafny

This project models the client-side authorization core of a React front end for clinical
evaluations, consultations, patients, users and sentiment analysis. The model covers:

- the authentication store (`src/store/authStore.js`) and the browser storage it writes
  through;
- the shaping of the login answer (`src/services/authService.js`) and of the user records
  (`src/services/userService.js`);
- the role and permission utilities (`src/utils/roleUtils.js`);
- the permissions hook (`src/hooks/usePermissions.js`) and the route guard
  (`src/components/common/ProtectedRoute.jsx`);
- the menus built from those checks (`Sidebar.jsx`, `QuickAccessMenu.jsx`);
- the pure rules of the list pages and of the evaluation forms: validation, submitted payloads,
  paging and permission gates;
- the mock two-step login provider (`src/context/AuthContext.jsx`);
- the concrete role cases of the script `test-role-logic.js`.

Each core file is one module, in one `.dfy` file with the same name in snake case. Code that
only computes becomes functions and lemmas. Stores, providers and page components keep their
state in a `class`. Its methods are specified against a state record and a transition
function, as in `State() == old(State()).(…)` or `State() == Submitted(old(State()), …).0`.
The lemmas about those transition functions state what each operation promises.

A few helper modules carry the host semantics the code relies on:

- `Wrappers`: `Option` and `Result`, standing for null/undefined and for a thrown error.
- `Js`: JSON-like values, truthiness, property reads and `parseInt`.
- `Strings`: `trim`, ASCII case mapping, `indexOf`, `split`, `startsWith`, `includes`, `\D`
  removal.
- `Seqs`: `filter`, `some` and `every`.
- `Session`: the signed-in identity and the three localStorage entries 'jwt_token', 'user'
  and 'auth-storage'.
- `Pagination`: the Previous and Next buttons shared by the list pages.

The network, the clock and the outcome of every HTTP call are parameters. A handler that
awaits a call takes a `callSucceeded` flag and returns the request it would send.

## Where the code and the documented design differ

The design describes one normalised identity. The code does not always produce one, and the
model follows the code:

- Neither `authStore.login` nor `authService.normalizeAuthResponse` reads a role object's
  name. Both apply `String(role).toUpperCase()`, so a role object becomes
  "[OBJECT OBJECT]" (`AuthStore.LoginRoleObjectBecomesText`,
  `AuthService.AnswerRoleObjectBecomesText`). The only code that unpacks a role object is the
  user service's normalisation, and it reads `idRoles`.
- `login` neither deduplicates roles nor lower-cases permissions.
- An empty role list becomes `['ADMIN']` only in `authService`; `login` keeps it empty.
- The store's own `hasRole` strips a `ROLE_` prefix and ignores case. The role utilities
  trim and upper-case instead (`AuthStore.StoreHasRoleIgnoresPrefix`).
- The store's `hasPermission` is case-sensitive, while the utilities lower-case
  (`AuthStore.PermissionChecksDisagreeOnCase`).
- An answer with status 401 clears 'jwt_token' and 'user' but not 'auth-storage'. The
  role utilities fall back to the user kept in 'auth-storage', so they still see the old
  identity until `checkAuth` runs (`AuthStore.UnauthorizedKeepsPersistedUser`).
- `canRead` and the other checks ignore case, but `getAllowedActions` compares the
  resource prefix as written.
- `getPermissionsByResource` drops empty actions such as that of "paciente:", which
  `getAllowedActions` keeps (`RoleUtils.GroupedAgreesWithAllowedActions`).
- The users page and the question form check the minimum length before trimming. A padded
  short value passes and is sent shorter than the minimum
  (`UsersPage.ShortNamePassesWithPadding`, `QuestionForm.PaddedShortQuestionSent`).
- The answer form's "at least 1 character" message can never show (`AnswerForm.TextError`).
- The sentiment page names SUICIDAL differently from `sentimentUtils`
  (`SentimentAnalysisPage.LabelsDisagreeOnlyOnSuicidal`).
- The sentiment page's read permission "analisis_sentimiento:read" uses a resource that the
  role utilities do not declare.
- Splitting a patient's name for editing and joining it again gives back the stored name only
  when there is no white space next to the first space (`PatientsPage.SplitThenJoin`).

Validation messages are stated with `Blank` (only white space), which
`Strings.BlankIffTrimEmpty` ties to an empty `trim()`.

## Model

| member | source | states |
|---|---|---|
| AuthContext.CreateToken | src/context/AuthContext.jsx:11-19 | a new token names the mock user as subject and expires 8 hours (28800 s) after the current whole second |
| AuthContext.TokenLifetime | src/context/AuthContext.jsx:11-28 | a new token is not expired for 8 hours less one second, and is expired once more than 8 hours have passed |
| AuthContext.LoginStepOne | src/context/AuthContext.jsx:33-38 | succeeds (with true) exactly for the mock user name and password; otherwise it fails with "Credenciales inválidas" |
| AuthContext.MfaValidated | src/context/AuthContext.jsx:40-47 | the right MFA code stores a token created now and returns true; any other code fails with "Código MFA incorrecto" and changes nothing |
| AuthContext.EffectRan | src/context/AuthContext.jsx:25-31 | with no token nothing changes; an expired token signs out; a live token publishes its subject as the user |
| AuthContext.MfaThenEffectSignsIn | src/context/AuthContext.jsx:25-47 | the right code, then the token effect within the token's lifetime, leaves the new token stored and the mock user signed in |
| AuthContext.OnlyMfaWritesToken | src/context/AuthContext.jsx:33-47 | only the correct MFA code changes the stored token; the credential step never does |
| AuthContext.Provider.constructor | src/context/AuthContext.jsx:21-23 | the provider starts with no token and no user |
| AuthContext.Provider.ValidateMfa | src/context/AuthContext.jsx:40-47 | the provider's new state and result are those of MfaValidated |
| AuthContext.Provider.RunTokenEffect | src/context/AuthContext.jsx:25-31 | the provider's new state is that of EffectRan |
| AuthContext.Provider.Logout | src/context/AuthContext.jsx:49-52 | clears both the token and the user |
| AuthService.RawRoles | src/services/authService.js:32-41 | an array is taken as it is; any other truthy value becomes a one-element list; a falsy one becomes empty |
| AuthService.NormalizeRoles | src/services/authService.js:44 | keeps the length, and each role becomes its text upper-cased and trimmed, in order |
| AuthService.NormalizeAuthResponse | src/services/authService.js:17-70 | a nullish answer throws and a missing token fails; it succeeds exactly for a non-nullish answer with a truthy token; on success the token is kept, username and nombre are the answer's username, there is at least one role, and permissions are the answer's or an empty list |
| AuthService.AnswerRoleObjectBecomesText | src/services/authService.js:31-44 | a role object {name: ...} in the answer becomes "[OBJECT OBJECT]", not its name |
| AuthService.RolesOfAnswer | src/services/authService.js:32-49 | the roles are the normalized roles in order, or ['ADMIN'] when the answer has none |
| AuthService.AnswerRolesAreNormalized | src/services/authService.js:44-60 | every role of a successful answer is already in the form the role utilities compare with (upper-case, trimmed) |
| AuthService.NormalizedRolesAreNormalized | src/services/authService.js:44 | every role the normalization produces is a fixed point of the role utilities' normal form |
| AuthService.LoginKeepsAnswerRoles | src/services/authService.js:56-69 | handing a successful answer's user to the store's login stores exactly the answer's roles |
| AuthStore.Partialize | src/store/authStore.js:167-173 | the persisted slice is the state's user, token and isAuthenticated |
| AuthStore.LoginRoles | src/store/authStore.js:61-67 | array roles become their text upper-cased, in order; another truthy value becomes a one-element list; a missing value becomes ['ADMIN'] |
| AuthStore.LoginRolesAreUpperCase | src/store/authStore.js:61-67 | every role login stores is upper-case |
| AuthStore.LoginRoleObjectBecomesText | src/store/authStore.js:63-64 | a role object {name: ...} is stored as "[OBJECT OBJECT]", not as its name |
| AuthStore.NormalizeLoginUser | src/store/authStore.js:61-71 | the stored user has the normalized roles, the payload's permissions when they are an array (else an empty list), and the payload's username |
| AuthStore.Initialized | src/store/authStore.js:12-31 | the state changes only by adopting a session under the stored token, which is then persisted; storage keeps its token unless both keys are removed; a state whose isAuthenticated matches its token keeps that property |
| AuthStore.CheckedAuth | src/store/authStore.js:35-50 | the answer is whether storage holds a truthy token; the keys are never touched; the world changes only to the logged-out state, and only when the store held a token |
| AuthStore.LoggedIn | src/store/authStore.js:53-86 | the state holds the normalized user and the token, authenticated; 'jwt_token' holds the token, 'auth-storage' the new slice, and the role utilities read the same user |
| AuthStore.LoggedOutFrom | src/store/authStore.js:88-97 | the state is logged out, both keys are gone, 'auth-storage' holds the empty slice, and the role utilities find no identity |
| AuthStore.UserUpdated | src/store/authStore.js:99-102 | only the user changes; token, isAuthenticated and the two keys stay, and 'auth-storage' holds the new slice |
| AuthStore.Unauthorized | src/services/api.js:49-54 | a 401 answer removes 'jwt_token' and 'user' from storage and leaves 'auth-storage' as it was |
| AuthStore.LoginEstablishesSession | src/store/authStore.js:53-86 | after login the state, both storage keys, and the identity the role utilities read all describe the same user and token |
| AuthStore.LogoutEndsSession | src/store/authStore.js:88-97 | after logout there is no state, no 'jwt_token' or 'user' key, and no identity for the role utilities; logging out twice is the same as once |
| AuthStore.CheckAuthCases | src/store/authStore.js:35-51 | a token gone from storage while the state holds one clears the state and returns false; otherwise nothing changes and the result says whether storage holds a token; running it twice gives the same |
| AuthStore.ExternalTokenRemovalDetected | src/store/authStore.js:35-51 | after login and a 401 answer, the next checkAuth clears the session and returns false |
| AuthStore.UnauthorizedKeepsPersistedUser | src/services/api.js:49-54 | after a 401 answer the role utilities still find the logged-in user, through 'auth-storage' |
| AuthStore.InitializeCases | src/store/authStore.js:12-32 | a session is adopted only from a truthy token and a parsable user; an unparsable user removes both keys and leaves the state as it was |
| AuthStore.TransitionsPreserveValid | src/store/authStore.js:6-102 | every transition keeps the invariant that isAuthenticated holds exactly when a token is present |
| AuthStore.PersistedSliceFollowsState | src/store/authStore.js:167-173 | after login, logout and updateUser, 'auth-storage' holds exactly the persisted slice of the new state |
| AuthStore.StripRolePrefix | src/store/authStore.js:128 | removes a leading "ROLE_" written in any case, and otherwise leaves the text alone |
| AuthStore.StripRolePrefixOf | src/store/authStore.js:128 | any spelling of the prefix is removed, and only once |
| AuthStore.AuthStore.constructor | src/store/authStore.js:6-9 | the store starts logged out |
| AuthStore.AuthStore.Set | src/store/authStore.js:167-173 | a set replaces the state and writes its persisted slice to 'auth-storage' |
| AuthStore.AuthStore.Initialize | src/store/authStore.js:12-32 | the new state and storage are those of Initialized |
| AuthStore.AuthStore.CheckAuth | src/store/authStore.js:35-51 | the new state, storage and result are those of CheckedAuth |
| AuthStore.AuthStore.Login | src/store/authStore.js:53-86 | the new state and storage are those of LoggedIn |
| AuthStore.AuthStore.Logout | src/store/authStore.js:88-97 | the new state and storage are those of LoggedOutFrom |
| AuthStore.AuthStore.UpdateUser | src/store/authStore.js:99-102 | replaces only the user, and persists the new slice |
| AuthStore.AuthStore.HasPermission | src/store/authStore.js:104-116 | true exactly when the user's permissions contain the permission as given, case-sensitively |
| AuthStore.AuthStore.HasRole | src/store/authStore.js:118-133 | true exactly when the user's roles contain the role with any "ROLE_" prefix removed, upper-cased |
| AuthStore.AuthStore.HasAnyRole | src/store/authStore.js:142-165 | true exactly when some required role passes HasRole; an empty list is never satisfied |
| AuthStore.StoreHasRoleIgnoresPrefix | src/store/authStore.js:118-133 | the store's role check gives the same answer with or without a "ROLE_" prefix in any case |
| AuthStore.PermissionChecksDisagreeOnCase | src/store/authStore.js:104-116 | a user holding "paciente:read" fails the store's check for "PACIENTE:READ" but passes the role utilities' check |
| RoleUtils.GetCurrentUser | src/utils/roleUtils.js:11-34 | a truthy 'user' entry decides (its parsed user, or null when it does not parse); otherwise the user persisted under 'auth-storage', or null |
| RoleUtils.NormRoleIdempotent | src/utils/roleUtils.js:46-50 | normalizing a role name (upper-case, then trim) twice is the same as once |
| RoleUtils.NormPermIdempotent | src/utils/roleUtils.js:100-104 | normalizing a permission name (lower-case, then trim) twice is the same as once |
| RoleUtils.CanonicalRoleName | src/utils/roleUtils.js:306-314 | a role name made of capitals, digits and underscores, as all the declared roles are, is already in normal form |
| RoleUtils.HasRole | src/utils/roleUtils.js:41-52 | true exactly when there is an identity with a role list holding a role equal to the name up to case and surrounding white space |
| RoleUtils.HasRoleIgnoresCaseAndSpace | src/utils/roleUtils.js:41-52 | the answer for a name is the same as for its normalized form |
| RoleUtils.HasAnyRole | src/utils/roleUtils.js:67-70 | true exactly when the list is an array, is non-empty, and some entry is held; anything else is false |
| RoleUtils.HasAllRoles | src/utils/roleUtils.js:85-88 | true exactly when the list is an array, is non-empty, and every entry is held |
| RoleUtils.HasPermission | src/utils/roleUtils.js:95-106 | true exactly when there is an identity with a permission list holding a permission equal to the name up to case and surrounding white space |
| RoleUtils.HasPermissionIgnoresCaseAndSpace | src/utils/roleUtils.js:95-106 | the answer for a name is the same as for its normalized form |
| RoleUtils.HasAnyPermission | src/utils/roleUtils.js:113-116 | true exactly when the list is an array, is non-empty, and some entry is held |
| RoleUtils.HasAllPermissions | src/utils/roleUtils.js:123-126 | true exactly when the list is an array, is non-empty, and every entry is held |
| RoleUtils.SingletonAnyAll | src/utils/roleUtils.js:67-126 | on a one-element list, "any", "all" and the single check give the same answer, for roles and for permissions |
| RoleUtils.AllImpliesAny | src/utils/roleUtils.js:67-126 | holding every entry of a list implies holding some entry of it, for roles and for permissions |
| RoleUtils.HasAnyRoleMonotone | src/utils/roleUtils.js:67-70 | adding names to the accepted list never takes access away |
| RoleUtils.HasResourcePermission | src/utils/roleUtils.js:134-137 | true exactly when the permission "resource:action" is held |
| RoleUtils.IsAdmin | src/utils/roleUtils.js:143-145 | true exactly when a held role normalizes to ADMIN |
| RoleUtils.IsDoctor | src/utils/roleUtils.js:151-153 | true exactly when a held role normalizes to DOCTOR |
| RoleUtils.IsNurse | src/utils/roleUtils.js:159-161 | true exactly when a held role normalizes to ENFERMERO |
| RoleUtils.GetUserRoles | src/utils/roleUtils.js:167-170 | the identity's roles, or an empty list when there is no identity or no role list |
| RoleUtils.GetUserPermissions | src/utils/roleUtils.js:176-179 | the identity's permissions, or an empty list when there is no identity or no permission list |
| RoleUtils.HasRoleReadsUserRoles | src/utils/roleUtils.js:41-52 | the role check holds exactly when a role in getUserRoles() matches the name after normalization |
| RoleUtils.ResourceAction | src/utils/roleUtils.js:190-191 | a permission is kept only when it is text whose first two ':'-separated parts are non-empty and free of ':'; the permission then starts with "resource:" |
| RoleUtils.GroupedEntry | src/utils/roleUtils.js:185-200 | the grouping holds a resource exactly when some permission grants an action on it, and maps it to those actions in the order the permissions list them |
| RoleUtils.GetPermissionsByResource | src/utils/roleUtils.js:185-200 | the loop builds exactly the grouping of the identity's permissions, and no resource maps to an empty list |
| RoleUtils.CanAccessResource | src/utils/roleUtils.js:207-210 | true exactly when some permission is text starting with "resource:" |
| RoleUtils.ActionPart | src/utils/roleUtils.js:221 | `split(':')[1]` of a permission on the resource contains no colon; for a resource name without one it is exactly the text after "resource:" up to the next colon or the end |
| RoleUtils.ActionPartShape | src/utils/roleUtils.js:220-221 | for a resource name without a colon, the permission is "resource:action" or starts with "resource:action:", where action is its second colon-separated piece |
| RoleUtils.AllowedActions | src/utils/roleUtils.js:217-222 | one action for each permission that starts with the resource name and a colon, in order; no action contains a colon, and for a resource name without one the permission is "resource:action" or starts with "resource:action:" |
| RoleUtils.GetAllowedActions | src/utils/roleUtils.js:217-222 | one action for each of the identity's permissions on the resource, in order; each is that permission's text after "resource:" up to the next colon or the end |
| RoleUtils.GroupedAgreesWithAllowedActions | src/utils/roleUtils.js:185-222 | for a resource name without ':', the grouping's list is getAllowedActions' list with empty actions (from a permission such as "paciente:") dropped |
| RoleUtils.CanAccessIffAllowedActions | src/utils/roleUtils.js:207-222 | a resource is accessible exactly when it has at least one allowed action |
| RoleUtils.StoredPermissionGrantsAction | src/utils/roleUtils.js:134-222 | a stored permission "resource:action" passes hasResourcePermission(resource, action) and lists action among the allowed actions of the resource |
| UserService.NormalizeRole | src/services/userService.js:15-22 | a role object with a truthy idRoles gives that value; anything else gives its text |
| UserService.NormalizeRoleList | src/services/userService.js:14-22 | keeps the length and normalizes each role in place |
| UserService.NormalizeUserRoles | src/services/userService.js:9-25 | a falsy user is returned as it is; otherwise every other field is copied, and roles become the normalized list, or empty when they are not an array |
| UserService.NormalizeUserRolesIdempotent | src/services/userService.js:9-25 | once every role is text, normalizing a second time changes nothing |
| UserService.NormalizeUsersResponse | src/services/userService.js:30-48 | a falsy answer is returned as it is; a paginated answer has each content item normalized; an array has each element normalized; any other value is normalized as a single user |
| UserService.MapNormalize | src/services/userService.js:37-43 | keeps the length and normalizes each user in place |
| UserService.GetRoles | src/services/userService.js:135-150 | an array answer is normalized entry by entry; anything else is returned as it is |
| UserService.SearchTerm | src/services/userService.js:60 | a missing search gives no term; a text search gives its lower-cased, trimmed text |
| UserService.MatchesSearch | src/services/userService.js:81-85 | it throws exactly when the user is null or undefined or its nombreUsuario is set but not text; otherwise a user matches exactly when its lower-cased name or the text of its id contains the term |
| UserService.FilterUsers | src/services/userService.js:81-106 | succeeds exactly when no user's test throws, and then keeps exactly the matching users, in order |
| UserService.SearchIgnoresNameCase | src/services/userService.js:82 | the letter case of a stored user name does not change whether it matches |
| UserService.SizeParam | src/services/userService.js:96 | always truthy: the requested size when that is truthy, otherwise the default |
| UserService.TotalPages | src/services/userService.js:95 | at least 1, and for a positive size the smallest page count that holds every element |
| UserService.GetAll | src/services/userService.js:56-120 | 'search' is removed from the parameters sent and every other parameter is kept; a search value that is not text fails; without a non-empty term or with a falsy answer the result is the normalized answer unfiltered; with a term, a paginated answer gets its content filtered by FilterUsers and its page data rebuilt by FilteredPage with the requested size and page, a plain array is filtered, any other answer is returned as is; a failing match, or a page size that is not a number, fails the call |
| UserService.SearchedPage | src/services/userService.js:75-98 | a search over a paginated answer returns exactly the matching users, with totalElements and numberOfElements equal to their count, at least one page, and the requested size and page |
| UserService.FilteredPage | src/services/userService.js:90-98 | the rebuilt page is an object with the answer's keys plus the six page keys, and every other field of the answer kept as it was |
| UserService.FilteredPageFields | src/services/userService.js:89-98 | a filtered page holds the filtered content, reports its count as totalElements and numberOfElements, at least one page, and the requested size and page |
| UserService.CreatePayload | src/services/userService.js:153-159 | sends nombreUsuario, the password as passUsuario, and the roles as rolesIds |
| UserService.UpdatePayload | src/services/userService.js:182-192 | sends nombreUsuario and rolesIds, and passUsuario exactly when the password is truthy |
| UserService.PayloadKeys | src/services/userService.js:153-192 | the create payload has exactly the three backend fields; the update payload drops only a falsy password; the two agree on everything else |
| ProtectedRoute.Decide | src/components/common/ProtectedRoute.jsx:27-93 | an unauthenticated user is redirected to /login; a declared role list the user does not meet denies access, showing those roles; an authenticated user who meets the roles but fails a declared permission list gets the permission denial, showing those permissions; the page renders exactly when authenticated, roles met and permissions met (all or any, as requireAllPermissions says) |
| ProtectedRoute.RenderIff | src/components/common/ProtectedRoute.jsx:33-92 | the page renders exactly for an authenticated user meeting the declared roles (any) and the declared permissions (all when requireAllPermissions, else any) |
| ProtectedRoute.PermissionAccess | src/components/common/ProtectedRoute.jsx:65-67 | with requireAllPermissions every listed permission is held; otherwise at least one is |
| ProtectedRoute.SingletonsAreSingleChecks | src/components/common/ProtectedRoute.jsx:66 | hasAnyPermission of a one-element list is the check of that permission alone |
| ProtectedRoute.RequireAllMeansAll | src/components/common/ProtectedRoute.jsx:65-67 | checking each permission on its own as a one-element "any" list is the same as hasAllPermissions |
| ProtectedRoute.UnrestrictedRouteRenders | src/components/common/ProtectedRoute.jsx:40-92 | a route declaring no roles and no permissions (absent or empty) renders for every authenticated user |
| ProtectedRoute.RoleDenialIgnoresPermissions | src/components/common/ProtectedRoute.jsx:40-61 | a role mismatch is reported before, and whatever, the permissions say |
| ProtectedRoute.RequireAllIsStricter | src/components/common/ProtectedRoute.jsx:64-67 | a route that renders when all permissions are required also renders when any is enough |
| UsePermissions.UsePermissions | src/hooks/usePermissions.js:32-85 | user, roles and permissions are the identity's own, username is its username, isAdmin, isDoctor and isNurse are the role utilities' checks, and isAuthenticated holds exactly when there is an identity; the resource fields are present exactly for a non-empty resource; the grouped permissions are those of getPermissionsByResource, and allowedActions is getAllowedActions of the resource |
| UsePermissions.ResourceFlags | src/hooks/usePermissions.js:46-55 | canRead, canCreate, canUpdate and canDelete are exactly the four "resource:action" permission checks |
| UsePermissions.StoredReadPermission | src/hooks/usePermissions.js:46-55 | a stored "resource:read" permission sets canRead and lists "read" among the allowed actions |
| UsePermissions.FlagsAndActionsDisagreeOnCase | src/hooks/usePermissions.js:49-53 | a user holding only "PACIENTE:READ" gets canRead on "paciente" but no allowed action on it |
| UsePermissions.UpperCaseReadPermission | src/hooks/usePermissions.js:49 | the flag for "paciente"/"read" is set by a stored "PACIENTE:READ" |
| UsePermissions.NoActionForUpperCasePermission | src/hooks/usePermissions.js:53 | the allowed actions on "paciente" are empty for a user holding only "PACIENTE:READ" |
| Sidebar.FilterSection | src/components/layout/Sidebar.jsx:137-140 | keeps the section's id and name, and keeps exactly the items that declare no roles or whose roles the user meets |
| Sidebar.FilteredSections | src/components/layout/Sidebar.jsx:136-141 | never more sections than declared, and no shown section is empty |
| Sidebar.FilteredSectionsMembers | src/components/layout/Sidebar.jsx:136-141 | a section is shown exactly when it is the narrowing of a declared section and some item of it survives |
| Sidebar.FilteredSectionsAppend | src/components/layout/Sidebar.jsx:136-141 | filtering works section by section, so shown sections keep their declared order |
| Sidebar.OnlyUsuariosIsNamedSo | src/components/layout/Sidebar.jsx:37-134 | the only navigation entry named "Usuarios" is the one restricted to ADMIN |
| Sidebar.UsuariosVisibleIffAdmin | src/components/layout/Sidebar.jsx:116-141 | the user-management entry is shown exactly to holders of ADMIN |
| Sidebar.AdminSeesUsuarios | src/components/layout/Sidebar.jsx:116-141 | a holder of ADMIN is shown the user-management entry |
| Sidebar.UsuariosNeedsAdmin | src/components/layout/Sidebar.jsx:116-141 | whoever is shown the user-management entry holds ADMIN |
| Sidebar.EveryItemAdmitsAdmin | src/components/layout/Sidebar.jsx:37-134 | every declared section has items, and every item lists ADMIN among its roles |
| Sidebar.AllVisibleKept | src/components/layout/Sidebar.jsx:136-141 | when every item is visible and no section is empty, filtering changes nothing |
| Sidebar.AdminSeesEverything | src/components/layout/Sidebar.jsx:37-141 | a holder of ADMIN sees the whole navigation table unchanged |
| Sidebar.Toggled | src/components/layout/Sidebar.jsx:30-35 | the toggled section flips (an absent one reads as collapsed and becomes expanded); every other entry is unchanged |
| Sidebar.ToggleTwice | src/components/layout/Sidebar.jsx:30-35 | toggling a known section twice gives back the map it started from |
| Sidebar.SidebarState.constructor | src/components/layout/Sidebar.jsx:23-28 | every section starts expanded |
| Sidebar.SidebarState.ToggleSection | src/components/layout/Sidebar.jsx:30-35 | the new expansion map is Toggled of the old one |
| Pagination.Prev | src/pages/PatientsPage.jsx:532 | Math.max(0, prev - 1): at least 0 and at least the page before, and equal to one of them |
| Pagination.Next | src/pages/PatientsPage.jsx:539 | Math.min(totalPages - 1, prev + 1): at most the last page and at most the page after, and equal to one of them |
| Pagination.StepsStayInRange | src/pages/ConsultationsPage.jsx:206-222 | from a valid page both steps land on a valid page, move by at most one, and stand still exactly at the end where that button is disabled |
| Pagination.StepsClamp | src/pages/ConsultationsPage.jsx:208-218 | from any page the next step never passes the last page and the previous step never goes below the first |
| QuickAccessMenu.FilteredActions | src/components/common/QuickAccessMenu.jsx:93-95 | keeps exactly the declared actions that declare no roles or whose roles the user meets |
| QuickAccessMenu.EveryActionAdmitsAdmin | src/components/common/QuickAccessMenu.jsx:18-91 | every quick action declares a role list containing ADMIN |
| QuickAccessMenu.AdminSeesAllActions | src/components/common/QuickAccessMenu.jsx:18-95 | a holder of ADMIN gets every action, in the declared order |
| QuickAccessMenu.GestionUsuariosIffAdmin | src/components/common/QuickAccessMenu.jsx:73-95 | the user-management shortcut is shown exactly to holders of ADMIN |
| QuickAccessMenu.NoRolesNoActions | src/components/common/QuickAccessMenu.jsx:18-95 | every action declares roles, so an identity without roles sees no action |
| RoleLogicTest.HasAnyRole | test-role-logic.js:85-92 | true exactly when the required list is an array, is non-empty, and some required role equals some user role once both are upper-cased |
| RoleLogicTest.NormRoleOfUntrimmed | test-role-logic.js:85-92 | for a role without surrounding white space, the role utilities' comparison form is just its upper-case |
| RoleLogicTest.AgreesWithRoleUtils | test-role-logic.js:84-92 | the script's check gives the same answer as the role utilities' hasAnyRole whenever no role name carries surrounding white space |
| RoleLogicTest.DoctorReachesAdminDoctor | test-role-logic.js:120-125 | a DOCTOR reaches a route for [ADMIN, DOCTOR] |
| RoleLogicTest.NurseDeniedAdminDoctor | test-role-logic.js:126-131 | an ENFERMERO is denied a route for [ADMIN, DOCTOR] |
| RoleLogicTest.DoctorAnalystReachesAnalyst | test-role-logic.js:132-137 | a [DOCTOR, ANALISTA] user reaches a route for [ANALISTA] |
| RoleLogicTest.AdminReachesAdmin | test-role-logic.js:138-143 | an ADMIN reaches a route for [ADMIN] |
| RoleLogicTest.ReceptionistDeniedClinical | test-role-logic.js:144-149 | a RECEPCIONISTA is denied a route for [ADMIN, DOCTOR, ENFERMERO] |
| RoleLogicTest.AdminHasNoBypass | test-role-logic.js:184-187 | ADMIN gets no implicit access: both the script's check and the role utilities deny an ADMIN a route for [ENFERMERO] |
| RoleLogicTest.DoctorAnalystReachesClinicalRoute | test-role-logic.js:179-182 | the route guard renders a route for [ADMIN, DOCTOR, ENFERMERO] to an authenticated [DOCTOR, ANALISTA] user |
| ConsultationList.Find | src/components/consultations/ConsultationList.jsx:31 | returns a listed option whose id equals the status strictly (only a number can match), and none exactly when no option's id does |
| ConsultationList.StatusIdsArePositions | src/components/consultations/ConsultationList.jsx:21-28 | the status table's ids are 1 to 6, in order |
| ConsultationList.StatusColor | src/components/consultations/ConsultationList.jsx:30-33 | ids 1 to 6 give their table color; anything else gives 'gray' |
| ConsultationList.StatusName | src/components/consultations/ConsultationList.jsx:35-38 | ids 1 to 6 give their table name; anything else gives 'DESCONOCIDO' |
| ConsultationList.DisplayedStatusName | src/components/consultations/ConsultationList.jsx:102-104 | a truthy estatusConsultaNombre on the row is shown as it is; otherwise the name looked up from the status id |
| ConsultationList.RowButtons | src/components/consultations/ConsultationList.jsx:119-158 | each button needs its callback; Editar and Estado show unless the status reads COMPLETADA, Finalizar only at EN_PROGRESO and Eliminar only at PENDIENTE, in terms of the status table |
| ConsultationList.ButtonsNeedCallbacks | src/components/consultations/ConsultationList.jsx:117-168 | no button appears without the callback it calls |
| ConsultationList.ButtonsByStatus | src/components/consultations/ConsultationList.jsx:128-166 | a completed consultation (status 3) shows no edit, status, finish or delete button; finish needs status 2 and delete needs status 1, so the two never show together |
| ConsultationList.AllCallbacksButtons | src/components/consultations/ConsultationList.jsx:117-168 | with every callback passed, Ver always shows, Editar and Estado show exactly when the status is not 3, Finalizar exactly at 2 and Eliminar exactly at 1 |
| ConsultationList.StatusDialog.constructor | src/components/consultations/ConsultationList.jsx:17-18 | no consultation is selected and the status dialog is closed |
| ConsultationList.StatusDialog.Open | src/components/consultations/ConsultationList.jsx:137-148 | the row becomes the selection and the dialog opens |
| ConsultationList.StatusDialog.HandleStatusUpdate | src/components/consultations/ConsultationList.jsx:51-57 | the parent is told the consultation's id and the new status exactly when it passed onUpdateStatus; the dialog closes and the selection clears either way |
| ConsultationsPage.Render | src/pages/ConsultationsPage.jsx:31-200 | without "consulta:read" the page shows only the denial message; otherwise Nueva Consulta needs "consulta:create", Ver is always wired, Editar/Estado/Finalizar need "consulta:update" and Eliminar needs "consulta:delete" |
| ConsultationsPage.LoadsConsultations | src/pages/ConsultationsPage.jsx:37-41 | the loading effect runs exactly when the list is shown, that is, with read permission |
| ConsultationsPage.RowActionsFollowPermissions | src/pages/ConsultationsPage.jsx:194-200 | whatever a row's status, it offers no Editar, Estado or Finalizar without "consulta:update", no Eliminar without "consulta:delete", and always offers Ver |
| ConsultationsPage.SubmitCallFor | src/pages/ConsultationsPage.jsx:88-94 | an update exactly when editing with a truthy selection, otherwise a create |
| ConsultationsPage.ConsultationsPageState.constructor | src/pages/ConsultationsPage.jsx:15-29 | page 0 of 0, no selection, not editing, no form and no details shown |
| ConsultationsPage.ConsultationsPageState.HandleCreate | src/pages/ConsultationsPage.jsx:66-70 | clears the selection and the editing flag and opens the form; paging and details are untouched |
| ConsultationsPage.ConsultationsPageState.HandleEdit | src/pages/ConsultationsPage.jsx:72-76 | selects the consultation, sets editing and opens the form; paging and details are untouched |
| ConsultationsPage.ConsultationsPageState.HandleViewDetails | src/pages/ConsultationsPage.jsx:78-81 | selects the consultation and shows details, leaving the editing flag and the form alone |
| ConsultationsPage.ConsultationsPageState.HandleSubmit | src/pages/ConsultationsPage.jsx:83-104 | the call made is SubmitCallFor of the state before; success closes the form and clears the selection, failure leaves both; the editing flag is never reset |
| ConsultationsPage.ConsultationsPageState.PrevPage | src/pages/ConsultationsPage.jsx:207-212 | moves to the previous page, not below 0, staying in range; nothing else changes |
| ConsultationsPage.ConsultationsPageState.NextPage | src/pages/ConsultationsPage.jsx:217-222 | moves to the next page, not past the last, staying in range; nothing else changes |
| EvaluationsPage.TabPermission | src/pages/EvaluationsPage.jsx:50-63 | each of the twelve flags is the permission "resource:action" for its tab's resource (evaluacion, evaluacion_pregunta, evaluacion_respuesta) |
| EvaluationsPage.Capability | src/pages/EvaluationsPage.jsx:199-212 | canCreate, canUpdate and canDelete hold exactly when the active tab's "resource:action" permission is held |
| EvaluationsPage.EveryTabListed | src/pages/EvaluationsPage.jsx:193-197 | the tab list names all three tabs |
| EvaluationsPage.VisibleTabs | src/pages/EvaluationsPage.jsx:193-231 | a tab button is shown exactly when that tab's read permission is held |
| EvaluationsPage.LoadsData | src/pages/EvaluationsPage.jsx:69-88 | the active tab's rows are fetched exactly when that tab is among the visible tabs |
| EvaluationsPage.SubmitCallFor | src/pages/EvaluationsPage.jsx:113-142 | the call goes to the active tab's service, and is an update exactly when editing with a truthy selection |
| EvaluationsPage.EvaluationsPageState.constructor | src/pages/EvaluationsPage.jsx:24-45 | the evaluations tab, page 0 of 0, no selection, not editing, no form |
| EvaluationsPage.EvaluationsPageState.SelectTab | src/pages/EvaluationsPage.jsx:234-237 | switches to the tab and goes back to page 0; nothing else changes |
| EvaluationsPage.EvaluationsPageState.HandleCreate | src/pages/EvaluationsPage.jsx:96-100 | clears the selection and the editing flag and opens the form; tab and paging are untouched |
| EvaluationsPage.EvaluationsPageState.HandleEdit | src/pages/EvaluationsPage.jsx:102-106 | selects the row, sets editing and opens the form; tab and paging are untouched |
| EvaluationsPage.EvaluationsPageState.HandleSubmit | src/pages/EvaluationsPage.jsx:113-152 | the call made is SubmitCallFor of the state before; success closes the form and clears the selection, failure leaves both; the editing flag is never reset |
| EvaluationsPage.EvaluationsPageState.PrevPage | src/pages/EvaluationsPage.jsx:326 | moves to the previous page, not below 0, staying in range; nothing else changes |
| EvaluationsPage.EvaluationsPageState.NextPage | src/pages/EvaluationsPage.jsx:336 | moves to the next page, not past the last, staying in range; nothing else changes |
| AnswerForm.InitialForm | src/components/evaluations/AnswerForm.jsx:17-21 | the question is the caller's id when truthy, else empty text; no answer text; sentiment analysis on |
| AnswerForm.LoadedForm | src/components/evaluations/AnswerForm.jsx:33-41 | an existing answer loads its question id (or empty text) and its text (or empty text), and switches sentiment analysis back on |
| AnswerForm.WithInput | src/components/evaluations/AnswerForm.jsx:55-60 | the select and the text area store the input's text, the checkbox its checked state; no other field changes |
| AnswerForm.Cleared | src/components/evaluations/AnswerForm.jsx:61-67 | editing a field clears its own message and no other |
| AnswerForm.TextError | src/components/evaluations/AnswerForm.jsx:77-83 | no message exactly when the text is not blank and is at most 5000 characters; blank gives "obligatorio", over 5000 gives "no puede exceder"; the "al menos 1 carácter" message can never be set |
| AnswerForm.FormErrors | src/components/evaluations/AnswerForm.jsx:70-87 | the question message is set exactly when the question id is falsy; the text message is TextError of the text |
| AnswerForm.AcceptedIff | src/components/evaluations/AnswerForm.jsx:70-87 | a form passes exactly when a question is chosen and the text, once trimmed, is non-empty and is at most 5000 characters |
| AnswerForm.Validate | src/components/evaluations/AnswerForm.jsx:70-87 | the messages set are FormErrors of the form, and the result says that there are none |
| AnswerForm.SubmittedAnswer | src/components/evaluations/AnswerForm.jsx:96-100 | an accepted form sends a non-empty text with no white space at either end, at most 5000 characters long, and the checkbox as it stands |
| AnswerForm.SubmittedQuestion | src/components/evaluations/AnswerForm.jsx:97-134 | a question id held as its decimal text (from the select) or as a number (from the caller) is sent as that id after parseInt |
| AnswerForm.AnswerFormState.constructor | src/components/evaluations/AnswerForm.jsx:17-25 | the form starts as InitialForm with no messages |
| AnswerForm.AnswerFormState.LoadAnswer | src/components/evaluations/AnswerForm.jsx:33-41 | the form becomes LoadedForm of the answer; messages are untouched |
| AnswerForm.AnswerFormState.HandleChange | src/components/evaluations/AnswerForm.jsx:55-68 | the form becomes WithInput of the old form, and the messages become Cleared of the old ones for that field |
| AnswerForm.AnswerFormState.HandleSubmit | src/components/evaluations/AnswerForm.jsx:89-103 | the messages become FormErrors of the unchanged form; data is handed on exactly when there are none, and it is then SubmitDataOf the form |
| QuestionForm.LoadedForm | src/components/evaluations/QuestionForm.jsx:17-23 | an existing question loads its text, or empty text when that is falsy |
| QuestionForm.FormErrors | src/components/evaluations/QuestionForm.jsx:40-53 | no message exactly when the text is not blank and is 5 to 1000 characters long as typed; "obligatorio" exactly when blank, "al menos 5" exactly when not blank and shorter than 5, "no puede exceder" exactly when not blank and over 1000 |
| QuestionForm.Validate | src/components/evaluations/QuestionForm.jsx:40-53 | the message set is FormErrors of the form, and the result says that there is none |
| QuestionForm.SubmittedQuestion | src/components/evaluations/QuestionForm.jsx:62-64 | an accepted question is sent non-empty, with no white space at either end, and at most 1000 characters long |
| QuestionForm.SubmittedUnpadded | src/components/evaluations/QuestionForm.jsx:45-64 | an accepted question typed without surrounding white space is sent as typed, 5 to 1000 characters long |
| QuestionForm.PaddedShortQuestionSent | src/components/evaluations/QuestionForm.jsx:45-64 | the minimum is checked before trimming: "  abc" passes and the three-character "abc" is sent |
| QuestionForm.QuestionFormState.constructor | src/components/evaluations/QuestionForm.jsx:11-15 | empty text and no message |
| QuestionForm.QuestionFormState.LoadQuestion | src/components/evaluations/QuestionForm.jsx:17-23 | the form becomes LoadedForm of the question; the message is untouched |
| QuestionForm.QuestionFormState.HandleChange | src/components/evaluations/QuestionForm.jsx:25-38 | stores the typed text and leaves no message |
| QuestionForm.QuestionFormState.HandleSubmit | src/components/evaluations/QuestionForm.jsx:55-67 | the message becomes FormErrors of the unchanged form; data is handed on exactly when there is none, and it is then the trimmed text |
| EvaluationForm.LoadedForm | src/components/evaluations/EvaluationForm.jsx:26-34 | each of the three fields loads the evaluation's text, or empty text when that is falsy |
| EvaluationForm.WithInput | src/components/evaluations/EvaluationForm.jsx:36-41 | the typed text replaces that field and no other |
| EvaluationForm.Cleared | src/components/evaluations/EvaluationForm.jsx:42-48 | editing a field clears its own message and no other |
| EvaluationForm.FormErrors | src/components/evaluations/EvaluationForm.jsx:51-70 | the name is required once trimmed and may not exceed 100 characters (each message exactly in its case); title and area draw a message exactly when longer than 100 characters |
| EvaluationForm.Validate | src/components/evaluations/EvaluationForm.jsx:51-70 | the messages set are FormErrors of the form, and the result says that there are none |
| EvaluationForm.AcceptedIff | src/components/evaluations/EvaluationForm.jsx:51-70 | a form passes exactly when the trimmed name is non-empty and no field exceeds 100 characters |
| EvaluationForm.SelectedAreaAccepted | src/components/evaluations/EvaluationForm.jsx:17-24 | any area the select offers, or none, never draws a message |
| EvaluationForm.TrimmedOrNull | src/components/evaluations/EvaluationForm.jsx:82-83 | null exactly when the text is blank |
| EvaluationForm.TrimmedOrNullSent | src/components/evaluations/EvaluationForm.jsx:82-83 | an optional field sent as text is non-empty, has no white space at either end, and is no longer than what was typed |
| EvaluationForm.SubmittedEvaluation | src/components/evaluations/EvaluationForm.jsx:72-87 | an accepted form sends a non-empty trimmed name of at most 100 characters, and each optional field as null exactly when blank, otherwise at most 100 characters |
| EvaluationForm.SelectedAreaSent | src/components/evaluations/EvaluationForm.jsx:83-152 | an area picked from the select is sent as it is; "Seleccione un área" sends null |
| EvaluationForm.EvaluationFormState.constructor | src/components/evaluations/EvaluationForm.jsx:8-14 | three empty fields and no messages |
| EvaluationForm.EvaluationFormState.LoadEvaluation | src/components/evaluations/EvaluationForm.jsx:26-34 | the form becomes LoadedForm of the evaluation; messages are untouched |
| EvaluationForm.EvaluationFormState.HandleChange | src/components/evaluations/EvaluationForm.jsx:36-49 | the form becomes WithInput of the old form, and the messages become Cleared of the old ones for that field |
| EvaluationForm.EvaluationFormState.HandleSubmit | src/components/evaluations/EvaluationForm.jsx:72-87 | the messages become FormErrors of the unchanged form; data is handed on exactly when there are none, and it is then SubmitDataOf the form |
| UsersPage.CanRead | src/pages/UsersPage.jsx:25 | the page can be read exactly when the user holds the "usuario:read" permission |
| UsersPage.ReadPermissionName | src/pages/UsersPage.jsx:25 | the permission the hook builds for the users page is "usuario:read" |
| UsersPage.NameError | src/pages/UsersPage.jsx:137-141 | the name has a message exactly when it is blank or shorter than three characters, "obligatorio" when blank and "Mínimo 3" otherwise |
| UsersPage.PasswordError | src/pages/UsersPage.jsx:143-147 | the password has a message exactly when it is empty on create or typed with fewer than six characters, "obligatoria" when empty and "Mínimo 6" otherwise |
| UsersPage.FormErrors | src/pages/UsersPage.jsx:134-156 | each field's message is present exactly under its rule: name blank or short, password missing on create or short, no role ticked |
| UsersPage.FormValidIff | src/pages/UsersPage.jsx:134-156 | a form passes exactly when the name is not blank and has at least three characters, the password has at least six or is empty while editing, and a role is ticked |
| UsersPage.ValidateForm | src/pages/UsersPage.jsx:134-156 | the error object is FormErrors of the form and the result is true exactly when it has no keys |
| UsersPage.PasswordOptionalWhenEditing | src/pages/UsersPage.jsx:143-147 | an empty password is no error when a user is selected and is "obligatoria" otherwise |
| UsersPage.ShortNamePassesWithPadding | src/pages/UsersPage.jsx:137-141 | "  a" passes the name rules but is trimmed to the one-character "a" on submit |
| UsersPage.ToggleRole | src/pages/UsersPage.jsx:219-226 | a ticked role is removed and every other role keeps its membership; an unticked role is appended |
| UsersPage.ToggleAbsentTwice | src/pages/UsersPage.jsx:219-226 | ticking and then unticking a role restores the list |
| UsersPage.TogglePresentTwice | src/pages/UsersPage.jsx:219-226 | unticking and then ticking a role removes its copies and appends it once at the end |
| UsersPage.SubmitData | src/pages/UsersPage.jsx:169-177 | the data sent has the trimmed name, the roles as ticked, and a password only when one was typed |
| UsersPage.SubmitCall | src/pages/UsersPage.jsx:158-187 | no call exactly when validation fails; otherwise an update of the selected user's idUsuario when one is selected and a create when none is, both with SubmitData |
| UsersPage.SubmittedBody | src/pages/UsersPage.jsx:167-187 | the body the user service sends carries the ticked roles as rolesIds, passUsuario exactly on create or when a password was typed, and on create a password of at least six characters |
| UsersPage.PageSize | src/pages/UsersPage.jsx:69 | the page size is positive, and 1000 exactly when a search term is present |
| UsersPage.LoadParams | src/pages/UsersPage.jsx:66-75 | the load parameters carry page = currentPage and sort "idUsuario,desc", carry "search" with the term exactly when there is a search term, and the size the user service reads is PageSize |
| UsersPage.EditForm | src/pages/UsersPage.jsx:113-118 | editing fills the name and the roles array from the row (empty when falsy) and never a password |
| UsersPage.SubmittedEffects | src/pages/UsersPage.jsx:158-195 | a submit records FormErrors, makes the call SubmitCall names, closes the edit or the create modal only after a successful call, and changes nothing else |
| UsersPage.UsersPageState.constructor | src/pages/UsersPage.jsx:33-52 | an empty form, no errors, no selection, no search, the first page, both modals closed |
| UsersPage.UsersPageState.HandleCreate | src/pages/UsersPage.jsx:102-111 | a blank form, no errors, no selection and the create modal open; search, page and edit modal unchanged |
| UsersPage.UsersPageState.HandleEdit | src/pages/UsersPage.jsx:113-122 | the form is EditForm of the row, errors cleared, the row selected and the edit modal open; the rest unchanged |
| UsersPage.UsersPageState.HandleSearch | src/pages/UsersPage.jsx:214-217 | the new term is stored and the page goes back to the first; everything else unchanged |
| UsersPage.UsersPageState.HandleRoleToggle | src/pages/UsersPage.jsx:219-226 | only the form's roles change, to ToggleRole of the old ones |
| UsersPage.UsersPageState.HandleSubmit | src/pages/UsersPage.jsx:158-195 | the new state and the call made are those of Submitted on the old state, whose effects SubmittedEffects states |
| PatientsPage.GenderLabel | src/pages/PatientsPage.jsx:21-26 | each label is non-empty and is not itself a gender code |
| PatientsPage.GenderOf | src/pages/PatientsPage.jsx:21-26 | the gender whose code is the key, and none exactly when no gender has that code |
| PatientsPage.FormatGender | src/pages/PatientsPage.jsx:20-28 | a known gender code becomes its Spanish label and any other value comes back unchanged |
| PatientsPage.FormatGenderIdempotent | src/pages/PatientsPage.jsx:20-28 | formatting an already formatted gender changes nothing |
| PatientsPage.SplitName | src/pages/PatientsPage.jsx:227-239 | when the first space comes after at least one character the parts are the text before it (non-empty, with no space) and the text after it; otherwise the whole text is the nombre and the apellido is empty |
| PatientsPage.JoinNameTrimmed | src/pages/PatientsPage.jsx:121 | the full name sent never starts or ends with white space |
| PatientsPage.JoinOfTrimmed | src/pages/PatientsPage.jsx:121 | for fields already trimmed, the name sent is the trimmed join of the two with a space |
| PatientsPage.TrimTrailingSpace | src/pages/PatientsPage.jsx:121 | trimming a trimmed text followed by a space removes just that space |
| PatientsPage.JoinWithoutApellido | src/pages/PatientsPage.jsx:121 | with an empty apellido the name sent is the trimmed nombre |
| PatientsPage.JoinBoth | src/pages/PatientsPage.jsx:121 | two non-empty trimmed fields are sent with exactly one space between them |
| PatientsPage.SplitAtJoiningSpace | src/pages/PatientsPage.jsx:227-239 | splitting nombre + " " + apellido, for a non-empty nombre without spaces, gives back the two parts |
| PatientsPage.SplitThenJoin | src/pages/PatientsPage.jsx:224-252 | opening a cleanly split stored name for editing and saving it unchanged sends the same name back |
| PatientsPage.JoinThenSplit | src/pages/PatientsPage.jsx:121-125 | saving a trimmed nombre without spaces and a trimmed apellido and reopening the patient gives back both fields |
| PatientsPage.Defaulted | src/pages/PatientsPage.jsx:243-250 | each truthy field is kept and each missing or falsy one becomes empty text, so a fully filled record is unchanged |
| PatientsPage.WithField | src/pages/PatientsPage.jsx:280-287 | the named input takes the typed text and every other input keeps its value |
| PatientsPage.FormPayload | src/pages/PatientsPage.jsx:121-170 | create and update send the joined name with no white space at either end, every other field as typed, and ACTIVO |
| PatientsPage.StatusCode | src/pages/PatientsPage.jsx:134 | the text sent is ACTIVO exactly for the active status and INACTIVO exactly for the inactive one |
| PatientsPage.EditForm | src/pages/PatientsPage.jsx:224-253 | the stored name split at its first space past the start (or kept whole with an empty apellido), every other field defaulted to '', and joining a cleanly split name gives it back |
| PatientsPage.DeletePayload | src/pages/PatientsPage.jsx:186-202 | the delete sends the selected patient's own nombrePaciente and other fields, with INACTIVO |
| PatientsPage.DeleteIsUntouchedUpdate | src/pages/PatientsPage.jsx:150-202 | for a patient with every field filled in and a cleanly split name, the delete payload is the untouched edit's payload except INACTIVO for ACTIVO |
| PatientsPage.Window | src/pages/PatientsPage.jsx:565-568 | the pages from start onward, count of them but stopping before totalPages |
| PatientsPage.PageButtons | src/pages/PatientsPage.jsx:565-580 | at most five buttons, no more than there are pages, each a valid page and each one after the previous |
| PatientsPage.PageButtonsShowCurrent | src/pages/PatientsPage.jsx:565-580 | on a valid page the current page has a button, in the first, second or third place |
| PatientsPage.ShownRange | src/pages/PatientsPage.jsx:549-551 | the range starts at row currentPage * 10 + 1 and ends at the smaller of (currentPage + 1) * 10 and totalElements |
| PatientsPage.ShownRangeTiles | src/pages/PatientsPage.jsx:549-553 | with ten rows a page the "Mostrando a de" range is a non-empty run of at most ten rows inside the listing, the next page starts right after it, and the last page ends at the last row |
| PatientsPage.LoadParams | src/pages/PatientsPage.jsx:76-88 | page, size 10 and "idPaciente,desc", plus search exactly when there is a search term and estatus exactly when a status filter is set, each with its value |
| PatientsPage.PatientsPageState.constructor | src/pages/PatientsPage.jsx:37-62 | no search, no filter, the first page, no totals, every modal closed, no selection and the empty form |
| PatientsPage.PatientsPageState.SetSearchTerm | src/pages/PatientsPage.jsx:358-359 | only the search term changes |
| PatientsPage.PatientsPageState.HandleSearch | src/pages/PatientsPage.jsx:109-113 | only the page changes, back to the first |
| PatientsPage.PatientsPageState.SetFilterStatus | src/pages/PatientsPage.jsx:375-378 | the filter is stored and the page goes back to the first; nothing else changes |
| PatientsPage.PatientsPageState.ClearFilters | src/pages/PatientsPage.jsx:397-400 | search and filter emptied and the first page; nothing else changes |
| PatientsPage.PatientsPageState.OpenCreateModal | src/pages/PatientsPage.jsx:219-222 | the form emptied and the create modal open; nothing else changes |
| PatientsPage.PatientsPageState.OpenEditModal | src/pages/PatientsPage.jsx:224-253 | the patient selected, the form set to its split name and defaulted fields, and the edit modal open; nothing else changes |
| PatientsPage.PatientsPageState.OpenViewModal | src/pages/PatientsPage.jsx:255-258 | the patient selected and the view modal open; nothing else changes |
| PatientsPage.PatientsPageState.OpenDeleteModal | src/pages/PatientsPage.jsx:260-263 | the patient selected and the delete modal open; nothing else changes |
| PatientsPage.PatientsPageState.HandleInputChange | src/pages/PatientsPage.jsx:280-286 | only the form changes, by WithField of the typed text |
| PatientsPage.PatientsPageState.HandleNumericInput | src/pages/PatientsPage.jsx:289-295 | only the form changes, the field taking the digits of the typed text, so it holds digits only |
| PatientsPage.PatientsPageState.HandleCreate | src/pages/PatientsPage.jsx:115-148 | the payload is FormPayload of the form; a successful call closes the create modal and empties the form, a failed one changes nothing modelled |
| PatientsPage.PatientsPageState.HandleUpdate | src/pages/PatientsPage.jsx:150-184 | a call is made exactly when a patient is selected, with its idPaciente and FormPayload; a successful call closes the modal, empties the form and clears the selection, otherwise nothing modelled changes |
| PatientsPage.PatientsPageState.HandleDelete | src/pages/PatientsPage.jsx:186-217 | the call updates the selected patient's idPaciente with DeletePayload, status INACTIVO; a successful call closes the modal and clears the selection, otherwise nothing modelled changes |
| PatientsPage.PatientsPageState.PrevPage | src/pages/PatientsPage.jsx:559 | the page becomes Prev of the old one, staying in range when it was; nothing else changes |
| PatientsPage.PatientsPageState.NextPage | src/pages/PatientsPage.jsx:583 | the page becomes Next of the old one, capped at the last page and staying in range when it was; nothing else changes |
| PatientsPage.PatientsPageState.GoToPage | src/pages/PatientsPage.jsx:571 | a numbered button sets the page to its number, which is a valid page; nothing else changes |
| SentimentUtils.SentimentOf | src/config/api.config.js:119-125 | names the sentiment label whose code is the key, and none exactly when no label has that code |
| SentimentUtils.RiskOf | src/config/api.config.js:112-116 | names the risk level whose code is the key, and none exactly when no level has that code |
| SentimentUtils.SentimentBadgeIsLowerCode | src/utils/sentimentUtils.js:3-12 | each sentiment badge class is "badge-" followed by the label in lower case |
| SentimentUtils.SentimentBadgeClass | src/utils/sentimentUtils.js:3-12 | a label gets its badge class; any other value gets the plain 'badge' |
| SentimentUtils.SentimentBadgesDistinct | src/utils/sentimentUtils.js:3-12 | no two labels share a badge class, and none gets the plain 'badge' |
| SentimentUtils.SentimentBadgeClassesDistinct | src/utils/sentimentUtils.js:3-12 | 'badge' comes back exactly for a value that is no label, and two values get the same class exactly when they name the same label (or none) |
| SentimentUtils.RiskBadgeIsLowerCode | src/utils/sentimentUtils.js:14-21 | each risk badge class is "badge-", the level in lower case, and "-risk" |
| SentimentUtils.RiskBadgeClass | src/utils/sentimentUtils.js:14-21 | a level gets its badge class; any other value gets the plain 'badge' |
| SentimentUtils.RiskBadgesDistinct | src/utils/sentimentUtils.js:14-21 | no two levels share a badge class, and none gets the plain 'badge' |
| SentimentUtils.RiskBadgeClassesDistinct | src/utils/sentimentUtils.js:14-21 | 'badge' comes back exactly for a value that is no level, and two values get the same class exactly when they name the same level (or none) |
| SentimentUtils.SentimentLabel | src/utils/sentimentUtils.js:23-32 | a label gets its Spanish name; any other value comes back as it was passed |
| SentimentUtils.SentimentNamesDistinct | src/utils/sentimentUtils.js:23-32 | different labels get different Spanish names, and no name is itself a label |
| SentimentUtils.SentimentLabelTranslates | src/utils/sentimentUtils.js:23-32 | the result equals the value exactly when the value is no label; two labels get the same name exactly when they are the same label; translating twice changes nothing |
| SentimentUtils.RiskLabel | src/utils/sentimentUtils.js:34-41 | a level gets its Spanish name; any other value comes back as it was passed |
| SentimentUtils.RiskNamesDistinct | src/utils/sentimentUtils.js:34-41 | different levels get different Spanish names, and no name is itself a level |
| SentimentUtils.RiskLabelTranslates | src/utils/sentimentUtils.js:34-41 | the result equals the value exactly when the value is no level; two levels get the same name exactly when they are the same level; translating twice changes nothing |
| SentimentAnalysisPage.Render | src/pages/SentimentAnalysisPage.jsx:23-144 | without "analisis_sentimiento:read" only the denial message renders |
| SentimentAnalysisPage.LoadsInitialData | src/pages/SentimentAnalysisPage.jsx:47-51 | labels, statistics and alerts are loaded exactly when the page is shown, that is, with the read permission |
| SentimentAnalysisPage.BatchLines | src/pages/SentimentAnalysisPage.jsx:105 | no more texts than lines, and each text is a line of the input, not blank and without a newline |
| SentimentAnalysisPage.BatchLinesAreLines | src/pages/SentimentAnalysisPage.jsx:105 | every text sent is a line of the input exactly as typed and not blank, and every such line is sent |
| SentimentAnalysisPage.BatchLinesEmptyIffBlank | src/pages/SentimentAnalysisPage.jsx:95-105 | the input has no line to send exactly when it is blank, so the trim guard keeps a batch request from being empty |
| SentimentAnalysisPage.BatchLinesStep | src/pages/SentimentAnalysisPage.jsx:105 | lines are sent in input order: the first line, if not blank, comes before those of the rest |
| SentimentAnalysisPage.BatchLinesKeepAll | src/pages/SentimentAnalysisPage.jsx:105 | when no line is blank every line is sent, and joining them with newlines gives back the input |
| SentimentAnalysisPage.BatchRequest | src/pages/SentimentAnalysisPage.jsx:92-108 | nothing is sent exactly for blank input; otherwise the non-blank lines are sent, and that list is never empty |
| SentimentAnalysisPage.CountMessage | src/pages/SentimentAnalysisPage.jsx:108 | the number the success message starts with, read back with parseInt, is the count of texts sent |
| SentimentAnalysisPage.SentimentColor | src/pages/SentimentAnalysisPage.jsx:116-125 | each of the five labels gets its color; anything else gets 'gray' |
| SentimentAnalysisPage.ColorsDistinct | src/pages/SentimentAnalysisPage.jsx:116-125 | every label has its own color, and none is the fallback 'gray' |
| SentimentAnalysisPage.SentimentLabel | src/pages/SentimentAnalysisPage.jsx:127-136 | a label gets the page's Spanish name; anything else comes back as it was passed |
| SentimentAnalysisPage.NamesAgreeButSuicidal | src/pages/SentimentAnalysisPage.jsx:127-136 | the page's names agree with those of src/utils/sentimentUtils.js for every label except SUICIDAL ("Riesgo Suicida" against "Pensamientos Suicidas") |
| SentimentAnalysisPage.LabelsDisagreeOnlyOnSuicidal | src/pages/SentimentAnalysisPage.jsx:127-136 | a value is labelled differently on this page than by the shared helper exactly when it is SUICIDAL |
| SentimentAnalysisPage.OrElse | src/pages/SentimentAnalysisPage.jsx:55-63 | a call that succeeded with a truthy answer gives that answer; a failed call or a falsy answer gives the fallback |
| SentimentAnalysisPage.SentimentAnalysisPageState.constructor | src/pages/SentimentAnalysisPage.jsx:27-45 | the page starts not loading, with no messages, empty texts, no results, no labels, statistics or alerts, on the single tab |
| SentimentAnalysisPage.SentimentAnalysisPageState.LoadInitialData | src/pages/SentimentAnalysisPage.jsx:53-67 | labels and alerts fall back to an empty list and statistics to null, each on its own; nothing else changes |
| SentimentAnalysisPage.SentimentAnalysisPageState.SetActiveTab | src/pages/SentimentAnalysisPage.jsx:179-205 | only the active tab changes |
| SentimentAnalysisPage.SentimentAnalysisPageState.SetSingleText | src/pages/SentimentAnalysisPage.jsx:228 | only the single text changes |
| SentimentAnalysisPage.SentimentAnalysisPageState.SetBatchTexts | src/pages/SentimentAnalysisPage.jsx:275 | only the batch text changes |
| SentimentAnalysisPage.SentimentAnalysisPageState.DismissError | src/pages/SentimentAnalysisPage.jsx:158 | only the error message is cleared |
| SentimentAnalysisPage.SentimentAnalysisPageState.DismissSuccess | src/pages/SentimentAnalysisPage.jsx:159 | only the success message is cleared |
| SentimentAnalysisPage.SentimentAnalysisPageState.HandleSinglePredict | src/pages/SentimentAnalysisPage.jsx:69-90 | blank text only sets the error and sends nothing; otherwise the untrimmed text is sent, success stores the result and the success message, and failure stores the error and leaves an earlier success message in place |
| SentimentAnalysisPage.SentimentAnalysisPageState.HandleBatchPredict | src/pages/SentimentAnalysisPage.jsx:92-114 | the request is BatchRequest of the typed text; blank text only sets the error; success stores the result and a message counting the texts sent; failure stores the error |

## Left out

- HTTP calls, `async` sequencing, loading flags, `confirm` dialogs, redirects and rendering are not modelled. A handler's network outcome is a `callSucceeded` or answer parameter, and the request it sends is its result.
- Date.now is a parameter (`AuthContext`). The token's `btoa(JSON.stringify(...))` encoding is not modelled: a token is its payload, and decoding with `JSON.parse(atob(...))` is taken to give that payload back, so the model states nothing about the encoded text or its round trip.
- Case mapping covers ASCII letters only. The white-space set of `trim` is a listed set of code points, not the full Unicode class.
- `Js.ParseInt` reads optional white space, a sign and decimal digits. The `0x` prefix and numbers of 1e21 and above are not modelled.
- Numbers are integers. Floating point, `formatConfidence` and the percentage displays are not modelled.
- JSON text is opaque. Storage holds parsed records, and a parse failure is an input of the environment.
- The zustand `persist` middleware is modelled as the partialised copy written to 'auth-storage' after each update. Rehydration when the store is created is not modelled.
- RoleUtils: a permission entry that is not a string makes the source throw a TypeError inside `toLowerCase` or `startsWith`. The model treats it as matching nothing.
- Object spread of non-objects and extra fields of user records beyond those read are not modelled.
- Property lookups that hit `Object.prototype` keys (such as "constructor") in the gender and sentiment tables are not modelled: the model finds no entry there.
- RoleUtils.GetPermissionsByResource groups into a map. The source groups into a plain object, so a permission such as "constructor:read" finds the inherited `Object.prototype.constructor` and the following `push` throws; the model groups it without error.
- Text lengths count Unicode scalar values, while JavaScript's `.length` counts UTF-16 code units. For text with characters outside the Basic Multilingual Plane every length bound below differs from the source's.
- UsersPage.NameError counts the minimum 3 in scalar values. A user name of two emoji has `.length` 4 and passes the source's minimum, but the model reports it as too short.
- UsersPage.PasswordError counts the minimum 6 in scalar values, not UTF-16 code units.
- QuestionForm.FormErrors counts the bounds 5 and 1000 in scalar values, not UTF-16 code units.
- AnswerForm.TextError counts the bound 5000 in scalar values, not UTF-16 code units.
- EvaluationForm.FormErrors counts the bound 100 in scalar values, not UTF-16 code units.
- UserService.GetAll: any page size that is not a number gives an error result when a paginated answer is filtered. That includes a numeric string such as "20", which the source coerces to a number in `filtered.length / (params.size || 10)`; only text that is not numeric gives the source a NaN page count.
- Roles passed to `updateUser` that are not strings are not modelled.
- UsersPage: `handleView`, `handleDeleteClick`, `handleDelete` and `loadRoles` only open modals or call the service, and are not modelled. `includes` is value equality.
- UsersPage.EditForm: a truthy `nombreUsuario` that is not text (a number, say) becomes its text, where the source keeps the value and `validateForm` then throws at `nombreUsuario.trim()`. Likewise a `roles` value that is truthy but not an array becomes an empty list, where the source would keep it. Its contract speaks only of text names and array roles.
- PatientsPage: the handling of `loadPatients` responses, the row status label and the empty-state button are not modelled.
- PatientsPage.PatientsPageState.OpenEditModal requires the stored name to be text or falsy. The source throws on any other value.
- PatientsPage.PatientsPageState.HandleDelete requires a selected patient, since the delete modal is only reachable with one.
- PatientsPage.PatientsPageState.GoToPage requires the page to be one of the drawn buttons.
- AnswerForm.LoadedForm requires the stored text to be text or falsy. The source would keep any other value in the text area.
- QuestionForm.LoadedForm requires the stored text to be text or falsy. The source would keep any other value in the field.
- EvaluationForm.LoadedForm requires each stored field to be text or falsy. The source would keep any other value in the form.
- UsersPage.UsersPageState.HandleEdit requires a row that is not null or undefined. The source would throw on reading its fields.
- ConsultationList.DisplayedStatusName requires a row that is not null or undefined, as every rendered row is an object.
- AnswerForm: `loadQuestions` (a network call) and the text area's `maxLength` are not modelled. Errors set to null are modelled as no message.
- EvaluationsPage: `handleViewAnswers` only switches tabs with a network load, and is not modelled.
- SentimentAnalysisPage: the intermediate `loading` state and the outer `try/catch` of `loadInitialData` are not modelled.
- SentimentAnalysisPage.SentimentAnalysisPageState.HandleSinglePredict sends the text untrimmed, and a failure keeps an earlier success message, as the source does.
- AuthService: `register` and `logout` only call the network, and are not modelled.
- UserService: `getById`, `getByName` and `delete` only call the network, and are not modelled.
- RoleLogicTest: the `testUsers` table of `test-role-logic.js` is not modelled, because its expected values contradict its own function. The `specificTests` cases are stated as lemmas instead.
- AuthContext: the mock credentials and MFA code are the source's constants, kept as they are.
