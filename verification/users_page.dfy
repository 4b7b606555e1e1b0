/** The user administration screen (src/pages/UsersPage.jsx): the form's validation, the role
    checkboxes, the submitted payload, and the list's search and paging parameters. */
module UsersPage {
  import opened Wrappers
  import opened Session
  import opened Strings
  import Js
  import Seqs
  import RoleUtils
  import UserService

  /** The form's fields. Role entries are the ids or names offered by the role list. */
  datatype FormData = FormData(nombreUsuario: string, password: string, roles: seq<Js.Value>)

  const EmptyForm := FormData("", "", [])

  /** The validation messages the form can show. */
  datatype Message = NameRequired | NameTooShort | PasswordRequired | PasswordTooShort | RolesRequired

  /** The text each message displays. */
  function Text(m: Message): string {
    match m
    case NameRequired => "El nombre de usuario es obligatorio"
    case NameTooShort => "Mínimo 3 caracteres"
    case PasswordRequired => "La contraseña es obligatoria"
    case PasswordTooShort => "Mínimo 6 caracteres"
    case RolesRequired => "Debe asignar al menos un rol"
  }

  /** The error object `validateForm` builds: one optional message per field, `None` where the
      object has no such key. */
  datatype Errors = Errors(nombreUsuario: Option<Message>, password: Option<Message>, roles: Option<Message>)

  const NoErrors := Errors(None, None, None)

  /** The page needs the "usuario:read" permission; without it only a denial renders and
      nothing loads. */
  function CanRead(user: Option<User>): (r: bool)
    ensures r <==> RoleUtils.HoldsPermission(user, "usuario:read")
  {
    ReadPermissionName();
    RoleUtils.HasResourcePermission(user, "usuario", "read")
  }

  lemma ReadPermissionName()
    ensures "usuario" + ":" + "read" == "usuario:read"
  {
  }

  /** The name's message: blank names first, then names shorter than three characters. */
  function NameError(name: string): (r: Option<Message>)
    ensures r.Some? <==> Blank(name) || |name| < 3
    ensures r.Some? ==> r.value == (if Blank(name) then NameRequired else NameTooShort)
  {
    if Blank(name) then Some(NameRequired)
    else if |name| < 3 then Some(NameTooShort)
    else None
  }

  /** The password's message: required on create only, and at least six characters when typed. */
  function PasswordError(password: string, editing: bool): (r: Option<Message>)
    ensures r.Some? <==> (!editing && password == []) || (password != [] && |password| < 6)
    ensures r.Some? ==> r.value == (if password == [] then PasswordRequired else PasswordTooShort)
  {
    if !editing && password == [] then Some(PasswordRequired)
    else if password != [] && |password| < 6 then Some(PasswordTooShort)
    else None
  }

  /** The error object for `form`, with `editing` standing for a selected user. */
  function FormErrors(form: FormData, editing: bool): (e: Errors)
    ensures e.nombreUsuario.Some? <==> Blank(form.nombreUsuario) || |form.nombreUsuario| < 3
    ensures e.password.Some? <==> (!editing && form.password == []) || (form.password != [] && |form.password| < 6)
    ensures e.roles.Some? <==> form.roles == []
    ensures e.roles.Some? ==> e.roles.value == RolesRequired
  {
    Errors(NameError(form.nombreUsuario), PasswordError(form.password, editing),
           if form.roles == [] then Some(RolesRequired) else None)
  }

  /** A form passes validation exactly when its name is not blank and has at least three
      characters, its password has at least six (or is left empty while editing), and it has a
      role. */
  lemma FormValidIff(form: FormData, editing: bool)
    ensures FormErrors(form, editing) == NoErrors <==>
              !Blank(form.nombreUsuario) && |form.nombreUsuario| >= 3 &&
              (if editing then form.password == [] || |form.password| >= 6 else |form.password| >= 6) &&
              form.roles != []
  {
  }

  /** `validateForm()`: fills the error object field by field; the form is valid when it stays
      without keys. */
  method ValidateForm(form: FormData, editing: bool) returns (errors: Errors, valid: bool)
    ensures errors == FormErrors(form, editing)
    ensures valid <==> errors == NoErrors
  {
    errors := NoErrors;
    if Blank(form.nombreUsuario) {
      errors := errors.(nombreUsuario := Some(NameRequired));
    } else if |form.nombreUsuario| < 3 {
      errors := errors.(nombreUsuario := Some(NameTooShort));
    }
    if !editing && form.password == [] {
      errors := errors.(password := Some(PasswordRequired));
    } else if form.password != [] && |form.password| < 6 {
      errors := errors.(password := Some(PasswordTooShort));
    }
    if form.roles == [] {
      errors := errors.(roles := Some(RolesRequired));
    }
    valid := errors == NoErrors;
  }

  /** An edited user may keep the stored password: an empty password is only an error on create. */
  lemma PasswordOptionalWhenEditing(form: FormData)
    ensures form.password == [] ==> FormErrors(form, true).password.None?
    ensures form.password == [] ==> FormErrors(form, false).password == Some(PasswordRequired)
  {
  }

  /** The length check is on the untrimmed name, so a name that passes can shrink below three
      characters once trimmed for submission. */
  lemma ShortNamePassesWithPadding()
    ensures NameError("  a").None?
    ensures Trim("  a") == "a"
  {
    var s := "  a";
    assert s[1..] == " a" && s[1..][1..] == "a";
    assert IsSpace(' ') && !IsSpace('a');
    assert !Blank("a");
    assert Blank(s) == Blank(" a") == Blank("a");
    assert TrimStart(s) == TrimStart(" a") == TrimStart("a") == "a";
    assert TrimEnd("a") == "a";
  }

  /** `handleRoleToggle(role)`: a present role is removed everywhere, an absent one appended. */
  function ToggleRole(roles: seq<Js.Value>, role: Js.Value): (r: seq<Js.Value>)
    ensures role in roles ==> role !in r && forall x :: x != role ==> (x in r <==> x in roles)
    ensures role !in roles ==> r == roles + [role]
  {
    if role in roles then Seqs.Filter(roles, (x: Js.Value) => x != role) else roles + [role]
  }

  /** Ticking an unticked role and then unticking it restores the list. */
  lemma ToggleAbsentTwice(roles: seq<Js.Value>, role: Js.Value)
    requires role !in roles
    ensures ToggleRole(ToggleRole(roles, role), role) == roles
  {
    var keep := (x: Js.Value) => x != role;
    assert role in roles + [role];
    Seqs.FilterAppend(roles, [role], keep);
    Seqs.FilterKeepsAll(roles, keep);
    assert Seqs.Filter([role], keep) == [];
  }

  /** Unticking and re-ticking a role moves it, once, to the end of the list. */
  lemma TogglePresentTwice(roles: seq<Js.Value>, role: Js.Value)
    requires role in roles
    ensures ToggleRole(ToggleRole(roles, role), role) == Seqs.Filter(roles, (x: Js.Value) => x != role) + [role]
  {
  }

  /** The `userData` sent on submit: the trimmed name, the roles unchanged, and the password
      only when one was typed. */
  function SubmitData(form: FormData): (d: Js.Value)
    ensures d.Obj?
    ensures Js.Get(d, "nombreUsuario") == Js.Str(Trim(form.nombreUsuario))
    ensures Js.Get(d, "roles") == Js.Arr(form.roles)
    ensures Js.Get(d, "password") == (if form.password != [] then Js.Str(form.password) else Js.Undefined)
  {
    var base := map["nombreUsuario" := Js.Str(Trim(form.nombreUsuario)), "roles" := Js.Arr(form.roles)];
    Js.Obj(if form.password != [] then base["password" := Js.Str(form.password)] else base)
  }

  /** The service call a submit makes, with the `userData` it passes. */
  datatype UserCall = CreateUser(userData: Js.Value) | UpdateUser(id: Js.Value, userData: Js.Value)

  /** `handleSubmit`: nothing when the form is invalid; otherwise an update of the selected user
      (`selected` is `Null` when none is) or a create, both with the form's `userData`. */
  function SubmitCall(form: FormData, selected: Js.Value): (c: Option<UserCall>)
    ensures c.None? <==> FormErrors(form, Js.Truthy(selected)) != NoErrors
    ensures c.Some? ==> (c.value.UpdateUser? <==> Js.Truthy(selected))
    ensures c.Some? ==> c.value.userData == SubmitData(form)
    ensures c.Some? && c.value.UpdateUser? ==> c.value.id == Js.Get(selected, "idUsuario")
  {
    if FormErrors(form, Js.Truthy(selected)) != NoErrors then None
    else if Js.Truthy(selected) then Some(UpdateUser(Js.Get(selected, "idUsuario"), SubmitData(form)))
    else Some(CreateUser(SubmitData(form)))
  }

  /** The body the user service sends for a call. */
  function Body(c: UserCall): (b: map<string, Js.Value>)
    requires c.userData.Obj?
  {
    match c
    case CreateUser(d) => UserService.CreatePayload(d)
    case UpdateUser(_, d) => UserService.UpdatePayload(d)
  }

  /** Whatever a valid submit sends carries the ticked roles as `rolesIds`, and a password
      exactly when the user is created or a new one was typed; a created user's password is the
      typed one, which validation made at least six characters long. */
  lemma SubmittedBody(form: FormData, selected: Js.Value)
    requires SubmitCall(form, selected).Some?
    ensures var c := SubmitCall(form, selected).value;
            c.userData.Obj? &&
            "rolesIds" in Body(c) && Body(c)["rolesIds"] == Js.Arr(form.roles) &&
            ("passUsuario" in Body(c) <==> c.CreateUser? || form.password != []) &&
            (c.CreateUser? ==> Body(c)["passUsuario"] == Js.Str(form.password) && |form.password| >= 6)
  {
  }

  /** `size: searchTerm ? 1000 : 10` */
  function PageSize(searchTerm: string): (r: int)
    ensures r > 0
    ensures searchTerm != [] <==> r == 1000
  {
    if searchTerm != [] then 1000 else 10
  }

  /** The parameters `loadUsers` passes to the user service. */
  function LoadParams(searchTerm: string, currentPage: int): (p: Js.Value)
    ensures p.Obj?
    ensures "search" in p.fields <==> searchTerm != []
    ensures "search" in p.fields ==> p.fields["search"] == Js.Str(searchTerm)
    ensures "page" in p.fields && p.fields["page"] == Js.Num(currentPage)
    ensures "sort" in p.fields && p.fields["sort"] == Js.Str("idUsuario,desc")
    ensures UserService.SizeParam(p) == Js.Num(PageSize(searchTerm))
  {
    var base := map["page" := Js.Num(currentPage), "size" := Js.Num(PageSize(searchTerm)), "sort" := Js.Str("idUsuario,desc")];
    Js.Obj(if searchTerm != [] then base["search" := Js.Str(searchTerm)] else base)
  }

  /** The form as `handleEdit(user)` fills it: name and roles from the row, never a password. */
  function EditForm(user: Js.Value): (f: FormData)
    requires !Js.IsNullish(user)
    ensures f.password == []
    ensures Js.Get(user, "nombreUsuario").Str? && Js.Truthy(Js.Get(user, "nombreUsuario")) ==>
              Js.Str(f.nombreUsuario) == Js.Get(user, "nombreUsuario")
    ensures !Js.Truthy(Js.Get(user, "nombreUsuario")) ==> f.nombreUsuario == []
    ensures Js.Get(user, "roles").Arr? ==> Js.Arr(f.roles) == Js.Get(user, "roles")
    ensures !Js.Truthy(Js.Get(user, "roles")) ==> f.roles == []
  {
    var name := Js.Get(user, "nombreUsuario");
    var roles := Js.Get(user, "roles");
    FormData(if Js.Truthy(name) then Js.ToStr(name) else "", "", if roles.Arr? then roles.items else [])
  }

  /** The page's state variables that the handlers touch. */
  datatype PageState = PageState(
    formData: FormData, formErrors: Errors, selectedUser: Js.Value, searchTerm: string,
    currentPage: int, showCreateModal: bool, showEditModal: bool)

  /** `handleSubmit` on state `s`, with `callSucceeded` the outcome of the network call. */
  function Submitted(s: PageState, callSucceeded: bool): (PageState, Option<UserCall>) {
    var errors := FormErrors(s.formData, Js.Truthy(s.selectedUser));
    if errors != NoErrors then (s.(formErrors := errors), None)
    else
      var call := SubmitCall(s.formData, s.selectedUser);
      if !callSucceeded then (s.(formErrors := errors), call)
      else if Js.Truthy(s.selectedUser) then (s.(formErrors := errors, showEditModal := false), call)
      else (s.(formErrors := errors, showCreateModal := false), call)
  }

  /** A submit records the form's errors and makes the call `SubmitCall` names, which is none
      for an invalid form; a successful call closes the modal that was open for it, and nothing
      else changes. */
  lemma SubmittedEffects(s: PageState, callSucceeded: bool)
    ensures var (t, call) := Submitted(s, callSucceeded);
            call == SubmitCall(s.formData, s.selectedUser) &&
            t.formErrors == FormErrors(s.formData, Js.Truthy(s.selectedUser)) &&
            (call.Some? && callSucceeded && Js.Truthy(s.selectedUser) ==> !t.showEditModal) &&
            (call.Some? && callSucceeded && !Js.Truthy(s.selectedUser) ==> !t.showCreateModal) &&
            (call.None? || !callSucceeded ==> t.showEditModal == s.showEditModal && t.showCreateModal == s.showCreateModal) &&
            t.(formErrors := s.formErrors, showCreateModal := s.showCreateModal, showEditModal := s.showEditModal) == s
  {
  }

  /** The page's own state. `selectedUser` is `Null` when none is selected. */
  class UsersPageState {
    var formData: FormData
    var formErrors: Errors
    var selectedUser: Js.Value
    var searchTerm: string
    var currentPage: int
    var showCreateModal: bool
    var showEditModal: bool

    function State(): PageState
      reads this
    {
      PageState(formData, formErrors, selectedUser, searchTerm, currentPage, showCreateModal, showEditModal)
    }

    constructor()
      ensures formData == EmptyForm && formErrors == NoErrors && selectedUser == Js.Null
      ensures searchTerm == [] && currentPage == 0 && !showCreateModal && !showEditModal
    {
      formData := EmptyForm;
      formErrors := NoErrors;
      selectedUser := Js.Null;
      searchTerm := [];
      currentPage := 0;
      showCreateModal := false;
      showEditModal := false;
    }

    /** `handleCreate`: a blank form, no errors, no selection. */
    method HandleCreate()
      modifies this
      ensures formData == EmptyForm && formErrors == NoErrors && selectedUser == Js.Null && showCreateModal
      ensures searchTerm == old(searchTerm) && currentPage == old(currentPage) && showEditModal == old(showEditModal)
    {
      formData := EmptyForm;
      formErrors := NoErrors;
      selectedUser := Js.Null;
      showCreateModal := true;
    }

    /** `handleEdit(user)` */
    method HandleEdit(user: Js.Value)
      requires !Js.IsNullish(user)
      modifies this
      ensures formData == EditForm(user) && formData.password == [] && formErrors == NoErrors
      ensures selectedUser == user && showEditModal
      ensures searchTerm == old(searchTerm) && currentPage == old(currentPage) && showCreateModal == old(showCreateModal)
    {
      formData := EditForm(user);
      formErrors := NoErrors;
      selectedUser := user;
      showEditModal := true;
    }

    /** `handleSearch`: a new term goes back to the first page. */
    method HandleSearch(term: string)
      modifies this
      ensures searchTerm == term && currentPage == 0
      ensures formData == old(formData) && formErrors == old(formErrors) && selectedUser == old(selectedUser)
      ensures showCreateModal == old(showCreateModal) && showEditModal == old(showEditModal)
    {
      searchTerm := term;
      currentPage := 0;
    }

    /** `handleRoleToggle(role)` */
    method HandleRoleToggle(role: Js.Value)
      modifies this
      ensures formData == old(formData).(roles := ToggleRole(old(formData).roles, role))
      ensures formErrors == old(formErrors) && selectedUser == old(selectedUser)
      ensures searchTerm == old(searchTerm) && currentPage == old(currentPage)
      ensures showCreateModal == old(showCreateModal) && showEditModal == old(showEditModal)
    {
      formData := formData.(roles := ToggleRole(formData.roles, role));
    }

    /** `handleSubmit` */
    method HandleSubmit(callSucceeded: bool) returns (call: Option<UserCall>)
      modifies this
      ensures State() == Submitted(old(State()), callSucceeded).0
      ensures call == Submitted(old(State()), callSucceeded).1
    {
      ghost var before := State();
      var valid;
      formErrors, valid := ValidateForm(formData, Js.Truthy(selectedUser));
      if valid {
        call := SubmitCall(formData, selectedUser);
        if callSucceeded {
          if Js.Truthy(selectedUser) {
            showEditModal := false;
          } else {
            showCreateModal := false;
          }
        }
      } else {
        call := None;
      }
      assert State() == Submitted(before, callSucceeded).0;
    }
  }
}
