/** The patients screen (src/pages/PatientsPage.jsx): the full name split into nombre and
    apellido for editing and joined again for saving, digit-only inputs, gender labels, the
    ACTIVO/INACTIVO status written by create, update and the soft delete, and the page buttons. */
module PatientsPage {
  import opened Wrappers
  import opened Strings
  import Js
  import Pagination

  /** The four gender codes `formatGender` knows. */
  datatype Gender = Masculino | Femenino | Otro | NoEspecifica

  function GenderCode(g: Gender): string {
    match g
    case Masculino => "MASCULINO"
    case Femenino => "FEMENINO"
    case Otro => "OTRO"
    case NoEspecifica => "NO_ESPECIFICA"
  }

  /** The label `genderMap` shows for a gender; no label is itself a code. */
  function GenderLabel(g: Gender): (r: string)
    ensures r != [] && GenderOf(r).None?
  {
    match g
    case Masculino => "Masculino"
    case Femenino => "Femenino"
    case Otro => "Otro"
    case NoEspecifica => "No especifica"
  }

  /** `genderMap[key]`: the gender whose code is `key`, if any. */
  function GenderOf(key: string): (r: Option<Gender>)
    ensures r.Some? ==> GenderCode(r.value) == key
    ensures r.None? ==> forall g :: GenderCode(g) != key
  {
    if key == "MASCULINO" then Some(Masculino)
    else if key == "FEMENINO" then Some(Femenino)
    else if key == "OTRO" then Some(Otro)
    else if key == "NO_ESPECIFICA" then Some(NoEspecifica)
    else None
  }

  /** `formatGender(gender)`: the label of a known code (a property key is the value's text),
      and any other value unchanged. */
  function FormatGender(gender: Js.Value): (r: Js.Value)
    ensures forall g :: Js.ToStr(gender) == GenderCode(g) ==> r == Js.Str(GenderLabel(g))
    ensures (forall g :: Js.ToStr(gender) != GenderCode(g)) ==> r == gender
  {
    var found := GenderOf(Js.ToStr(gender));
    if found.Some? then Js.Str(GenderLabel(found.value)) else gender
  }

  /** No label is itself a code, so formatting an already formatted value changes nothing. */
  lemma FormatGenderIdempotent(gender: Js.Value)
    ensures FormatGender(FormatGender(gender)) == FormatGender(gender)
  {
    var found := GenderOf(Js.ToStr(gender));
    if found.Some? {
      var text := GenderLabel(found.value);
      assert Js.ToStr(Js.Str(text)) == text;
      assert GenderOf(text).None?;
    }
  }

  /** `openEditModal`: `nombreCompleto.indexOf(' ')` and the two substrings around it. A first
      space after at least one character separates nombre from apellido; otherwise the whole
      text is the nombre and the apellido is empty. */
  function SplitName(full: string): (r: (string, string))
    ensures ' ' in full && full[0] != ' ' ==> r.0 + " " + r.1 == full && r.0 != [] && ' ' !in r.0
    ensures !(' ' in full && full[0] != ' ') ==> r == (full, "")
  {
    var i := IndexOf(full, ' ');
    if i > 0 then
      Around(full, i);
      (full[..i], full[i + 1..])
    else (full, "")
  }

  /** `` `${nombre.trim()} ${apellido.trim()}`.trim() ``, the name create and update send. */
  function JoinName(nombre: string, apellido: string): string {
    Trim(Trim(nombre) + " " + Trim(apellido))
  }

  /** The name sent never starts or ends with white space. */
  lemma JoinNameTrimmed(nombre: string, apellido: string)
    ensures Trim(JoinName(nombre, apellido)) == JoinName(nombre, apellido)
  {
    TrimIdempotent(Trim(nombre) + " " + Trim(apellido));
  }

  /** Joining fields that are already trimmed trims only the joined text. */
  lemma JoinOfTrimmed(nombre: string, apellido: string)
    requires Trim(nombre) == nombre && Trim(apellido) == apellido
    ensures JoinName(nombre, apellido) == Trim(nombre + " " + apellido)
  {
  }

  /** A string with no white space at either end. */
  predicate Trimmed(s: string) {
    s == [] || (!IsSpace(s[0]) && !IsSpace(s[|s| - 1]))
  }

  /** A trailing space is all that trimming removes from a trimmed string followed by one. */
  lemma TrimTrailingSpace(t: string)
    requires Trimmed(t)
    ensures Trim(t + " ") == t
  {
    var s := t + " ";
    if t == [] {
      assert s[1..] == [];
      assert TrimStart(s) == [];
    } else {
      assert TrimStart(s) == s;
      assert s[..|s| - 1] == t;
      assert TrimEnd(s) == TrimEnd(t);
      TrimOfTrimmed(t);
      assert TrimStart(t) == t;
    }
  }

  /** With no apellido the name sent is the nombre. */
  lemma JoinWithoutApellido(nombre: string)
    requires Trimmed(nombre)
    ensures JoinName(nombre, "") == nombre
  {
    TrimOfTrimmed(nombre);
    TrimOfTrimmed("");
    JoinOfTrimmed(nombre, "");
    assert nombre + " " + "" == nombre + " ";
    TrimTrailingSpace(nombre);
  }

  /** Two non-empty trimmed fields are sent with one space between them. */
  lemma JoinBoth(nombre: string, apellido: string)
    requires nombre != [] && apellido != [] && Trimmed(nombre) && Trimmed(apellido)
    ensures JoinName(nombre, apellido) == nombre + " " + apellido
  {
    TrimOfTrimmed(nombre);
    TrimOfTrimmed(apellido);
    JoinOfTrimmed(nombre, apellido);
    var s := nombre + " " + apellido;
    assert s[0] == nombre[0] && s[|s| - 1] == apellido[|apellido| - 1];
    TrimOfTrimmed(s);
  }

  /** The first space of `nombre + " " + apellido` is the one between them when the nombre has
      none. */
  lemma SplitAtJoiningSpace(nombre: string, apellido: string)
    requires nombre != [] && ' ' !in nombre
    ensures SplitName(nombre + " " + apellido) == (nombre, apellido)
  {
    var s := nombre + " " + apellido;
    assert s[..|nombre|] == nombre && s[|nombre|] == ' ';
    assert IndexOf(s, ' ') == |nombre|;
    assert s[|nombre| + 1..] == apellido;
  }

  /** The names that survive an edit unchanged: trimmed, with no white space next to the first
      space. */
  predicate SplitsCleanly(full: string) {
    Trimmed(full) &&
    var i := IndexOf(full, ' ');
    (i > 0 ==> i + 1 < |full| && !IsSpace(full[i - 1]) && !IsSpace(full[i + 1]))
  }

  /** Opening a patient for editing and saving without changes sends the stored name back
      when the name splits cleanly. */
  lemma SplitThenJoin(full: string)
    requires SplitsCleanly(full)
    ensures JoinName(SplitName(full).0, SplitName(full).1) == full
  {
    var i := IndexOf(full, ' ');
    if i > 0 {
      var nombre, apellido := full[..i], full[i + 1..];
      assert SplitName(full) == (nombre, apellido);
      assert nombre[0] == full[0] && nombre[|nombre| - 1] == full[i - 1];
      assert apellido[0] == full[i + 1] && apellido[|apellido| - 1] == full[|full| - 1];
      JoinBoth(nombre, apellido);
      Around(full, i);
    } else {
      assert SplitName(full) == (full, "");
      JoinWithoutApellido(full);
    }
  }

  /** Saving a trimmed nombre without spaces and a trimmed apellido, and opening the result for
      editing, gives back the two fields. */
  lemma JoinThenSplit(nombre: string, apellido: string)
    requires nombre != [] && ' ' !in nombre && Trimmed(nombre) && Trimmed(apellido)
    ensures SplitName(JoinName(nombre, apellido)) == (nombre, apellido)
  {
    if apellido == [] {
      JoinWithoutApellido(nombre);
    } else {
      JoinBoth(nombre, apellido);
      SplitAtJoiningSpace(nombre, apellido);
    }
  }

  /** The eight patient fields besides the name, as the form and the service carry them. */
  datatype Details = Details(
    docPaciente: Js.Value, fechaPaciente: Js.Value, generoPaciente: Js.Value,
    direccionPaciente: Js.Value, telefonoPaciente: Js.Value, emailPaciente: Js.Value,
    contactoPaciente: Js.Value, telefonoContactoPaciente: Js.Value)

  const NoDetails := Details(
    Js.Str(""), Js.Str(""), Js.Str(""), Js.Str(""), Js.Str(""), Js.Str(""), Js.Str(""), Js.Str(""))

  /** The eight fields read from a patient record. */
  function DetailsOf(patient: Js.Value): Details
    requires !Js.IsNullish(patient)
  {
    Details(
      Js.Get(patient, "docPaciente"), Js.Get(patient, "fechaPaciente"), Js.Get(patient, "generoPaciente"),
      Js.Get(patient, "direccionPaciente"), Js.Get(patient, "telefonoPaciente"), Js.Get(patient, "emailPaciente"),
      Js.Get(patient, "contactoPaciente"), Js.Get(patient, "telefonoContactoPaciente"))
  }

  /** `v || ''` */
  function OrEmpty(v: Js.Value): Js.Value {
    if Js.Truthy(v) then v else Js.Str("")
  }

  predicate AllTruthy(d: Details) {
    Js.Truthy(d.docPaciente) && Js.Truthy(d.fechaPaciente) && Js.Truthy(d.generoPaciente) &&
    Js.Truthy(d.direccionPaciente) && Js.Truthy(d.telefonoPaciente) && Js.Truthy(d.emailPaciente) &&
    Js.Truthy(d.contactoPaciente) && Js.Truthy(d.telefonoContactoPaciente)
  }

  /** The eight fields in the order the form lists them. */
  function Fields(d: Details): (r: seq<Js.Value>) {
    [d.docPaciente, d.fechaPaciente, d.generoPaciente, d.direccionPaciente,
     d.telefonoPaciente, d.emailPaciente, d.contactoPaciente, d.telefonoContactoPaciente]
  }

  /** Each field `|| ''`: a missing or falsy field shows as empty text, any other is kept. */
  function Defaulted(d: Details): (r: Details)
    ensures forall k :: 0 <= k < |Fields(d)| && Js.Truthy(Fields(d)[k]) ==> Fields(r)[k] == Fields(d)[k]
    ensures forall k :: 0 <= k < |Fields(d)| && !Js.Truthy(Fields(d)[k]) ==> Fields(r)[k] == Js.Str("")
    ensures AllTruthy(d) ==> r == d
  {
    Details(
      OrEmpty(d.docPaciente), OrEmpty(d.fechaPaciente), OrEmpty(d.generoPaciente),
      OrEmpty(d.direccionPaciente), OrEmpty(d.telefonoPaciente), OrEmpty(d.emailPaciente),
      OrEmpty(d.contactoPaciente), OrEmpty(d.telefonoContactoPaciente))
  }

  /** The form behind the create and edit modals. */
  datatype PatientForm = PatientForm(nombre: string, apellido: string, details: Details)

  /** `resetForm()` */
  const EmptyForm := PatientForm("", "", NoDetails)

  /** The form `openEditModal(patient)` fills in: the stored name split at its first space
      (when that is past the start), and every other field `|| ''`. Saving an untouched form
      whose name splits cleanly sends the stored name back. */
  function EditForm(patient: Js.Value): (f: PatientForm)
    requires !Js.IsNullish(patient) && Js.TextOrFalsy(Js.Get(patient, "nombrePaciente"))
    ensures var full := Js.TextOrEmpty(Js.Get(patient, "nombrePaciente"));
            (' ' in full && full[0] != ' ' ==> f.nombre + " " + f.apellido == full && f.nombre != [] && ' ' !in f.nombre) &&
            (!(' ' in full && full[0] != ' ') ==> f.nombre == full && f.apellido == []) &&
            (SplitsCleanly(full) ==> JoinName(f.nombre, f.apellido) == full)
    ensures f.details == Defaulted(DetailsOf(patient))
  {
    var full := Js.TextOrEmpty(Js.Get(patient, "nombrePaciente"));
    var (nombre, apellido) := SplitName(full);
    if SplitsCleanly(full) then
      SplitThenJoin(full);
      PatientForm(nombre, apellido, Defaulted(DetailsOf(patient)))
    else PatientForm(nombre, apellido, Defaulted(DetailsOf(patient)))
  }

  /** The form's inputs, by their `name` attribute. */
  datatype Field =
    | Nombre | Apellido | DocPaciente | FechaPaciente | GeneroPaciente | DireccionPaciente
    | TelefonoPaciente | EmailPaciente | ContactoPaciente | TelefonoContactoPaciente

  /** The value an input shows. */
  function FieldValue(f: PatientForm, field: Field): Js.Value {
    match field
    case Nombre => Js.Str(f.nombre)
    case Apellido => Js.Str(f.apellido)
    case DocPaciente => f.details.docPaciente
    case FechaPaciente => f.details.fechaPaciente
    case GeneroPaciente => f.details.generoPaciente
    case DireccionPaciente => f.details.direccionPaciente
    case TelefonoPaciente => f.details.telefonoPaciente
    case EmailPaciente => f.details.emailPaciente
    case ContactoPaciente => f.details.contactoPaciente
    case TelefonoContactoPaciente => f.details.telefonoContactoPaciente
  }

  /** `{...prev, [name]: value}`: one input set to the typed text. */
  function WithField(f: PatientForm, field: Field, value: string): (r: PatientForm)
    ensures FieldValue(r, field) == Js.Str(value)
    ensures forall other :: other != field ==> FieldValue(r, other) == FieldValue(f, other)
  {
    var d := f.details;
    match field
    case Nombre => f.(nombre := value)
    case Apellido => f.(apellido := value)
    case DocPaciente => f.(details := d.(docPaciente := Js.Str(value)))
    case FechaPaciente => f.(details := d.(fechaPaciente := Js.Str(value)))
    case GeneroPaciente => f.(details := d.(generoPaciente := Js.Str(value)))
    case DireccionPaciente => f.(details := d.(direccionPaciente := Js.Str(value)))
    case TelefonoPaciente => f.(details := d.(telefonoPaciente := Js.Str(value)))
    case EmailPaciente => f.(details := d.(emailPaciente := Js.Str(value)))
    case ContactoPaciente => f.(details := d.(contactoPaciente := Js.Str(value)))
    case TelefonoContactoPaciente => f.(details := d.(telefonoContactoPaciente := Js.Str(value)))
  }

  /** The status every save writes: ACTIVO on create and update, INACTIVO on delete. */
  datatype PatientStatus = Activo | Inactivo

  /** The text sent as `estatusPaciente`; each status has its own. */
  function StatusCode(s: PatientStatus): (r: string)
    ensures r == "ACTIVO" <==> s == Activo
    ensures r == "INACTIVO" <==> s == Inactivo
  {
    match s
    case Activo => "ACTIVO"
    case Inactivo => "INACTIVO"
  }

  /** The body sent to the patient service. */
  datatype Payload = Payload(nombrePaciente: Js.Value, details: Details, estatusPaciente: PatientStatus)

  /** `dataToSend` of `handleCreate` and of `handleUpdate`. */
  /** Create and update send the two names joined, with no white space at either end, every
      other field as typed, and always ACTIVO. */
  function FormPayload(form: PatientForm): (p: Payload)
    ensures p.nombrePaciente.Str? && Trim(p.nombrePaciente.s) == p.nombrePaciente.s
    ensures p.details == form.details && p.estatusPaciente == Activo
  {
    JoinNameTrimmed(form.nombre, form.apellido);
    Payload(Js.Str(JoinName(form.nombre, form.apellido)), form.details, Activo)
  }

  /** `dataToSend` of `handleDelete`: the selected patient's own fields and INACTIVO. */
  function DeletePayload(patient: Js.Value): (p: Payload)
    requires !Js.IsNullish(patient)
    ensures p.nombrePaciente == Js.Get(patient, "nombrePaciente")
    ensures p.details == DetailsOf(patient) && p.estatusPaciente == Inactivo
  {
    Payload(Js.Get(patient, "nombrePaciente"), DetailsOf(patient), Inactivo)
  }

  /** The soft delete is an update that changes the status only: opening a patient whose fields
      are all filled in and whose name splits cleanly, and saving it untouched, sends what the
      delete sends except for ACTIVO in place of INACTIVO. */
  lemma DeleteIsUntouchedUpdate(patient: Js.Value)
    requires !Js.IsNullish(patient)
    requires Js.Get(patient, "nombrePaciente").Str? && SplitsCleanly(Js.Get(patient, "nombrePaciente").s)
    requires AllTruthy(DetailsOf(patient))
    ensures FormPayload(EditForm(patient)) == DeletePayload(patient).(estatusPaciente := Activo)
  {
    var name := Js.Get(patient, "nombrePaciente").s;
    assert Js.TextOrEmpty(Js.Get(patient, "nombrePaciente")) == name;
    assert Defaulted(DetailsOf(patient)) == DetailsOf(patient);
    var form := EditForm(patient);
    assert (form.nombre, form.apellido) == SplitName(name);
    SplitThenJoin(name);
  }

  /** Pages `start`, `start + 1`, ... for `count` buttons, each dropped once it reaches
      `totalPages` (the map returns null for it). */
  function Window(start: int, count: nat, totalPages: int): (r: seq<int>)
    ensures |r| == if totalPages <= start then 0 else if count < totalPages - start then count else totalPages - start
    ensures forall k :: 0 <= k < |r| ==> r[k] == start + k
    decreases count
  {
    if count == 0 then []
    else (if start < totalPages then [start] else []) + Window(start + 1, count - 1, totalPages)
  }

  /** The numbered page buttons, drawn while there is more than one page: up to five
      consecutive pages, from the first page or from two before the current one. */
  function PageButtons(currentPage: int, totalPages: int): (r: seq<int>)
    requires totalPages > 1
    ensures |r| <= 5 && |r| <= totalPages
    ensures forall k :: 0 <= k < |r| ==> 0 <= r[k] < totalPages
    ensures forall k :: 0 < k < |r| ==> r[k] == r[k - 1] + 1
  {
    var count := if totalPages < 5 then totalPages else 5;
    Window(if currentPage < 3 then 0 else currentPage - 2, count, totalPages)
  }

  /** On a valid page the current page has a button: the first, second or third one, the third
      from the third page on. */
  lemma PageButtonsShowCurrent(currentPage: int, totalPages: int)
    requires totalPages > 1 && Pagination.InRange(currentPage, totalPages)
    ensures var r := PageButtons(currentPage, totalPages);
            var j := if currentPage < 2 then currentPage else 2;
            j < |r| && r[j] == currentPage
  {
    var count := if totalPages < 5 then totalPages else 5;
    var start := if currentPage < 3 then 0 else currentPage - 2;
    var r := Window(start, count, totalPages);
    assert r == PageButtons(currentPage, totalPages);
    var j := if currentPage < 2 then currentPage else 2;
    assert start + j == currentPage;
    assert j < |r|;
  }

  /** "Mostrando a to b de totalElements": the first and last row numbers of the current page. */
  function ShownRange(currentPage: int, totalElements: int): (r: (int, int))
    ensures r.0 == currentPage * 10 + 1
    ensures r.1 <= totalElements && r.1 <= (currentPage + 1) * 10
    ensures r.1 == totalElements || r.1 == (currentPage + 1) * 10
  {
    (currentPage * 10 + 1, if (currentPage + 1) * 10 < totalElements then (currentPage + 1) * 10 else totalElements)
  }

  /** With ten rows a page, on a valid page the range is a non-empty run of at most ten rows
      inside the listing, the next page starts right after it, and the last page ends at the
      last row. */
  lemma ShownRangeTiles(currentPage: int, totalElements: nat, totalPages: int)
    requires totalPages == (totalElements + 9) / 10
    requires Pagination.InRange(currentPage, totalPages)
    ensures var (a, b) := ShownRange(currentPage, totalElements);
            1 <= a <= b <= totalElements && b - a < 10
    ensures currentPage + 1 < totalPages ==> ShownRange(currentPage + 1, totalElements).0 == ShownRange(currentPage, totalElements).1 + 1
    ensures currentPage == totalPages - 1 ==> ShownRange(currentPage, totalElements).1 == totalElements
  {
  }

  /** The query `loadPatients` sends: a search and a status filter only when set. */
  datatype Params = Params(page: int, size: int, sort: string, search: Option<string>, estatus: Option<string>)

  function LoadParams(currentPage: int, searchTerm: string, filterStatus: string): (p: Params)
    ensures p.page == currentPage && p.size == 10 && p.sort == "idPaciente,desc"
    ensures p.search.Some? <==> searchTerm != []
    ensures p.estatus.Some? <==> filterStatus != []
    ensures p.search.Some? ==> p.search.value == searchTerm
    ensures p.estatus.Some? ==> p.estatus.value == filterStatus
  {
    Params(currentPage, 10, "idPaciente,desc",
      if searchTerm != [] then Some(searchTerm) else None,
      if filterStatus != [] then Some(filterStatus) else None)
  }

  /** The page's state variables. */
  datatype PageState = PageState(
    searchTerm: string, filterStatus: string, currentPage: int, totalPages: int, totalElements: int,
    showCreateModal: bool, showEditModal: bool, showViewModal: bool, showDeleteModal: bool,
    selectedPatient: Js.Value, formData: PatientForm)

  /** The page's own state. `selectedPatient` is `Null` when none is selected. */
  class PatientsPageState {
    var searchTerm: string
    var filterStatus: string
    var currentPage: int
    var totalPages: int
    var totalElements: int
    var showCreateModal: bool
    var showEditModal: bool
    var showViewModal: bool
    var showDeleteModal: bool
    var selectedPatient: Js.Value
    var formData: PatientForm

    function State(): PageState
      reads this
    {
      PageState(searchTerm, filterStatus, currentPage, totalPages, totalElements,
        showCreateModal, showEditModal, showViewModal, showDeleteModal, selectedPatient, formData)
    }

    constructor()
      ensures State() == PageState("", "", 0, 0, 0, false, false, false, false, Js.Null, EmptyForm)
    {
      searchTerm := "";
      filterStatus := "";
      currentPage := 0;
      totalPages := 0;
      totalElements := 0;
      showCreateModal := false;
      showEditModal := false;
      showViewModal := false;
      showDeleteModal := false;
      selectedPatient := Js.Null;
      formData := EmptyForm;
    }

    /** The search box. */
    method SetSearchTerm(term: string)
      modifies this
      ensures State() == old(State()).(searchTerm := term)
    {
      searchTerm := term;
    }

    /** `handleSearch`: back to the first page. */
    method HandleSearch()
      modifies this
      ensures State() == old(State()).(currentPage := 0)
    {
      currentPage := 0;
    }

    /** The status filter: a new filter goes back to the first page. */
    method SetFilterStatus(status: string)
      modifies this
      ensures State() == old(State()).(filterStatus := status, currentPage := 0)
    {
      filterStatus := status;
      currentPage := 0;
    }

    /** The "Limpiar" button. */
    method ClearFilters()
      modifies this
      ensures State() == old(State()).(searchTerm := "", filterStatus := "", currentPage := 0)
    {
      searchTerm := "";
      filterStatus := "";
      currentPage := 0;
    }

    /** `openCreateModal` */
    method OpenCreateModal()
      modifies this
      ensures State() == old(State()).(formData := EmptyForm, showCreateModal := true)
    {
      formData := EmptyForm;
      showCreateModal := true;
    }

    /** `openEditModal(patient)`, with its two mutable locals. */
    method OpenEditModal(patient: Js.Value)
      requires !Js.IsNullish(patient) && Js.TextOrFalsy(Js.Get(patient, "nombrePaciente"))
      modifies this
      ensures State() == old(State()).(selectedPatient := patient, formData := EditForm(patient), showEditModal := true)
    {
      selectedPatient := patient;
      var full := Js.TextOrEmpty(Js.Get(patient, "nombrePaciente"));
      var firstSpace := IndexOf(full, ' ');
      var nombre := "";
      var apellido := "";
      if firstSpace > 0 {
        nombre := full[..firstSpace];
        apellido := full[firstSpace + 1..];
      } else {
        nombre := full;
      }
      formData := PatientForm(nombre, apellido, Defaulted(DetailsOf(patient)));
      showEditModal := true;
    }

    /** `openViewModal(patient)` */
    method OpenViewModal(patient: Js.Value)
      modifies this
      ensures State() == old(State()).(selectedPatient := patient, showViewModal := true)
    {
      selectedPatient := patient;
      showViewModal := true;
    }

    /** `openDeleteModal(patient)` */
    method OpenDeleteModal(patient: Js.Value)
      modifies this
      ensures State() == old(State()).(selectedPatient := patient, showDeleteModal := true)
    {
      selectedPatient := patient;
      showDeleteModal := true;
    }

    /** `handleInputChange`: one input set to the typed text. */
    method HandleInputChange(field: Field, value: string)
      modifies this
      ensures State() == old(State()).(formData := WithField(old(formData), field, value))
    {
      formData := WithField(formData, field, value);
    }

    /** `handleNumericInput`: one input set to the digits of the typed text. */
    method HandleNumericInput(field: Field, value: string)
      modifies this
      ensures State() == old(State()).(formData := WithField(old(formData), field, DigitsOnly(value)))
      ensures FieldValue(formData, field).Str? && DigitsOnly(FieldValue(formData, field).s) == FieldValue(formData, field).s
    {
      DigitsOnlyIdempotent(value);
      formData := WithField(formData, field, DigitsOnly(value));
    }

    /** `handleCreate`: sends the form with ACTIVO; a successful call (`callSucceeded`, the
        outcome of the network) closes the modal and clears the form. */
    method HandleCreate(callSucceeded: bool) returns (payload: Payload)
      modifies this
      ensures payload == FormPayload(old(formData))
      ensures callSucceeded ==> State() == old(State()).(showCreateModal := false, formData := EmptyForm)
      ensures !callSucceeded ==> State() == old(State())
    {
      payload := FormPayload(formData);
      if callSucceeded {
        showCreateModal := false;
        formData := EmptyForm;
      }
    }

    /** `handleUpdate`: sends the form with ACTIVO under the selected patient's id. With no
        selection the id read throws inside the handler's `try`, so no call is made. */
    method HandleUpdate(callSucceeded: bool) returns (call: Option<(Js.Value, Payload)>)
      modifies this
      ensures call.Some? <==> !Js.IsNullish(old(selectedPatient))
      ensures call.Some? ==> call.value == (Js.Get(old(selectedPatient), "idPaciente"), FormPayload(old(formData)))
      ensures call.Some? && callSucceeded ==>
                State() == old(State()).(showEditModal := false, formData := EmptyForm, selectedPatient := Js.Null)
      ensures call.None? || !callSucceeded ==> State() == old(State())
    {
      if Js.IsNullish(selectedPatient) {
        call := None;
      } else {
        call := Some((Js.Get(selectedPatient, "idPaciente"), FormPayload(formData)));
        if callSucceeded {
          showEditModal := false;
          formData := EmptyForm;
          selectedPatient := Js.Null;
        }
      }
    }

    /** `handleDelete`: the soft delete, an update of the selected patient to INACTIVO. It is
        offered only while a patient is selected. */
    method HandleDelete(callSucceeded: bool) returns (call: (Js.Value, Payload))
      requires Js.Truthy(selectedPatient)
      modifies this
      ensures call == (Js.Get(old(selectedPatient), "idPaciente"), DeletePayload(old(selectedPatient)))
      ensures call.1.estatusPaciente == Inactivo
      ensures callSucceeded ==> State() == old(State()).(showDeleteModal := false, selectedPatient := Js.Null)
      ensures !callSucceeded ==> State() == old(State())
    {
      call := (Js.Get(selectedPatient, "idPaciente"), DeletePayload(selectedPatient));
      if callSucceeded {
        showDeleteModal := false;
        selectedPatient := Js.Null;
      }
    }

    /** The "Anterior" button. */
    method PrevPage()
      modifies this
      ensures State() == old(State()).(currentPage := Pagination.Prev(old(currentPage)))
      ensures old(Pagination.InRange(currentPage, totalPages)) ==> Pagination.InRange(currentPage, totalPages)
    {
      currentPage := if 0 < currentPage - 1 then currentPage - 1 else 0;
    }

    /** The "Siguiente" button. */
    method NextPage()
      modifies this
      ensures State() == old(State()).(currentPage := Pagination.Next(old(currentPage), old(totalPages)))
      ensures old(Pagination.InRange(currentPage, totalPages)) ==> Pagination.InRange(currentPage, totalPages)
    {
      currentPage := if totalPages - 1 < currentPage + 1 then totalPages - 1 else currentPage + 1;
    }

    /** A numbered page button, which exists only while there is more than one page. */
    method GoToPage(page: int)
      requires totalPages > 1 && page in PageButtons(currentPage, totalPages)
      modifies this
      ensures State() == old(State()).(currentPage := page)
      ensures Pagination.InRange(currentPage, totalPages)
    {
      currentPage := page;
    }
  }
}
