/** The consultations screen (src/pages/ConsultationsPage.jsx): a read gate and per-handler
    permissions in front of the consultations table. */
module ConsultationsPage {
  import opened Wrappers
  import opened Session
  import Js
  import RoleUtils
  import Pagination
  import ConsultationList

  /** What the page renders: the denial alert, or the list with its create button and the
      callbacks handed to the table. */
  datatype View = Denied(message: string) | Listing(showCreate: bool, callbacks: ConsultationList.Callbacks)

  const DeniedMessage := "No tiene permisos para ver las consultas"

  /** The page for the identity `user`. */
  function Render(user: Option<User>): (v: View)
    ensures v.Denied? <==> !RoleUtils.HoldsPermission(user, "consulta:read")
    ensures v.Denied? ==> v.message == DeniedMessage
    ensures v.Listing? ==>
              (v.showCreate <==> RoleUtils.HoldsPermission(user, "consulta:create")) &&
              v.callbacks.onViewDetails &&
              (v.callbacks.onEdit <==> RoleUtils.HoldsPermission(user, "consulta:update")) &&
              v.callbacks.onUpdateStatus == v.callbacks.onEdit &&
              v.callbacks.onFinalize == v.callbacks.onEdit &&
              (v.callbacks.onDelete <==> RoleUtils.HoldsPermission(user, "consulta:delete"))
  {
    var canCreate := RoleUtils.HasPermission(user, "consulta:create");
    var canUpdate := RoleUtils.HasPermission(user, "consulta:update");
    var canDelete := RoleUtils.HasPermission(user, "consulta:delete");
    var canRead := RoleUtils.HasPermission(user, "consulta:read");
    if !canRead then Denied(DeniedMessage)
    else Listing(canCreate, ConsultationList.Callbacks(true, canUpdate, canDelete, canUpdate, canUpdate))
  }

  /** The loading effect runs only with read permission, which is also what shows the list. */
  function LoadsConsultations(user: Option<User>): (r: bool)
    ensures r <==> Render(user).Listing?
  {
    RoleUtils.HasPermission(user, "consulta:read")
  }

  /** Without "consulta:update" no row offers Editar, Estado or Finalizar; without
      "consulta:delete" no row offers Eliminar; whatever its status. */
  lemma RowActionsFollowPermissions(user: Option<User>, status: Js.Value)
    requires Render(user).Listing?
    ensures var b := ConsultationList.RowButtons(Render(user).callbacks, status);
            (!RoleUtils.HoldsPermission(user, "consulta:update") ==> !b.editar && !b.estado && !b.finalizar) &&
            (!RoleUtils.HoldsPermission(user, "consulta:delete") ==> !b.eliminar) &&
            b.ver
  {
    ConsultationList.ButtonsNeedCallbacks(Render(user).callbacks, status);
  }

  /** The service call a submit makes. */
  datatype SubmitCall = Create | Update(id: Js.Value)

  /** `isEditing && selectedConsultation`: an update of the selection, otherwise a create. */
  function SubmitCallFor(isEditing: bool, selected: Js.Value): (c: SubmitCall)
    ensures c.Update? <==> isEditing && Js.Truthy(selected)
  {
    if isEditing && Js.Truthy(selected) then Update(Js.Get(selected, "idConsulta")) else Create
  }

  /** The page's own state. `selectedConsultation` is `Null` when nothing is selected. */
  class ConsultationsPageState {
    var currentPage: int
    var totalPages: int
    var selectedConsultation: Js.Value
    var isEditing: bool
    var showForm: bool
    var showDetails: bool

    constructor()
      ensures currentPage == 0 && totalPages == 0 && selectedConsultation == Js.Null
      ensures !isEditing && !showForm && !showDetails
    {
      currentPage := 0;
      totalPages := 0;
      selectedConsultation := Js.Null;
      isEditing := false;
      showForm := false;
      showDetails := false;
    }

    /** `handleCreate` */
    method HandleCreate()
      modifies this
      ensures selectedConsultation == Js.Null && !isEditing && showForm
      ensures currentPage == old(currentPage) && totalPages == old(totalPages) && showDetails == old(showDetails)
    {
      selectedConsultation := Js.Null;
      isEditing := false;
      showForm := true;
    }

    /** `handleEdit(consultation)` */
    method HandleEdit(consultation: Js.Value)
      modifies this
      ensures selectedConsultation == consultation && isEditing && showForm
      ensures currentPage == old(currentPage) && totalPages == old(totalPages) && showDetails == old(showDetails)
    {
      selectedConsultation := consultation;
      isEditing := true;
      showForm := true;
    }

    /** `handleViewDetails(consultation)`: selects without touching the editing flag. */
    method HandleViewDetails(consultation: Js.Value)
      modifies this
      ensures selectedConsultation == consultation && showDetails
      ensures isEditing == old(isEditing) && showForm == old(showForm)
      ensures currentPage == old(currentPage) && totalPages == old(totalPages)
    {
      selectedConsultation := consultation;
      showDetails := true;
    }

    /** `handleSubmit`: the call follows the editing flag and the selection; a successful call
        (`callSucceeded`, decided by the network) closes the form and clears the selection. */
    method HandleSubmit(callSucceeded: bool) returns (call: SubmitCall)
      modifies this
      ensures call == SubmitCallFor(old(isEditing), old(selectedConsultation))
      ensures callSucceeded ==> !showForm && selectedConsultation == Js.Null
      ensures !callSucceeded ==> showForm == old(showForm) && selectedConsultation == old(selectedConsultation)
      ensures isEditing == old(isEditing) && showDetails == old(showDetails)
      ensures currentPage == old(currentPage) && totalPages == old(totalPages)
    {
      if isEditing && Js.Truthy(selectedConsultation) {
        call := Update(Js.Get(selectedConsultation, "idConsulta"));
      } else {
        call := Create;
      }
      if callSucceeded {
        showForm := false;
        selectedConsultation := Js.Null;
      }
    }

    /** The "Anterior" button. */
    method PrevPage()
      modifies this
      ensures currentPage == Pagination.Prev(old(currentPage))
      ensures old(Pagination.InRange(currentPage, totalPages)) ==> Pagination.InRange(currentPage, totalPages)
      ensures totalPages == old(totalPages) && selectedConsultation == old(selectedConsultation)
      ensures isEditing == old(isEditing) && showForm == old(showForm) && showDetails == old(showDetails)
    {
      currentPage := if currentPage - 1 < 0 then 0 else currentPage - 1;
    }

    /** The "Siguiente" button. */
    method NextPage()
      modifies this
      ensures currentPage == Pagination.Next(old(currentPage), totalPages)
      ensures old(Pagination.InRange(currentPage, totalPages)) ==> Pagination.InRange(currentPage, totalPages)
      ensures totalPages == old(totalPages) && selectedConsultation == old(selectedConsultation)
      ensures isEditing == old(isEditing) && showForm == old(showForm) && showDetails == old(showDetails)
    {
      currentPage := if totalPages - 1 < currentPage + 1 then totalPages - 1 else currentPage + 1;
    }
  }
}
