/** The consultations table (src/components/consultations/ConsultationList.jsx): status lookups,
    which row actions are offered, and the status-change dialog. */
module ConsultationList {
  import opened Wrappers
  import Js

  datatype StatusOption = StatusOption(id: int, name: string, color: string)

  /** `statusOptions`, in declared order. */
  const StatusOptions: seq<StatusOption> := [
    StatusOption(1, "PENDIENTE", "yellow"),
    StatusOption(2, "EN_PROGRESO", "blue"),
    StatusOption(3, "COMPLETADA", "green"),
    StatusOption(4, "CANCELADA", "red"),
    StatusOption(5, "REPROGRAMADA", "purple"),
    StatusOption(6, "NO_ASISTIO", "gray")
  ]

  /** `options.find(s => s.id === statusId)`: strict equality, so only a number can match. */
  function Find(options: seq<StatusOption>, statusId: Js.Value): (r: Option<StatusOption>)
    ensures r.Some? ==> r.value in options && statusId == Js.Num(r.value.id)
    ensures r.None? <==> forall o :: o in options ==> statusId != Js.Num(o.id)
  {
    if options == [] then None
    else if statusId == Js.Num(options[0].id) then Some(options[0])
    else Find(options[1..], statusId)
  }

  /** The table's ids are 1 to 6 in order. */
  lemma StatusIdsArePositions()
    ensures forall k :: 0 <= k < |StatusOptions| ==> StatusOptions[k].id == k + 1
  {
  }

  /** `getStatusColor(statusId)`: the table's color, or 'gray' for an unknown id. */
  function StatusColor(statusId: Js.Value): (r: string)
    ensures statusId.Num? && 1 <= statusId.n <= 6 ==> r == StatusOptions[statusId.n - 1].color
    ensures !(statusId.Num? && 1 <= statusId.n <= 6) ==> r == "gray"
  {
    StatusIdsArePositions();
    var found := Find(StatusOptions, statusId);
    if found.Some? && found.value.color != "" then found.value.color else "gray"
  }

  /** `getStatusName(statusId)`: the table's name, or 'DESCONOCIDO' for an unknown id. */
  function StatusName(statusId: Js.Value): (r: string)
    ensures statusId.Num? && 1 <= statusId.n <= 6 ==> r == StatusOptions[statusId.n - 1].name
    ensures !(statusId.Num? && 1 <= statusId.n <= 6) ==> r == "DESCONOCIDO"
  {
    StatusIdsArePositions();
    var found := Find(StatusOptions, statusId);
    if found.Some? && found.value.name != "" then found.value.name else "DESCONOCIDO"
  }

  /** The status badge text: the row's own `estatusConsultaNombre` when truthy, else the lookup. */
  function DisplayedStatusName(row: Js.Value): (r: Js.Value)
    requires !Js.IsNullish(row)
    ensures Js.Truthy(Js.Get(row, "estatusConsultaNombre")) ==> r == Js.Get(row, "estatusConsultaNombre")
    ensures !Js.Truthy(Js.Get(row, "estatusConsultaNombre")) ==>
              r == Js.Str(StatusName(Js.Get(row, "estatusConsulta")))
  {
    var own := Js.Get(row, "estatusConsultaNombre");
    if Js.Truthy(own) then own else Js.Str(StatusName(Js.Get(row, "estatusConsulta")))
  }

  /** Which optional callbacks the parent passed. */
  datatype Callbacks = Callbacks(onViewDetails: bool, onEdit: bool, onDelete: bool, onUpdateStatus: bool, onFinalize: bool)

  /** The buttons in a row's actions cell. */
  datatype Buttons = Buttons(ver: bool, editar: bool, estado: bool, finalizar: bool, eliminar: bool)

  /** The actions cell of a row whose `estatusConsulta` is `status`: each button needs its
      callback, editing and the status dialog are closed to a COMPLETADA consultation, finishing
      is offered only while EN_PROGRESO and deleting only while PENDIENTE. */
  function RowButtons(cb: Callbacks, status: Js.Value): (b: Buttons)
    ensures b.ver <==> cb.onViewDetails
    ensures b.editar <==> cb.onEdit && StatusName(status) != "COMPLETADA"
    ensures b.estado <==> cb.onUpdateStatus && StatusName(status) != "COMPLETADA"
    ensures b.finalizar <==> cb.onFinalize && StatusName(status) == "EN_PROGRESO"
    ensures b.eliminar <==> cb.onDelete && StatusName(status) == "PENDIENTE"
  {
    Buttons(
      cb.onViewDetails,
      cb.onEdit && status != Js.Num(3),
      cb.onUpdateStatus && status != Js.Num(3),
      cb.onFinalize && status == Js.Num(2),
      cb.onDelete && status == Js.Num(1))
  }

  /** No button appears without the callback it calls. */
  lemma ButtonsNeedCallbacks(cb: Callbacks, status: Js.Value)
    ensures var b := RowButtons(cb, status);
            (b.ver ==> cb.onViewDetails) && (b.editar ==> cb.onEdit) && (b.estado ==> cb.onUpdateStatus) &&
            (b.finalizar ==> cb.onFinalize) && (b.eliminar ==> cb.onDelete)
  {
  }

  /** A completed consultation can only be viewed; finishing needs EN_PROGRESO and deleting
      needs PENDIENTE, so the two never appear together. */
  lemma ButtonsByStatus(cb: Callbacks, status: Js.Value)
    ensures var b := RowButtons(cb, status);
            (status == Js.Num(3) ==> !b.editar && !b.estado && !b.finalizar && !b.eliminar) &&
            (b.finalizar ==> status == Js.Num(2)) &&
            (b.eliminar ==> status == Js.Num(1)) &&
            !(b.finalizar && b.eliminar)
  {
  }

  /** With every callback passed, the buttons are decided by the status alone. */
  lemma AllCallbacksButtons(status: Js.Value)
    ensures var b := RowButtons(Callbacks(true, true, true, true, true), status);
            b.ver && (b.editar <==> status != Js.Num(3)) && (b.estado <==> status != Js.Num(3)) &&
            (b.finalizar <==> status == Js.Num(2)) && (b.eliminar <==> status == Js.Num(1))
  {
  }

  /** The table's status-change dialog. `selectedConsultation` is `Null` when none is chosen. */
  class StatusDialog {
    var selectedConsultation: Js.Value
    var showStatusModal: bool

    constructor()
      ensures selectedConsultation == Js.Null && !showStatusModal
    {
      selectedConsultation := Js.Null;
      showStatusModal := false;
    }

    /** The dialog is rendered while it is open and a consultation is selected. */
    predicate IsOpen()
      reads this
    {
      showStatusModal && Js.Truthy(selectedConsultation)
    }

    /** The "Estado" button of a row. */
    method Open(row: Js.Value)
      modifies this
      ensures selectedConsultation == row && showStatusModal
    {
      selectedConsultation := row;
      showStatusModal := true;
    }

    /** `handleStatusUpdate(consultation, newStatusId)`: reports the change to the parent when
        it passed `onUpdateStatus`, and closes the dialog either way. */
    method HandleStatusUpdate(consultation: Js.Value, newStatusId: int, onUpdateStatus: bool)
      returns (call: Option<(Js.Value, int)>)
      requires onUpdateStatus ==> !Js.IsNullish(consultation)
      modifies this
      ensures call.Some? <==> onUpdateStatus
      ensures call.Some? ==> call.value == (Js.Get(consultation, "idConsulta"), newStatusId)
      ensures !showStatusModal && selectedConsultation == Js.Null && !IsOpen()
    {
      if onUpdateStatus {
        call := Some((Js.Get(consultation, "idConsulta"), newStatusId));
      } else {
        call := None;
      }
      showStatusModal := false;
      selectedConsultation := Js.Null;
    }
  }
}
