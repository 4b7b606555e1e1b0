/** The evaluations screen (src/pages/EvaluationsPage.jsx): three tabs, each bound to one
    permission resource, with create/update/delete offered for the active tab only. */
module EvaluationsPage {
  import opened Wrappers
  import opened Session
  import Js
  import RoleUtils
  import Seqs
  import Pagination

  /** The tab identifiers 'evaluations', 'questions' and 'answers'. */
  datatype Tab = Evaluations | Questions | Answers

  /** The permission resource behind each tab. */
  function Resource(tab: Tab): string {
    match tab
    case Evaluations => "evaluacion"
    case Questions => "evaluacion_pregunta"
    case Answers => "evaluacion_respuesta"
  }

  /** The id field of the selected row that the update call sends. */
  function IdField(tab: Tab): string {
    match tab
    case Evaluations => "idEvaluacion"
    case Questions => "idEvaluacionPregunta"
    case Answers => "idEvaluacionRespuesta"
  }

  /** The twelve `hasPermission('<resource>:<action>')` flags, read for one tab and action. */
  function TabPermission(user: Option<User>, tab: Tab, action: string): (r: bool)
    ensures r <==> RoleUtils.HoldsPermission(user, Resource(tab) + ":" + action)
  {
    RoleUtils.HasPermission(user, Resource(tab) + ":" + action)
  }

  /** `canCreate` / `canUpdate` / `canDelete`: the disjunction over the three tabs, which
      selects the active tab's "<resource>:<action>" permission. */
  function Capability(user: Option<User>, activeTab: Tab, action: string): (r: bool)
    ensures r <==> RoleUtils.HoldsPermission(user, Resource(activeTab) + ":" + action)
  {
    (activeTab == Evaluations && TabPermission(user, Evaluations, action)) ||
    (activeTab == Questions && TabPermission(user, Questions, action)) ||
    (activeTab == Answers && TabPermission(user, Answers, action))
  }

  const AllTabs: seq<Tab> := [Evaluations, Questions, Answers]

  lemma EveryTabListed()
    ensures forall t :: t in AllTabs
  {
    forall t: Tab
      ensures t in AllTabs
    {
      match t
      case Evaluations => assert AllTabs[0] == t;
      case Questions => assert AllTabs[1] == t;
      case Answers => assert AllTabs[2] == t;
    }
  }

  /** `tabs.filter(tab => tab.permission)`: the tabs whose read permission is held, in order. */
  function VisibleTabs(user: Option<User>): (r: seq<Tab>)
    ensures forall t :: t in r <==> TabPermission(user, t, "read")
  {
    EveryTabListed();
    Seqs.Filter(AllTabs, (t: Tab) => TabPermission(user, t, "read"))
  }

  /** `loadData` fetches the active tab's rows only when its read permission is held. */
  function LoadsData(user: Option<User>, activeTab: Tab): (r: bool)
    ensures r <==> activeTab in VisibleTabs(user)
  {
    TabPermission(user, activeTab, "read")
  }

  /** The service call a submit makes. */
  datatype SubmitCall = Create(tab: Tab) | Update(tab: Tab, id: Js.Value)

  /** `isEditing && selectedItem`: an update of the selected row, otherwise a create. */
  function SubmitCallFor(activeTab: Tab, isEditing: bool, selectedItem: Js.Value): (c: SubmitCall)
    ensures c.tab == activeTab
    ensures c.Update? <==> isEditing && Js.Truthy(selectedItem)
  {
    if isEditing && Js.Truthy(selectedItem) then Update(activeTab, Js.Get(selectedItem, IdField(activeTab)))
    else Create(activeTab)
  }

  /** The page's own state. `selectedItem` is `Null` when nothing is selected. */
  class EvaluationsPageState {
    var activeTab: Tab
    var currentPage: int
    var totalPages: int
    var selectedItem: Js.Value
    var isEditing: bool
    var showForm: bool

    constructor()
      ensures activeTab == Evaluations && currentPage == 0 && totalPages == 0
      ensures selectedItem == Js.Null && !isEditing && !showForm
    {
      activeTab := Evaluations;
      currentPage := 0;
      totalPages := 0;
      selectedItem := Js.Null;
      isEditing := false;
      showForm := false;
    }

    /** A tab button: switch tab and go back to the first page. */
    method SelectTab(tab: Tab)
      modifies this
      ensures activeTab == tab && currentPage == 0
      ensures totalPages == old(totalPages) && selectedItem == old(selectedItem)
      ensures isEditing == old(isEditing) && showForm == old(showForm)
    {
      activeTab := tab;
      currentPage := 0;
    }

    /** `handleCreate` */
    method HandleCreate()
      modifies this
      ensures selectedItem == Js.Null && !isEditing && showForm
      ensures activeTab == old(activeTab) && currentPage == old(currentPage) && totalPages == old(totalPages)
    {
      selectedItem := Js.Null;
      isEditing := false;
      showForm := true;
    }

    /** `handleEdit(item)` */
    method HandleEdit(item: Js.Value)
      modifies this
      ensures selectedItem == item && isEditing && showForm
      ensures activeTab == old(activeTab) && currentPage == old(currentPage) && totalPages == old(totalPages)
    {
      selectedItem := item;
      isEditing := true;
      showForm := true;
    }

    /** `handleSubmit`: the call made follows the editing flag and the selection. When the call
        succeeds (`callSucceeded`, the outcome of the network) the form closes and the selection
        is cleared; `isEditing` is left as it was either way. */
    method HandleSubmit(callSucceeded: bool) returns (call: SubmitCall)
      modifies this
      ensures call == SubmitCallFor(old(activeTab), old(isEditing), old(selectedItem))
      ensures callSucceeded ==> !showForm && selectedItem == Js.Null
      ensures !callSucceeded ==> showForm == old(showForm) && selectedItem == old(selectedItem)
      ensures isEditing == old(isEditing) && activeTab == old(activeTab) && currentPage == old(currentPage)
      ensures totalPages == old(totalPages)
    {
      if isEditing && Js.Truthy(selectedItem) {
        call := Update(activeTab, Js.Get(selectedItem, IdField(activeTab)));
      } else {
        call := Create(activeTab);
      }
      if callSucceeded {
        showForm := false;
        selectedItem := Js.Null;
      }
    }

    /** The "Anterior" button. */
    method PrevPage()
      modifies this
      ensures currentPage == Pagination.Prev(old(currentPage))
      ensures old(Pagination.InRange(currentPage, totalPages)) ==> Pagination.InRange(currentPage, totalPages)
      ensures totalPages == old(totalPages) && activeTab == old(activeTab)
      ensures selectedItem == old(selectedItem) && isEditing == old(isEditing) && showForm == old(showForm)
    {
      currentPage := if currentPage - 1 < 0 then 0 else currentPage - 1;
    }

    /** The "Siguiente" button. */
    method NextPage()
      modifies this
      ensures currentPage == Pagination.Next(old(currentPage), totalPages)
      ensures old(Pagination.InRange(currentPage, totalPages)) ==> Pagination.InRange(currentPage, totalPages)
      ensures totalPages == old(totalPages) && activeTab == old(activeTab)
      ensures selectedItem == old(selectedItem) && isEditing == old(isEditing) && showForm == old(showForm)
    {
      currentPage := if totalPages - 1 < currentPage + 1 then totalPages - 1 else currentPage + 1;
    }
  }
}
