/** The dashboard's shortcut panel (src/components/common/QuickAccessMenu.jsx): a constant list
    of actions filtered by the role utilities. */
module QuickAccessMenu {
  import opened Wrappers
  import opened Session
  import RoleUtils
  import Seqs

  /** A shortcut. `roles` is None when the action declares no role list. */
  datatype QuickAction = QuickAction(name: string, description: string, route: string, roles: Option<seq<string>>)

  const GestionUsuarios := QuickAction("Gestión Usuarios", "Administrar usuarios", "/users", Some(["ADMIN"]))

  const QuickActions: seq<QuickAction> := [
    QuickAction("Nuevo Paciente", "Registrar nuevo paciente", "/patients", Some(["ADMIN", "DOCTOR", "ENFERMERO", "RECEPCIONISTA"])),
    QuickAction("Nueva Consulta", "Agendar consulta", "/consultations", Some(["ADMIN", "DOCTOR", "ENFERMERO"])),
    QuickAction("Nueva Evaluación", "Crear evaluación", "/evaluations", Some(["ADMIN", "DOCTOR", "ENFERMERO", "ANALISTA"])),
    QuickAction("Análisis IA", "Análisis de sentimientos", "/sentiment", Some(["ADMIN", "DOCTOR", "ANALISTA"])),
    QuickAction("Alto Riesgo", "Monitoreo crítico", "/high-risk", Some(["ADMIN", "DOCTOR", "ENFERMERO"])),
    QuickAction("Generar Reporte", "Crear nuevo reporte", "/reports", Some(["ADMIN", "DOCTOR", "ANALISTA", "AUDITOR"])),
    GestionUsuarios,
    QuickAction("Estadísticas", "Ver estadísticas", "/reports", Some(["ADMIN", "DOCTOR", "ANALISTA"]))
  ]

  /** `!action.roles || hasAnyRole(action.roles)` */
  predicate Shown(user: Option<User>, action: QuickAction) {
    action.roles.None? || RoleUtils.HasAnyRole(user, action.roles)
  }

  /** `filteredActions`: the declared actions the user may see, in declared order. */
  function FilteredActions(user: Option<User>): (r: seq<QuickAction>)
    ensures forall a :: a in r <==> a in QuickActions && Shown(user, a)
  {
    Seqs.Filter(QuickActions, (a: QuickAction) => Shown(user, a))
  }

  /** Every action declares a role list that contains ADMIN. */
  lemma EveryActionAdmitsAdmin()
    ensures forall a :: a in QuickActions ==> a.roles.Some? && "ADMIN" in a.roles.value
  {
  }

  /** An ADMIN holder gets every action, in the declared order. */
  lemma AdminSeesAllActions(user: Option<User>)
    requires RoleUtils.HasRole(user, "ADMIN")
    ensures FilteredActions(user) == QuickActions
  {
    EveryActionAdmitsAdmin();
    forall a | a in QuickActions
      ensures Shown(user, a)
    {
      assert "ADMIN" in a.roles.value;
    }
    Seqs.FilterKeepsAll(QuickActions, (a: QuickAction) => Shown(user, a));
  }

  /** The user-management shortcut shows exactly for holders of ADMIN. */
  lemma GestionUsuariosIffAdmin(user: Option<User>)
    ensures GestionUsuarios in FilteredActions(user) <==> RoleUtils.HasRole(user, "ADMIN")
  {
    RoleUtils.SingletonAnyAll(user, "ADMIN");
    assert GestionUsuarios == QuickActions[6];
  }

  /** Every action declares roles, so an identity without roles sees nothing. */
  lemma NoRolesNoActions(user: Option<User>)
    requires user.None? || user.value.roles.None? || user.value.roles.value == []
    ensures FilteredActions(user) == []
  {
    EveryActionAdmitsAdmin();
    forall a | a in QuickActions
      ensures !Shown(user, a)
    {
      assert !RoleUtils.HasAnyRole(user, a.roles);
    }
    Seqs.FilterNone(QuickActions, (a: QuickAction) => Shown(user, a));
  }
}
