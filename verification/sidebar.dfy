/** The side navigation (src/components/layout/Sidebar.jsx): a constant table of sections,
    filtered by the role utilities, and a map of which sections are expanded. */
module Sidebar {
  import opened Wrappers
  import opened Session
  import RoleUtils
  import Seqs

  datatype Badge = Badge(text: string, variant: string)

  /** A navigation entry. `roles` is None when the entry declares no role list. */
  datatype Item = Item(name: string, to: string, roles: Option<seq<string>>, badge: Option<Badge>)

  datatype Section = Section(id: string, name: string, items: seq<Item>)

  const Usuarios := Item("Usuarios", "/users", Some(["ADMIN"]), Some(Badge("Admin", "warning")))

  const NavigationSections: seq<Section> := [
    Section("main", "Principal", [
      Item("Dashboard", "/", Some(["ADMIN", "DOCTOR", "ENFERMERO", "ANALISTA", "RECEPCIONISTA", "AUDITOR"]), None)
    ]),
    Section("clinical", "Gestión Clínica", [
      Item("Pacientes", "/patients", Some(["ADMIN", "DOCTOR", "ENFERMERO", "RECEPCIONISTA"]), None),
      Item("Consultas", "/consultations", Some(["ADMIN", "DOCTOR", "ENFERMERO"]), None),
      Item("Evaluaciones", "/evaluations", Some(["ADMIN", "DOCTOR", "ENFERMERO", "ANALISTA"]), None),
      Item("Alto Riesgo", "/high-risk", Some(["ADMIN", "DOCTOR", "ENFERMERO"]), Some(Badge("!", "danger")))
    ]),
    Section("analytics", "Análisis y Reportes", [
      Item("Análisis de Sentimientos", "/sentiment", Some(["ADMIN", "DOCTOR", "ANALISTA"]), Some(Badge("RNTN", "info"))),
      Item("Reportes", "/reports", Some(["ADMIN", "DOCTOR", "ANALISTA", "AUDITOR"]), None)
    ]),
    Section("admin", "Administración", [
      Usuarios,
      Item("Configuración", "/settings", Some(["ADMIN", "DOCTOR"]), None)
    ])
  ]

  /** `!item.roles || hasAnyRole(item.roles)` */
  predicate Visible(user: Option<User>, item: Item) {
    item.roles.None? || RoleUtils.HasAnyRole(user, item.roles)
  }

  /** A section with its items narrowed to the visible ones; every other field is kept. */
  function FilterSection(user: Option<User>, s: Section): (t: Section)
    ensures t.id == s.id && t.name == s.name
    ensures forall it :: it in t.items <==> it in s.items && Visible(user, it)
  {
    s.(items := Seqs.Filter(s.items, (it: Item) => Visible(user, it)))
  }

  /** `filteredSections`: each section narrowed, then the sections left without items dropped. */
  function FilteredSections(user: Option<User>, sections: seq<Section>): (r: seq<Section>)
    ensures |r| <= |sections|
    ensures forall i :: 0 <= i < |r| ==> r[i].items != []
  {
    if sections == [] then []
    else
      var t := FilterSection(user, sections[0]);
      (if t.items != [] then [t] else []) + FilteredSections(user, sections[1..])
  }

  /** A section is shown exactly when it is the narrowing of a declared section and some item
      of it survives. */
  lemma {:induction false} FilteredSectionsMembers(user: Option<User>, sections: seq<Section>, t: Section)
    ensures t in FilteredSections(user, sections) <==>
              t.items != [] && exists s :: s in sections && t == FilterSection(user, s)
  {
    if sections != [] {
      FilteredSectionsMembers(user, sections[1..], t);
      assert forall s :: s in sections <==> s == sections[0] || s in sections[1..];
    }
  }

  /** Filtering works section by section, so the sections keep their declared order. */
  lemma {:induction false} FilteredSectionsAppend(user: Option<User>, a: seq<Section>, b: seq<Section>)
    ensures FilteredSections(user, a + b) == FilteredSections(user, a) + FilteredSections(user, b)
  {
    if a == [] {
      assert a + b == b;
    } else {
      assert (a + b)[0] == a[0];
      assert (a + b)[1..] == a[1..] + b;
      FilteredSectionsAppend(user, a[1..], b);
    }
  }

  /** Whether the filtered navigation shows an entry with this name. */
  ghost predicate ShowsItem(user: Option<User>, name: string) {
    exists t, it :: t in FilteredSections(user, NavigationSections) && it in t.items && it.name == name
  }

  /** The only entry called "Usuarios" is the one restricted to ADMIN. */
  lemma OnlyUsuariosIsNamedSo(s: Section, it: Item)
    requires s in NavigationSections && it in s.items && it.name == "Usuarios"
    ensures it == Usuarios
  {
  }

  /** The user-management entry shows exactly for holders of ADMIN. */
  lemma UsuariosVisibleIffAdmin(user: Option<User>)
    ensures ShowsItem(user, "Usuarios") <==> RoleUtils.HasRole(user, "ADMIN")
  {
    if RoleUtils.HasRole(user, "ADMIN") {
      AdminSeesUsuarios(user);
    }
    if ShowsItem(user, "Usuarios") {
      UsuariosNeedsAdmin(user);
    }
  }

  lemma AdminSeesUsuarios(user: Option<User>)
    requires RoleUtils.HasRole(user, "ADMIN")
    ensures ShowsItem(user, "Usuarios")
  {
    RoleUtils.SingletonAnyAll(user, "ADMIN");
    var admin := NavigationSections[3];
    assert admin in NavigationSections;
    var t := FilterSection(user, admin);
    assert Usuarios in admin.items;
    assert Usuarios in t.items;
    FilteredSectionsMembers(user, NavigationSections, t);
  }

  lemma UsuariosNeedsAdmin(user: Option<User>)
    requires ShowsItem(user, "Usuarios")
    ensures RoleUtils.HasRole(user, "ADMIN")
  {
    RoleUtils.SingletonAnyAll(user, "ADMIN");
    var t, it :| t in FilteredSections(user, NavigationSections) && it in t.items && it.name == "Usuarios";
    FilteredSectionsMembers(user, NavigationSections, t);
    var s :| s in NavigationSections && t == FilterSection(user, s);
    OnlyUsuariosIsNamedSo(s, it);
  }

  /** Every declared entry lists ADMIN among its roles, and no section is empty. */
  lemma EveryItemAdmitsAdmin()
    ensures forall s :: s in NavigationSections ==> s.items != []
    ensures forall s, it :: s in NavigationSections && it in s.items ==> it.roles.Some? && "ADMIN" in it.roles.value
  {
  }

  /** When every item of every section is visible and no section is empty, filtering changes nothing. */
  lemma {:induction false} AllVisibleKept(user: Option<User>, sections: seq<Section>)
    requires forall s :: s in sections ==> s.items != []
    requires forall s, it :: s in sections && it in s.items ==> Visible(user, it)
    ensures FilteredSections(user, sections) == sections
  {
    if sections != [] {
      var s := sections[0];
      Seqs.FilterKeepsAll(s.items, (it: Item) => Visible(user, it));
      assert FilterSection(user, s) == s;
      AllVisibleKept(user, sections[1..]);
    }
  }

  /** Every entry admits ADMIN, so an ADMIN holder sees the whole table unchanged. */
  lemma AdminSeesEverything(user: Option<User>)
    requires RoleUtils.HasRole(user, "ADMIN")
    ensures FilteredSections(user, NavigationSections) == NavigationSections
  {
    EveryItemAdmitsAdmin();
    forall s, it | s in NavigationSections && it in s.items
      ensures Visible(user, it)
    {
      assert "ADMIN" in it.roles.value;
    }
    AllVisibleKept(user, NavigationSections);
  }

  /** The expanded flag of a section: a missing key reads as undefined, which is falsy. */
  function IsExpanded(m: map<string, bool>, section: string): bool {
    section in m && m[section]
  }

  const InitialExpanded: map<string, bool> := map["main" := true, "clinical" := true, "analytics" := true, "admin" := true]

  /** `{...prev, [section]: !prev[section]}` */
  function Toggled(m: map<string, bool>, section: string): (r: map<string, bool>)
    ensures section in r && r[section] == !IsExpanded(m, section)
    ensures forall k :: k != section ==> (k in r <==> k in m)
    ensures forall k :: k != section && k in m ==> r[k] == m[k]
  {
    m[section := !IsExpanded(m, section)]
  }

  /** Toggling a known section twice gives back the map it started from. */
  lemma ToggleTwice(m: map<string, bool>, section: string)
    requires section in m
    ensures Toggled(Toggled(m, section), section) == m
  {
    var r := Toggled(Toggled(m, section), section);
    assert forall k :: k in r <==> k in m;
  }

  /** The component's own state: which sections are expanded. */
  class SidebarState {
    var expandedSections: map<string, bool>

    /** Every section starts expanded. */
    constructor()
      ensures expandedSections == InitialExpanded
      ensures forall s :: s in NavigationSections ==> IsExpanded(expandedSections, s.id)
    {
      expandedSections := InitialExpanded;
    }

    /** `toggleSection(section)` */
    method ToggleSection(section: string)
      modifies this
      ensures expandedSections == Toggled(old(expandedSections), section)
    {
      expandedSections := expandedSections[section := !IsExpanded(expandedSections, section)];
    }
  }
}
