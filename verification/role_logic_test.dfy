/** The role-logic check script (test-role-logic.js): its two-argument `hasAnyRole` and the
    concrete cases it lists, stated as lemmas, together with the correspondence between that
    function and the role utilities' `hasAnyRole`. */
module RoleLogicTest {
  import opened Wrappers
  import opened Strings
  import opened Session
  import Js
  import Seqs
  import RoleUtils
  import ProtectedRoute

  /** `hasAnyRole(userRoles, requiredRoles)`: some required role equals some user role once both
      are upper-cased; a non-array or empty required list is never satisfied. */
  function HasAnyRole(userRoles: seq<string>, requiredRoles: Option<seq<string>>): (r: bool)
    ensures r <==> requiredRoles.Some? && |requiredRoles.value| > 0 &&
                   exists req, have :: req in requiredRoles.value && have in userRoles && Upper(have) == Upper(req)
  {
    if requiredRoles.None? || |requiredRoles.value| == 0 then false
    else Seqs.Any(requiredRoles.value, (req: string) => Seqs.Any(userRoles, (have: string) => Upper(have) == Upper(req)))
  }

  /** No white space at either end. */
  predicate Untrimmed(s: string) {
    s == [] || (!IsSpace(s[0]) && !IsSpace(s[|s| - 1]))
  }

  /** For a role without surrounding white space, the role utilities' normal form is just the
      upper-case. */
  lemma NormRoleOfUntrimmed(s: string)
    requires Untrimmed(s)
    ensures RoleUtils.NormRole(s) == Upper(s)
  {
    if s != [] {
      assert Upper(s)[0] == UpperChar(s[0]);
      assert Upper(s)[|s| - 1] == UpperChar(s[|s| - 1]);
    }
    TrimOfTrimmed(Upper(s));
  }

  /** The script's function agrees with the role utilities' `hasAnyRole` for a user holding
      `userRoles`, as long as no role name carries surrounding white space (the utilities also
      trim). */
  lemma AgreesWithRoleUtils(userRoles: seq<string>, requiredRoles: Option<seq<string>>, name: Js.Value, perms: Option<seq<Js.Value>>)
    requires forall x :: x in userRoles ==> Untrimmed(x)
    requires requiredRoles.Some? ==> forall x :: x in requiredRoles.value ==> Untrimmed(x)
    ensures HasAnyRole(userRoles, requiredRoles) == RoleUtils.HasAnyRole(Some(User(name, Some(userRoles), perms)), requiredRoles)
  {
    var user := Some(User(name, Some(userRoles), perms));
    if requiredRoles.Some? {
      forall x | x in userRoles ensures RoleUtils.NormRole(x) == Upper(x) { NormRoleOfUntrimmed(x); }
      forall x | x in requiredRoles.value ensures RoleUtils.NormRole(x) == Upper(x) { NormRoleOfUntrimmed(x); }
    }
  }

  /** A name written in capitals is its own upper-case. */
  lemma UpperOfCapitals(s: string)
    requires forall i :: 0 <= i < |s| ==> 'A' <= s[i] <= 'Z'
    ensures Upper(s) == s
  {
  }

  /** The script's specific cases, with their expected results. */
  lemma DoctorReachesAdminDoctor()
    ensures HasAnyRole(["DOCTOR"], Some(["ADMIN", "DOCTOR"]))
  {
    var req, have := "DOCTOR", "DOCTOR";
    assert req in ["ADMIN", "DOCTOR"] && have in ["DOCTOR"] && Upper(have) == Upper(req);
  }

  lemma NurseDeniedAdminDoctor()
    ensures !HasAnyRole(["ENFERMERO"], Some(["ADMIN", "DOCTOR"]))
  {
    UpperOfCapitals("ENFERMERO");
    UpperOfCapitals("ADMIN");
    UpperOfCapitals("DOCTOR");
    assert forall req :: req in ["ADMIN", "DOCTOR"] ==> req == "ADMIN" || req == "DOCTOR";
  }

  lemma DoctorAnalystReachesAnalyst()
    ensures HasAnyRole(["DOCTOR", "ANALISTA"], Some(["ANALISTA"]))
  {
    assert "ANALISTA" in ["ANALISTA"] && "ANALISTA" in ["DOCTOR", "ANALISTA"];
  }

  lemma AdminReachesAdmin()
    ensures HasAnyRole(["ADMIN"], Some(["ADMIN"]))
  {
    assert "ADMIN" in ["ADMIN"];
  }

  lemma ReceptionistDeniedClinical()
    ensures !HasAnyRole(["RECEPCIONISTA"], Some(["ADMIN", "DOCTOR", "ENFERMERO"]))
  {
    UpperOfCapitals("RECEPCIONISTA");
    UpperOfCapitals("ADMIN");
    UpperOfCapitals("DOCTOR");
    UpperOfCapitals("ENFERMERO");
    assert forall req :: req in ["ADMIN", "DOCTOR", "ENFERMERO"] ==> req == "ADMIN" || req == "DOCTOR" || req == "ENFERMERO";
  }

  /** ADMIN is granted nothing implicitly: it passes only routes that list it. */
  lemma AdminHasNoBypass()
    ensures !HasAnyRole(["ADMIN"], Some(["ENFERMERO"]))
    ensures !RoleUtils.HasAnyRole(Some(User(Js.Undefined, Some(["ADMIN"]), None)), Some(["ENFERMERO"]))
  {
    UpperOfCapitals("ADMIN");
    UpperOfCapitals("ENFERMERO");
    RoleUtils.CanonicalRoleName("ADMIN");
    RoleUtils.CanonicalRoleName("ENFERMERO");
    assert forall n :: n in ["ENFERMERO"] ==> n == "ENFERMERO";
    assert forall x :: x in ["ADMIN"] ==> x == "ADMIN";
  }

  /** A user holding DOCTOR and ANALISTA reaches a route open to ADMIN, DOCTOR and ENFERMERO. */
  lemma DoctorAnalystReachesClinicalRoute()
    ensures ProtectedRoute.Decide(true, Some(User(Js.Undefined, Some(["DOCTOR", "ANALISTA"]), None)),
              ProtectedRoute.RouteRequirement(Some(["ADMIN", "DOCTOR", "ENFERMERO"]), None, false)) == ProtectedRoute.Render
  {
    RoleUtils.CanonicalRoleName("DOCTOR");
    var user := Some(User(Js.Undefined, Some(["DOCTOR", "ANALISTA"]), None));
    assert RoleUtils.HasRole(user, "DOCTOR");
    assert "DOCTOR" in ["ADMIN", "DOCTOR", "ENFERMERO"];
  }
}
