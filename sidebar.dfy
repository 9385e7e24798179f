/** The side navigation (src/components/layout/Sidebar.tsx): the per-role
    item table, the highlighted item, and signing out. */
module Sidebar {
  import opened Wrappers
  import opened Records
  import opened AppRoutes
  import AuthStore
  import Router

  datatype NavItem = NavItem(name: string, href: string)

  const DoctorItems: seq<NavItem> := [
    NavItem("Dashboard", "/dashboard"),
    NavItem("Patients", "/patients"),
    NavItem("My Encounters", "/encounters"),
    NavItem("Analytics", "/analytics")
  ]

  const AdminItems: seq<NavItem> := [
    NavItem("Dashboard", "/dashboard"),
    NavItem("Hospital Overview", "/hospital-overview"),
    NavItem("Patient Management", "/patients"),
    NavItem("Staff Management", "/staff"),
    NavItem("Analytics", "/analytics"),
    NavItem("Reports", "/reports")
  ]

  const GovernmentItems: seq<NavItem> := [
    NavItem("Dashboard", "/dashboard"),
    NavItem("Morbidity Analytics", "/morbidity-analytics"),
    NavItem("Regional Data", "/regional-data"),
    NavItem("Disease Surveillance", "/disease-surveillance"),
    NavItem("Reports & Exports", "/reports")
  ]

  /** The `navigation` table, keyed by role. */
  const Navigation: map<string, seq<NavItem>> :=
    map["doctor" := DoctorItems, "admin" := AdminItems, "government" := GovernmentItems]

  /** The items shown: `None` when there is no user (nothing is rendered),
      otherwise the role's items, or none for a role the table lacks. */
  function UserNavigation(user: Option<User>): (r: Option<seq<NavItem>>)
    ensures r.None? <==> user.None?
    ensures r.Some? && user.value.role in Navigation ==> r.value == Navigation[user.value.role]
    ensures r.Some? && user.value.role !in Navigation ==> r.value == []
  {
    match user
    case None => None
    case Some(u) => Some(if u.role in Navigation then Navigation[u.role] else [])
  }

  /** An item is highlighted when the location is exactly its target. */
  predicate IsActive(pathname: string, item: NavItem) {
    pathname == item.href
  }

  /** The roles the table knows are exactly the roles the dashboard knows,
      and each starts with the dashboard item. */
  lemma FirstItemIsDashboard()
    ensures forall role :: role in Navigation <==> role in KnownRoles
    ensures forall role :: role in Navigation ==>
      |Navigation[role]| > 0 && Navigation[role][0] == NavItem("Dashboard", "/dashboard")
  {
  }

  /** A target shorter than `/patients/` or not starting `/p` is not a
      patient's page. */
  lemma NotPatientPage(href: string, id: string)
    requires |href| < 10 || href[1] != 'p'
    ensures href != "/patients/" + id
  {
  }

  /** Highlighting is not by prefix: a patient's own page highlights no item
      of any role. */
  lemma PatientPageHighlightsNothing(id: string)
    ensures forall role, k :: role in Navigation && 0 <= k < |Navigation[role]| ==>
      !IsActive("/patients/" + id, Navigation[role][k])
  {
    forall role, k | role in Navigation && 0 <= k < |Navigation[role]|
      ensures !IsActive("/patients/" + id, Navigation[role][k])
    {
      var href := Navigation[role][k].href;
      assert |href| < 10 || href[1] != 'p';
      NotPatientPage(href, id);
    }
  }

  /** A role may open a target: it shows a page behind sign-in whose own
      guard admits the role. */
  predicate Allowed(href: string, role: string) {
    var o := Resolve(href);
    o.Render? && o.signInRequired && Permits(o.guard, role)
  }

  /** `/name` for a one-segment route admitting the role is allowed to it. */
  lemma AllowedByRoute(href: string, name: string, k: nat, role: string)
    requires href == "/" + name
    requires k < |LayoutRoutes| && LayoutRoutes[k].pattern == [name] && name != "login"
    requires Permits(LayoutRoutes[k].guard, role)
    ensures Allowed(href, role)
  {
    ResolveRouteName(name, k);
  }

  // One lemma per item: each evaluates one literal target through the
  // router, which is too costly to do for several targets at once.

  lemma DoctorItem0Allowed()
    ensures Allowed(DoctorItems[0].href, "doctor")
  {
    AllowedByRoute(DoctorItems[0].href, "dashboard", 0, "doctor");
  }

  lemma DoctorItem1Allowed()
    ensures Allowed(DoctorItems[1].href, "doctor")
  {
    AllowedByRoute(DoctorItems[1].href, "patients", 1, "doctor");
  }

  lemma DoctorItem2Allowed()
    ensures Allowed(DoctorItems[2].href, "doctor")
  {
    AllowedByRoute(DoctorItems[2].href, "encounters", 4, "doctor");
  }

  lemma DoctorItem3Allowed()
    ensures Allowed(DoctorItems[3].href, "doctor")
  {
    AllowedByRoute(DoctorItems[3].href, "analytics", 5, "doctor");
  }

  lemma AdminItem0Allowed()
    ensures Allowed(AdminItems[0].href, "admin")
  {
    AllowedByRoute(AdminItems[0].href, "dashboard", 0, "admin");
  }

  lemma AdminItem2Allowed()
    ensures Allowed(AdminItems[2].href, "admin")
  {
    AllowedByRoute(AdminItems[2].href, "patients", 1, "admin");
  }

  lemma AdminItem3Allowed()
    ensures Allowed(AdminItems[3].href, "admin")
  {
    AllowedByRoute(AdminItems[3].href, "staff", 6, "admin");
  }

  lemma AdminItem4Allowed()
    ensures Allowed(AdminItems[4].href, "admin")
  {
    AllowedByRoute(AdminItems[4].href, "analytics", 5, "admin");
  }

  lemma AdminItem5Allowed()
    ensures Allowed(AdminItems[5].href, "admin")
  {
    AllowedByRoute(AdminItems[5].href, "reports", 7, "admin");
  }

  lemma GovernmentItem0Allowed()
    ensures Allowed(GovernmentItems[0].href, "government")
  {
    AllowedByRoute(GovernmentItems[0].href, "dashboard", 0, "government");
  }

  lemma GovernmentItem1Allowed()
    ensures Allowed(GovernmentItems[1].href, "government")
  {
    AllowedByRoute(GovernmentItems[1].href, "morbidity-analytics", 3, "government");
  }

  lemma GovernmentItem2Allowed()
    ensures Allowed(GovernmentItems[2].href, "government")
  {
    AllowedByRoute(GovernmentItems[2].href, "regional-data", 8, "government");
  }

  lemma GovernmentItem3Allowed()
    ensures Allowed(GovernmentItems[3].href, "government")
  {
    AllowedByRoute(GovernmentItems[3].href, "disease-surveillance", 9, "government");
  }

  lemma GovernmentItem4Allowed()
    ensures Allowed(GovernmentItems[4].href, "government")
  {
    AllowedByRoute(GovernmentItems[4].href, "reports", 7, "government");
  }

  lemma DoctorItemsAllowed()
    ensures forall k :: 0 <= k < |DoctorItems| ==> Allowed(DoctorItems[k].href, "doctor")
  {
    DoctorItem0Allowed(); DoctorItem1Allowed(); DoctorItem2Allowed(); DoctorItem3Allowed();
    forall k | 0 <= k < |DoctorItems|
      ensures Allowed(DoctorItems[k].href, "doctor")
    {
      assert k == 0 || k == 1 || k == 2 || k == 3;
    }
  }

  /** The hospital overview has no route and falls through to the
      dashboard. */
  lemma HospitalOverviewRedirects()
    ensures Resolve(AdminItems[1].href) == Redirect("/dashboard", true)
  {
    var overview := AdminItems[1].href;
    assert overview == "/" + "hospital-overview";
    ResolveUnknownName("hospital-overview");
  }

  /** Every administrator item but the hospital overview is allowed. */
  lemma AdminItemsAllowed()
    ensures forall k :: 0 <= k < |AdminItems| && k != 1 ==> Allowed(AdminItems[k].href, "admin")
  {
    AdminItem0Allowed(); AdminItem2Allowed(); AdminItem3Allowed(); AdminItem4Allowed(); AdminItem5Allowed();
    forall k | 0 <= k < |AdminItems| && k != 1
      ensures Allowed(AdminItems[k].href, "admin")
    {
      assert k == 0 || k == 2 || k == 3 || k == 4 || k == 5;
    }
  }

  lemma GovernmentItemsAllowed()
    ensures forall k :: 0 <= k < |GovernmentItems| ==> Allowed(GovernmentItems[k].href, "government")
  {
    GovernmentItem0Allowed(); GovernmentItem1Allowed(); GovernmentItem2Allowed(); GovernmentItem3Allowed(); GovernmentItem4Allowed();
    forall k | 0 <= k < |GovernmentItems|
      ensures Allowed(GovernmentItems[k].href, "government")
    {
      assert k == 0 || k == 1 || k == 2 || k == 3 || k == 4;
    }
  }

  /** The table has exactly the three roles, with their item lists. */
  lemma NavigationRoles()
    ensures forall role :: role in Navigation <==> role == "doctor" || role == "admin" || role == "government"
    ensures Navigation["doctor"] == DoctorItems && Navigation["admin"] == AdminItems
    ensures Navigation["government"] == GovernmentItems
  {
  }

  /** Every item a role is shown leads to a page that role may open, except
      the administrator's hospital overview, which no route serves and which
      falls through to the dashboard. */
  lemma NavigationAgreesWithRoutes()
    ensures forall role, k :: role in Navigation && 0 <= k < |Navigation[role]| ==>
      (Navigation[role][k] != NavItem("Hospital Overview", "/hospital-overview") ==> Allowed(Navigation[role][k].href, role))
    ensures "admin" in Navigation && |Navigation["admin"]| > 1
    ensures Navigation["admin"][1] == NavItem("Hospital Overview", "/hospital-overview")
    ensures Resolve(Navigation["admin"][1].href) == Redirect("/dashboard", true)
  {
    NavigationRoles();
    DoctorItemsAllowed();
    AdminItemsAllowed();
    HospitalOverviewRedirects();
    GovernmentItemsAllowed();
    forall role, k | role in Navigation && 0 <= k < |Navigation[role]| &&
      Navigation[role][k] != NavItem("Hospital Overview", "/hospital-overview")
      ensures Allowed(Navigation[role][k].href, role)
    {
      if role == "admin" {
        assert k != 1 by {
          assert AdminItems[1] == NavItem("Hospital Overview", "/hospital-overview");
        }
      }
    }
  }

  /** `handleLogout`: the session is ended and the browser goes to the
      sign-in page. */
  method HandleLogout(store: AuthStore.Store, router: Router.Router)
    modifies store, router
    ensures store.Valid()
    ensures store.user == None && !store.isAuthenticated
    ensures router.pathname == "/login" && router.history == old(router.history) + ["/login"]
  {
    store.Logout();
    router.Navigate("/login");
  }
}
