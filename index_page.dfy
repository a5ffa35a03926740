/** The landing page: it only redirects, by role. */
module IndexPage {
  import opened Domain
  import ProtectedRoute

  datatype Landing = Spinner | ToAuth | ToAdmin | ToRep

  function Land(loading: bool, roleLoading: bool, signedIn: bool, role: Option<Role>): (l: Landing)
    ensures l == Spinner <==> loading || roleLoading
    ensures l == ToAuth <==> !loading && !roleLoading && !signedIn
    ensures l == ToAdmin <==> !loading && !roleLoading && signedIn && (role == Some(Admin) || role == Some(Manager))
    ensures l == ToRep <==> !loading && !roleLoading && signedIn && role != Some(Admin) && role != Some(Manager)
  {
    if loading || roleLoading then Spinner
    else if !signedIn then ToAuth
    else if role == Some(Admin) || role == Some(Manager) then ToAdmin
    else ToRep
  }

  /** The requirement each target page sets in the router: the rep page
      none, the admin page admins and managers. */
  function PageRequirement(l: Landing): ProtectedRoute.Requirement
    requires l == ToAdmin || l == ToRep
  {
    if l == ToAdmin then ProtectedRoute.AnyOf([Admin, Manager]) else ProtectedRoute.NoRequirement
  }

  /** Where the landing page sends a signed-in user, that page's gate lets
      them in, so a refused user sent back home does not loop. */
  lemma LandingIsAdmitted(role: Option<Role>)
    ensures var l := Land(false, false, true, role);
            ProtectedRoute.Decide(false, false, true, role, PageRequirement(l)) == ProtectedRoute.Render
  {
    var l := Land(false, false, true, role);
    if l == ToAdmin {
      assert role.value in [Admin, Manager];
    }
  }
}
