/** The gate in front of a signed-in page: a spinner while the session or
    the role loads, the sign-in page without a user, the landing page for
    a role the page does not admit, else the page itself. */
module ProtectedRoute {
  import opened Domain

  /** `requiredRole`: absent, one role, or a list of roles. */
  datatype Requirement = NoRequirement | OneRole(role: Role) | AnyOf(roles: seq<Role>)

  datatype Gate = Spinner | ToAuth | ToHome | Render

  /** A single role is read as a one-element list. */
  function AllowedRoles(req: Requirement): (rs: seq<Role>)
    requires !req.NoRequirement?
    ensures req.OneRole? ==> rs == [req.role]
    ensures req.AnyOf? ==> rs == req.roles
  {
    if req.OneRole? then [req.role] else req.roles
  }

  /** Whether a role passes a requirement: admins always, anybody where
      nothing is required, others when listed. */
  predicate Admits(req: Requirement, role: Option<Role>) {
    req.NoRequirement? || role == Some(Admin) || (role.Some? && role.value in AllowedRoles(req))
  }

  function Decide(loading: bool, roleLoading: bool, signedIn: bool, role: Option<Role>, req: Requirement): (g: Gate)
    ensures g == Spinner <==> loading || roleLoading
    ensures g == ToAuth <==> !loading && !roleLoading && !signedIn
    ensures g == Render <==> !loading && !roleLoading && signedIn && Admits(req, role)
    ensures g == ToHome <==> !loading && !roleLoading && signedIn && !Admits(req, role)
  {
    if loading || roleLoading then Spinner
    else if !signedIn then ToAuth
    else if !req.NoRequirement? then
      var allowed := AllowedRoles(req);
      if role != Some(Admin) && (role.None? || role.value !in allowed) then ToHome else Render
    else Render
  }

  /** "admin" passes every requirement. */
  lemma AdminPassesAll(req: Requirement)
    ensures Decide(false, false, true, Some(Admin), req) == Render
  {
  }

  /** An empty list of roles admits nobody but admins; a signed-in user
      without a role only passes where nothing is required. */
  lemma EmptyListAdmitsOnlyAdmin(role: Option<Role>)
    ensures Decide(false, false, true, role, AnyOf([])) == Render <==> role == Some(Admin)
    ensures Decide(false, false, true, None, AnyOf([])) == ToHome
  {
  }
}
