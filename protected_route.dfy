/**
  The route guard of src/components/ProtectedRoute.tsx: given whether a token
  is stored (`isAuthenticated`, src/utils/auth.ts:31-33), the stored user's type
  and the optional allow-list, it either renders the protected page or
  renders nothing and navigates elsewhere.
 */
module ProtectedRoute {
  import opened Wrappers

  datatype Outcome = Render | Redirect(path: string)

  /** The dashboard each known user type is sent back to (:29-38); any other type goes to the start page. */
  function DashboardFor(userType: string): (path: string)
    ensures userType == "farmer" ==> path == "/farmer/dashboard"
    ensures userType == "company" ==> path == "/company/dashboard"
    ensures userType == "admin" ==> path == "/admin/dashboard"
    ensures userType != "farmer" && userType != "company" && userType != "admin" ==> path == "/"
  {
    if userType == "farmer" then "/farmer/dashboard"
    else if userType == "company" then "/company/dashboard"
    else if userType == "admin" then "/admin/dashboard"
    else "/"
  }

  /**
    The decision at :17-51. `user` is the stored user's `userType`: `None` when no user is stored,
    `Some(None)` for a stored user without a type; `allowed` is `allowedUserTypes`, `None` when
    the prop is absent. A user without a type is never in a list of types, and has no dashboard.
   */
  function Guard(authenticated: bool, user: Option<Option<string>>, allowed: Option<seq<string>>): (o: Outcome)
    ensures o == Render <==>
              authenticated && user.Some? && (allowed.None? || (user.value.Some? && user.value.value in allowed.value))
    ensures !authenticated || user.None? ==> o == Redirect("/")
    ensures authenticated && user.Some? && allowed.Some? && user.value.None? ==> o == Redirect("/")
    ensures authenticated && user.Some? && allowed.Some? && user.value.Some? && user.value.value !in allowed.value ==>
              o == Redirect(DashboardFor(user.value.value))
  {
    if !authenticated || user.None? then Redirect("/")
    else if allowed.Some? && !(user.value.Some? && user.value.value in allowed.value) then
      Redirect(if user.value.Some? then DashboardFor(user.value.value) else "/")
    else Render
  }

  /** An empty allow-list is still an allow-list: it turns every signed-in user away. */
  lemma EmptyAllowListRendersNothing(userType: string)
    ensures Guard(true, Some(Some(userType)), Some([])) == Redirect(DashboardFor(userType))
  {
  }

  /** Allowing more user types never takes a page away from anyone. */
  lemma WiderAllowListKeepsAccess(authenticated: bool, user: Option<Option<string>>, narrow: seq<string>, wide: seq<string>)
    requires forall t :: t in narrow ==> t in wide
    requires Guard(authenticated, user, Some(narrow)) == Render
    ensures Guard(authenticated, user, Some(wide)) == Render
  {
  }

  /** A user turned away for their type lands on their own dashboard, where their type is allowed. */
  lemma TurnedAwayUserLandsHome(userType: string, allowed: seq<string>)
    requires userType in ["farmer", "company", "admin"] && userType !in allowed
    ensures Guard(true, Some(Some(userType)), Some(allowed)).path != "/"
    ensures Guard(true, Some(Some(userType)), Some([userType])) == Render
  {
  }

  /** A stored user without a type sees the unrestricted pages only, and is sent to `/` from the others. */
  lemma UntypedUserOnlyUnrestricted(allowed: Option<seq<string>>)
    ensures Guard(true, Some(None), allowed) == if allowed.None? then Render else Redirect("/")
  {
  }
}
