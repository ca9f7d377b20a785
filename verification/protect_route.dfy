/** The guard around the login, signup, reset and verification routes: signed-in users are sent to the dashboard. */
module ProtectRoute {

  import opened Common
  import opened Api

  /** What the guard renders. */
  datatype View = Children | Nothing

  /** What the guard renders, and the navigation its effect requests. */
  datatype Decision = Decision(view: View, redirect: Option<Destination>)

  /**
   * The guard as a function of the current user, re-evaluated whenever the user changes: with no user it
   * renders its children and requests nothing; with a user it renders nothing and requests the dashboard.
   */
  function ProtectedRoute(user: Option<User>): (d: Decision)
    ensures d.view == Children <==> user.None?
    ensures d.redirect.Some? <==> user.Some?
    ensures d.redirect.Some? ==> d.redirect == Some(ToDashboard)
  {
    if user.Some? then Decision(Nothing, Some(ToDashboard)) else Decision(Children, None)
  }

  /** Only the presence of a user matters, never which user it is. */
  lemma DecidesOnPresenceOnly(a: Option<User>, b: Option<User>)
    requires a.Some? == b.Some?
    ensures ProtectedRoute(a) == ProtectedRoute(b)
  {
  }
}
