/**
 * The authentication gate: what it renders for each combination of the
 * loading flag and the signed-in user, and when it sends the browser to
 * the login page.
 */
module AuthGate {
  import opened Seqs

  datatype Screen = Loader | Children | Nothing

  /** What the gate renders, and the route its effect pushes, if any. */
  datatype GateOutcome = GateOutcome(screen: Screen, redirect: Option<string>)

  const LoginRoute := "/login"

  /**
   * `AuthGate`: the loader while the user is being determined, the
   * children once a user is present, and otherwise nothing -- together
   * with the redirect to `/login`, which is issued exactly then.
   */
  function Gate(isUserLoading: bool, hasUser: bool): (r: GateOutcome)
    ensures isUserLoading ==> r.screen == Loader
    ensures r.screen == Children <==> !isUserLoading && hasUser
    ensures r.screen == Nothing <==> !isUserLoading && !hasUser
    ensures r.redirect.Some? <==> !isUserLoading && !hasUser
    ensures r.redirect.Some? ==> r.redirect.value == LoginRoute
  {
    var redirect := if !isUserLoading && !hasUser then Some(LoginRoute) else None;
    if isUserLoading then GateOutcome(Loader, redirect)
    else if hasUser then GateOutcome(Children, redirect)
    else GateOutcome(Nothing, redirect)
  }

  /** Nothing is rendered exactly when the gate redirects. */
  lemma NothingIffRedirect(isUserLoading: bool, hasUser: bool)
    ensures var r := Gate(isUserLoading, hasUser);
      r.screen == Nothing <==> r.redirect == Some(LoginRoute)
  {
  }
}
