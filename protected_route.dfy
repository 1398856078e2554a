/** `ProtectedRoute`: what a guarded page renders and where it sends the browser,
    given the session's loading flag and tier and the tier the page requires. */
module ProtectedRoute {
  import opened Wrappers
  import opened Levels

  /** The loading spinner, nothing (`null`), or the guarded children. */
  datatype View = Spinner | Nothing | Children

  /** The effect's `router.push` target, if any. */
  datatype Redirect = NoRedirect | ToLogin | ToHome

  function Path(r: Redirect): Option<string>
  {
    match r
    case NoRedirect => None
    case ToLogin => Some("/login")
    case ToHome => Some("/")
  }

  /** The `requiredLevel` prop, `'user'` when it is not given. */
  function RequiredLevel(given: Option<AuthLevel>): (level: AuthLevel)
    ensures given.Some? ==> level == given.value
    ensures given.None? ==> level == User
  {
    if given.Some? then given.value else User
  }

  /** The effect's decision. */
  function RedirectOf(isLoading: bool, authLevel: AuthLevel, requiredLevel: AuthLevel): (r: Redirect)
    ensures isLoading ==> r == NoRedirect
    ensures r == ToLogin <==> !isLoading && authLevel == NoAuth
    ensures r == ToHome <==> !isLoading && requiredLevel == Admin && authLevel == User
    ensures Path(r) == Some("/login") <==> !isLoading && authLevel == NoAuth
    ensures Path(r) == Some("/") <==> !isLoading && requiredLevel == Admin && authLevel == User
    ensures Path(r) == None <==> isLoading || (authLevel != NoAuth && (requiredLevel != Admin || authLevel == Admin))
  {
    if isLoading then NoRedirect
    else if authLevel == NoAuth then ToLogin
    else if requiredLevel == Admin && authLevel != Admin then assert authLevel.User?; ToHome
    else NoRedirect
  }

  /** The render decision. */
  function ViewOf(isLoading: bool, authLevel: AuthLevel, requiredLevel: AuthLevel): (v: View)
    ensures v == Spinner <==> isLoading
    ensures v == Children <==> !isLoading && authLevel != NoAuth && (requiredLevel != Admin || authLevel == Admin)
  {
    if isLoading then Spinner
    else if authLevel == NoAuth then Nothing
    else if requiredLevel == Admin && authLevel != Admin then Nothing
    else Children
  }

  /** The effect and the render agree: the children show exactly when the page is
      loaded and no redirect is issued, and nothing is rendered exactly when a
      redirect is issued. */
  lemma RenderAgreesWithRedirect(isLoading: bool, authLevel: AuthLevel, requiredLevel: AuthLevel)
    ensures ViewOf(isLoading, authLevel, requiredLevel) == Children <==>
      !isLoading && RedirectOf(isLoading, authLevel, requiredLevel) == NoRedirect
    ensures ViewOf(isLoading, authLevel, requiredLevel) == Nothing <==>
      RedirectOf(isLoading, authLevel, requiredLevel) != NoRedirect
  {
  }
}
