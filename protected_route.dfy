/**
 * The route guard (components/ProtectedRoute.tsx): a redirect effect and a
 * render decision, both over the session's `loading` flag, its user and an
 * optional required permission tag.
 */
module ProtectedRoute {
  import opened Wrappers
  import opened Auth

  /** What the effect does: nothing, or one `navigate(to, { replace, state: { from } })`. */
  datatype Navigation = Stay | Navigate(to: string, replace: bool, from: Option<string>)

  /** What the guard renders in place of its children. */
  datatype Render = Spinner | Nothing | Children

  /** `requiredPermission` is truthy: given and not the empty string. */
  predicate TagSet(required: Option<string>) {
    required.Some? && required.value != ""
  }

  /** The tag is set and the user does not hold it. */
  predicate Denied(user: Option<User>, required: Option<string>) {
    TagSet(required) && !HasPermission(user, required.value)
  }

  /**
   * The redirect effect: an unauthenticated visitor goes to `/login`
   * remembering `pathname`; an authenticated one lacking the tag goes to
   * `/dashboard`; while `loading` nothing happens.
   */
  function Effect(loading: bool, user: Option<User>, required: Option<string>, pathname: string): Navigation {
    if !loading && !IsAuthenticated(user) then Navigate("/login", true, Some(pathname))
    else if !loading && IsAuthenticated(user) && Denied(user, required) then Navigate("/dashboard", true, None)
    else Stay
  }

  /** The render decision: the spinner while loading, nothing when the tag is denied, else the children. */
  function Decide(loading: bool, user: Option<User>, required: Option<string>): Render {
    if loading then Spinner
    else if Denied(user, required) then Nothing
    else Children
  }

  /** While the session is loading the guard shows the spinner and navigates nowhere. */
  lemma LoadingWaits(user: Option<User>, required: Option<string>, pathname: string)
    ensures Effect(true, user, required, pathname) == Stay
    ensures Decide(true, user, required) == Spinner
  {
  }

  /**
   * The effect sends a visitor to `/login` exactly when loading is over and no
   * one is signed in, to `/dashboard` exactly when the signed-in user lacks
   * the tag, and every redirect replaces the history entry. The two redirects
   * never both apply.
   */
  lemma EffectTargets(loading: bool, user: Option<User>, required: Option<string>, pathname: string)
    ensures var e := Effect(loading, user, required, pathname);
      (e == Navigate("/login", true, Some(pathname)) <==> !loading && user.None?)
      && (e == Navigate("/dashboard", true, None) <==> !loading && user.Some? && Denied(user, required))
      && (e.Navigate? ==> e.replace && (e.to == "/login" || e.to == "/dashboard"))
  {
  }

  /** The children are rendered only once loading is over, and only when any required tag is held. */
  lemma ChildrenNeedPermission(loading: bool, user: Option<User>, required: Option<string>)
    requires Decide(loading, user, required) == Children
    ensures !loading
    ensures TagSet(required) ==> user.Some? && required.value in user.value.permissions
  {
  }

  /**
   * Without a tag the children render as soon as loading ends, even with no
   * user: only the redirect to `/login` stands in front of them.
   */
  lemma UntaggedRendersUnauthenticated(pathname: string)
    ensures Decide(false, None, None) == Children
    ensures Effect(false, None, None, pathname) == Navigate("/login", true, Some(pathname))
  {
  }

  /** A signed-in user who holds the tag (or faces none) sees the children and is not redirected. */
  lemma PermittedPassesThrough(u: User, required: Option<string>, pathname: string)
    requires !TagSet(required) || required.value in u.permissions
    ensures Decide(false, Some(u), required) == Children
    ensures Effect(false, Some(u), required, pathname) == Stay
  {
  }
}
