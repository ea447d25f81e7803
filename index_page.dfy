/** The index page (pages/Index.tsx): one redirect chosen from `isAuthenticated` alone. */
module IndexPage {
  import opened Wrappers
  import opened Auth

  /** The single `navigate` target of the effect. */
  function RedirectTarget(user: Option<User>): string {
    if IsAuthenticated(user) then "/dashboard" else "/login"
  }

  /**
   * A signed-in user goes to the dashboard and anyone else to the login page.
   * The session's `loading` flag is not an input: before the stored session is
   * restored the user is still absent, so a returning user is sent to `/login`.
   */
  lemma RedirectChoice(user: Option<User>)
    ensures RedirectTarget(user) == "/dashboard" <==> user.Some?
    ensures RedirectTarget(user) == "/login" <==> user.None?
    ensures RedirectTarget(None) == "/login"
  {
  }
}
