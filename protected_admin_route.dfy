/**
 * The admin route guard (src/components/ProtectedAdminRoute.tsx): a single
 * decision over the session's current user and the current path.
 */
module ProtectedAdminRoute {
  import opened Types
  import AuthContext

  datatype RouteDecision = Redirect(to: string) | RenderChildren

  const LoginPath := "/login"

  /** `!user || user.is_admin === 0`, with the signed-out case sent to the
      login page and a non-admin user sent back to the path it asked for. */
  function Guard(user: Option<User>, pathname: string): (d: RouteDecision)
    ensures d == RenderChildren <==> user.Some? && user.value.isAdmin != JsNumber(0)
    ensures user.None? ==> d == Redirect(LoginPath)
    ensures user.Some? && user.value.isAdmin == JsNumber(0) ==> d == Redirect(pathname)
  {
    if user.None? || user.value.isAdmin == JsNumber(0) then
      if user.None? then Redirect(LoginPath) else Redirect(pathname)
    else RenderChildren
  }

  /** Every user the session calls an admin gets through, but the guard
      also lets through users whose `is_admin` is not the number 0 without
      being the number 1: `true`, `2`, or a string. */
  lemma AdminsGetThrough(user: Option<User>, pathname: string)
    ensures AuthContext.IsAdmin(user) ==> Guard(user, pathname) == RenderChildren
    ensures user.Some? && user.value.isAdmin in {JsBoolean(true), JsNumber(2), JsString("1")} ==>
              !AuthContext.IsAdmin(user) && Guard(user, pathname) == RenderChildren
  {
  }

  /** The guard decides from the present user alone: a freshly mounted
      provider whose stored token has not been checked yet sends the page to
      the login route, whatever the storage holds. */
  lemma PendingSessionRedirects(storage: map<string, string>, pathname: string)
    ensures Guard(AuthContext.Session(None, storage).user, pathname) == Redirect(LoginPath)
  {
  }
}
