/** How the cookies written by login and logout (controllers/controllers.go) are
    judged by the guards (routes/middleware/middleware.go) and decoded by
    RegisterAppContext on the browser's next request. */
module SessionFlow {
  import opened Sessions
  import opened Contexts
  import opened Dtos
  import Controllers
  import Middleware

  /** The cookie createAuthSession saves for `user` on a session holding `values`:
      the auth values, with path "/", a positive max-age, HttpOnly and Secure. */
  function LoginCookie(values: Values, flashes: seq<SessionValue>, user: LoginResponse, extendSession: bool)
    : (c: Cookie)
    ensures c.values == Controllers.AuthSessionValues(values, user) && c.flashes == flashes
    ensures c.options.path == "/" && c.options.maxAge > 0 && c.options.httpOnly && c.options.secure
  {
    Cookie(Controllers.AuthSessionValues(values, user), flashes,
           Controllers.AuthCookieOptions(Controllers.SessionMaxAge(extendSession)))
  }

  /** After a login, a next request over TLS is authenticated: RequireAuth lets it
      through, RequireNoAuth sends it to "/", RequireAdminRole lets it through exactly
      when the user's role is "admin", and the App carries the user's id, token and
      role. The cookie is Secure, so a next request over plain HTTP carries no session
      and is treated as logged out. */
  lemma {:induction false} LoginThenGuards(values: Values, flashes: seq<SessionValue>, user: LoginResponse,
                                           extendSession: bool, overTls: bool)
    ensures var load := NextRequestLoad(LoginCookie(values, flashes, user, extendSession), overTls);
      overTls ==>
        && Middleware.RequireAuth(load) == Middleware.CallNext
        && Middleware.RequireNoAuth(load) == Middleware.Redirect(Middleware.StatusTemporaryRedirect, "/")
        && (Middleware.RequireAdminRole(load).CallNext? <==> user.data.user.role == "admin")
        && Controllers.DecodeApp(load.values) == App(user.data.user.id, true, user.data.accessToken, user.data.user.role)
    ensures var load := NextRequestLoad(LoginCookie(values, flashes, user, extendSession), overTls);
      !overTls ==>
        && Middleware.RequireAuth(load) == Middleware.Redirect(Middleware.StatusTemporaryRedirect, "/login")
        && Middleware.RequireNoAuth(load) == Middleware.CallNext
        && Middleware.RequireAdminRole(load) == Middleware.Redirect(Middleware.StatusTemporaryRedirect, "/login")
        && Controllers.DecodeApp(load.values) == ZeroApp
  {
    var load := NextRequestLoad(LoginCookie(values, flashes, user, extendSession), overTls);
    if overTls {
      assert load.values == Controllers.AuthSessionValues(values, user);
      Controllers.AuthSessionRoundTrip(values, user);
    } else {
      assert load.values == map[];
      Controllers.EmptySessionDecodesToZero();
    }
  }

  /** After a logout (max-age -1), the next request carries no session, whatever the
      other cookie options and the transport: RequireAuth and RequireAdminRole send it
      to "/login", RequireNoAuth lets it through, and the App is App{}. */
  lemma {:induction false} LogoutThenGuards(values: Values, flashes: seq<SessionValue>, options: Options, overTls: bool)
    ensures var load := NextRequestLoad(Cookie(values, flashes, options.(maxAge := -1)), overTls);
      && Middleware.RequireAuth(load) == Middleware.Redirect(Middleware.StatusTemporaryRedirect, "/login")
      && Middleware.RequireNoAuth(load) == Middleware.CallNext
      && Middleware.RequireAdminRole(load) == Middleware.Redirect(Middleware.StatusTemporaryRedirect, "/login")
      && Controllers.DecodeApp(load.values) == ZeroApp
  {
    Controllers.EmptySessionDecodesToZero();
  }
}
