/** routes/middleware/middleware.go: the three route guards. Each loads the auth
    session and either hands the request on or answers with a 307 Temporary
    Redirect (section 15.4.8 of RFC 9110). They differ on a session that cannot
    be loaded: RequireAuth and RequireAdminRole refuse it, RequireNoAuth lets it
    through. */
module Middleware {
  import opened Sessions
  import Controllers

  const StatusTemporaryRedirect := 307

  /** What a guard does with the request. */
  datatype GuardOutcome = CallNext | Redirect(status: int, location: string)

  /** `isAuth, _ := sess.Values[AuthUserAuthenticated].(bool)` for a loaded session. */
  predicate Authenticated(values: Values)
    ensures Authenticated(values) <==>
      Controllers.AuthUserAuthenticated in values && values[Controllers.AuthUserAuthenticated] == BoolValue(true)
  {
    BoolAt(values, Controllers.AuthUserAuthenticated)
  }

  /** RequireAuth: only a loaded session whose authenticated value is the boolean true
      proceeds; everything else, a load failure included, goes to "/login". */
  function RequireAuth(load: SessionLoad): (g: GuardOutcome)
    ensures load.LoadFailed? ==> g == Redirect(StatusTemporaryRedirect, "/login")
    ensures g.CallNext? <==> load.Loaded? && Authenticated(load.values)
    ensures g.Redirect? ==> g == Redirect(StatusTemporaryRedirect, "/login")
  {
    match load
    case LoadFailed(_) => Redirect(StatusTemporaryRedirect, "/login")
    case Loaded(values) =>
      if BoolAt(values, Controllers.AuthUserAuthenticated) then CallNext
      else Redirect(StatusTemporaryRedirect, "/login")
  }

  /** RequireNoAuth: an authenticated session is sent to "/"; a session that cannot
      be loaded, or is not authenticated, proceeds. */
  function RequireNoAuth(load: SessionLoad): (g: GuardOutcome)
    ensures load.LoadFailed? ==> g == CallNext
    ensures g.Redirect? <==> load.Loaded? && Authenticated(load.values)
    ensures g.Redirect? ==> g == Redirect(StatusTemporaryRedirect, "/")
  {
    match load
    case LoadFailed(_) => CallNext
    case Loaded(values) =>
      if BoolAt(values, Controllers.AuthUserAuthenticated) then Redirect(StatusTemporaryRedirect, "/")
      else CallNext
  }

  /** RequireAdminRole: proceeds only when the role value is the string "admin"; a load
      failure, a missing role, another role or a role of another type goes to "/login".
      The authenticated flag is not looked at. */
  function RequireAdminRole(load: SessionLoad): (g: GuardOutcome)
    ensures g.CallNext? <==>
      load.Loaded? && Controllers.RoleKey in load.values && load.values[Controllers.RoleKey] == StringValue("admin")
    ensures g.Redirect? ==> g == Redirect(StatusTemporaryRedirect, "/login")
  {
    match load
    case LoadFailed(_) => Redirect(StatusTemporaryRedirect, "/login")
    case Loaded(values) =>
      if StringAt(values, Controllers.RoleKey) == "admin" then CallNext
      else Redirect(StatusTemporaryRedirect, "/login")
  }

  /** Whatever the session, exactly one of RequireAuth and RequireNoAuth lets the
      request through: on a load failure that one is RequireNoAuth. */
  lemma AuthGuardsPartition(load: SessionLoad)
    ensures RequireAuth(load).CallNext? != RequireNoAuth(load).CallNext?
    ensures load.LoadFailed? ==> RequireNoAuth(load).CallNext?
  {
  }

  /** RequireAdminRole decides the same whatever the authenticated value is, even for
      a session explicitly marked as not authenticated. */
  lemma {:induction false} AdminIgnoresAuthFlag(values: Values, flag: SessionValue)
    ensures RequireAdminRole(Loaded(values[Controllers.AuthUserAuthenticated := flag]))
         == RequireAdminRole(Loaded(values))
  {
    assert Controllers.RoleKey != Controllers.AuthUserAuthenticated by {
      assert Controllers.RoleKey[0] != Controllers.AuthUserAuthenticated[0];
    }
  }

  /** A role stored as []byte: RegisterAppContext reads it as "admin", but
      RequireAdminRole, which accepts only a string, refuses the request. */
  lemma {:induction false} BytesAdminRoleRefused(values: Values)
    requires Controllers.RoleKey in values && values[Controllers.RoleKey] == BytesValue("admin")
    ensures Controllers.DecodeApp(values).role == "admin"
    ensures RequireAdminRole(Loaded(values)) == Redirect(StatusTemporaryRedirect, "/login")
  {
  }
}
