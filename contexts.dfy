/** Request-scoped values (routes/contexts): the identity record derived from
    the session, the flash message record, the two context keys, and the
    lookups that fall back to a zero value when a key is missing or holds
    something of another type. */
module Contexts {

  /** contexts.App without its embedded echo.Context. */
  datatype App = App(userId: int, isAuthenticated: bool, token: string, role: string)

  /** App{}: what a request without a stored identity sees. */
  const ZeroApp := App(0, false, "", "")

  /** A uuid.UUID: sixteen bytes, kept abstract. */
  datatype Uuid = Uuid(bytes: seq<bv8>)

  /** contexts.FlashType is a string type; the four named values are below. */
  type FlashType = string

  const FlashSuccess: FlashType := "success"
  const FlashError: FlashType := "error"
  const FlashWarning: FlashType := "warning"
  const FlashInfo: FlashType := "info"

  /** contexts.FlashMessage; CreatedAt (a time.Time) is an abstract instant. */
  datatype FlashMessage = FlashMessage(id: Uuid, kind: FlashType, createdAt: int, message: string)

  /** The key types AppKey{} and FlashKey{}. */
  datatype ContextKey = AppKey | FlashKey

  /** The String() method of each key type: the name under which the echo
      store keeps the same value. */
  function KeyName(k: ContextKey): (n: string)
    ensures n == "appCtx" || n == "flash_key"
    ensures n == "appCtx" <==> k.AppKey?
  {
    match k
    case AppKey => "appCtx"
    case FlashKey => "flash_key"
  }

  /** What a context slot may hold: an App, a []FlashMessage, or anything else
      (including nil), which every type assertion below rejects. */
  datatype ContextValue = AppValue(app: App) | FlashListValue(messages: seq<FlashMessage>) | OtherValue

  /** A request's context.Context values, by key. */
  type Context = map<ContextKey, ContextValue>

  /** ExtractApp: the stored App, or App{} when the key is absent or holds another type. */
  function ExtractApp(ctx: Context): (a: App)
    ensures AppKey in ctx && ctx[AppKey].AppValue? ==> a == ctx[AppKey].app
    ensures AppKey !in ctx || !ctx[AppKey].AppValue? ==> a == ZeroApp
  {
    if AppKey in ctx && ctx[AppKey].AppValue? then ctx[AppKey].app else ZeroApp
  }

  /** ExtractToken reads the token of ExtractApp. */
  function ExtractToken(ctx: Context): (token: string)
    ensures token == ExtractApp(ctx).token
    ensures AppKey !in ctx ==> token == ""
  {
    ExtractApp(ctx).token
  }

  /** ExtractRole reads the role of ExtractApp. */
  function ExtractRole(ctx: Context): (role: string)
    ensures role == ExtractApp(ctx).role
    ensures AppKey !in ctx ==> role == ""
  {
    ExtractApp(ctx).role
  }

  /** ExtractFlashMessages: the stored list unchanged, or an empty list when the
      key is absent or holds another type. */
  function ExtractFlashMessages(ctx: Context): (messages: seq<FlashMessage>)
    ensures FlashKey in ctx && ctx[FlashKey].FlashListValue? ==> messages == ctx[FlashKey].messages
    ensures FlashKey !in ctx || !ctx[FlashKey].FlashListValue? ==> messages == []
  {
    if FlashKey in ctx && ctx[FlashKey].FlashListValue? then ctx[FlashKey].messages else []
  }

  /** Storing an App and extracting it gives it back, whatever the context held before;
      the flash slot is not disturbed. */
  lemma StoreThenExtractApp(ctx: Context, a: App)
    ensures ExtractApp(ctx[AppKey := AppValue(a)]) == a
    ensures ExtractToken(ctx[AppKey := AppValue(a)]) == a.token
    ensures ExtractRole(ctx[AppKey := AppValue(a)]) == a.role
    ensures ExtractFlashMessages(ctx[AppKey := AppValue(a)]) == ExtractFlashMessages(ctx)
  {
  }

  /** Storing a flash list and extracting it gives it back; the identity is not disturbed. */
  lemma StoreThenExtractFlashMessages(ctx: Context, messages: seq<FlashMessage>)
    ensures ExtractFlashMessages(ctx[FlashKey := FlashListValue(messages)]) == messages
    ensures ExtractApp(ctx[FlashKey := FlashListValue(messages)]) == ExtractApp(ctx)
  {
  }

  /** The per-request state an echo.Context carries: the store behind c.Set/c.Get,
      and the values of the request's context.Context (replaced through
      c.SetRequest(c.Request().WithContext(...))). */
  class RequestScope {
    var store: map<string, ContextValue>
    var ctx: Context

    constructor (store: map<string, ContextValue>, ctx: Context)
      ensures this.store == store && this.ctx == ctx
    {
      this.store := store;
      this.ctx := ctx;
    }
  }
}
