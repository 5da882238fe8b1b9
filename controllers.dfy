/** controllers/controllers.go: writing the auth session at login and dropping it at
    logout, the two middlewares that turn the sessions into request-scoped values
    (the App identity and the flash list), and the control flow of the login and
    product handlers. Session loading and saving, the backend calls and form
    binding are outcomes handed in by the caller. */
module Controllers {
  import opened Wrappers
  import opened GoStrings
  import opened Dtos
  import opened Contexts
  import opened Sessions
  import opened Http
  import opened Subsequences
  import AuthApi
  import ProductApi

  const AuthUserIdKey := "USER_ID"
  const AuthUserEmailKey := "USER_EMAIL"
  const AuthUserAuthenticated := "USER_AUTHENTICATED"
  const TokenKey := "TOKEN_KEY"
  const RoleKey := "ROLE"

  /** The keys createAuthSession writes. */
  const AuthKeys := {AuthUserIdKey, AuthUserEmailKey, TokenKey, AuthUserAuthenticated, RoleKey}

  const StatusSeeOther := 303

  const ProductRegisterPath := "/admin/dashboard/product/register"

  /** One week, in seconds. */
  const WeekSeconds := 604800

  /** What a handler returns: an error for echo's error handler, or a redirect. */
  datatype HandlerResult = HandlerError(error: string) | Redirected(status: int, location: string)

  /** What a middleware did: handed the request to the next handler, or returned an error. */
  datatype MiddlewareResult = CalledNext | Aborted(error: string)

  // ---- the auth session

  /** The max-age createAuthSession gives the cookie: a week, or two when extended. */
  function SessionMaxAge(extendSession: bool): (maxAge: int)
    ensures maxAge == WeekSeconds || maxAge == 2 * WeekSeconds
    ensures maxAge == 1209600 <==> extendSession
  {
    if extendSession then WeekSeconds * 2 else WeekSeconds
  }

  /** The sessions.Options createAuthSession installs, replacing the old ones. */
  function AuthCookieOptions(maxAge: int): (o: Options)
    ensures o.path == "/" && o.httpOnly && o.secure && o.maxAge == maxAge
  {
    Options("/", maxAge, true, true)
  }

  /** The values after createAuthSession: the five auth keys set from the login
      response, every other key kept. */
  function AuthSessionValues(values: Values, user: LoginResponse): (r: Values)
    ensures r.Keys == values.Keys + AuthKeys
    ensures r[AuthUserIdKey] == IntValue(user.data.user.id)
    ensures r[AuthUserEmailKey] == StringValue(user.data.user.email)
    ensures r[TokenKey] == StringValue(user.data.accessToken)
    ensures r[AuthUserAuthenticated] == BoolValue(true)
    ensures r[RoleKey] == StringValue(user.data.user.role)
    ensures forall k :: k in values && k !in AuthKeys ==> r[k] == values[k]
  {
    values[AuthUserIdKey := IntValue(user.data.user.id)]
          [AuthUserEmailKey := StringValue(user.data.user.email)]
          [TokenKey := StringValue(user.data.accessToken)]
          [AuthUserAuthenticated := BoolValue(true)]
          [RoleKey := StringValue(user.data.user.role)]
  }

  /** createAuthSession on a session whose loading gave `loadErr`: nothing happens when
      loading failed; otherwise the options and the auth values are set and the
      session is saved with outcome `saveOutcome`. */
  method CreateAuthSession(loadErr: Option<string>, s: Session, user: LoginResponse, extendSession: bool,
                           saveOutcome: Option<string>)
    returns (err: Option<string>)
    modifies s
    ensures loadErr.Some? ==> err == loadErr && unchanged(s)
    ensures loadErr.None? ==>
      && err == saveOutcome
      && s.values == AuthSessionValues(old(s.values), user)
      && s.options == AuthCookieOptions(SessionMaxAge(extendSession))
      && s.flashes == old(s.flashes)
      && s.saved == if saveOutcome.None? then Some(Cookie(s.values, s.flashes, s.options)) else old(s.saved)
  {
    if loadErr.Some? {
      return loadErr;
    }
    s.options := AuthCookieOptions(SessionMaxAge(extendSession));
    s.values := AuthSessionValues(s.values, user);
    err := s.Save(saveOutcome);
  }

  /** LogoutUser: the session's max-age becomes -1 (the browser drops the cookie) and,
      only when the save succeeds, the browser is sent to "/" with 303. */
  method LogoutUser(loadErr: Option<string>, s: Session, saveOutcome: Option<string>) returns (r: HandlerResult)
    modifies s
    ensures loadErr.Some? ==> r == HandlerError(loadErr.value) && unchanged(s)
    ensures loadErr.None? ==>
      && s.values == old(s.values) && s.flashes == old(s.flashes)
      && s.options == old(s.options).(maxAge := -1)
      && s.saved == if saveOutcome.None? then Some(Cookie(s.values, s.flashes, s.options)) else old(s.saved)
    ensures r.Redirected? <==> loadErr.None? && saveOutcome.None?
    ensures r.Redirected? ==> r == Redirected(StatusSeeOther, "/")
    ensures loadErr.None? && saveOutcome.Some? ==> r == HandlerError(saveOutcome.value)
  {
    if loadErr.Some? {
      return HandlerError(loadErr.value);
    }
    s.options := s.options.(maxAge := -1);
    var err := s.Save(saveOutcome);
    if err.Some? {
      return HandlerError(err.value);
    }
    r := Redirected(StatusSeeOther, "/");
  }

  // ---- decoding the auth session into an App

  /** Go's int(v) for a finite float64: the fractional part is dropped, toward zero. */
  function TruncateFloat(f: real): (n: int)
    ensures f >= 0.0 ==> n as real <= f < n as real + 1.0
    ensures f < 0.0 ==> n as real - 1.0 < f <= n as real
  {
    if f >= 0.0 then f.Floor else -((-f).Floor)
  }

  /** The user id switch: an int is kept, an int64 converted, a float64 truncated, and
      a missing value or any other type gives 0. */
  function UserIdOf(values: Values): (id: int)
    ensures AuthUserIdKey !in values ==> id == 0
    ensures AuthUserIdKey in values ==>
      match values[AuthUserIdKey]
      case IntValue(i) => id == i
      case Int64Value(i) => id == i
      case Float64Value(f) => id == TruncateFloat(f)
      case _ => id == 0
  {
    if AuthUserIdKey !in values then 0
    else match values[AuthUserIdKey]
      case IntValue(i) => i
      case Int64Value(i) => i
      case Float64Value(f) => TruncateFloat(f)
      case _ => 0
  }

  /** The token and role switches: a string is kept, a []byte converted, and a
      missing value or any other type gives "". */
  function TextAt(values: Values, key: string): (text: string)
    ensures key in values && values[key].StringValue? ==> text == values[key].s
    ensures key in values && values[key].BytesValue? ==> text == values[key].bytes
    ensures key !in values || !(values[key].StringValue? || values[key].BytesValue?) ==> text == ""
  {
    if key !in values then ""
    else match values[key]
      case StringValue(s) => s
      case BytesValue(b) => b
      case _ => ""
  }

  /** The App RegisterAppContext builds from the auth session's values. */
  function DecodeApp(values: Values): (app: App)
    ensures app.userId == UserIdOf(values)
    ensures app.isAuthenticated <==> AuthUserAuthenticated in values && values[AuthUserAuthenticated] == BoolValue(true)
    ensures app.token == TextAt(values, TokenKey) && app.role == TextAt(values, RoleKey)
  {
    App(UserIdOf(values), BoolAt(values, AuthUserAuthenticated), TextAt(values, TokenKey), TextAt(values, RoleKey))
  }

  /** What createAuthSession writes, RegisterAppContext reads back: the user's id,
      token and role, authenticated. */
  lemma AuthSessionRoundTrip(values: Values, user: LoginResponse)
    ensures DecodeApp(AuthSessionValues(values, user))
      == App(user.data.user.id, true, user.data.accessToken, user.data.user.role)
  {
    var r := AuthSessionValues(values, user);
    assert r[AuthUserIdKey] == IntValue(user.data.user.id);
  }

  /** A session without any value (a new one, or one the browser dropped) decodes to App{}. */
  lemma EmptySessionDecodesToZero()
    ensures DecodeApp(map[]) == ZeroApp
  {
  }

  /** RegisterAppContext: a load error is returned and the next handler is not called;
      otherwise the decoded App is put both in echo's store and in the request context. */
  method RegisterAppContext(c: RequestScope, load: SessionLoad) returns (r: MiddlewareResult)
    modifies c
    ensures load.LoadFailed? ==> r == Aborted(load.reason) && unchanged(c)
    ensures load.Loaded? ==>
      && r == CalledNext
      && c.store == old(c.store)[KeyName(AppKey) := AppValue(DecodeApp(load.values))]
      && c.ctx == old(c.ctx)[AppKey := AppValue(DecodeApp(load.values))]
  {
    if load.LoadFailed? {
      return Aborted(load.reason);
    }
    var app := DecodeApp(load.values);
    c.store := c.store[KeyName(AppKey) := AppValue(app)];
    c.ctx := c.ctx[AppKey := AppValue(app)];
    r := CalledNext;
  }

  /** After RegisterAppContext, ExtractApp sees exactly the decoded session. */
  lemma AppContextExtracted(ctx: Context, values: Values)
    ensures ExtractApp(ctx[AppKey := AppValue(DecodeApp(values))]) == DecodeApp(values)
    ensures ExtractToken(ctx[AppKey := AppValue(DecodeApp(values))]) == TextAt(values, TokenKey)
  {
    StoreThenExtractApp(ctx, DecodeApp(values));
  }

  // ---- the flash middleware

  predicate IsFlash(v: SessionValue) {
    v.FlashValue?
  }

  /** What one queued entry contributes: a FlashMessage entry, copied field by
      field; an entry of any other type, nothing. */
  function FlashOf(v: SessionValue): (m: Option<FlashMessage>)
    ensures m.Some? <==> IsFlash(v)
    ensures m.Some? ==> FlashValue(m.value) == v
  {
    match v
    case FlashValue(f) => Some(FlashMessage(f.id, f.kind, f.createdAt, f.message))
    case _ => None
  }

  /** The loop of RegisterFlashMessageContext that keeps the entries of type FlashMessage. */
  method CollectFlashMessages(queued: seq<SessionValue>) returns (messages: seq<FlashMessage>)
    ensures messages == Picked(queued, FlashOf)
    ensures |messages| <= |queued|
  {
    messages := [];
    for i := 0 to |queued|
      invariant messages == Picked(queued[..i], FlashOf)
      invariant |messages| <= i
    {
      assert queued[..i + 1] == queued[..i] + [queued[i]];
      PickedSnoc(queued[..i], queued[i], FlashOf);
      var v := queued[i];
      if v.FlashValue? {
        var msg := v.flash;
        messages := messages + [FlashMessage(msg.id, msg.kind, msg.createdAt, msg.message)];
      }
    }
    assert queued[..|queued|] == queued;
  }

  /** The kept list is the in-order subsequence of the queue's FlashMessage entries:
      its k-th element is the k-th such entry, unchanged. */
  lemma FlashMessagesInOrder(queued: seq<SessionValue>)
    ensures var ps := Positions(queued, IsFlash);
      && |Picked(queued, FlashOf)| == |ps|
      && forall k :: 0 <= k < |ps| ==> FlashValue(Picked(queued, FlashOf)[k]) == queued[ps[k]]
  {
    PickedInOrder(queued, IsFlash, FlashOf);
  }

  /** RegisterFlashMessageContext. Paths under "/static" skip it. Otherwise the flash
      queue is drained and the session saved; the FlashMessages are put in echo's
      store only when the save succeeded. The next handler is called in every case. */
  method RegisterFlashMessageContext(c: RequestScope, path: string, loadErr: Option<string>, s: Session,
                                     saveOutcome: Option<string>)
    returns (r: MiddlewareResult)
    modifies c, s
    ensures r == CalledNext
    ensures HasPrefix(path, "/static") || loadErr.Some? ==> unchanged(c) && unchanged(s)
    ensures !HasPrefix(path, "/static") && loadErr.None? ==>
      && s.flashes == [] && s.values == old(s.values) && s.options == old(s.options)
      && s.saved == (if saveOutcome.None? then Some(Cookie(s.values, [], s.options)) else old(s.saved))
      && c.ctx == old(c.ctx)
      && c.store == if saveOutcome.None?
                    then old(c.store)[KeyName(FlashKey) := FlashListValue(Picked(old(s.flashes), FlashOf))]
                    else old(c.store)
  {
    if HasPrefix(path, "/static") || loadErr.Some? {
      return CalledNext;
    }
    var queued := s.Flashes();
    var messages := CollectFlashMessages(queued);
    var err := s.Save(saveOutcome);
    if err.None? {
      c.store := c.store[KeyName(FlashKey) := FlashListValue(messages)];
    }
    r := CalledNext;
  }

  // ---- handlers

  /** LoginUser: bind the form, call the login API at `apiUrl`, write a one-week session,
      and send the browser to "/" with 303. Any failure is returned as the handler's error. */
  method LoginUser(bindErr: Option<string>, apiUrl: string, form: LoginUserForm,
                   outcome: Outcome, decoded: Result<LoginResponse, string>,
                   loadErr: Option<string>, s: Session, saveOutcome: Option<string>)
    returns (r: HandlerResult)
    modifies s
    ensures var call := AuthApi.Login(apiUrl, LoginRequest(form.email, form.password), outcome, decoded);
      && (r.Redirected? <==> bindErr.None? && call.result.Ok? && loadErr.None? && saveOutcome.None?)
      && (r.Redirected? ==>
            && r == Redirected(StatusSeeOther, "/")
            && s.values == AuthSessionValues(old(s.values), call.result.value)
            && s.options == AuthCookieOptions(WeekSeconds)
            && s.flashes == old(s.flashes)
            && s.saved == Some(Cookie(s.values, s.flashes, s.options)))
      && (bindErr.None? && call.result.Err? ==> r == HandlerError(call.result.error) && unchanged(s))
    ensures bindErr.Some? ==> r == HandlerError(bindErr.value) && unchanged(s)
    ensures var call := AuthApi.Login(apiUrl, LoginRequest(form.email, form.password), outcome, decoded);
      bindErr.None? && call.result.Ok? && loadErr.Some? ==> r == HandlerError(loadErr.value) && unchanged(s)
    ensures var call := AuthApi.Login(apiUrl, LoginRequest(form.email, form.password), outcome, decoded);
      bindErr.None? && call.result.Ok? && loadErr.None? && saveOutcome.Some? ==>
        && r == HandlerError(saveOutcome.value)
        && s.values == AuthSessionValues(old(s.values), call.result.value)
        && s.options == AuthCookieOptions(WeekSeconds)
        && s.flashes == old(s.flashes)
        && s.saved == old(s.saved)
  {
    if bindErr.Some? {
      return HandlerError(bindErr.value);
    }
    var call := AuthApi.Login(apiUrl, LoginRequest(form.email, form.password), outcome, decoded);
    if call.result.Err? {
      return HandlerError(call.result.error);
    }
    var err := CreateAuthSession(loadErr, s, call.result.value, false, saveOutcome);
    if err.Some? {
      return HandlerError(err.value);
    }
    r := Redirected(StatusSeeOther, "/");
  }

  /** The multipart form of the product page: an error, or the files under "images",
      each given by how its upload will go. */
  datatype ProductFiles = FormFailed(reason: string) | Files(images: seq<ProductApi.ImageStep>)

  /** The request CreateProduct sends: the form's fields, with the SKU derived from
      the name by `slug` (slug.Make, whose rules are not part of this model). */
  function NewProductRequest(form: CreateProductForm, slug: string -> string): (p: CreateProductRequest)
    ensures p.sku == slug(form.name)
    ensures p.name == form.name && p.categoryId == form.categoryId && p.price == form.price
    ensures p.stock == form.stock && p.description == form.description
  {
    CreateProductRequest(form.name, form.categoryId, form.price, form.stock, form.description, slug(form.name))
  }

  /** CreateProduct: create the product, then upload its images, but only when at least
      one file came with the form; an upload error is returned even though the
      product now exists. `uploaded` says whether AddProductImages was called. */
  method CreateProduct(bindErr: Option<string>, files: ProductFiles, apiUrl: string, ctx: Context,
                       form: CreateProductForm, slug: string -> string,
                       outcome: Outcome, decoded: Result<SingleProductResponse, string>)
    returns (r: HandlerResult, uploaded: bool)
    ensures bindErr.Some? ==> r == HandlerError(bindErr.value) && !uploaded
    ensures bindErr.None? && files.FormFailed? ==> r == HandlerError(files.reason) && !uploaded
    ensures var call := ProductApi.CreateProduct(apiUrl, NewProductRequest(form, slug), ExtractToken(ctx), outcome, decoded);
      && (uploaded <==> bindErr.None? && files.Files? && call.result.Ok? && files.images != [])
      && (bindErr.None? && files.Files? && call.result.Err? ==> r == HandlerError(call.result.error))
      && (r.Redirected? <==>
            && bindErr.None? && files.Files? && call.result.Ok?
            && (files.images == []
                || ProductApi.ImagesError(ProductApi.ErrorMessages(files.images)).None?))
    ensures r.Redirected? ==> r == Redirected(StatusSeeOther, ProductRegisterPath)
  {
    uploaded := false;
    if bindErr.Some? {
      return HandlerError(bindErr.value), false;
    }
    if files.FormFailed? {
      return HandlerError(files.reason), false;
    }
    var token := ExtractToken(ctx);
    var call := ProductApi.CreateProduct(apiUrl, NewProductRequest(form, slug), token, outcome, decoded);
    if call.result.Err? {
      return HandlerError(call.result.error), false;
    }
    if |files.images| > 0 {
      uploaded := true;
      var _, err, _ := ProductApi.AddProductImages(apiUrl, call.result.value.product.id, token, files.images);
      if err.Some? {
        return HandlerError(err.value), true;
      }
    }
    r := Redirected(StatusSeeOther, ProductRegisterPath);
  }

  /** The request UpdateProduct sends: the form's fields and no SKU. */
  function UpdateRequestOf(form: CreateProductForm): (p: UpdateProductRequest)
    ensures p.sku == ""
    ensures p.name == form.name && p.categoryId == form.categoryId && p.price == form.price
    ensures p.stock == form.stock && p.description == form.description
  {
    UpdateProductRequest(form.name, form.categoryId, form.price, form.stock, form.description, "")
  }

  /** UpdateProduct: after binding, the browser is sent to "/admin/dashboard/product/register" with 303
      whether the update succeeded or not; only a bind error is returned. */
  function UpdateProduct(bindErr: Option<string>, apiUrl: string, ctx: Context, form: CreateProductForm,
                         outcome: Outcome, decoded: Result<SingleProductResponse, string>)
    : (r: HandlerResult)
    ensures bindErr.Some? ==> r == HandlerError(bindErr.value)
    ensures bindErr.None? ==> r == Redirected(StatusSeeOther, ProductRegisterPath)
  {
    if bindErr.Some? then HandlerError(bindErr.value)
    else
      var call := ProductApi.UpdateProduct(apiUrl, ExtractToken(ctx), form.id, UpdateRequestOf(form), outcome, decoded);
      if call.result.Err? then Redirected(StatusSeeOther, ProductRegisterPath)
      else Redirected(StatusSeeOther, ProductRegisterPath)
  }
}
