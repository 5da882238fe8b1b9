/** routes/routes.go: the configuration NewRoutes derives from the environment
    (session keys, the CSRF cookie's SameSite mode and the plaintext marking, the
    trusted origins, the CSRF options and failure response) and the route table
    Load registers, with the guard in front of each route. Environment values,
    base64 decoding (section 4 of RFC 4648) and SHA-256 (FIPS 180-4) are given. */
module Routes {
  import opened Wrappers
  import opened GoStrings
  import opened Sessions
  import opened Subsequences
  import opened Http
  import Middleware
  import Controllers

  type Byte = bv8

  /** A SHA-256 digest: always 32 bytes. */
  type Digest = s: seq<Byte> | |s| == 32 witness seq(32, _ => 0 as Byte)

  /** The minimum key length sessionKeyFromEnv accepts from a base64 value. */
  const MinKeyBytes := 32

  /** sessionKeyFromEnv: the base64 (standard encoding) decoding of `raw` when it
      decodes and gives at least 32 bytes, otherwise the SHA-256 digest of `raw`.
      `decode` returns None when DecodeString reports an error. */
  function SessionKeyFromEnv(raw: string, decode: string -> Option<seq<Byte>>, sha256: string -> Digest)
    : (key: seq<Byte>)
    ensures |key| >= MinKeyBytes
    ensures decode(raw).Some? && |decode(raw).value| >= MinKeyBytes ==> key == decode(raw).value
    ensures decode(raw).None? || |decode(raw).value| < MinKeyBytes ==> key == sha256(raw)
  {
    var decoded := decode(raw);
    if decoded.Some? && |decoded.value| >= MinKeyBytes then decoded.value else sha256(raw)
  }

  /** A raw value whose decoding is too short is hashed: the key is never the short decoding. */
  lemma ShortDecodingHashed(raw: string, decode: string -> Option<seq<Byte>>, sha256: string -> Digest)
    requires decode(raw).Some? && |decode(raw).value| < MinKeyBytes
    ensures SessionKeyFromEnv(raw, decode, sha256) != decode(raw).value
    ensures |SessionKeyFromEnv(raw, decode, sha256)| == 32
  {
  }

  // ---- trusted origins

  /** The origin one piece of CSRF_TRUSTED_ORIGINS gives: the piece trimmed, or
      nothing when that leaves it empty. */
  function OriginOf(piece: string): (o: Option<string>)
    ensures o.Some? <==> !AllSpace(piece)
    ensures o.Some? ==> o.value == TrimSpace(piece)
  {
    var origin := TrimSpace(piece);
    if origin != "" then Some(origin) else None
  }

  /** A piece that gives an origin. */
  predicate NonBlank(piece: string) {
    TrimSpace(piece) != ""
  }

  /** An origin as the CSRF middleware receives it: non-empty, without the
      separator, and with no white space at either end. */
  predicate CleanOrigin(o: string, sep: char) {
    o != "" && sep !in o && !IsSpace(o[0]) && !IsSpace(o[|o| - 1])
  }

  /** The trusted origins of CSRF_TRUSTED_ORIGINS: its comma-separated pieces, trimmed,
      without the empty ones. */
  method ParseTrustedOrigins(value: string) returns (origins: seq<string>)
    ensures origins == Picked(Split(value, ','), OriginOf)
    ensures forall o <- origins :: CleanOrigin(o, ',')
  {
    var pieces := Split(value, ',');
    origins := KeepOrigins(pieces);
    KeptOriginsClean(pieces, ',');
  }

  /** The loop over the pieces: trim each, append it when it is not empty. */
  method KeepOrigins(pieces: seq<string>) returns (origins: seq<string>)
    ensures origins == Picked(pieces, OriginOf)
  {
    origins := [];
    for i := 0 to |pieces|
      invariant origins == Picked(pieces[..i], OriginOf)
    {
      KeepOriginsStep(pieces, i);
      var origin := TrimSpace(pieces[i]);
      if origin != "" {
        origins := origins + [origin];
      }
    }
    assert pieces[..|pieces|] == pieces;
  }

  /** One more piece adds its trimmed text when that is not empty. */
  lemma KeepOriginsStep(pieces: seq<string>, i: nat)
    requires i < |pieces|
    ensures var origin := TrimSpace(pieces[i]);
      Picked(pieces[..i + 1], OriginOf) == Picked(pieces[..i], OriginOf) + (if origin != "" then [origin] else [])
  {
    assert pieces[..i + 1] == pieces[..i] + [pieces[i]];
    PickedSnoc(pieces[..i], pieces[i], OriginOf);
  }

  /** The kept origins are the trimmed non-blank pieces, in the order they came:
      the k-th origin is the k-th non-blank piece, trimmed. */
  lemma KeptOriginsInOrder(pieces: seq<string>)
    ensures var ps := Positions(pieces, NonBlank);
      && |Picked(pieces, OriginOf)| == |ps|
      && forall k :: 0 <= k < |ps| ==> Picked(pieces, OriginOf)[k] == TrimSpace(pieces[ps[k]])
  {
    PickedInOrder(pieces, NonBlank, OriginOf);
  }

  /** A trimmed non-blank piece is a clean origin when the piece holds no separator. */
  lemma TrimmedPieceClean(piece: string, sep: char)
    requires sep !in piece && NonBlank(piece)
    ensures CleanOrigin(TrimSpace(piece), sep)
  {
  }

  /** Every kept origin is clean when no piece held the separator, as no piece
      returned by Split does. */
  lemma KeptOriginsClean(pieces: seq<string>, sep: char)
    requires forall p <- pieces :: sep !in p
    ensures forall o <- Picked(pieces, OriginOf) :: CleanOrigin(o, sep)
  {
    var origins := Picked(pieces, OriginOf);
    var ps := Positions(pieces, NonBlank);
    KeptOriginsInOrder(pieces);
    forall k | 0 <= k < |origins|
      ensures CleanOrigin(origins[k], sep)
    {
      var piece := pieces[ps[k]];
      assert NonBlank(piece);
      TrimmedPieceClean(piece, sep);
    }
  }

  /** An unset (empty) or blank-only value gives no trusted origin at all. */
  lemma {:induction false} NoOriginsFromBlankPieces(pieces: seq<string>)
    requires forall k :: 0 <= k < |pieces| ==> AllSpace(pieces[k])
    ensures Picked(pieces, OriginOf) == []
  {
    KeptOriginsInOrder(pieces);
    NoPositions(pieces, NonBlank);
  }

  // ---- CSRF configuration

  /** csrf.SameSiteMode values the code chooses between. */
  datatype SameSiteMode = SameSiteDefault | SameSiteNone

  /** SameSite=None exactly when the CSRF cookie is secure, the default mode otherwise. */
  function SameSiteFor(csrfSecure: bool): (mode: SameSiteMode)
    ensures mode == SameSiteNone <==> csrfSecure
    ensures mode == SameSiteDefault <==> !csrfSecure
  {
    if csrfSecure then SameSiteNone else SameSiteDefault
  }

  /** The pre-routing hook is installed only when secure mode is off, and then marks
      every request that did not come over TLS as plaintext HTTP. */
  function PlaintextMarked(csrfSecure: bool, isTls: bool): (marked: bool)
    ensures marked <==> !csrfSecure && !isTls
  {
    if csrfSecure then false else !isTls
  }

  /** No request is marked plaintext while the cookie is SameSite=None. */
  lemma PlaintextOnlyWithDefaultSameSite(csrfSecure: bool, isTls: bool)
    ensures PlaintextMarked(csrfSecure, isTls) ==> SameSiteFor(csrfSecure) == SameSiteDefault
  {
  }

  /** The csrf.Option values passed to csrf.Protect. */
  datatype CsrfOption =
    | SecureOption(secure: bool)
    | PathOption(path: string)
    | SameSiteOption(mode: SameSiteMode)
    | ErrorHandlerOption
    | TrustedOriginsOption(origins: seq<string>)

  /** The four options always given. */
  function BaseCsrfOptions(csrfSecure: bool): seq<CsrfOption> {
    [SecureOption(csrfSecure), PathOption("/"), SameSiteOption(SameSiteFor(csrfSecure)), ErrorHandlerOption]
  }

  /** The csrfOptions slice: the four base options, then TrustedOrigins only when
      at least one origin was parsed. */
  method BuildCsrfOptions(csrfSecure: bool, trustedOrigins: seq<string>) returns (options: seq<CsrfOption>)
    ensures |options| >= 4 && options[..4] == BaseCsrfOptions(csrfSecure)
    ensures (exists o <- options :: o.TrustedOriginsOption?) <==> trustedOrigins != []
    ensures trustedOrigins != [] ==> options == BaseCsrfOptions(csrfSecure) + [TrustedOriginsOption(trustedOrigins)]
    ensures trustedOrigins == [] ==> options == BaseCsrfOptions(csrfSecure)
  {
    options := BaseCsrfOptions(csrfSecure);
    assert forall o <- options :: !o.TrustedOriginsOption?;
    if |trustedOrigins| > 0 {
      options := options + [TrustedOriginsOption(trustedOrigins)];
      assert options[4].TrustedOriginsOption?;
    }
  }

  /** A plain HTTP response: status and body. */
  datatype Response = Response(status: int, body: string)

  const StatusForbidden := 403

  /** The browser's request that reached the CSRF error handler: its method and path. */
  datatype IncomingRequest = IncomingRequest(verb: Method, path: string)

  /** The CSRF error handler: 403 with body "csrf failed". The response does not depend
      on the failing request, which the handler only logs (logging is not modelled). */
  function CsrfErrorResponse(failed: IncomingRequest): (r: Response)
    ensures r.status == StatusForbidden && r.body == "csrf failed"
  {
    Response(StatusForbidden, "csrf failed")
  }

  // ---- the route table of Load

  /** The guard a route is registered behind. */
  datatype Guard = Unguarded | AuthRequired | NoAuthRequired | AdminRequired

  /** The controller a route calls. */
  datatype Handler =
    | RegisterProductPage | CategoryPage | CreateCategory | CreateProduct | UpdateProduct
    | Home | ProductDetail | CreateUser | LoginPage | LoginUser | LogoutUser | RegisterForm

  datatype Route = Route(verb: Method, path: string, guard: Guard, handler: Handler)

  const AdminPrefix := "/admin"

  /** The routes of the "/admin" group, each path prefixed by the group's and behind RequireAdminRole. */
  const AdminRoutes := [
    Route(Get, AdminPrefix + "/dashboard/product/register", AdminRequired, RegisterProductPage),
    Route(Get, AdminPrefix + "/dashboard/category/register", AdminRequired, CategoryPage),
    Route(Post, AdminPrefix + "/category/register", AdminRequired, CreateCategory),
    Route(Post, AdminPrefix + "/product/register", AdminRequired, CreateProduct),
    Route(Post, AdminPrefix + "/product/update", AdminRequired, UpdateProduct)
  ]

  /** The routes registered directly on the echo instance. */
  const PublicRoutes := [
    Route(Get, "", Unguarded, Home),
    Route(Get, "/product/:sku", Unguarded, ProductDetail),
    Route(Post, "/register", Unguarded, CreateUser),
    Route(Get, "/login", NoAuthRequired, LoginPage),
    Route(Post, "/login", Unguarded, LoginUser),
    Route(Get, "/logout", AuthRequired, LogoutUser),
    Route(Get, "/register", NoAuthRequired, RegisterForm)
  ]

  const RouteTable := AdminRoutes + PublicRoutes

  /** The route registered for a method and path is unique and has the given guard. */
  predicate RegisteredBehind(verb: Method, path: string, guard: Guard) {
    && (exists i :: 0 <= i < |RouteTable| && RouteTable[i].verb == verb && RouteTable[i].path == path)
    && forall i :: 0 <= i < |RouteTable| && RouteTable[i].verb == verb && RouteTable[i].path == path ==>
         RouteTable[i].guard == guard
  }

  /** What a guard decides on the auth session. */
  function ApplyGuard(guard: Guard, load: SessionLoad): (g: Middleware.GuardOutcome)
    ensures guard == Unguarded ==> g.CallNext?
    ensures guard == AuthRequired ==> g == Middleware.RequireAuth(load)
    ensures guard == NoAuthRequired ==> g == Middleware.RequireNoAuth(load)
    ensures guard == AdminRequired ==> g == Middleware.RequireAdminRole(load)
  {
    match guard
    case Unguarded => Middleware.CallNext
    case AuthRequired => Middleware.RequireAuth(load)
    case NoAuthRequired => Middleware.RequireNoAuth(load)
    case AdminRequired => Middleware.RequireAdminRole(load)
  }

  /** Every route under "/admin" is behind RequireAdminRole, and only those are. */
  lemma AdminRoutesGuarded()
    ensures forall r <- RouteTable :: HasPrefix(r.path, AdminPrefix) <==> r.guard == AdminRequired
  {
    forall r <- RouteTable ensures HasPrefix(r.path, AdminPrefix) <==> r.guard == AdminRequired {
      if r in PublicRoutes {
        assert !HasPrefix(r.path, AdminPrefix) by {
          if |AdminPrefix| <= |r.path| {
            assert r.path[1] != AdminPrefix[1] || r.path[2] != AdminPrefix[2];
          }
        }
      } else {
        assert r in AdminRoutes;
        assert r.path[..|AdminPrefix|] == AdminPrefix;
      }
    }
  }

  /** GET "/logout" is behind RequireAuth. */
  lemma LogoutRouteGuard()
    ensures RegisteredBehind(Get, "/logout", AuthRequired)
  {
    RouteKeys();
    assert RouteTable[10].path == "/logout";
  }

  /** GET "/login" and GET "/register" are behind RequireNoAuth. */
  lemma AccountPagesGuard()
    ensures RegisteredBehind(Get, "/login", NoAuthRequired)
    ensures RegisteredBehind(Get, "/register", NoAuthRequired)
  {
    RouteKeys();
    assert RouteTable[8].path == "/login";
    assert RouteTable[11].path == "/register";
  }

  /** POST "/login" and POST "/register" are not guarded. */
  lemma AccountFormsUnguarded()
    ensures RegisteredBehind(Post, "/login", Unguarded)
    ensures RegisteredBehind(Post, "/register", Unguarded)
  {
    RouteKeys();
    assert RouteTable[9].path == "/login";
    assert RouteTable[7].path == "/register";
  }

  /** No route's handler for the admin pages and forms runs unless the session's role
      is the string "admin". */
  lemma AdminHandlersNeedAdminRole(load: SessionLoad)
    ensures forall r <- RouteTable ::
      AdminHandler(r.handler) && ApplyGuard(r.guard, load).CallNext?
      ==> load.Loaded? && Controllers.RoleKey in load.values && load.values[Controllers.RoleKey] == StringValue("admin")
  {
    AdminGroupHandlers();
    forall r <- RouteTable | AdminHandler(r.handler)
      ensures r.guard == AdminRequired
    {
      var i :| 0 <= i < |RouteTable| && RouteTable[i] == r;
    }
  }

  /** The admin handlers are exactly those of the "/admin" group, which come first. */
  lemma AdminGroupHandlers()
    ensures forall i :: 0 <= i < |RouteTable| ==>
      (AdminHandler(RouteTable[i].handler) <==> i < |AdminRoutes|)
    ensures forall i :: 0 <= i < |AdminRoutes| ==> RouteTable[i].guard == AdminRequired
  {
  }

  /** The handlers of the admin pages and forms. */
  predicate AdminHandler(h: Handler) {
    h.RegisterProductPage? || h.CategoryPage? || h.CreateCategory? || h.CreateProduct? || h.UpdateProduct?
  }

  /** The method and path length of each route, in table order. RouteShapes and RouteKeys
      have no counterpart in the program: they only serve the proof of RoutesDistinct, by
      telling most routes apart on their method and path length. */
  const RouteShapes := [(Get, 33), (Get, 34), (Post, 24), (Post, 23), (Post, 21), (Get, 0), (Get, 13),
                        (Post, 9), (Get, 6), (Post, 6), (Get, 7), (Get, 9)]

  lemma RouteKeys()
    ensures |RouteTable| == |RouteShapes|
    ensures forall i :: 0 <= i < |RouteTable| ==> (RouteTable[i].verb, |RouteTable[i].path|) == RouteShapes[i]
  {
  }

  /** No two routes share a method and a path, so no registration shadows another. */
  lemma RoutesDistinct()
    ensures forall i, j :: 0 <= i < j < |RouteTable| ==>
      (RouteTable[i].verb, RouteTable[i].path) != (RouteTable[j].verb, RouteTable[j].path)
  {
    RouteKeys();
  }
}
