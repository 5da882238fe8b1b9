# alejandrinasweb storefront — a Dafny model of its request rules

alejandrinasweb is a server-rendered storefront written in Go. This project models its decision
rules and its string and list routines. It covers:

- The three route guards, and which route sits behind which guard.
- The auth session that login writes and logout drops. It also covers how each request decodes that
  session into an `App` identity.
- The flash-message drain.
- The configuration `NewRoutes` derives from the environment: the session keys, the CSRF SameSite and
  plaintext choices, the trusted origins, the CSRF options and the CSRF failure response.
- The backend API client. This is the blank-base-URL guard, the URL joining, the 2xx window, the
  bearer header, the exact error texts, and the per-image upload loop of `AddProductImages`.

Everything the code hands to a library or to the network is an input of the model:

- the outcome of loading and saving a session;
- what happened to an HTTP call (not built, not sent, or a status and a body);
- the result of decoding a JSON body;
- the form binding error;
- the value of an environment variable;
- `slug.Make`, base64 decoding and SHA-256, given as functions.

Error values are their text, so every message is stated exactly. Go strings and `[]byte` are both
`string` (a sequence of characters). Integers are unbounded.

Modules, one per source file or concern:

- `GoStrings` holds the parts of Go's `strings` and `fmt` that the core uses: `TrimSpace` with the
  `unicode.IsSpace` set, `TrimRight(s, "/")`, `Split`, `Join`, `HasPrefix`, and decimal `%d`.
- `Subsequences` gives the in-order selection of positions that both the flash drain and the
  image-error list are proved against.
- `Dtos`, `Contexts` and `Sessions` are the records: the DTO records, the context values, and a
  `Session` class for a loaded gorilla session.
- `Http` holds the rules every API call shares.
- `AuthApi`, `CategoryApi` and `ProductApi` model the three files of `internal/api`.
- `Controllers`, `Middleware` and `Routes` model their Go namesakes.
- `SessionFlow` ties login and logout to what the guards decide on the browser's next request.

Notes on the code's behaviour:

- The CSRF middleware is registered after the session, app-context and flash middlewares
  (routes/routes.go:41-45 and 112-114).
- Login and register put the trimmed response body into their status error. So does
  `AddProductImages`, in each per-image message (internal/api/product.go:188-193).
- The other category and product calls name only the status code in their status error. The product
  calls add a trailing tab after it, which the model keeps (internal/api/product.go:48).
- `RequireAdminRole` accepts the role only as a string. `RegisterAppContext` also accepts `[]byte`.
  `Middleware.BytesAdminRoleRefused` shows the two disagree on such a session.
- The auth cookie is always Secure (controllers/controllers.go:48-53), but the server also serves
  plain HTTP, and `CSRF_COOKIE_SECURE` defaults to false (routes/routes.go:47-63). A browser does not
  send a Secure cookie on a plain-HTTP request, so there the next request after a login is treated
  as logged out. `SessionFlow.LoginThenGuards` states both cases.

## Model

| member | source | states |
|---|---|---|
| GoStrings.TrimSpace | internal/api/auth.go:17 | the result is a slice s[i..j] of the input whose cut-off ends are all white space; it has no leading or trailing white space, and is empty exactly when the input is all white space |
| GoStrings.TrimTrailingSlashes | internal/api/auth.go:21 | the result is a prefix of the input, only '/' characters were removed, and it does not end in '/' |
| GoStrings.Split | routes/routes.go:68 | there is at least one piece and no piece contains the separator |
| GoStrings.JoinSplit | routes/routes.go:68 | joining the pieces again with the separator gives back the input |
| GoStrings.SplitCount | routes/routes.go:68 | there is one piece more than there are separators |
| GoStrings.HasPrefix | controllers/controllers.go:142 | s has the prefix exactly when s is that prefix followed by the rest of s |
| GoStrings.Join | internal/api/product.go:206 | no parts give "", and a single part is returned as it is, with no separator |
| GoStrings.JoinPartAt | internal/api/product.go:206 | in a `strings.Join` result, part k stands at its offset: after the parts before it, each followed by one separator |
| GoStrings.JoinSeparatorAfter | internal/api/product.go:206 | every part but the last is followed by exactly the separator |
| GoStrings.JoinLength | internal/api/product.go:206 | nothing follows the last part |
| GoStrings.PrefixedJoinPart | internal/api/product.go:206 | behind a prefix, part k of a join stands at the prefix's length plus its offset |
| GoStrings.FormatInt | internal/api/product.go:48 | `%d` gives at least one character and starts with '-' exactly for a negative number |
| GoStrings.NatDigitsRoundTrip | internal/api/product.go:48 | reading the decimal digits back gives the number |
| GoStrings.FormatIntInjective | internal/api/product.go:48 | two different numbers never print the same |
| Subsequences.PickedInOrder | controllers/controllers.go:153-162 | the values picked from a sequence are those of its kept positions, in order: the k-th value is the one the k-th kept element gives |
| Subsequences.Positions | controllers/controllers.go:153-162 | the selected indices are in range, pass the test, are strictly increasing, and include every index that passes |
| Contexts.KeyName | routes/contexts/app.go:9-11 | the App key's name is "appCtx" and the flash key's is "flash_key" (routes/contexts/toast.go:11-13), so the two never share a slot in echo's store |
| Contexts.ExtractApp | routes/contexts/context.go:8-15 | the stored App, or App{} when the key is missing or holds another type |
| Contexts.ExtractToken | routes/contexts/context.go:17-19 | the token of ExtractApp, "" when nothing is stored |
| Contexts.ExtractRole | routes/contexts/context.go:21-23 | the role of ExtractApp, "" when nothing is stored |
| Contexts.ExtractFlashMessages | routes/contexts/context.go:25-34 | the stored list unchanged, or the empty list when the key is missing or holds another type |
| Contexts.StoreThenExtractApp | routes/contexts/context.go:8-23 | an App stored under AppKey is what ExtractApp, ExtractToken and ExtractRole read, and the flash slot is untouched |
| Contexts.StoreThenExtractFlashMessages | routes/contexts/context.go:25-34 | a stored flash list is read back unchanged, and the identity is untouched |
| Sessions.BoolAt | routes/middleware/middleware.go:19 | the `.(bool)` assertion is true exactly for a stored boolean true |
| Sessions.StringAt | routes/middleware/middleware.go:51 | the `.(string)` assertion gives the string, or "" for a missing key or any other type |
| Sessions.Session.Save | controllers/controllers.go:61 | a successful save writes the current values, flash queue and options (path, max-age, HttpOnly, Secure) as the cookie; a failed save writes nothing |
| Sessions.Session.Flashes | controllers/controllers.go:152 | returns the queue in order and leaves it empty |
| Sessions.NextRequestLoad | controllers/controllers.go:89 | a cookie with negative max-age, or a Secure cookie on a request not over TLS, gives an empty session; any other cookie comes back with its values |
| Http.BlankBaseUrl | internal/api/auth.go:17 | the base URL is rejected exactly when it is empty or all white space |
| Http.JoinUrl | internal/api/auth.go:21 | the URL ends with the path, and before it is the base URL with every trailing '/' removed and nothing else |
| Http.StatusAccepted | internal/api/product.go:47 | a response is accepted exactly when 200 <= status <= 299 |
| Http.StatusText | internal/api/category.go:34 | the status error is the call's fixed wording, then the code's decimal text, then the call's suffix (a tab for the product calls, as at internal/api/product.go:48, 82, 117 and 243) |
| Http.Bearer | internal/api/product.go:38 | the header is Authorization with value "Bearer " followed by the token |
| Http.JsonExchange | internal/api/category.go:20-43 | the request is sent unless building it failed; the result is the decoded value exactly for a 2xx reply that decodes; each failure gives its wrapped message, and a bad status gives a message naming only the code |
| Http.StatusErrorNamesCode | internal/api/category.go:34 | two status errors of one call with the same text have the same status |
| AuthApi.AuthExchange | internal/api/auth.go:27-54 | a read failure is reported whatever the status; a status outside 2xx gives "<name> failed (<code>): <trimmed body>" without decoding; otherwise the decoded value or the decode error |
| AuthApi.FailedText | internal/api/auth.go:46 | the rejection text is "<name> failed (<code>): " followed by the response body with white space trimmed from both ends (also internal/api/auth.go:87) |
| AuthApi.Login | internal/api/auth.go:16-55 | a blank base URL fails with "baseURL is required" and no request; a request is built exactly when the base URL is not blank and building succeeds, and it is POST to the joined "/auth/login" with only a Content-Type header; success exactly for a read, 2xx and decoded reply; the exact rejection and read-error texts |
| AuthApi.Register | internal/api/auth.go:57-96 | the same as Login for "/auth/register" with "register" in every message |
| AuthApi.LoginRejectionIgnoresDecoder | internal/api/auth.go:45-47 | on a rejected status the login result does not depend on what decoding would give |
| CategoryApi.GetAllCategories | internal/api/category.go:13-44 | blank base URL fails without a request; a request is built exactly when the base URL is not blank and building succeeds, and it is GET to the joined "/categories" with only Content-Type; success exactly for a 2xx reply that decodes; a bad status names only the code |
| CategoryApi.CreateCategory | internal/api/category.go:46-87 | as GetAllCategories (a request is built exactly when the base URL is not blank and building succeeds), but POST with the JSON body and the bearer token |
| CategoryApi.CategoryStatusErrorIgnoresBody | internal/api/category.go:33-35 | for GetAllCategories and for CreateCategory (internal/api/category.go:77-79), a rejected status gives the same result whatever the response body |
| ProductApi.CreateProduct | internal/api/product.go:16-57 | blank base URL fails without a request; a request is built exactly when the base URL is not blank and building succeeds, and it is the POST to the joined "/products" with Content-Type and the bearer token; success exactly for a 2xx reply that decodes; a bad status gives "create product failed with status code: <code>" and a tab |
| ProductApi.GetProducts | internal/api/product.go:59-91 | blank base URL fails without a request; a request is built exactly when the base URL is not blank and building succeeds, and it is the GET to the joined "/products" with no header; success and status error as above |
| ProductApi.GetProductBySKU | internal/api/product.go:93-126 | blank base URL fails without a request; a request is built exactly when the base URL is not blank and building succeeds, and it is the GET to the joined "/products/sku/" followed by the SKU as given; success and status error as above |
| ProductApi.UpdateProduct | internal/api/product.go:211-252 | blank base URL fails without a request; a request is built exactly when the base URL is not blank and building succeeds, and it is the PUT to the joined "/products/<id>" with Content-Type and the bearer token; success and status error as above |
| ProductApi.FailureDetail | internal/api/product.go:147-199 | each failed step before any answer gives its own label ("create form file: ", "open file: ", "copy to form file: ", "close multipart writer: ", "create request: ", "send request: ") followed by its error; a rejected answer gives "status code <code>: " followed by the trimmed body, or "empty response body" when the body is all white space; an accepted answer that was not stored failed to decode and gives "decode response: " and the decoder's error |
| ProductApi.ImageError | internal/api/product.go:147-201 | an image contributes no message exactly when it was stored (2xx and decoded), otherwise exactly one |
| ProductApi.ImageErrorText | internal/api/product.go:147-201 | the message of an image that was not stored starts with "image <idx>: " and goes on with the failed step's text |
| ProductApi.EmptyBodyReported | internal/api/product.go:188-193 | a rejected answer with a blank body is reported as "status code <code>: empty response body" |
| ProductApi.FormDataContentType | internal/api/product.go:175 | the Content-Type header with value "multipart/form-data; boundary=" followed by the boundary |
| ProductApi.ImageRequest | internal/api/product.go:170-176 | each image is posted to the images URL with the multipart Content-Type for its boundary and the bearer token |
| ProductApi.ImagesError | internal/api/product.go:205-208 | no error exactly when there is no message; otherwise the error is "add product images completed with errors: " followed by the messages joined with "; " |
| ProductApi.ImagesErrorLists | internal/api/product.go:205-208 | message k stands in the error right after the prefix and the messages before it, each followed by "; " |
| ProductApi.ErrorNamesFailedImages | internal/api/product.go:143-208 | the k-th failing image's message stands in the error at the k-th place of the "; "-joined list |
| ProductApi.AddProductImages | internal/api/product.go:128-209 | a blank base URL gives the zero response, "baseURL is required" and no request; otherwise the response is that of the last stored image, the error is built from the messages of every image in index order, and the requests sent are those of the images that reached the client |
| ProductApi.UploadImages | internal/api/product.go:143-203 | the loop over the images ends with the response of the last stored image, the messages of the failed images in index order, and the requests of the images that reached the client |
| ProductApi.ErrorMessagesIndexed | internal/api/product.go:143-203 | there is exactly one message per image that was not stored, and the k-th message is that of the k-th such image |
| ProductApi.NoErrorIffAllUploaded | internal/api/product.go:205-208 | the call returns no error exactly when every image was stored; no image at all gives the zero response and no error |
| ProductApi.LastResponseIsLastUpload | internal/api/product.go:202 | the response returned is the decoded body of the last stored image, even if later images failed |
| ProductApi.NoUploadNoResponse | internal/api/product.go:140 | with no image stored, the zero response is returned |
| ProductApi.SentRequestsAuthorized | internal/api/product.go:170-179 | every image request goes by POST to the product's images URL with the bearer token, at most one per image |
| Controllers.SessionMaxAge | controllers/controllers.go:43-46 | the max-age is 604800, and 1209600 exactly when the session is extended |
| Controllers.AuthCookieOptions | controllers/controllers.go:48-53 | the options are path "/", HttpOnly and Secure, with the given max-age |
| Controllers.AuthSessionValues | controllers/controllers.go:55-59 | the session holds the user's id, email, access token and role, and authenticated = true; every other key keeps its value |
| Controllers.CreateAuthSession | controllers/controllers.go:32-62 | a load error is returned and changes nothing; otherwise the options and values are set and the save outcome is returned; a successful save writes them as the cookie |
| Controllers.LogoutUser | controllers/controllers.go:83-96 | the max-age becomes -1; the handler redirects with 303 to "/" exactly when loading and saving both succeed, and otherwise returns the error |
| Controllers.TruncateFloat | controllers/controllers.go:195-196 | int(float64) drops the fractional part toward zero |
| Controllers.UserIdOf | controllers/controllers.go:189-197 | an int is kept, an int64 is converted, a float64 is truncated, and anything else gives 0 |
| Controllers.TextAt | controllers/controllers.go:198-212 | a string is kept, a []byte is converted, and anything else gives "" |
| Controllers.DecodeApp | controllers/controllers.go:188-220 | the App carries the decoded id, token and role, and is authenticated exactly when the value is the boolean true |
| Controllers.AuthSessionRoundTrip | controllers/controllers.go:55-59 | decoding what createAuthSession writes gives the user's id, token and role, authenticated |
| Controllers.EmptySessionDecodesToZero | controllers/controllers.go:188-212 | a session without values decodes to App{} |
| Controllers.RegisterAppContext | controllers/controllers.go:181-227 | a load error is returned without calling next; otherwise the decoded App is put in echo's store and in the request context, and next is called |
| Controllers.AppContextExtracted | controllers/controllers.go:222-224 | after RegisterAppContext, ExtractApp and ExtractToken read exactly the decoded session |
| Controllers.FlashOf | controllers/controllers.go:154-160 | an entry contributes a message exactly when it is a FlashMessage, and then that message unchanged |
| Controllers.CollectFlashMessages | controllers/controllers.go:151-163 | the loop keeps the FlashMessage entries in queue order, with their fields unchanged |
| Controllers.FlashMessagesInOrder | controllers/controllers.go:153-162 | the kept list is the in-order subsequence of the queue's FlashMessage entries |
| Controllers.RegisterFlashMessageContext | controllers/controllers.go:140-179 | "/static" paths and load errors change nothing; otherwise the queue is drained and saved, and the list is stored only when the save succeeded; next is called in every case |
| Controllers.LoginUser | controllers/controllers.go:282-301 | redirects with 303 to "/" exactly when binding, the login call, loading and saving all succeed, and then the session holds the auth values, keeps its flashes, has the options path "/", max-age 604800, HttpOnly and Secure, and is saved as the cookie with exactly those; otherwise returns the first error: a binding or login error and a session load error leave the session unchanged, and a failed save returns its error with the auth values set but no cookie written |
| Controllers.NewProductRequest | controllers/controllers.go:367-374 | the request carries the form's fields, and its SKU is the slug of the name |
| Controllers.CreateProduct | controllers/controllers.go:346-397 | images are uploaded exactly when the product was created and at least one file came; the handler redirects with 303 to "/admin/dashboard/product/register" exactly when nothing failed |
| Controllers.UpdateRequestOf | controllers/controllers.go:405-411 | the update request carries the form's fields and an empty SKU |
| Controllers.UpdateProduct | controllers/controllers.go:399-418 | after binding, the handler redirects with 303 to "/admin/dashboard/product/register" whether or not the update failed |
| Middleware.Authenticated | routes/middleware/middleware.go:19 | authenticated exactly when the value is the boolean true |
| Middleware.RequireAuth | routes/middleware/middleware.go:12-26 | a load failure redirects with 307 to "/login"; the request proceeds exactly when the session is authenticated, and is otherwise redirected with 307 to "/login" |
| Middleware.RequireNoAuth | routes/middleware/middleware.go:28-42 | a load failure proceeds; an authenticated session is redirected with 307 to "/", any other proceeds |
| Middleware.RequireAdminRole | routes/middleware/middleware.go:44-58 | the request proceeds exactly when the role is the string "admin"; any other case redirects with 307 to "/login" |
| Middleware.AuthGuardsPartition | routes/middleware/middleware.go:14-40 | for any session exactly one of RequireAuth and RequireNoAuth proceeds; on a load failure it is RequireNoAuth |
| Middleware.AdminIgnoresAuthFlag | routes/middleware/middleware.go:51-56 | RequireAdminRole decides the same whatever the authenticated value |
| Middleware.BytesAdminRoleRefused | routes/middleware/middleware.go:51 | a []byte role "admin" decodes to "admin" for the App, but RequireAdminRole refuses it |
| Routes.SessionKeyFromEnv | routes/routes.go:24-33 | the decoded bytes when decoding succeeds with at least 32 bytes, otherwise the SHA-256 digest; always at least 32 bytes |
| Routes.ShortDecodingHashed | routes/routes.go:26 | a decoding shorter than 32 bytes is never used as the key |
| Routes.ParseTrustedOrigins | routes/routes.go:66-73 | the origins are the comma-separated pieces, trimmed and without the empty ones; each is non-empty, has no comma and no white space at either end |
| Routes.OriginOf | routes/routes.go:69-71 | a piece gives an origin exactly when it is not blank, and the origin is the trimmed piece |
| Routes.KeepOrigins | routes/routes.go:68-73 | the loop appends exactly the trimmed non-empty pieces, in order |
| Routes.KeptOriginsClean | routes/routes.go:69-71 | every kept origin is non-empty, trimmed, and free of the separator |
| Routes.KeptOriginsInOrder | routes/routes.go:68-73 | the k-th origin is the k-th non-blank piece, trimmed |
| Routes.NoOriginsFromBlankPieces | routes/routes.go:66-73 | blank pieces give no origin |
| Routes.SameSiteFor | routes/routes.go:47-51 | SameSite is None exactly when secure mode is on, and Default otherwise |
| Routes.PlaintextMarked | routes/routes.go:53-63 | a request is marked plaintext exactly when secure mode is off and it did not come over TLS |
| Routes.PlaintextOnlyWithDefaultSameSite | routes/routes.go:47-63 | no request is marked plaintext while SameSite is None |
| Routes.BuildCsrfOptions | routes/routes.go:75-110 | the options are exactly the four base options, followed by a TrustedOrigins option carrying the origins when and only when the origin list is non-empty |
| Routes.CsrfErrorResponse | routes/routes.go:103-104 | a CSRF failure always answers 403 with body "csrf failed", whatever the request |
| Routes.ApplyGuard | routes/routes.go:122-160 | an unguarded route proceeds, and each other guard decides as the middleware of the same name |
| Routes.AdminRoutesGuarded | routes/routes.go:122-138 | a route is under "/admin" exactly when it is behind RequireAdminRole |
| Routes.LogoutRouteGuard | routes/routes.go:155-157 | GET "/logout" is registered once, behind RequireAuth |
| Routes.AccountPagesGuard | routes/routes.go:149-151 | GET "/login" and GET "/register" are registered once each, behind RequireNoAuth |
| Routes.AccountFormsUnguarded | routes/routes.go:146-154 | POST "/login" and POST "/register" are registered once each, without a guard |
| Routes.AdminHandlersNeedAdminRole | routes/routes.go:122-138 | no admin page or form handler runs unless the session's role is the string "admin" |
| Routes.RouteKeys | routes/routes.go:121-162 | the method and path length of each registered route; a proof aid for RoutesDistinct with no counterpart in the program |
| Routes.RoutesDistinct | routes/routes.go:121-162 | no two routes share a method and a path |
| SessionFlow.LoginCookie | controllers/controllers.go:43-61 | the login cookie carries the auth values and the flashes, with path "/", a positive max-age, HttpOnly and Secure |
| SessionFlow.LoginThenGuards | controllers/controllers.go:32-62 | after login, a next request over TLS passes RequireAuth, is redirected to "/" by RequireNoAuth, passes RequireAdminRole exactly for the "admin" role, and its App carries the user; a next request over plain HTTP carries no session, so RequireAuth and RequireAdminRole redirect to "/login", RequireNoAuth proceeds and the App is App{} |
| SessionFlow.LogoutThenGuards | controllers/controllers.go:89 | after logout, whatever the other options and the transport, RequireAuth and RequireAdminRole redirect to "/login", RequireNoAuth proceeds, and the App is App{} |

## Left out

- HTTP transport is an input of the model: `client.Do`, the 10-second client timeout of login and
  register, and context cancellation. Each call is given as not built, not sent, or a status and a
  body.
- JSON decoding is an input: the decoded value, or the decoder's error text.
- JSON encoding of the request bodies is not modelled. It cannot fail for these records once prices
  are finite. So the "marshal … payload" errors of Login, Register, CreateCategory, CreateProduct and
  UpdateProduct are not modelled.
- The multipart body is not modelled. Each image's fate is given as the step that failed or the
  answer. The writer's random boundary is part of that input.
- The body-read error that AddProductImages ignores is not modelled. The body is what was read.
- ProductApi.GetProductBySKU: the SKU is inserted as it is, with no escaping, as in the source.
  URL parsing by `http.NewRequestWithContext` is part of the "not built" outcome.
- Sessions.NextRequestLoad: `overTls` stands for the browser's own decision to send a Secure cookie.
  Browsers also send one to a plain-HTTP `localhost`, which the model counts as over TLS. Cookie
  expiry by elapsed time is not modelled.
- Session cookies are not modelled: their encoding, signing and encryption by the cookie store, and
  gob. A value is assumed to come back with the type it was saved with. Only whether a load or save
  succeeded is modelled.
- Controllers.TruncateFloat: it covers finite float64 values only. NaN, infinities and values outside
  the 64-bit range are left out, because Go leaves their conversion implementation-defined.
- Go strings are byte sequences. `strings.TrimSpace` decodes them as UTF-8 runes, while `Split`,
  `Join`, `HasPrefix` and `TrimRight` compare bytes. The model treats every string as a sequence of
  Unicode characters. For valid UTF-8 both views give the same results, because these functions
  look only for ASCII separators or whole runes. Invalid UTF-8 is not modelled. Lengths and offsets
  count characters, not bytes, and the two agree only for ASCII text.
- `%d` is applied to Go's `int` (64 bits here). `FormatInt` prints any unbounded integer, which agrees
  for every value in that range.
- Integers are unbounded. Go's `int` and `int64` are both 64 bits wide on the targets this code runs
  on, so the model treats the int64-to-int conversion as the identity.
- `slug.Make` is a function parameter, and its rules are not part of this model. So are base64
  decoding and SHA-256. A digest is any 32-byte sequence.
- The CSRF token scheme is not modelled: token signing and validation inside gorilla/csrf, the token
  key, and the error handler's diagnostic logging. The model covers the options passed in and the
  403 response.
- The middleware chain is not composed into a pipeline: session, app context, flash, then CSRF. Its
  order is stated above.
- The following are not modelled, since they only render views or forward to a client call without a
  rule of their own: `setAppCtx` and the page handlers (`RegisterProductPage`, `SessionNew`, `Home`,
  `Product`, `Register`, `LoginPage`, `CategoryPage`), and the `CreateUser` and `CreateCategory`
  handlers.
- Reading environment variables (`env.GetString`, `env.GetBool`) is not modelled. The values are
  parameters.
- The logging (`fmt.Println`, `slog`) is not modelled.
- The database and store code is not wired into any route and is not part of this model. Neither are
  bcrypt, crypto/rand, server bootstrap or static file serving.
