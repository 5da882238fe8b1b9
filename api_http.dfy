/** The boundary rules every backend API call in internal/api shares: the
    blank-base-URL guard, joining the base URL and a path, the 2xx acceptance
    window (section 15.3 of RFC 9110), the bearer credential header (section
    2.1 of RFC 6750), and the shape of one JSON exchange. Transport, JSON
    encoding and decoding are outcomes handed in by the caller. */
module Http {
  import opened Wrappers
  import opened GoStrings
  import opened Dtos

  datatype Method = Get | Post | Put

  datatype Header = Header(name: string, value: string)

  /** The record a request body is the JSON (or, for an image, multipart) encoding of. */
  datatype Payload =
    | NoPayload
    | LoginPayload(login: LoginRequest)
    | RegisterPayload(register: RegisterRequest)
    | CategoryPayload(category: CreateCategoryRequest)
    | ProductPayload(product: CreateProductRequest)
    | UpdatePayload(update: UpdateProductRequest)
    | ImagePayload(index: nat)

  /** The request handed to the HTTP client. */
  datatype Request = Request(verb: Method, url: string, headers: seq<Header>, payload: Payload)

  /** How reading the response body went: all of it, or a read error with what was read. */
  datatype ReadResult = Read(bytes: string) | ReadError(partial: string, reason: string)

  /** What happened to one call below the code modelled here: http.NewRequestWithContext
      failed, client.Do failed, or a response came back. */
  datatype Outcome = BuildFailed(reason: string) | SendFailed(reason: string) | Replied(status: int, body: ReadResult)

  /** One API call: the request sent (None when none was built), and the value or error text. */
  datatype Call<T> = Call(request: Option<Request>, result: Result<T, string>)

  const StatusOK := 200
  const StatusMultipleChoices := 300

  const BaseUrlRequired := "baseURL is required"

  const JsonContentType := Header("Content-Type", "application/json")

  /** `strings.TrimSpace(baseURL) == ""`: the base URL is empty or only whitespace. */
  predicate BlankBaseUrl(baseUrl: string)
    ensures BlankBaseUrl(baseUrl) <==> AllSpace(baseUrl)
  {
    TrimSpace(baseUrl) == ""
  }

  /** `strings.TrimRight(baseURL, "/") + path`: the URL ends with the path, and what
      precedes it is the base URL with every trailing '/' removed and nothing else. */
  function JoinUrl(baseUrl: string, path: string): (url: string)
    ensures |path| <= |url| && url[|url| - |path|..] == path
    ensures var head := url[..|url| - |path|];
      && |head| <= |baseUrl| && head == baseUrl[..|head|]
      && (head == [] || head[|head| - 1] != '/')
      && forall k :: |head| <= k < |baseUrl| ==> baseUrl[k] == '/'
  {
    var head := TrimTrailingSlashes(baseUrl);
    assert (head + path)[..|head|] == head;
    head + path
  }

  /** A response is accepted unless `status < http.StatusOK || status >= http.StatusMultipleChoices`. */
  predicate StatusAccepted(status: int)
    ensures StatusAccepted(status) <==> 200 <= status <= 299
  {
    !(status < StatusOK || status >= StatusMultipleChoices)
  }

  /** `Authorization: Bearer <token>`. */
  function Bearer(token: string): (h: Header)
    ensures h.name == "Authorization"
    ensures HasPrefix(h.value, "Bearer ") && h.value[|"Bearer "|..] == token
  {
    Header("Authorization", "Bearer " + token)
  }

  predicate HasAuthorization(request: Request) {
    exists h <- request.headers :: h.name == "Authorization"
  }

  /** fmt.Errorf("<context>: %w", err): the context, a colon, and the wrapped error's text. */
  function Wrapped(context: string, reason: string): string {
    context + ": " + reason
  }

  /** The words of one call's error messages, e.g. "create product" gives
      "create create product request: ...", "send create product request: ...",
      "create product failed with status code: 500\t", "decode create product response: ...". */
  datatype Wording = Wording(build: string, send: string, status: string, statusSuffix: string, decode: string)

  /** A JSON call once the URL is known: build the request, send it, reject a status
      outside 2xx with a message naming only the code, then decode the body. */
  function JsonExchange<T>(request: Request, outcome: Outcome, decoded: Result<T, string>, w: Wording): (c: Call<T>)
    ensures c.request == if outcome.BuildFailed? then None else Some(request)
    ensures c.result.Ok? <==> outcome.Replied? && StatusAccepted(outcome.status) && decoded.Ok?
    ensures c.result.Ok? ==> c.result.value == decoded.value
    ensures outcome.BuildFailed? ==> c.result == Err(Wrapped(w.build, outcome.reason))
    ensures outcome.SendFailed? ==> c.result == Err(Wrapped(w.send, outcome.reason))
    ensures outcome.Replied? && !StatusAccepted(outcome.status) ==>
      c.result == Err(StatusText(w, outcome.status))
    ensures outcome.Replied? && StatusAccepted(outcome.status) && decoded.Err? ==>
      c.result == Err(Wrapped(w.decode, decoded.error))
  {
    match outcome
    case BuildFailed(reason) => Call(None, Err(Wrapped(w.build, reason)))
    case SendFailed(reason) => Call(Some(request), Err(Wrapped(w.send, reason)))
    case Replied(status, _) =>
      if status < StatusOK || status >= StatusMultipleChoices then Call(Some(request), Err(StatusText(w, status)))
      else match decoded
        case Err(e) => Call(Some(request), Err(Wrapped(w.decode, e)))
        case Ok(v) => Call(Some(request), Ok(v))
  }

  /** "<what> failed with status code: %d" followed by the call's suffix. */
  function StatusText(w: Wording, status: int): (t: string)
    ensures |w.status| + |w.statusSuffix| <= |t|
    ensures HasPrefix(t, w.status) && t[|t| - |w.statusSuffix|..] == w.statusSuffix
    ensures t[|w.status|..|t| - |w.statusSuffix|] == FormatInt(status)
  {
    var t := w.status + FormatInt(status) + w.statusSuffix;
    assert t[..|w.status|] == w.status;
    assert t[|t| - |w.statusSuffix|..] == w.statusSuffix;
    assert t[|w.status|..|t| - |w.statusSuffix|] == FormatInt(status);
    t
  }

  /** Two calls that fail on the status line with different codes report different texts. */
  lemma StatusErrorNamesCode(w: Wording, s1: int, s2: int)
    requires StatusText(w, s1) == StatusText(w, s2)
    ensures s1 == s2
  {
    var a := StatusText(w, s1);
    assert FormatInt(s1) == a[|w.status|..|a| - |w.statusSuffix|];
    assert FormatInt(s2) == a[|w.status|..|a| - |w.statusSuffix|];
    FormatIntInjective(s1, s2);
  }
}
