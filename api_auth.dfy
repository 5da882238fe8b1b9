/** internal/api/auth.go: login and registration against the backend. Both read
    the whole body before looking at the status, put the trimmed body into the
    error for a status outside 2xx, and send no credential header. */
module AuthApi {
  import opened Wrappers
  import opened GoStrings
  import opened Dtos
  import opened Http

  /** The words of one auth call's errors: its name ("login" or "register") and
      the contexts of the build, send, read and decode failures. */
  datatype AuthWording = AuthWording(name: string, build: string, send: string, read: string, decode: string)

  const LoginWording := AuthWording(
    "login", "create login request", "send login request", "read login response", "decode login response")

  const RegisterWording := AuthWording(
    "register", "create register request", "send register request", "read register response",
    "decode register response")

  /** The endpoints, relative to the base URL. */
  const LoginPath := "/auth/login"
  const RegisterPath := "/auth/register"

  /** The exchange shared by Login and Register once the URL is known. */
  function AuthExchange<T>(request: Request, w: AuthWording, outcome: Outcome, decoded: Result<T, string>): (c: Call<T>)
    ensures c.request == if outcome.BuildFailed? then None else Some(request)
    ensures c.result.Ok? <==>
      outcome.Replied? && outcome.body.Read? && StatusAccepted(outcome.status) && decoded.Ok?
    ensures c.result.Ok? ==> c.result.value == decoded.value
    ensures outcome.BuildFailed? ==> c.result == Err(Wrapped(w.build, outcome.reason))
    ensures outcome.SendFailed? ==> c.result == Err(Wrapped(w.send, outcome.reason))
    // a read failure is reported whatever the status
    ensures outcome.Replied? && outcome.body.ReadError? ==>
      c.result == Err(Wrapped(w.read, outcome.body.reason))
    ensures outcome.Replied? && outcome.body.Read? && !StatusAccepted(outcome.status) ==>
      c.result == Err(FailedText(w.name, outcome.status, outcome.body.bytes))
    ensures outcome.Replied? && outcome.body.Read? && StatusAccepted(outcome.status) && decoded.Err? ==>
      c.result == Err(Wrapped(w.decode, decoded.error))
  {
    match outcome
    case BuildFailed(reason) => Call(None, Err(Wrapped(w.build, reason)))
    case SendFailed(reason) => Call(Some(request), Err(Wrapped(w.send, reason)))
    case Replied(status, body) =>
      match body
      case ReadError(_, reason) => Call(Some(request), Err(Wrapped(w.read, reason)))
      case Read(bytes) =>
        if status < StatusOK || status >= StatusMultipleChoices then
          Call(Some(request), Err(FailedText(w.name, status, bytes)))
        else match decoded
          case Err(e) => Call(Some(request), Err(Wrapped(w.decode, e)))
          case Ok(v) => Call(Some(request), Ok(v))
  }

  /** "<name> failed (%d): %s" with the whitespace-trimmed body. */
  function FailedText(name: string, status: int, body: string): (t: string)
    ensures HasPrefix(t, name + " failed (" + FormatInt(status) + "): ")
    ensures t[|name + " failed (" + FormatInt(status) + "): "|..] == TrimSpace(body)
  {
    var head := name + " failed (" + FormatInt(status) + "): ";
    assert (head + TrimSpace(body))[|head|..] == TrimSpace(body);
    head + TrimSpace(body)
  }

  /** api.Login: POST <base>/auth/login with a JSON body and only a Content-Type header. */
  function Login(baseUrl: string, req: LoginRequest, outcome: Outcome, decoded: Result<LoginResponse, string>)
    : (c: Call<LoginResponse>)
    ensures BlankBaseUrl(baseUrl) ==> c == Call(None, Err(BaseUrlRequired))
    ensures c.request.Some? <==> !BlankBaseUrl(baseUrl) && !outcome.BuildFailed?
    ensures c.request.Some? ==>
      && c.request.value == Request(Post, JoinUrl(baseUrl, LoginPath), [JsonContentType], LoginPayload(req))
      && !HasAuthorization(c.request.value)
    ensures c.result.Ok? <==>
      !BlankBaseUrl(baseUrl) && outcome.Replied? && outcome.body.Read? && StatusAccepted(outcome.status) && decoded.Ok?
    ensures c.result.Ok? ==> c.result.value == decoded.value
    ensures !BlankBaseUrl(baseUrl) && outcome.Replied? && outcome.body.Read? && !StatusAccepted(outcome.status) ==>
      c.result == Err(FailedText(LoginWording.name, outcome.status, outcome.body.bytes))
    ensures !BlankBaseUrl(baseUrl) && outcome.Replied? && outcome.body.ReadError? ==>
      c.result == Err(Wrapped(LoginWording.read, outcome.body.reason))
  {
    if BlankBaseUrl(baseUrl) then Call(None, Err(BaseUrlRequired))
    else
      var request := Request(Post, JoinUrl(baseUrl, LoginPath), [JsonContentType], LoginPayload(req));
      AuthExchange(request, LoginWording, outcome, decoded)
  }

  /** api.Register: POST <base>/auth/register with a JSON body and only a Content-Type header. */
  function Register(baseUrl: string, req: RegisterRequest, outcome: Outcome, decoded: Result<RegisterResponse, string>)
    : (c: Call<RegisterResponse>)
    ensures BlankBaseUrl(baseUrl) ==> c == Call(None, Err(BaseUrlRequired))
    ensures c.request.Some? <==> !BlankBaseUrl(baseUrl) && !outcome.BuildFailed?
    ensures c.request.Some? ==>
      && c.request.value == Request(Post, JoinUrl(baseUrl, RegisterPath), [JsonContentType], RegisterPayload(req))
      && !HasAuthorization(c.request.value)
    ensures c.result.Ok? <==>
      !BlankBaseUrl(baseUrl) && outcome.Replied? && outcome.body.Read? && StatusAccepted(outcome.status) && decoded.Ok?
    ensures c.result.Ok? ==> c.result.value == decoded.value
    ensures !BlankBaseUrl(baseUrl) && outcome.Replied? && outcome.body.Read? && !StatusAccepted(outcome.status) ==>
      c.result == Err(FailedText(RegisterWording.name, outcome.status, outcome.body.bytes))
    ensures !BlankBaseUrl(baseUrl) && outcome.Replied? && outcome.body.ReadError? ==>
      c.result == Err(Wrapped(RegisterWording.read, outcome.body.reason))
  {
    if BlankBaseUrl(baseUrl) then Call(None, Err(BaseUrlRequired))
    else
      var request := Request(Post, JoinUrl(baseUrl, RegisterPath), [JsonContentType], RegisterPayload(req));
      AuthExchange(request, RegisterWording, outcome, decoded)
  }

  /** A rejected status is decided before any decoding: whatever the decoder would
      have produced, the login error is the same. */
  lemma LoginRejectionIgnoresDecoder(baseUrl: string, req: LoginRequest, outcome: Outcome,
                                     d1: Result<LoginResponse, string>, d2: Result<LoginResponse, string>)
    requires outcome.Replied? && !StatusAccepted(outcome.status)
    ensures Login(baseUrl, req, outcome, d1) == Login(baseUrl, req, outcome, d2)
  {
  }
}
