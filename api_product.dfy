/** internal/api/product.go: the product calls of the backend API. Four are one
    JSON exchange each; AddProductImages uploads a list of images one request at a
    time, keeps going past failures, and reports every failure in one error. */
module ProductApi {
  import opened Wrappers
  import opened GoStrings
  import opened Dtos
  import opened Http
  import opened Subsequences

  /** The endpoints, relative to the base URL. */
  const ProductsPath := "/products"
  const ProductBySkuPrefix := "/products/sku/"
  const ImagesSuffix := "/images"

  const CreateProductWording := Wording(
    "create create product request", "send create product request",
    "create product failed with status code: ", "\t", "decode create product response")

  const GetProductsWording := Wording(
    "create get products request", "send get products request",
    "get products failed with status code: ", "\t", "decode get products response")

  const GetProductWording := Wording(
    "create get product request", "send get product request",
    "get product failed with status code: ", "\t", "decode get product response")

  const UpdateProductWording := Wording(
    "update product request", "send update product request",
    "update product failed with status code: ", "\t", "decode update product response")

  /** api.CreateProduct: POST <base>/products with a JSON body and the bearer token. */
  function CreateProduct(baseUrl: string, product: CreateProductRequest, token: string,
                         outcome: Outcome, decoded: Result<SingleProductResponse, string>)
    : (c: Call<SingleProductResponse>)
    ensures BlankBaseUrl(baseUrl) ==> c == Call(None, Err(BaseUrlRequired))
    ensures c.request.Some? <==> !BlankBaseUrl(baseUrl) && !outcome.BuildFailed?
    ensures c.request.Some? ==>
      && c.request.value == Request(Post, JoinUrl(baseUrl, ProductsPath),
                                    [JsonContentType, Bearer(token)], ProductPayload(product))
      && Bearer(token) in c.request.value.headers
    ensures c.result.Ok? <==> !BlankBaseUrl(baseUrl) && outcome.Replied? && StatusAccepted(outcome.status) && decoded.Ok?
    ensures c.result.Ok? ==> c.result.value == decoded.value
    ensures !BlankBaseUrl(baseUrl) && outcome.Replied? && !StatusAccepted(outcome.status) ==>
      c.result == Err(StatusText(CreateProductWording, outcome.status))
  {
    if BlankBaseUrl(baseUrl) then Call(None, Err(BaseUrlRequired))
    else
      var request := Request(Post, JoinUrl(baseUrl, ProductsPath), [JsonContentType, Bearer(token)], ProductPayload(product));
      JsonExchange(request, outcome, decoded, CreateProductWording)
  }

  /** api.GetProducts: GET <base>/products with no header at all. */
  function GetProducts(baseUrl: string, outcome: Outcome, decoded: Result<ProductResponse, string>)
    : (c: Call<ProductResponse>)
    ensures BlankBaseUrl(baseUrl) ==> c == Call(None, Err(BaseUrlRequired))
    ensures c.request.Some? <==> !BlankBaseUrl(baseUrl) && !outcome.BuildFailed?
    ensures c.request.Some? ==> c.request.value == Request(Get, JoinUrl(baseUrl, ProductsPath), [], NoPayload)
    ensures c.result.Ok? <==> !BlankBaseUrl(baseUrl) && outcome.Replied? && StatusAccepted(outcome.status) && decoded.Ok?
    ensures c.result.Ok? ==> c.result.value == decoded.value
    ensures !BlankBaseUrl(baseUrl) && outcome.Replied? && !StatusAccepted(outcome.status) ==>
      c.result == Err(StatusText(GetProductsWording, outcome.status))
  {
    if BlankBaseUrl(baseUrl) then Call(None, Err(BaseUrlRequired))
    else JsonExchange(Request(Get, JoinUrl(baseUrl, ProductsPath), [], NoPayload), outcome, decoded, GetProductsWording)
  }

  /** api.GetProductBySKU: GET <base>/products/sku/<sku>, the SKU inserted as it is. */
  function GetProductBySKU(baseUrl: string, sku: string, outcome: Outcome, decoded: Result<SingleProductResponse, string>)
    : (c: Call<SingleProductResponse>)
    ensures BlankBaseUrl(baseUrl) ==> c == Call(None, Err(BaseUrlRequired))
    ensures c.request.Some? <==> !BlankBaseUrl(baseUrl) && !outcome.BuildFailed?
    ensures c.request.Some? ==> c.request.value == Request(Get, JoinUrl(baseUrl, ProductBySkuPrefix + sku), [], NoPayload)
    ensures c.result.Ok? <==> !BlankBaseUrl(baseUrl) && outcome.Replied? && StatusAccepted(outcome.status) && decoded.Ok?
    ensures c.result.Ok? ==> c.result.value == decoded.value
    ensures !BlankBaseUrl(baseUrl) && outcome.Replied? && !StatusAccepted(outcome.status) ==>
      c.result == Err(StatusText(GetProductWording, outcome.status))
  {
    if BlankBaseUrl(baseUrl) then Call(None, Err(BaseUrlRequired))
    else
      var request := Request(Get, JoinUrl(baseUrl, ProductBySkuPrefix + sku), [], NoPayload);
      JsonExchange(request, outcome, decoded, GetProductWording)
  }

  /** api.UpdateProduct: PUT <base>/products/<id> with a JSON body and the bearer token. */
  function UpdateProduct(baseUrl: string, token: string, id: int, product: UpdateProductRequest,
                         outcome: Outcome, decoded: Result<SingleProductResponse, string>)
    : (c: Call<SingleProductResponse>)
    ensures BlankBaseUrl(baseUrl) ==> c == Call(None, Err(BaseUrlRequired))
    ensures c.request.Some? <==> !BlankBaseUrl(baseUrl) && !outcome.BuildFailed?
    ensures c.request.Some? ==>
      && c.request.value == Request(Put, JoinUrl(baseUrl, ProductsPath + "/" + FormatInt(id)),
                                    [JsonContentType, Bearer(token)], UpdatePayload(product))
      && Bearer(token) in c.request.value.headers
    ensures c.result.Ok? <==> !BlankBaseUrl(baseUrl) && outcome.Replied? && StatusAccepted(outcome.status) && decoded.Ok?
    ensures c.result.Ok? ==> c.result.value == decoded.value
    ensures !BlankBaseUrl(baseUrl) && outcome.Replied? && !StatusAccepted(outcome.status) ==>
      c.result == Err(StatusText(UpdateProductWording, outcome.status))
  {
    if BlankBaseUrl(baseUrl) then Call(None, Err(BaseUrlRequired))
    else
      var request := Request(Put, JoinUrl(baseUrl, ProductsPath + "/" + FormatInt(id)), [JsonContentType, Bearer(token)], UpdatePayload(product));
      JsonExchange(request, outcome, decoded, UpdateProductWording)
  }

  /** How one image of AddProductImages fared: the step that failed with its error
      text, or the response (status, body as read, decoding of the body). Requests
      that reach the client carry the multipart writer's boundary. */
  datatype ImageStep =
    | FormFileFailed(reason: string)
    | OpenFileFailed(reason: string)
    | CopyFailed(reason: string)
    | CloseWriterFailed(reason: string)
    | NewRequestFailed(reason: string)
    | DoFailed(boundary: string, reason: string)
    | Answered(boundary: string, status: int, body: string, decoded: Result<ProductImagesResponse, string>)

  /** The image was stored: a 2xx answer whose body decoded. */
  predicate ImageUploaded(step: ImageStep) {
    step.Answered? && StatusAccepted(step.status) && step.decoded.Ok?
  }

  /** The image was not stored. */
  predicate ImageFailed(step: ImageStep) {
    !ImageUploaded(step)
  }

  /** The image's request was handed to the client. */
  predicate ImageSent(step: ImageStep) {
    step.DoFailed? || step.Answered?
  }

  /** "image <idx>: " that starts every per-image message. */
  function ImagePrefix(idx: int): string {
    "image " + FormatInt(idx) + ": "
  }

  const EmptyResponseBody := "empty response body"

  /** "status code %d: %s" for a rejected answer. */
  function StatusDetail(status: int, msg: string): string {
    "status code " + FormatInt(status) + ": " + msg
  }

  /** The text after the prefix for an image that was not stored. */
  function FailureDetail(step: ImageStep): (d: string)
    requires !ImageUploaded(step)
    ensures step.FormFileFailed? ==> d == "create form file: " + step.reason
    ensures step.OpenFileFailed? ==> d == "open file: " + step.reason
    ensures step.CopyFailed? ==> d == "copy to form file: " + step.reason
    ensures step.CloseWriterFailed? ==> d == "close multipart writer: " + step.reason
    ensures step.NewRequestFailed? ==> d == "create request: " + step.reason
    ensures step.DoFailed? ==> d == "send request: " + step.reason
    ensures step.Answered? && !StatusAccepted(step.status) ==>
      d == StatusDetail(step.status, if AllSpace(step.body) then EmptyResponseBody else TrimSpace(step.body))
    ensures step.Answered? && StatusAccepted(step.status) ==>
      step.decoded.Err? && d == "decode response: " + step.decoded.error
  {
    match step
    case FormFileFailed(e) => "create form file: " + e
    case OpenFileFailed(e) => "open file: " + e
    case CopyFailed(e) => "copy to form file: " + e
    case CloseWriterFailed(e) => "close multipart writer: " + e
    case NewRequestFailed(e) => "create request: " + e
    case DoFailed(_, e) => "send request: " + e
    case Answered(_, status, body, decoded) =>
      if status < StatusOK || status >= StatusMultipleChoices then
        var msg := TrimSpace(body);
        StatusDetail(status, if msg == "" then EmptyResponseBody else msg)
      else "decode response: " + decoded.error
  }

  /** The message image `idx` contributes: none when it was stored, otherwise exactly
      one, which starts with "image <idx>: ". */
  function ImageError(idx: int, step: ImageStep): (m: Option<string>)
    ensures m.None? <==> ImageUploaded(step)
  {
    if ImageUploaded(step) then None
    else
      Some(ImagePrefix(idx) + FailureDetail(step))
  }

  /** The message of an image that was not stored starts with "image <idx>: " and
      goes on with the failure's own text. */
  lemma ImageErrorText(idx: int, step: ImageStep)
    requires !ImageUploaded(step)
    ensures var m := ImageError(idx, step).value;
      HasPrefix(m, ImagePrefix(idx)) && m[|ImagePrefix(idx)|..] == FailureDetail(step)
  {
    var m := ImagePrefix(idx) + FailureDetail(step);
    assert m[..|ImagePrefix(idx)|] == ImagePrefix(idx);
  }

  /** A rejected answer with a blank body is reported as "empty response body". */
  lemma EmptyBodyReported(idx: int, boundary: string, status: int, body: string,
                          decoded: Result<ProductImagesResponse, string>)
    requires !StatusAccepted(status) && AllSpace(body)
    ensures ImageError(idx, Answered(boundary, status, body, decoded))
      == Some(ImagePrefix(idx) + StatusDetail(status, EmptyResponseBody))
  {
    assert TrimSpace(body) == "";
  }

  /** The messages of the first |steps| images, in index order. */
  function ErrorMessages(steps: seq<ImageStep>): seq<string>
    decreases |steps|
  {
    if steps == [] then []
    else
      var n := |steps| - 1;
      var m := ImageError(n, steps[n]);
      ErrorMessages(steps[..n]) + (if m.Some? then [m.value] else [])
  }

  /** The response of the last image stored, or the zero response when none was. */
  function LastResponse(steps: seq<ImageStep>): ProductImagesResponse
    decreases |steps|
  {
    if steps == [] then EmptyImagesResponse
    else
      var n := |steps| - 1;
      if ImageUploaded(steps[n]) then steps[n].decoded.value else LastResponse(steps[..n])
  }

  /** The URL every image of one product is posted to. */
  function ImagesUrl(baseUrl: string, productId: int): string {
    JoinUrl(baseUrl, ProductsPath + "/" + FormatInt(productId) + ImagesSuffix)
  }

  const MultipartFormData := "multipart/form-data; boundary="

  /** multipart.Writer.FormDataContentType for a boundary: a Content-Type header whose
      value is "multipart/form-data; boundary=" followed by the boundary. */
  function FormDataContentType(boundary: string): (h: Header)
    ensures h.name == "Content-Type"
    ensures HasPrefix(h.value, MultipartFormData) && h.value[|MultipartFormData|..] == boundary
  {
    var value := MultipartFormData + boundary;
    assert value[|MultipartFormData|..] == boundary;
    Header("Content-Type", value)
  }

  /** The request for image `idx`: POST with the multipart content type and the bearer token. */
  function ImageRequest(url: string, token: string, idx: nat, boundary: string): (r: Request)
    ensures r.verb == Post && r.url == url && r.payload == ImagePayload(idx)
    ensures Bearer(token) in r.headers
    ensures FormDataContentType(boundary) in r.headers
  {
    Request(Post, url, [FormDataContentType(boundary), Bearer(token)], ImagePayload(idx))
  }

  /** The requests handed to the client for the first |steps| images, in index order. */
  function SentRequests(url: string, token: string, steps: seq<ImageStep>): seq<Request>
    decreases |steps|
  {
    if steps == [] then []
    else
      var n := |steps| - 1;
      SentRequests(url, token, steps[..n])
        + (if ImageSent(steps[n]) then [ImageRequest(url, token, n, steps[n].boundary)] else [])
  }

  const ImagesErrorPrefix := "add product images completed with errors: "
  const ImagesErrorSeparator := "; "

  /** The final error: none when no image failed, otherwise every message joined with "; ". */
  function ImagesError(messages: seq<string>): (err: Option<string>)
    ensures err.None? <==> messages == []
    ensures err.Some? ==> HasPrefix(err.value, ImagesErrorPrefix)
    ensures err.Some? ==> err.value[|ImagesErrorPrefix|..] == Join(messages, ImagesErrorSeparator)
  {
    if messages == [] then None
    else
      var e := ImagesErrorPrefix + Join(messages, ImagesErrorSeparator);
      assert e[..|ImagesErrorPrefix|] == ImagesErrorPrefix;
      assert e[|ImagesErrorPrefix|..] == Join(messages, ImagesErrorSeparator);
      Some(e)
  }

  /** api.AddProductImages over the fates of the images, in order. Each image is tried
      whatever happened to the ones before; the response returned is that of the last
      image stored, even when an error is returned as well. */
  method AddProductImages(baseUrl: string, productId: int, token: string, steps: seq<ImageStep>)
    returns (resp: ProductImagesResponse, err: Option<string>, sent: seq<Request>)
    ensures BlankBaseUrl(baseUrl) ==> resp == EmptyImagesResponse && err == Some(BaseUrlRequired) && sent == []
    ensures !BlankBaseUrl(baseUrl) ==>
      && resp == LastResponse(steps)
      && err == ImagesError(ErrorMessages(steps))
      && sent == SentRequests(ImagesUrl(baseUrl, productId), token, steps)
  {
    if BlankBaseUrl(baseUrl) {
      return EmptyImagesResponse, Some(BaseUrlRequired), [];
    }
    var errMsgs;
    resp, errMsgs, sent := UploadImages(ImagesUrl(baseUrl, productId), token, steps);
    err := ImagesError(errMsgs);
  }

  /** The loop of AddProductImages: every image is tried in turn, its request (if
      any) recorded, its message (if any) collected, and the response of each image
      stored kept. */
  method UploadImages(url: string, token: string, steps: seq<ImageStep>)
    returns (lastResp: ProductImagesResponse, errMsgs: seq<string>, sent: seq<Request>)
    ensures lastResp == LastResponse(steps)
    ensures errMsgs == ErrorMessages(steps)
    ensures sent == SentRequests(url, token, steps)
  {
    lastResp := EmptyImagesResponse;
    errMsgs := [];
    sent := [];
    var idx := 0;
    while idx < |steps|
      invariant 0 <= idx <= |steps|
      invariant lastResp == LastResponse(steps[..idx])
      invariant errMsgs == ErrorMessages(steps[..idx])
      invariant sent == SentRequests(url, token, steps[..idx])
    {
      var step := steps[idx];
      assert steps[..idx + 1][..idx] == steps[..idx];
      if ImageSent(step) {
        sent := sent + [ImageRequest(url, token, idx, step.boundary)];
      }
      match step {
        case Answered(_, status, _, decoded) =>
          if StatusAccepted(status) && decoded.Ok? {
            lastResp := decoded.value;
          } else {
            errMsgs := errMsgs + [ImageError(idx, step).value];
          }
        case _ =>
          errMsgs := errMsgs + [ImageError(idx, step).value];
      }
      idx := idx + 1;
    }
    assert steps[..idx] == steps;
  }

  /** Exactly one message per image that was not stored, in index order: the k-th
      message is that of the k-th failing image. */
  lemma {:induction false} ErrorMessagesIndexed(steps: seq<ImageStep>)
    ensures var failed := Positions(steps, ImageFailed);
      && |ErrorMessages(steps)| == |failed|
      && forall k :: 0 <= k < |failed| ==>
           Some(ErrorMessages(steps)[k]) == ImageError(failed[k], steps[failed[k]])
    decreases |steps|
  {
    var keep := ImageFailed;
    if steps != [] {
      var n := |steps| - 1;
      var prefix := steps[..n];
      ErrorMessagesIndexed(prefix);
      assert steps == prefix + [steps[n]];
      PositionsSnoc(prefix, steps[n], keep);
      var failed := Positions(steps, keep);
      var before := Positions(prefix, keep);
      forall k | 0 <= k < |before|
        ensures prefix[before[k]] == steps[before[k]]
      {
      }
    }
  }

  /** Message k stands in the error right after the prefix and the messages before it. */
  lemma ImagesErrorLists(messages: seq<string>, k: nat)
    requires k < |messages|
    ensures var e := ImagesError(messages);
      var o := |ImagesErrorPrefix| + JoinOffset(messages, ImagesErrorSeparator, k);
      e.Some? && o + |messages[k]| <= |e.value| && e.value[o..o + |messages[k]|] == messages[k]
  {
    assert ImagesError(messages).value == ImagesErrorPrefix + Join(messages, ImagesErrorSeparator);
    PrefixedJoinPart(ImagesErrorPrefix, messages, ImagesErrorSeparator, k);
  }

  /** The error names every image that was not stored, in index order: the message
      of the k-th failing image stands in it at the k-th place of the "; "-joined list. */
  lemma ErrorNamesFailedImages(steps: seq<ImageStep>, messages: seq<string>, k: nat)
    requires messages == ErrorMessages(steps) && k < |messages|
    ensures var failed := Positions(steps, ImageFailed);
      var err := ImagesError(messages);
      var o := |ImagesErrorPrefix| + JoinOffset(messages, ImagesErrorSeparator, k);
      && k < |failed|
      && err.Some?
      && o + |messages[k]| <= |err.value|
      && Some(err.value[o..o + |messages[k]|]) == ImageError(failed[k], steps[failed[k]])
  {
    ErrorMessagesIndexed(steps);
    var failed := Positions(steps, ImageFailed);
    assert Some(messages[k]) == ImageError(failed[k], steps[failed[k]]);
    ImagesErrorLists(messages, k);
  }

  /** The call returns no error exactly when every image was stored; with no image at
      all it returns the zero response and no error. */
  lemma NoErrorIffAllUploaded(steps: seq<ImageStep>)
    ensures ImagesError(ErrorMessages(steps)).None? <==> forall i :: 0 <= i < |steps| ==> ImageUploaded(steps[i])
    ensures steps == [] ==> LastResponse(steps) == EmptyImagesResponse && ImagesError(ErrorMessages(steps)) == None
  {
    var keep := ImageFailed;
    ErrorMessagesIndexed(steps);
    NoPositions(steps, keep);
  }

  /** The response returned is the decoded body of the last image stored; when no image
      was stored it is the zero response. */
  lemma {:induction false} LastResponseIsLastUpload(steps: seq<ImageStep>, j: nat)
    requires j < |steps| && ImageUploaded(steps[j])
    requires forall k :: j < k < |steps| ==> !ImageUploaded(steps[k])
    ensures LastResponse(steps) == steps[j].decoded.value
    decreases |steps|
  {
    var n := |steps| - 1;
    if j < n {
      var prefix := steps[..n];
      forall k | j < k < |prefix| ensures !ImageUploaded(prefix[k]) {
        assert prefix[k] == steps[k];
      }
      LastResponseIsLastUpload(prefix, j);
    }
  }

  /** With no image stored, the zero response comes back. */
  lemma {:induction false} NoUploadNoResponse(steps: seq<ImageStep>)
    requires forall k :: 0 <= k < |steps| ==> !ImageUploaded(steps[k])
    ensures LastResponse(steps) == EmptyImagesResponse
    decreases |steps|
  {
    if steps != [] {
      var n := |steps| - 1;
      assert forall k :: 0 <= k < n ==> steps[..n][k] == steps[k];
      NoUploadNoResponse(steps[..n]);
    }
  }

  /** Every request sent for the images carries the bearer token and goes to the product's images URL. */
  lemma {:induction false} SentRequestsAuthorized(url: string, token: string, steps: seq<ImageStep>)
    ensures forall r <- SentRequests(url, token, steps) :: r.url == url && r.verb == Post && Bearer(token) in r.headers
    ensures |SentRequests(url, token, steps)| <= |steps|
    decreases |steps|
  {
    if steps != [] {
      SentRequestsAuthorized(url, token, steps[..|steps| - 1]);
    }
  }
}
