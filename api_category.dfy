/** internal/api/category.go: listing and creating categories. A status outside
    2xx gives an error naming only the code; only creation sends the bearer token. */
module CategoryApi {
  import opened Wrappers
  import opened GoStrings
  import opened Dtos
  import opened Http

  /** The endpoint, relative to the base URL. */
  const CategoriesPath := "/categories"

  const GetCategoriesWording := Wording(
    "create get categories request", "send get categories request",
    "get categories failed with status code: ", "", "decode get categories response")

  const CreateCategoryWording := Wording(
    "create create category request", "send create category request",
    "create category failed with status code: ", "", "decode create category response")

  /** api.GetAllCategories: GET <base>/categories with only a Content-Type header. */
  function GetAllCategories(baseUrl: string, outcome: Outcome, decoded: Result<CategoryResponse, string>)
    : (c: Call<CategoryResponse>)
    ensures BlankBaseUrl(baseUrl) ==> c == Call(None, Err(BaseUrlRequired))
    ensures c.request.Some? <==> !BlankBaseUrl(baseUrl) && !outcome.BuildFailed?
    ensures c.request.Some? ==>
      && c.request.value == Request(Get, JoinUrl(baseUrl, CategoriesPath), [JsonContentType], NoPayload)
      && !HasAuthorization(c.request.value)
    ensures c.result.Ok? <==> !BlankBaseUrl(baseUrl) && outcome.Replied? && StatusAccepted(outcome.status) && decoded.Ok?
    ensures c.result.Ok? ==> c.result.value == decoded.value
    ensures !BlankBaseUrl(baseUrl) && outcome.Replied? && !StatusAccepted(outcome.status) ==>
      c.result == Err(StatusText(GetCategoriesWording, outcome.status))
  {
    if BlankBaseUrl(baseUrl) then Call(None, Err(BaseUrlRequired))
    else
      var request := Request(Get, JoinUrl(baseUrl, CategoriesPath), [JsonContentType], NoPayload);
      JsonExchange(request, outcome, decoded, GetCategoriesWording)
  }

  /** api.CreateCategory: POST <base>/categories with a JSON body and the bearer token. */
  function CreateCategory(baseUrl: string, category: CreateCategoryRequest, token: string,
                          outcome: Outcome, decoded: Result<SingleCategoryResponse, string>)
    : (c: Call<SingleCategoryResponse>)
    ensures BlankBaseUrl(baseUrl) ==> c == Call(None, Err(BaseUrlRequired))
    ensures c.request.Some? <==> !BlankBaseUrl(baseUrl) && !outcome.BuildFailed?
    ensures c.request.Some? ==>
      && c.request.value == Request(Post, JoinUrl(baseUrl, CategoriesPath),
                                    [JsonContentType, Bearer(token)], CategoryPayload(category))
      && Bearer(token) in c.request.value.headers
    ensures c.result.Ok? <==> !BlankBaseUrl(baseUrl) && outcome.Replied? && StatusAccepted(outcome.status) && decoded.Ok?
    ensures c.result.Ok? ==> c.result.value == decoded.value
    ensures !BlankBaseUrl(baseUrl) && outcome.Replied? && !StatusAccepted(outcome.status) ==>
      c.result == Err(StatusText(CreateCategoryWording, outcome.status))
  {
    if BlankBaseUrl(baseUrl) then Call(None, Err(BaseUrlRequired))
    else
      var request := Request(Post, JoinUrl(baseUrl, CategoriesPath), [JsonContentType, Bearer(token)], CategoryPayload(category));
      JsonExchange(request, outcome, decoded, CreateCategoryWording)
  }

  /** The status error of either call does not depend on the response body. */
  lemma CategoryStatusErrorIgnoresBody(baseUrl: string, status: int, b1: ReadResult, b2: ReadResult,
                                       decoded: Result<CategoryResponse, string>)
    requires !StatusAccepted(status)
    ensures GetAllCategories(baseUrl, Replied(status, b1), decoded) == GetAllCategories(baseUrl, Replied(status, b2), decoded)
    ensures forall category: CreateCategoryRequest, token: string, created: Result<SingleCategoryResponse, string> ::
      CreateCategory(baseUrl, category, token, Replied(status, b1), created)
        == CreateCategory(baseUrl, category, token, Replied(status, b2), created)
  {
  }
}
