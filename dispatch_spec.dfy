/**
 * What one invocation of the handler does, as functions of the request, the
 * table contents before the call and whether the store call raises.  Each
 * function returns the outcome together with the table contents after it.
 */
module DispatchSpec {
  import opened Wrappers
  import opened JsonValue
  import opened ProductStore

  const GetMethod := "GET"
  const PostMethod := "POST"
  /** Declared by the handler but never routed. */
  const PatchMethod := "PATCH"
  const DeleteMethod := "DELETE"
  const ProductPath := "/product"

  /** Name of the request parameter and body field that carry the product ID. */
  const ProductIdParameter := "productID"

  /** The body of a request, as `json.loads` sees it. */
  datatype Body =
    | NullBody            // no body: `json.loads(None)` raises TypeError
    | Unparsable          // not JSON: `json.loads` raises JSONDecodeError
    | Parsed(value: Json)

  /** The gateway's request record, reduced to the fields the handler reads. */
  datatype Event = Event(
    httpMethod: string,
    path: string,
    queryStringParameters: Option<map<string, string>>,
    body: Body)

  /** The response record.  `body` is the payload handed to `json.dumps`. */
  datatype Response = Response(statusCode: int, headers: map<string, string>, body: Option<Json>)

  /** The errors of parameter extraction.  They escape the handler uncaught. */
  datatype HandlerError =
    | QueryParametersNull     // `None["productID"]`: TypeError
    | QueryProductIdMissing   // KeyError on the query parameters
    | BodyNull                // `json.loads(None)`: TypeError
    | BodyMalformed           // JSONDecodeError
    | BodyNotAnObject         // a list, string, number, bool or null indexed by a string: TypeError
    | BodyProductIdMissing    // KeyError on the parsed body

  /**
   * What the handler gives back: a response value (`None` when a store call
   * raised and was caught) or an exception that escaped it.
   */
  datatype Outcome = Returned(response: Option<Response>) | Raised(error: HandlerError)

  const JsonHeaders: map<string, string> := map["Content-Type" := "application/json"]

  /** The envelope `build_response` produces; Python's `None` body is `JNull`. */
  function Reply(code: int, body: Json): Response {
    Response(code, JsonHeaders, if body == JNull then None else Some(body))
  }

  /** The body of the 404 that GET gives for an absent product. */
  function NotFoundMessage(productId: string): string {
    "Message: Product ID: " + productId + " not found"
  }

  /** The 404 that every request outside the three routes gets. */
  const RouteNotFound := Reply(404, JStr("Not Found"))

  predicate IsRouted(httpMethod: string, path: string) {
    path == ProductPath && (httpMethod == GetMethod || httpMethod == PostMethod || httpMethod == DeleteMethod)
  }

  /** `event["queryStringParameters"]["productID"]`. */
  function QueryProductId(e: Event): Result<string, HandlerError> {
    match e.queryStringParameters
    case None => Failure(QueryParametersNull)
    case Some(params) =>
      if ProductIdParameter in params then Success(params[ProductIdParameter])
      else Failure(QueryProductIdMissing)
  }

  /** `json.loads(event["body"])`. */
  function LoadBody(e: Event): Result<Json, HandlerError> {
    match e.body
    case NullBody => Failure(BodyNull)
    case Unparsable => Failure(BodyMalformed)
    case Parsed(j) => Success(j)
  }

  /** `request_body["productID"]`. */
  function BodyProductId(requestBody: Json): Result<Json, HandlerError> {
    if !requestBody.JObj? then Failure(BodyNotAnObject)
    else if ProductIdParameter in requestBody.fields then Success(requestBody.fields[ProductIdParameter])
    else Failure(BodyProductIdMissing)
  }

  /** `get_product`: reads the table and never changes it. */
  function GetProductResult(items: Items, productId: string, storeFails: bool): Option<Response> {
    if storeFails then None
    else if productId in items then Some(Reply(200, JObj(items[productId])))
    else Some(Reply(404, JStr(NotFoundMessage(productId))))
  }

  function PostBody(item: Json): Json {
    JObj(map["Method" := JStr(PostMethod), "Message" := JStr("SUCCESS"), "Item" := item])
  }

  function DeleteBody(productId: Json): Json {
    JObj(map["Method" := JStr(DeleteMethod), "Message" := JStr("SUCCESS"), "ProductID" := productId])
  }

  /** `post_product`: an unconditional put; the item must carry a string "ProductID". */
  function PostProductResult(items: Items, item: Json, storeFails: bool): (r: (Option<Response>, Items))
    requires ValidItems(items)
    ensures ValidItems(r.1)
    ensures r.0.Some? <==> !storeFails && KeyOf(item).Some?
    ensures r.0.None? ==> r.1 == items
    ensures forall k :: k in items && Some(k) != KeyOf(item) ==> k in r.1 && r.1[k] == items[k]
    ensures forall k :: k in r.1 && Some(k) != KeyOf(item) ==> k in items
  {
    match KeyOf(item)
    case None => (None, items)
    case Some(key) =>
      if storeFails then (None, items)
      else (Some(Reply(200, PostBody(item))), items[key := item.fields])
  }

  /**
   * `delete_product`: an unconditional delete keyed on attribute "ProductID",
   * although the key came from the body field "productID".
   */
  function DeleteProductResult(items: Items, productId: Json, storeFails: bool): (r: (Option<Response>, Items))
    requires ValidItems(items)
    ensures ValidItems(r.1)
    ensures r.0.Some? <==> !storeFails && productId.JStr?
    ensures r.0.None? ==> r.1 == items
    ensures forall k :: k in items && JStr(k) != productId ==> k in r.1 && r.1[k] == items[k]
    ensures forall k :: k in r.1 ==> k in items
  {
    if storeFails || !productId.JStr? then (None, items)
    else (Some(Reply(200, DeleteBody(productId))), items - {productId.s})
  }

  /** `lambda_handler`: exact match on the (method, path) pair, then one handler. */
  function Handle(e: Event, items: Items, storeFails: bool): (r: (Outcome, Items))
    requires ValidItems(items)
    ensures ValidItems(r.1)
  {
    if e.httpMethod == GetMethod && e.path == ProductPath then
      match QueryProductId(e)
      case Failure(err) => (Raised(err), items)
      case Success(id) => (Returned(GetProductResult(items, id, storeFails)), items)
    else if e.httpMethod == PostMethod && e.path == ProductPath then
      match LoadBody(e)
      case Failure(err) => (Raised(err), items)
      case Success(item) =>
        var (resp, items') := PostProductResult(items, item, storeFails);
        (Returned(resp), items')
    else if e.httpMethod == DeleteMethod && e.path == ProductPath then
      match LoadBody(e)
      case Failure(err) => (Raised(err), items)
      case Success(requestBody) =>
        match BodyProductId(requestBody)
        case Failure(err) => (Raised(err), items)
        case Success(id) =>
          var (resp, items') := DeleteProductResult(items, id, storeFails);
          (Returned(resp), items')
    else
      (Returned(Some(RouteNotFound)), items)
  }
}
