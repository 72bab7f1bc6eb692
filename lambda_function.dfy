/**
 * The handler itself: the response builder, the three product handlers and
 * the dispatcher, written as the imperative code they are and proved against
 * the functions of DispatchSpec.  The table is passed in rather than opened
 * at load time.
 */
module LambdaFunction {
  import opened Wrappers
  import opened JsonValue
  import opened ProductStore
  import opened DispatchSpec

  /**
   * `build_response`: the status code and the JSON content type always, the
   * body only when one is given (Python's `None` is `JNull`).
   */
  method BuildResponse(statusCode: int, body: Json) returns (response: Response)
    ensures response.statusCode == statusCode
    ensures response.headers == map["Content-Type" := "application/json"]
    ensures response.body.Some? <==> body != JNull
    ensures response.body.Some? ==> response.body.value == body
  {
    response := Response(statusCode, map["Content-Type" := "application/json"], None);
    if body != JNull {
      response := response.(body := Some(body));
    }
  }

  /** `get_product`: a caught store exception gives no response. */
  method GetProduct(table: Table, productId: string, storeFails: bool) returns (response: Option<Response>)
    ensures response == GetProductResult(table.items, productId, storeFails)
  {
    var fetched := table.GetItem(productId, storeFails);
    match fetched
    case Failure(_) =>
      response := None;
    case Success(found) =>
      if found.Some? {
        var r := BuildResponse(200, JObj(found.value));
        response := Some(r);
      } else {
        var r := BuildResponse(404, JStr(NotFoundMessage(productId)));
        response := Some(r);
      }
  }

  /** `post_product`: put the item, then echo it; a caught store exception gives no response. */
  method PostProduct(table: Table, productItem: Json, storeFails: bool) returns (response: Option<Response>)
    requires table.Valid()
    modifies table
    ensures table.Valid()
    ensures (response, table.items) == PostProductResult(old(table.items), productItem, storeFails)
  {
    var put := table.PutItem(productItem, storeFails);
    if put.Failure? {
      return None;
    }
    var responseBody := JObj(map["Method" := JStr("POST"), "Message" := JStr("SUCCESS"), "Item" := productItem]);
    var r := BuildResponse(200, responseBody);
    response := Some(r);
  }

  /** `delete_product`: delete by key, then echo the key; a caught store exception gives no response. */
  method DeleteProduct(table: Table, productId: Json, storeFails: bool) returns (response: Option<Response>)
    requires table.Valid()
    modifies table
    ensures table.Valid()
    ensures (response, table.items) == DeleteProductResult(old(table.items), productId, storeFails)
  {
    var deleted := table.DeleteItem(productId, storeFails);
    if deleted.Failure? {
      return None;
    }
    var responseBody := JObj(map["Method" := JStr("DELETE"), "Message" := JStr("SUCCESS"), "ProductID" := productId]);
    var r := BuildResponse(200, responseBody);
    response := Some(r);
  }

  /**
   * `lambda_handler`: route on the exact (method, path) pair.  The parameter
   * lookups happen here, outside the handlers' exception handling, so their
   * errors escape as `Raised`.
   */
  method LambdaHandler(table: Table, event: Event, storeFails: bool) returns (outcome: Outcome)
    requires table.Valid()
    modifies table
    ensures table.Valid()
    ensures (outcome, table.items) == Handle(event, old(table.items), storeFails)
  {
    var httpMethod := event.httpMethod;
    var path := event.path;
    if httpMethod == GetMethod && path == ProductPath {
      var productId := QueryProductId(event);
      if productId.Failure? {
        return Raised(productId.error);
      }
      var response := GetProduct(table, productId.value, storeFails);
      outcome := Returned(response);
    } else if httpMethod == PostMethod && path == ProductPath {
      var productItem := LoadBody(event);
      if productItem.Failure? {
        return Raised(productItem.error);
      }
      var response := PostProduct(table, productItem.value, storeFails);
      outcome := Returned(response);
    } else if httpMethod == DeleteMethod && path == ProductPath {
      var requestBody := LoadBody(event);
      if requestBody.Failure? {
        return Raised(requestBody.error);
      }
      var productId := BodyProductId(requestBody.value);
      if productId.Failure? {
        return Raised(productId.error);
      }
      var response := DeleteProduct(table, productId.value, storeFails);
      outcome := Returned(response);
    } else {
      var response := BuildResponse(404, JStr("Not Found"));
      outcome := Returned(Some(response));
    }
  }
}
