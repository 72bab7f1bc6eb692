# Product API dispatcher

A model of the request dispatcher of a small serverless CRUD API.  One
function receives the gateway's request record, routes it on the exact pair
(HTTP method, path) to one of three handlers, and returns a response record
`{statusCode, headers, body?}`.  The handlers read, put or delete one product
in a key-value table keyed by the string attribute `ProductID`:

- `GET /product?productID=k` returns the stored item (200) or a message naming
  `k` (404);
- `POST /product` with an item stores it, overwriting, and echoes it (200);
- `DELETE /product` with `{"productID": k}` deletes `k` whether or not it was
  there, and echoes `k` (200);
- every other (method, path), PATCH included, gets 404 `"Not Found"`.

When a store call raises, the handler catches the exception and returns no
response at all.  The parameter lookups happen in the dispatcher, outside that
exception handling, so a missing query parameter, a missing or malformed body
or a DELETE body without `productID` escapes as an uncaught error.

Files:

- `wrappers.dfy` — `Option` and `Result`.
- `json_value.dfy` — `Json`, the parsed request and response payloads; Python's
  `None` is `JNull`.
- `product_store.dfy` — the table: a class `Table` whose field `items` maps a
  `ProductID` to the stored item's attributes, with `GetItem`, `PutItem`
  (overwrite) and `DeleteItem` (no-op when absent).  `Valid()` says every item
  is filed under its own `ProductID`.  A store failure is the flag
  `storeFails`; a failed call leaves the table unchanged.  A put of a value
  that is not an object with a string `ProductID`, and a delete by a key that
  is not a string, are refused by the store like any other failure.
- `dispatch_spec.dfy` — the dispatcher as functions: the request (`Event`),
  the response (`Response`), the outcome (`Returned(Option<Response>)` or
  `Raised(HandlerError)`), and `Handle`, which gives the outcome and the next
  table contents.
- `lambda_function.dfy` — the handler as the imperative code it is:
  `BuildResponse` builds the record and then adds the body;
  `GetProduct`, `PostProduct` and `DeleteProduct` call the table;
  `LambdaHandler` dispatches.  Each is proved equal to its function in
  `dispatch_spec.dfy`.
- `dispatch_properties.dfy` — routing, per-route responses and table effects,
  the POST-then-GET round trip, idempotence of any repeated request, and the
  two kinds of failure.

The GET query parameter and the DELETE body field are both `productID`
(lambda_function.py:38, :43), while the stored key attribute is `ProductID`
(:70, :104); the model keeps these names as written.  A GET without the
query parameter raises at :38, in the dispatcher and outside the `try` block
that starts at :67, so it is an uncaught error and not a `None` response.

## Model

| member | source | states |
|---|---|---|
| ProductStore.Table.constructor | serverless-api/lambda_function.py:13-15 | the table handle starts with the given contents, each item filed under its own ProductID |
| ProductStore.Table.GetItem | serverless-api/lambda_function.py:68-73 | a failing store raises; otherwise the item stored under the key, or nothing when the key is absent |
| ProductStore.Table.PutItem | serverless-api/lambda_function.py:84 | succeeds exactly when the store works and the item is an object with a string ProductID; then the item is stored under that key, replacing any previous one; otherwise the table is unchanged |
| ProductStore.Table.DeleteItem | serverless-api/lambda_function.py:102-106 | succeeds exactly when the store works and the key is a string; the key is then absent and nothing else changes, whether or not it was present; otherwise the table is unchanged |
| DispatchSpec.PostProductResult | serverless-api/lambda_function.py:81-95 | a response comes back exactly when the store works and the item carries a string ProductID; without one the table is unchanged; no key other than the item's changes, none is added; the keyed-by-own-ProductID invariant is kept |
| DispatchSpec.DeleteProductResult | serverless-api/lambda_function.py:98-117 | a response comes back exactly when the store works and the key is a string; without one the table is unchanged; no other key changes and none is added; the invariant is kept |
| DispatchSpec.Handle | serverless-api/lambda_function.py:28-46 | every request keeps the invariant that each item is filed under its own ProductID |
| LambdaFunction.BuildResponse | serverless-api/lambda_function.py:49-62 | statusCode is the given code; headers are exactly Content-Type: application/json; body is present if and only if the body given is not None, and is then that body |
| LambdaFunction.GetProduct | serverless-api/lambda_function.py:66-78 | no response when the store raises; 200 with the stored item; 404 with the not-found message for an absent ID; the table is only read |
| LambdaFunction.PostProduct | serverless-api/lambda_function.py:81-95 | response and new table are those of PostProductResult on the old table; the table invariant is kept |
| LambdaFunction.DeleteProduct | serverless-api/lambda_function.py:98-117 | response and new table are those of DeleteProductResult on the old table; the table invariant is kept |
| LambdaFunction.LambdaHandler | serverless-api/lambda_function.py:28-46 | outcome and new table are those of Handle on the old table, including the uncaught parameter errors |
| DispatchProperties.UnroutedRequestIsNotFound | serverless-api/lambda_function.py:37-45 | outside GET, POST and DELETE on "/product": 404 with body "Not Found", the table unchanged, whether or not the store works |
| DispatchProperties.PatchIsNotFound | serverless-api/lambda_function.py:18-24 | PATCH, although declared, gets the routing 404 on every path |
| DispatchProperties.OtherPathIsNotFound | serverless-api/lambda_function.py:24 | any path other than exactly "/product" gets the routing 404, for every method |
| DispatchProperties.RouteNotFoundIffUnrouted | serverless-api/lambda_function.py:37-45 | the routing 404 response is given if and only if the request is outside the three routes |
| DispatchProperties.GetPresentItem | serverless-api/lambda_function.py:66-74 | GET of a stored ID: 200 with the stored item as the body, whose own ProductID is the requested ID; the table unchanged |
| DispatchProperties.GetAbsentItem | serverless-api/lambda_function.py:73-76 | GET of an absent ID: 404 with "Message: Product ID: " + id + " not found", the table unchanged |
| DispatchProperties.NotFoundMessageNamesId | serverless-api/lambda_function.py:76 | the not-found message contains the requested ID and the words "not found" |
| DispatchProperties.NotFoundMessageDeterminesId | serverless-api/lambda_function.py:76 | two IDs with the same not-found message are the same ID |
| DispatchProperties.PostStoresItem | serverless-api/lambda_function.py:81-93 | POST of an item keyed k: the new table is the old one with k set to the item; 200 with {Method: POST, Message: SUCCESS, Item: item} |
| DispatchProperties.PostWithoutKeyGivesNoResponse | serverless-api/lambda_function.py:82-95 | POST of a body with no string ProductID: the store refuses it, the exception is caught, no response and the table unchanged |
| DispatchProperties.PostThenGet | serverless-api/lambda_function.py:66-93 | POST of I then GET of I's ProductID, with no failure between: 200 with I as the body |
| DispatchProperties.DeleteRemovesKey | serverless-api/lambda_function.py:98-115 | DELETE with productID k: exactly k is removed, present or not; 200 with {Method: DELETE, Message: SUCCESS, ProductID: k} |
| DispatchProperties.DeleteWithItemShapedBodyRaises | serverless-api/lambda_function.py:42-43 | a DELETE body carrying ProductID but not productID raises a KeyError outside the handler; the table is unchanged |
| DispatchProperties.DeleteThenGet | serverless-api/lambda_function.py:66-115 | DELETE of k then GET of k, with no failure between: 404 with the not-found message for k |
| DispatchProperties.HandleIsIdempotent | serverless-api/lambda_function.py:28-117 | any request sent twice gives the same outcome and the same table as sent once |
| DispatchProperties.RunAtFixpoint | serverless-api/lambda_function.py:28-46 | on a table a request leaves unchanged, n copies of it give n copies of its outcome and leave the table unchanged |
| DispatchProperties.RepeatedRequestActsOnce | serverless-api/lambda_function.py:81-115 | n >= 1 identical requests with no failure give n copies of the first outcome and the table one request leaves; n POSTs or DELETEs act as one |
| DispatchProperties.StoreFailureGivesNoResponse | serverless-api/lambda_function.py:77-78 | a routed request whose store call raises gets no response, and the table is unchanged |
| DispatchProperties.ExtractionErrorsEscape | serverless-api/lambda_function.py:38-43 | an uncaught parameter error happens only on a routed request, leaves the table unchanged and does not depend on the store |
| DispatchProperties.RaisedExactlyOnMissingParameters | serverless-api/lambda_function.py:37-43 | a request raises if and only if it is a GET without query parameter productID, a POST or DELETE whose body is null or not JSON, or a DELETE whose body is not an object with productID |
| DispatchProperties.NoResponseOnlyOnRefusedKey | serverless-api/lambda_function.py:94-95 | with a working store, no response comes back only for a POST item without a string ProductID or a DELETE key that is not a string; GET always answers |

## Left out

- JSON serialisation: request bodies arrive parsed and response bodies stay values; `json.loads`, `json.dumps` and the decimal encoder of serverless-api/custom_encoder.py:7-10, which renders table decimals as strings, are not modelled.
- The SDK's and the service's own value checks, where the real put or read raises, the exception is caught and the handler returns `None` while the model answers: fractional numbers parsed from a body are Python floats, which the SDK refuses to store; an empty-string `ProductID`; a `ProductID` over 2048 bytes; an item over 400 KB; an empty attribute name; a number with more than 38 significant digits.  The model treats every such value as storable and every string as a key.
- Read consistency: `get_item` (lambda_function.py:68-72) is called without `ConsistentRead=True`, so the service's read is eventually consistent and a GET straight after a POST or DELETE may still see the old item.  The model's reads are strongly consistent: they always see the last write.  DispatchProperties.PostThenGet and DispatchProperties.DeleteThenGet hold only under that reading.
- A store call that fails after it took effect: a failing call leaves the table unchanged.
- `event["httpMethod"]` and `event["path"]` are always present in the gateway's record; their absence is not modelled.  The unused `context` parameter is dropped.
- What the platform does with an escaped exception or a missing response; the model stops at the handler's outcome.
- Logging and the load-time `print`.
- Concurrent invocations: each invocation is one call on the table.
- The infrastructure stack (cdk/cdk/cdk_stack.py); only its key attribute `ProductID` (lines 22-25) is used.
- Key order of the response body objects; `Json` objects are maps.
