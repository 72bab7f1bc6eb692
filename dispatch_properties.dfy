/**
 * Properties of the dispatcher: routing, the response of each route, what
 * each route does to the table, idempotence of repeated requests, the
 * POST-then-GET round trip and the two kinds of failure.
 */
module DispatchProperties {
  import opened Wrappers
  import opened JsonValue
  import opened ProductStore
  import opened DispatchSpec

  /** `t` occurs in `s` as a contiguous piece. */
  predicate Contains(s: string, t: string) {
    exists i, j :: 0 <= i <= j <= |s| && s[i..j] == t
  }

  // ---------------------------------------------------------------- routing

  /** Outside the three routes: 404 "Not Found", whatever the store would do, and the table untouched. */
  lemma UnroutedRequestIsNotFound(e: Event, items: Items, storeFails: bool)
    requires ValidItems(items)
    requires !IsRouted(e.httpMethod, e.path)
    ensures Handle(e, items, storeFails) == (Returned(Some(RouteNotFound)), items)
    ensures RouteNotFound.statusCode == 404 && RouteNotFound.body == Some(JStr("Not Found"))
  {
  }

  /** PATCH is declared but not routed, on every path. */
  lemma PatchIsNotFound(e: Event, items: Items, storeFails: bool)
    requires ValidItems(items)
    requires e.httpMethod == PatchMethod
    ensures Handle(e, items, storeFails) == (Returned(Some(RouteNotFound)), items)
  {
  }

  /** Routing is by the exact pair: a path other than "/product" never reaches a handler. */
  lemma OtherPathIsNotFound(e: Event, items: Items, storeFails: bool)
    requires ValidItems(items)
    requires e.path != ProductPath
    ensures Handle(e, items, storeFails) == (Returned(Some(RouteNotFound)), items)
  {
  }

  /** The routing 404 is given exactly to the requests outside the three routes. */
  lemma RouteNotFoundIffUnrouted(e: Event, items: Items, storeFails: bool)
    requires ValidItems(items)
    ensures Handle(e, items, storeFails).0 == Returned(Some(RouteNotFound)) <==> !IsRouted(e.httpMethod, e.path)
  {
  }

  // -------------------------------------------------------------------- GET

  /**
   * GET of a stored ID: 200 with the stored item as the body, and that item's
   * own "ProductID" is the requested ID; the table unchanged.
   */
  lemma GetPresentItem(e: Event, items: Items, id: string)
    requires ValidItems(items)
    requires e.httpMethod == GetMethod && e.path == ProductPath
    requires QueryProductId(e) == Success(id) && id in items
    ensures Handle(e, items, false) == (Returned(Some(Response(200, JsonHeaders, Some(JObj(items[id]))))), items)
    ensures KeyOf(Handle(e, items, false).0.response.value.body.value) == Some(id)
  {
  }

  /** GET of an absent ID: 404 with the message naming the ID; the table unchanged. */
  lemma GetAbsentItem(e: Event, items: Items, id: string)
    requires ValidItems(items)
    requires e.httpMethod == GetMethod && e.path == ProductPath
    requires QueryProductId(e) == Success(id) && id !in items
    ensures Handle(e, items, false) == (Returned(Some(Response(404, JsonHeaders, Some(JStr(NotFoundMessage(id)))))), items)
  {
  }

  /** The not-found message names the requested ID and says "not found". */
  lemma NotFoundMessageNamesId(id: string)
    ensures Contains(NotFoundMessage(id), id)
    ensures Contains(NotFoundMessage(id), "not found")
  {
    var m := NotFoundMessage(id);
    assert m[21..21 + |id|] == id;
    assert m[|m| - 9..|m|] == "not found";
  }

  /** Different IDs get different not-found messages: the message determines the ID. */
  lemma NotFoundMessageDeterminesId(a: string, b: string)
    requires NotFoundMessage(a) == NotFoundMessage(b)
    ensures a == b
  {
    var m := NotFoundMessage(a);
    assert |a| == |b|;
    assert m[21..21 + |a|] == a;
    assert NotFoundMessage(b)[21..21 + |b|] == b;
  }

  // ------------------------------------------------------------------- POST

  /** POST of an item keyed by `k`: stored under `k`, overwriting, and echoed back in a 200. */
  lemma PostStoresItem(e: Event, items: Items, item: Json, k: string)
    requires ValidItems(items)
    requires e.httpMethod == PostMethod && e.path == ProductPath && e.body == Parsed(item)
    requires KeyOf(item) == Some(k)
    ensures Handle(e, items, false).1 == items[k := item.fields]
    ensures Handle(e, items, false).0 == Returned(Some(Response(200, JsonHeaders, Some(JObj(map[
      "Method" := JStr("POST"), "Message" := JStr("SUCCESS"), "Item" := item])))))
  {
  }

  /** POST of a body without a string "ProductID" is refused by the store: no response, table unchanged. */
  lemma PostWithoutKeyGivesNoResponse(e: Event, items: Items, item: Json, storeFails: bool)
    requires ValidItems(items)
    requires e.httpMethod == PostMethod && e.path == ProductPath && e.body == Parsed(item)
    requires KeyOf(item).None?
    ensures Handle(e, items, storeFails) == (Returned(None), items)
  {
  }

  /** POST of I followed by GET of I's "ProductID", with no failure between: 200 with I as the body. */
  lemma PostThenGet(post: Event, get: Event, items: Items, item: Json, k: string)
    requires ValidItems(items)
    requires post.httpMethod == PostMethod && post.path == ProductPath && post.body == Parsed(item)
    requires KeyOf(item) == Some(k)
    requires get.httpMethod == GetMethod && get.path == ProductPath && QueryProductId(get) == Success(k)
    ensures Handle(get, Handle(post, items, false).1, false).0 == Returned(Some(Response(200, JsonHeaders, Some(item))))
  {
  }

  // ----------------------------------------------------------------- DELETE

  /** DELETE with body field "productID" = k: k is gone, every other key is kept, 200 echoes k. */
  lemma DeleteRemovesKey(e: Event, items: Items, k: string)
    requires ValidItems(items)
    requires e.httpMethod == DeleteMethod && e.path == ProductPath
    requires e.body.Parsed? && BodyProductId(e.body.value) == Success(JStr(k))
    ensures Handle(e, items, false).1 == items - {k}
    ensures k !in Handle(e, items, false).1
    ensures Handle(e, items, false).0 == Returned(Some(Response(200, JsonHeaders, Some(JObj(map[
      "Method" := JStr("DELETE"), "Message" := JStr("SUCCESS"), "ProductID" := JStr(k)])))))
  {
  }

  /**
   * DELETE reads the body field "productID", not the stored attribute
   * "ProductID": a body shaped like a stored item raises a KeyError.
   */
  lemma DeleteWithItemShapedBodyRaises(e: Event, items: Items, fields: map<string, Json>, storeFails: bool)
    requires ValidItems(items)
    requires e.httpMethod == DeleteMethod && e.path == ProductPath && e.body == Parsed(JObj(fields))
    requires KeyAttribute in fields && ProductIdParameter !in fields
    ensures Handle(e, items, storeFails) == (Raised(BodyProductIdMissing), items)
  {
  }

  /** DELETE followed by GET of the same key, with no failure between: 404. */
  lemma DeleteThenGet(delete: Event, get: Event, items: Items, k: string)
    requires ValidItems(items)
    requires delete.httpMethod == DeleteMethod && delete.path == ProductPath
    requires delete.body.Parsed? && BodyProductId(delete.body.value) == Success(JStr(k))
    requires get.httpMethod == GetMethod && get.path == ProductPath && QueryProductId(get) == Success(k)
    ensures Handle(get, Handle(delete, items, false).1, false).0
         == Returned(Some(Response(404, JsonHeaders, Some(JStr(NotFoundMessage(k))))))
  {
  }

  // ------------------------------------------------------------ idempotence

  /** Every request, sent twice, gives the same outcome and leaves the same table as sent once. */
  lemma HandleIsIdempotent(e: Event, items: Items, storeFails: bool)
    requires ValidItems(items)
    ensures Handle(e, Handle(e, items, storeFails).1, storeFails) == Handle(e, items, storeFails)
  {
    var after := Handle(e, items, storeFails).1;
    if e.httpMethod == PostMethod && e.path == ProductPath && LoadBody(e).Success? {
      var item := LoadBody(e).value;
      if KeyOf(item).Some? && !storeFails {
        var k := KeyOf(item).value;
        assert after == items[k := item.fields];
        assert after[k := item.fields] == after;
      }
    } else if e.httpMethod == DeleteMethod && e.path == ProductPath && LoadBody(e).Success?
      && BodyProductId(LoadBody(e).value).Success?
    {
      var id := BodyProductId(LoadBody(e).value).value;
      if id.JStr? && !storeFails {
        assert after == items - {id.s};
        assert after - {id.s} == after;
      }
    }
  }

  /** `n` copies of `x`. */
  function Repeat<T>(x: T, n: nat): (r: seq<T>)
    ensures |r| == n
  {
    if n == 0 then [] else [x] + Repeat(x, n - 1)
  }

  /** Requests handled one after another with no store failure: their outcomes and the final table. */
  function Run(events: seq<Event>, items: Items): (r: (seq<Outcome>, Items))
    requires ValidItems(items)
    ensures ValidItems(r.1)
    ensures |r.0| == |events|
  {
    if events == [] then ([], items)
    else
      var (o, after) := Handle(events[0], items, false);
      var (os, final) := Run(events[1..], after);
      ([o] + os, final)
  }

  /** On a table the request does not change, repeating it repeats its outcome. */
  lemma {:induction false} RunAtFixpoint(e: Event, items: Items, o: Outcome, n: nat)
    requires ValidItems(items)
    requires Handle(e, items, false) == (o, items)
    ensures Run(Repeat(e, n), items) == (Repeat(o, n), items)
  {
    if n > 0 {
      assert Repeat(e, n)[0] == e;
      assert Repeat(e, n)[1..] == Repeat(e, n - 1);
      RunAtFixpoint(e, items, o, n - 1);
    }
  }

  /**
   * N identical requests (N >= 1), with no failure, give N copies of the first
   * outcome and the table the first one leaves: in particular N identical
   * POSTs or DELETEs leave the same table as one.
   */
  lemma {:induction false} RepeatedRequestActsOnce(e: Event, items: Items, n: nat)
    requires ValidItems(items)
    requires n >= 1
    ensures Run(Repeat(e, n), items) == (Repeat(Handle(e, items, false).0, n), Handle(e, items, false).1)
  {
    var (o, after) := Handle(e, items, false);
    HandleIsIdempotent(e, items, false);
    assert Handle(e, after, false) == (o, after);
    assert Repeat(e, n)[0] == e;
    assert Repeat(e, n)[1..] == Repeat(e, n - 1);
    RunAtFixpoint(e, after, o, n - 1);
    assert Repeat(o, n) == [o] + Repeat(o, n - 1);
  }

  // ---------------------------------------------------------------- failure

  /**
   * When the store call of a routed request raises, the handler catches it
   * and returns nothing; the table is unchanged.
   */
  lemma StoreFailureGivesNoResponse(e: Event, items: Items)
    requires ValidItems(items)
    requires IsRouted(e.httpMethod, e.path)
    requires !Handle(e, items, true).0.Raised?
    ensures Handle(e, items, true) == (Returned(None), items)
  {
  }

  /**
   * The parameter lookups are not inside the handlers' exception handling:
   * their errors escape whatever the store would do, and before it is called.
   */
  lemma ExtractionErrorsEscape(e: Event, items: Items, storeFails: bool)
    requires ValidItems(items)
    requires Handle(e, items, storeFails).0.Raised?
    ensures IsRouted(e.httpMethod, e.path)
    ensures Handle(e, items, storeFails).1 == items
    ensures Handle(e, items, !storeFails) == Handle(e, items, storeFails)
  {
  }

  /** Which requests raise: a GET without the query parameter, a POST or DELETE without a JSON body, a DELETE body without "productID". */
  lemma RaisedExactlyOnMissingParameters(e: Event, items: Items, storeFails: bool)
    requires ValidItems(items)
    ensures Handle(e, items, storeFails).0.Raised? <==>
      || (e.httpMethod == GetMethod && e.path == ProductPath && QueryProductId(e).Failure?)
      || (e.httpMethod == PostMethod && e.path == ProductPath && LoadBody(e).Failure?)
      || (e.httpMethod == DeleteMethod && e.path == ProductPath
          && (LoadBody(e).Failure? || BodyProductId(LoadBody(e).value).Failure?))
  {
  }

  /**
   * With a working store, no response comes back only when the store refuses
   * the key: a POST item without a string "ProductID" or a DELETE key that is
   * not a string.  GET always answers.
   */
  lemma NoResponseOnlyOnRefusedKey(e: Event, items: Items)
    requires ValidItems(items)
    requires Handle(e, items, false).0 == Returned(None)
    ensures e.path == ProductPath
    ensures e.httpMethod == PostMethod ==> KeyOf(LoadBody(e).value).None?
    ensures e.httpMethod == DeleteMethod ==> !BodyProductId(LoadBody(e).value).value.JStr?
    ensures e.httpMethod == PostMethod || e.httpMethod == DeleteMethod
  {
  }
}
