/** Properties of the subscriber model: the lookup's default and merge rules,
    the capture-then-lookup round trip, the shape of the payloads and of the
    article list, and how the endpoint can read the request URL back. */
module SubscriberProperties {
  import opened Values
  import opened Subscriber
  import opened UrlQuery

  // ---------------------------------------------------------------------------
  // Attribution lookup

  /** Without a cookie, or with one that does not decode to an object, the
      record is the defaults plus the customer id. */
  lemma LookupWithoutObject(customerId: Json, pnData: Option<string>, codec: Codec)
    requires pnData.None? || !codec.decode(pnData.value).JObject?
    ensures TrackingData(customerId, DecodedCookie(pnData, codec)) ==
      map["r" := JString(""), "lid" := JString(""), "ln" := JString(""), "custid" := customerId]
  {
  }

  /** The record always has exactly the keys r, lid, ln and custid, and custid
      is the customer id whatever the cookie holds. */
  lemma LookupShape(customerId: Json, tracking: Json)
    ensures TrackingData(customerId, tracking).Keys == {"r", "lid", "ln", "custid"}
    ensures TrackingData(customerId, tracking)["custid"] == customerId
  {
  }

  /** A tracked key takes the decoded object's value exactly when that property
      is set (present and not null); otherwise it keeps ''. */
  lemma LookupMergeRule(customerId: Json, fields: map<string, Json>, key: string)
    requires key in TrackedKeys
    ensures key in TrackingData(customerId, JObject(fields))
    ensures IsSet(fields, key) ==> TrackingData(customerId, JObject(fields))[key] == fields[key]
    ensures !IsSet(fields, key) ==> TrackingData(customerId, JObject(fields))[key] == JString("")
  {
  }

  /** Properties other than r, lid and ln do not influence the record. */
  lemma {:induction false} LookupIgnoresOtherKeys(customerId: Json, f: map<string, Json>, g: map<string, Json>)
    requires forall k :: k in TrackedKeys ==>
      IsSet(f, k) == IsSet(g, k) && (IsSet(f, k) ==> f[k] == g[k])
    ensures TrackingData(customerId, JObject(f)) == TrackingData(customerId, JObject(g))
  {
  }

  /** A cookie object without `ln` (or with `ln` null) still gives r and lid,
      and '' for ln. */
  lemma PartialCookie(customerId: Json, r: Json, lid: Json)
    requires r != JNull && lid != JNull
    ensures TrackingData(customerId, JObject(map["r" := r, "lid" := lid])) ==
      map["r" := r, "lid" := lid, "ln" := JString(""), "custid" := customerId]
  {
  }

  /** Round trip: when json_encode accepts the triple and the codec decodes
      what it encoded, looking up the cookie the page-load handler wrote gives
      the written r and lid, ln or '' when ln was missing, and the customer id. */
  lemma {:induction false} CaptureThenLookup(query: Query, codec: Codec, customerId: Json)
    requires query.r.Some? && query.lid.Some?
    requires var written := CookieObject(query.r.value, query.lid.value, query.ln);
      && codec.jsonEncode(written).Some?
      && codec.decode(codec.base64Encode(codec.jsonEncode(written).value)) == written
    ensures OnPageLoaded(query, codec).Emit?
    ensures TrackingData(customerId, DecodedCookie(Some(OnPageLoaded(query, codec).value), codec)) ==
      map["r" := JString(query.r.value), "lid" := JString(query.lid.value),
          "ln" := JString(if query.ln.Some? then query.ln.value else ""),
          "custid" := customerId]
  {
  }

  // ---------------------------------------------------------------------------
  // Article list

  /** Each tracked item has exactly the keys id, quantity, price, tax and
      cartsession, with the line item's values and the cart token. */
  lemma TrackedItemFields(item: LineItem, token: string)
    ensures TrackedItem(item, token).fields.Keys == {"id", "quantity", "price", "tax", "cartsession"}
    ensures TrackedItem(item, token).fields["id"] == item.productNumber
    ensures TrackedItem(item, token).fields["quantity"] == JInt(item.quantity)
    ensures TrackedItem(item, token).fields["price"] == JFloat(item.unitPrice)
    ensures TrackedItem(item, token).fields["tax"] == JFloat(item.highestTaxRate)
    ensures TrackedItem(item, token).fields["cartsession"] == JString(token)
  {
  }

  /** The article list has one entry per line item, in order, and all entries
      carry the same cart session. */
  lemma {:induction false} TrackedItemsOrderAndSession(items: seq<LineItem>, token: string)
    ensures |TrackedItems(items, token)| == |items|
    ensures forall i :: 0 <= i < |items| ==>
      At(TrackedItems(items, token)[i], ["id"]) == Some(items[i].productNumber) &&
      At(TrackedItems(items, token)[i], ["cartsession"]) == Some(JString(token))
  {
  }

  // ---------------------------------------------------------------------------
  // Payloads

  /** The cart payload holds the attribution record under `pmp` and the
      article list under data.cart.articles. */
  lemma {:induction false} CartPayloadShape(pmp: map<string, Json>, articles: seq<Json>)
    ensures At(CartPayload(pmp, articles), ["pmp"]) == Some(JObject(pmp))
    ensures At(CartPayload(pmp, articles), ["data", "cart", "articles"]) == Some(JArray(articles))
  {
  }

  /** One step of a path into an object. */
  lemma AtField(fields: map<string, Json>, key: string, path: seq<string>)
    requires key in fields
    ensures At(JObject(fields), [key] + path) == At(fields[key], path)
  {
    assert ([key] + path)[0] == key && ([key] + path)[1..] == path;
  }

  /** Where a field of the order's `data` object sits in the order payload. */
  lemma OrderDataAt(pmp: map<string, Json>, articles: seq<Json>, orderPrice: real,
                    orderId: Json, customerId: Json, key: string)
    requires key in {"orderid", "userid", "price", "shipping"}
    ensures var p := OrderPayload(pmp, articles, orderPrice, orderId, customerId);
      At(p, ["data", "order", "data", key]) ==
      Some(p.fields["data"].fields["order"].fields["data"].fields[key])
  {
    var p := OrderPayload(pmp, articles, orderPrice, orderId, customerId);
    var data := p.fields["data"];
    var order := data.fields["order"];
    var inner := order.fields["data"];
    AtField(inner.fields, key, []);
    AtField(order.fields, "data", [key]);
    assert ["data"] + [key] == ["data", key];
    AtField(data.fields, "order", ["data", key]);
    assert ["order"] + ["data", key] == ["order", "data", key];
    AtField(p.fields, "data", ["order", "data", key]);
    assert ["data"] + ["order", "data", key] == ["data", "order", "data", key];
  }

  /** In the order payload the user id is the record's custid, shipping is 0,
      and the articles sit under data.order.articles. */
  lemma {:induction false} OrderPayloadShape(customerId: Json, tracking: Json, articles: seq<Json>,
                                             orderPrice: real, orderId: Json)
    ensures var p := OrderPayload(TrackingData(customerId, tracking), articles, orderPrice, orderId, customerId);
      && At(p, ["data", "order", "data", "userid"]) == Some(customerId)
      && At(p, ["pmp", "custid"]) == Some(customerId)
      && At(p, ["data", "order", "data", "shipping"]) == Some(JInt(0))
      && At(p, ["data", "order", "data", "orderid"]) == Some(orderId)
      && At(p, ["data", "order", "data", "price"]) == Some(JFloat(orderPrice))
      && At(p, ["data", "order", "articles"]) == Some(JArray(articles))
  {
    var pmp := TrackingData(customerId, tracking);
    var p := OrderPayload(pmp, articles, orderPrice, orderId, customerId);
    OrderDataAt(pmp, articles, orderPrice, orderId, customerId, "userid");
    OrderDataAt(pmp, articles, orderPrice, orderId, customerId, "shipping");
    OrderDataAt(pmp, articles, orderPrice, orderId, customerId, "orderid");
    OrderDataAt(pmp, articles, orderPrice, orderId, customerId, "price");
    var data := p.fields["data"];
    var order := data.fields["order"];
    AtField(order.fields, "articles", []);
    AtField(data.fields, "order", ["articles"]);
    assert ["order"] + ["articles"] == ["order", "articles"];
    AtField(p.fields, "data", ["order", "articles"]);
    assert ["data"] + ["order", "articles"] == ["data", "order", "articles"];
    assert "custid" in pmp && pmp["custid"] == customerId;
    AtField(pmp, "custid", []);
    AtField(p.fields, "pmp", ["custid"]);
    assert ["pmp"] + ["custid"] == ["pmp", "custid"];
  }

  // ---------------------------------------------------------------------------
  // Request URL, as a PHP endpoint reads it

  /** Characters that end or encode a query value. */
  predicate NoQueryDelimiters(s: string)
  {
    Free(s, '&') && Free(s, '%') && Free(s, '#')
  }

  /** The characters base64_encode writes. */
  predicate IsBase64Text(s: string)
  {
    forall i :: 0 <= i < |s| ==>
      'A' <= s[i] <= 'Z' || 'a' <= s[i] <= 'z' || '0' <= s[i] <= '9' ||
      s[i] == '+' || s[i] == '/' || s[i] == '='
  }

  lemma FreeConcat(a: string, b: string, c: char)
    requires Free(a, c) && Free(b, c)
    ensures Free(a + b, c)
  {
    forall i | 0 <= i < |a + b|
      ensures (a + b)[i] != c
    {
      if i >= |a| {
        assert (a + b)[i] == b[i - |a|];
      }
    }
  }

  lemma PlusToSpaceWithoutPlus(s: string)
    requires Free(s, '+')
    ensures PlusToSpace(s) == s
  {
  }

  /** The query of a request URL is everything after the endpoint's '?'. */
  lemma QueryOfRequestUrl(code: string, q: string)
    requires Free(code, '#') && Free(q, '#')
    ensures QueryOf(RequestUrl(code, q)) == "a=" + code + "&q=" + q
  {
    var query := "a=" + code + "&q=" + q;
    var url := RequestUrl(code, q);
    assert url == Host + ("?" + query);
    assert Free(Host, '?');
    IndexOfAfter(Host, "?" + query, '?');
    assert url[|Host| + 1..] == query;
    FreeConcat("a=", code, '#');
    FreeConcat("a=" + code, "&q=", '#');
    FreeConcat("a=" + code + "&q=", q, '#');
    IndexOfFree(query, '#');
  }

  /** The last pair decides. */
  lemma LastValueSnoc(parts: seq<string>, p: string, name: string)
    ensures LastValue(parts + [p], name) ==
      if Pair(p).0 == name then Some(Pair(p).1) else LastValue(parts, name)
  {
    assert (parts + [p])[..|parts|] == parts;
  }

  /** Two pairs joined by '&' split back into the two. */
  lemma SplitTwo(a: string, b: string)
    requires Free(a, '&') && Free(b, '&')
    ensures Split(a + "&" + b, '&') == [a, b]
  {
    assert a + "&" + b == a + ['&'] + b;
    SplitFirst(a, b, '&');
    SplitFree(b, '&');
  }

  /** `name=value` for a value without '&' holds no '&'. */
  lemma PairFree(name: string, value: string)
    requires Free(name, '&') && Free(value, '&')
    ensures Free(name + "=" + value, '&')
  {
    FreeConcat(name, "=", '&');
    FreeConcat(name + "=", value, '&');
  }

  /** The pairs of a request URL whose code and payload hold no '&' or '#'. */
  lemma RequestUrlPairs(code: string, q: string)
    requires Free(code, '#') && Free(q, '#') && Free(code, '&') && Free(q, '&')
    ensures Split(QueryOf(RequestUrl(code, q)), '&') == ["a" + "=" + code, "q" + "=" + q]
  {
    QueryOfRequestUrl(code, q);
    assert "a=" + code + "&q=" + q == ("a" + "=" + code) + "&" + ("q" + "=" + q);
    PairFree("a", code);
    PairFree("q", q);
    SplitTwo("a" + "=" + code, "q" + "=" + q);
  }

  /** Reading a request URL whose code and payload hold no '&', '%' or '#'
      gives the code in `a` and the payload in `q`, each with '+' read as a
      space. */
  lemma {:induction false} RequestUrlQuery(code: string, q: string)
    requires NoQueryDelimiters(code) && NoQueryDelimiters(q)
    ensures QueryParam(RequestUrl(code, q), "a") == Some(PlusToSpace(code))
    ensures QueryParam(RequestUrl(code, q), "q") == Some(PlusToSpace(q))
  {
    var first, second := "a" + "=" + code, "q" + "=" + q;
    RequestUrlPairs(code, q);
    PairOf("a", code);
    PairOf("q", q);
    assert [first, second] == [first] + [second];
    assert [first] == [] + [first];
    LastValueSnoc([first], second, "a");
    LastValueSnoc([first], second, "q");
    LastValueSnoc([], first, "a");
  }

  /** A code and payload without '&', '%', '#' and '+' are read back exactly. */
  lemma RequestUrlRoundTrip(code: string, q: string)
    requires NoQueryDelimiters(code) && NoQueryDelimiters(q) && Free(code, '+') && Free(q, '+')
    ensures QueryParam(RequestUrl(code, q), "a") == Some(code)
    ensures QueryParam(RequestUrl(code, q), "q") == Some(q)
  {
    RequestUrlQuery(code, q);
    PlusToSpaceWithoutPlus(code);
    PlusToSpaceWithoutPlus(q);
  }

  /** The payload is not URL-escaped: base64 text that holds a '+' is read
      back with a space in its place, so the endpoint does not get the payload
      that was sent. */
  lemma PlusInPayloadIsMisread(code: string, q: string)
    requires NoQueryDelimiters(code) && IsBase64Text(q) && !Free(q, '+')
    ensures QueryParam(RequestUrl(code, q), "q") == Some(PlusToSpace(q))
    ensures PlusToSpace(q) != q
  {
    assert NoQueryDelimiters(q);
    RequestUrlQuery(code, q);
    var i :| 0 <= i < |q| && q[i] == '+';
    assert PlusToSpace(q)[i] == ' ';
  }

  /** Three pairs joined by '&' split back into the three. */
  lemma SplitThree(a: string, b: string, c: string)
    requires Free(a, '&') && Free(b, '&') && Free(c, '&')
    ensures Split(a + "&" + b + "&" + c, '&') == [a, b, c]
  {
    assert a + "&" + b + "&" + c == a + ['&'] + (b + "&" + c);
    SplitFirst(a, b + "&" + c, '&');
    SplitTwo(b, c);
  }

  /** The query of a request URL whose code is `c1&q=c2`. */
  lemma InjectedQuery(c1: string, c2: string, q: string)
    requires Free(c1, '#') && Free(c2, '#') && Free(q, '#')
    ensures QueryOf(RequestUrl(c1 + "&q=" + c2, q)) ==
      ("a" + "=" + c1) + "&" + ("q" + "=" + c2) + "&" + ("q" + "=" + q)
  {
    var code := c1 + "&q=" + c2;
    FreeConcat(c1, "&q=", '#');
    FreeConcat(c1 + "&q=", c2, '#');
    QueryOfRequestUrl(code, q);
  }

  /** The pairs of a request URL whose code is `c1&q=c2`. */
  lemma InjectedPairs(c1: string, c2: string, q: string)
    requires NoQueryDelimiters(c1) && NoQueryDelimiters(c2) && NoQueryDelimiters(q)
    ensures Split(QueryOf(RequestUrl(c1 + "&q=" + c2, q)), '&') ==
      ["a" + "=" + c1, "q" + "=" + c2, "q" + "=" + q]
  {
    InjectedQuery(c1, c2, q);
    PairFree("a", c1);
    PairFree("q", c2);
    PairFree("q", q);
    SplitThree("a" + "=" + c1, "q" + "=" + c2, "q" + "=" + q);
  }

  /** The code is not URL-escaped either: for `c1`, `c2` and a payload without
      '&', '%' or '#', a code `c1&q=c2` is read as `c1` with '+' turned into a
      space, and the later `q` (the payload) hides `c2`. */
  lemma {:induction false} UnescapedCodeIsMisread(c1: string, c2: string, q: string)
    requires NoQueryDelimiters(c1) && NoQueryDelimiters(c2) && NoQueryDelimiters(q)
    ensures QueryParam(RequestUrl(c1 + "&q=" + c2, q), "a") == Some(PlusToSpace(c1))
    ensures QueryParam(RequestUrl(c1 + "&q=" + c2, q), "q") == Some(PlusToSpace(q))
    ensures PlusToSpace(c1) != c1 + "&q=" + c2
  {
    var p1, p2, p3 := "a" + "=" + c1, "q" + "=" + c2, "q" + "=" + q;
    InjectedPairs(c1, c2, q);
    PairOf("a", c1);
    PairOf("q", c2);
    PairOf("q", q);
    assert [p1, p2, p3] == [p1, p2] + [p3];
    assert [p1, p2] == [p1] + [p2];
    assert [p1] == [] + [p1];
    LastValueSnoc([p1, p2], p3, "a");
    LastValueSnoc([p1, p2], p3, "q");
    LastValueSnoc([p1], p2, "a");
    LastValueSnoc([], p1, "a");
    assert |PlusToSpace(c1)| < |c1 + "&q=" + c2|;
  }
}
