/** The tracking subscriber: captures the attribution cookie on page loads and
    forwards cart and order snapshots to the PMP endpoint. Each event handler
    is a method whose inputs are the event, the inbound `pnData` cookie, the
    configured request codes and the codec, and whose result is what the
    handler would put on the wire (a cookie value or a request URL), or the
    fatal error that ends it. */
module Subscriber {
  import opened Values

  /** The tracking endpoint; the query follows its '?'. */
  const Host: string := "https://confirm.promio-connect.com/pmp.php"
  const Endpoint: string := Host + "?"

  /** The keys of the attribution record, in the order the lookup visits them. */
  const TrackedKeys: seq<string> := ["r", "lid", "ln"]

  /** The library calls the subscriber makes. `jsonEncode` is json_encode,
      None where it returns false (for instance on text that is not valid
      UTF-8); `base64Encode` is base64_encode; `decode` is
      json_decode(base64_decode(s)), JNull where json_decode fails. */
  datatype Codec = Codec(jsonEncode: Json -> Option<string>, base64Encode: string -> string,
                         decode: string -> Json)

  /** What a handler leaves behind: nothing, the one string it puts on the wire
      (the cookie value it sets or the URL it requests), or the TypeError that
      base64_encode(false) raises under strict types, which ends the request. */
  datatype Outcome = Nothing | Emit(value: string) | Fatal

  /** The two request codes of the plugin's configuration. */
  datatype Config = Config(requestCodeCart: ConfigValue, requestCodeOrder: ConfigValue)

  /** The query parameters of a page load; a missing parameter is None. */
  datatype Query = Query(r: Option<string>, lid: Option<string>, ln: Option<string>)

  /** A line item as the subscriber reads it: its product-number payload value,
      its quantity, its unit price and the rate of its highest tax rule. */
  datatype LineItem = LineItem(productNumber: Json, quantity: int, unitPrice: real, highestTaxRate: real)

  datatype Cart = Cart(token: string, lineItems: seq<LineItem>)
  datatype Customer = Customer(customerNumber: string)
  datatype SalesChannelContext = SalesChannelContext(customer: Option<Customer>)

  /** Line item added or removed. */
  datatype CartEvent = CartEvent(cart: Cart, context: Option<SalesChannelContext>)

  /** The fields of the converted cart that the order handler reads. */
  datatype ConvertedCart = ConvertedCart(totalPrice: real, orderNumber: Json, customerNumber: Json)
  datatype CartConvertedEvent = CartConvertedEvent(cart: Cart, convertedCart: ConvertedCart)

  // ---------------------------------------------------------------------------
  // Attribution capture

  /** The object the page-load handler serialises into the cookie. */
  function CookieObject(r: string, lid: string, ln: Option<string>): Json
  {
    JObject(map["r" := JString(r), "lid" := JString(lid),
                "ln" := if ln.Some? then JString(ln.value) else JNull])
  }

  /** The `pnData` cookie value the page load sets: nothing unless both `r`
      and `lid` are present, a fatal error when json_encode fails on the
      triple, otherwise the base64 of its JSON. */
  function OnPageLoaded(query: Query, codec: Codec): (out: Outcome)
    ensures out.Nothing? <==> !(query.r.Some? && query.lid.Some?)
    ensures out.Fatal? <==>
      (query.r.Some? && query.lid.Some? &&
       codec.jsonEncode(CookieObject(query.r.value, query.lid.value, query.ln)).None?)
    ensures out.Emit? ==>
      var json := codec.jsonEncode(CookieObject(query.r.value, query.lid.value, query.ln));
      json.Some? && out.value == codec.base64Encode(json.value)
  {
    if query.lid.Some? && query.r.Some? then
      var json := codec.jsonEncode(CookieObject(query.r.value, query.lid.value, query.ln));
      if json.Some? then Emit(codec.base64Encode(json.value)) else Fatal
    else
      Nothing
  }

  // ---------------------------------------------------------------------------
  // Attribution lookup

  function Defaults(): map<string, Json>
  {
    map["r" := JString(""), "lid" := JString(""), "ln" := JString("")]
  }

  /** What json_decode(base64_decode(cookie)) yields; without a cookie there
      is nothing to decode, which is as good as a value that is not an object. */
  function DecodedCookie(pnData: Option<string>, codec: Codec): Json
  {
    if pnData.Some? then codec.decode(pnData.value) else JNull
  }

  /** Reference definition of the attribution record: each tracked key takes the
      decoded object's value when that property is set, otherwise ''; `custid`
      is the customer id. */
  function TrackingData(customerId: Json, tracking: Json): map<string, Json>
  {
    map k | k in {"r", "lid", "ln", "custid"} ::
      if k == "custid" then customerId
      else if tracking.JObject? && IsSet(tracking.fields, k) then tracking.fields[k]
      else JString("")
  }

  /** The lookup as the handler performs it: defaults, then a pass over the
      record's keys copying the set properties of a decoded object, then `custid`. */
  method GetPnTrackingData(customerId: Json, pnData: Option<string>, codec: Codec)
    returns (userData: map<string, Json>)
    ensures userData == TrackingData(customerId, DecodedCookie(pnData, codec))
  {
    userData := Defaults();
    if pnData.Some? {
      var tracking := codec.decode(pnData.value);
      if tracking.JObject? {
        var keys := TrackedKeys;
        var i := 0;
        while i < |keys|
          invariant 0 <= i <= |keys|
          invariant userData.Keys == {"r", "lid", "ln"}
          invariant forall k :: k in userData ==>
            userData[k] == if k in keys[..i] && IsSet(tracking.fields, k) then tracking.fields[k] else JString("")
        {
          var key := keys[i];
          if IsSet(tracking.fields, key) {
            userData := userData[key := tracking.fields[key]];
          }
          i := i + 1;
        }
        assert keys[..i] == TrackedKeys;
      }
    }
    userData := userData["custid" := customerId];
  }

  // ---------------------------------------------------------------------------
  // Line items and customer

  /** One line item in the endpoint's shape, without the cart session. */
  function ShopItem2Pmp(item: LineItem): Json
  {
    JObject(map["id" := item.productNumber, "quantity" := JInt(item.quantity),
                "price" := JFloat(item.unitPrice), "tax" := JFloat(item.highestTaxRate)])
  }

  /** The mapped item with the cart token added as `cartsession`. */
  function TrackedItem(item: LineItem, token: string): Json
  {
    JObject(ShopItem2Pmp(item).fields["cartsession" := JString(token)])
  }

  /** Reference definition of the article list: one tracked item per line item. */
  function TrackedItems(items: seq<LineItem>, token: string): seq<Json>
  {
    seq(|items|, i requires 0 <= i < |items| => TrackedItem(items[i], token))
  }

  /** The loop of both handlers that appends one mapped item per line item. */
  method BuildItemList(items: seq<LineItem>, token: string) returns (itemList: seq<Json>)
    ensures |itemList| == |items|
    ensures forall i :: 0 <= i < |items| ==> itemList[i] == TrackedItem(items[i], token)
  {
    itemList := [];
    for i := 0 to |items|
      invariant |itemList| == i
      invariant forall j :: 0 <= j < i ==> itemList[j] == TrackedItem(items[j], token)
    {
      var newItem := ShopItem2Pmp(items[i]);
      newItem := JObject(newItem.fields["cartsession" := JString(token)]);
      itemList := itemList + [newItem];
    }
  }

  /** The customer number, or null unless there is both a sales-channel
      context and a customer in it. */
  function CustomerNumber(context: Option<SalesChannelContext>): (n: Json)
    ensures n != JNull <==> context.Some? && context.value.customer.Some?
    ensures n != JNull ==> n == JString(context.value.customer.value.customerNumber)
  {
    if context.Some? && context.value.customer.Some? then
      JString(context.value.customer.value.customerNumber)
    else
      JNull
  }

  // ---------------------------------------------------------------------------
  // Payloads and delivery

  function CartPayload(pmp: map<string, Json>, articles: seq<Json>): Json
  {
    JObject(map["pmp" := JObject(pmp),
                "data" := JObject(map["cart" := JObject(map["articles" := JArray(articles)])])])
  }

  function OrderPayload(pmp: map<string, Json>, articles: seq<Json>, orderPrice: real,
                        orderId: Json, customerId: Json): Json
  {
    JObject(map["pmp" := JObject(pmp),
                "data" := JObject(map["order" := JObject(map[
                  "data" := JObject(map["orderid" := orderId, "userid" := customerId,
                                        "price" := JFloat(orderPrice), "shipping" := JInt(0)]),
                  "articles" := JArray(articles)])])])
  }

  /** The GET request URL: neither the code nor the base64 payload is URL-escaped. */
  function RequestUrl(code: string, q: string): string
  {
    Endpoint + "a=" + code + "&q=" + q
  }

  /** Builds the request URL by successive appends, as the handlers do. */
  method AppendUrl(code: string, q: string) returns (url: string)
    ensures url == RequestUrl(code, q)
  {
    url := Endpoint;
    url := url + "a=" + code;
    url := url + "&q=" + q;
  }

  /** What a send leaves behind for `payload` under `code`: nothing when the
      code is empty (the check comes before any encoding), a fatal error when
      json_encode fails on the payload, otherwise the request for the URL that
      carries the code and the base64 of the payload's JSON. */
  predicate IsDelivery(out: Outcome, code: ConfigValue, payload: Json, codec: Codec)
  {
    if IsEmpty(code) then out == Nothing
    else if codec.jsonEncode(payload).None? then out == Fatal
    else out == Emit(RequestUrl(PhpString(code), codec.base64Encode(codec.jsonEncode(payload).value)))
  }

  /** Sends the cart payload unless the cart request code is empty. */
  method SendCartHome(articleList: seq<Json>, customerId: Json, pnData: Option<string>,
                      requestCodeCart: ConfigValue, codec: Codec)
    returns (out: Outcome)
    ensures out.Nothing? <==> IsEmpty(requestCodeCart)
    ensures IsDelivery(out, requestCodeCart,
      CartPayload(TrackingData(customerId, DecodedCookie(pnData, codec)), articleList), codec)
  {
    var pnUserData := GetPnTrackingData(customerId, pnData, codec);
    var payload := CartPayload(pnUserData, articleList);
    if IsEmpty(requestCodeCart) {
      return Nothing;
    }
    var json := codec.jsonEncode(payload);
    if json.None? {
      return Fatal;
    }
    var url := AppendUrl(PhpString(requestCodeCart), codec.base64Encode(json.value));
    out := Emit(url);
  }

  /** Sends the order payload unless the order request code is empty. */
  method SendOrderHome(lineItems: seq<Json>, orderPrice: real, orderId: Json, customerId: Json,
                       pnData: Option<string>, requestCodeOrder: ConfigValue, codec: Codec)
    returns (out: Outcome)
    ensures out.Nothing? <==> IsEmpty(requestCodeOrder)
    ensures IsDelivery(out, requestCodeOrder,
      OrderPayload(TrackingData(customerId, DecodedCookie(pnData, codec)),
                   lineItems, orderPrice, orderId, customerId), codec)
  {
    var pnUserData := GetPnTrackingData(customerId, pnData, codec);
    var payload := OrderPayload(pnUserData, lineItems, orderPrice, orderId, customerId);
    if IsEmpty(requestCodeOrder) {
      return Nothing;
    }
    var json := codec.jsonEncode(payload);
    if json.None? {
      return Fatal;
    }
    var url := AppendUrl(PhpString(requestCodeOrder), codec.base64Encode(json.value));
    out := Emit(url);
  }

  // ---------------------------------------------------------------------------
  // Event handlers

  /** Line item added or removed: forward the whole cart. */
  method OnItemToCart(event: CartEvent, pnData: Option<string>, config: Config, codec: Codec)
    returns (out: Outcome)
    ensures out.Nothing? <==> IsEmpty(config.requestCodeCart)
    ensures IsDelivery(out, config.requestCodeCart,
      CartPayload(TrackingData(CustomerNumber(event.context), DecodedCookie(pnData, codec)),
                  TrackedItems(event.cart.lineItems, event.cart.token)), codec)
  {
    var itemList := BuildItemList(event.cart.lineItems, event.cart.token);
    assert itemList == TrackedItems(event.cart.lineItems, event.cart.token);
    var customerNumber := CustomerNumber(event.context);
    out := SendCartHome(itemList, customerNumber, pnData, config.requestCodeCart, codec);
  }

  /** Cart converted to an order: forward the original cart's items with the
      converted cart's total, order number and customer number. */
  method OnOrder(event: CartConvertedEvent, pnData: Option<string>, config: Config, codec: Codec)
    returns (out: Outcome)
    ensures out.Nothing? <==> IsEmpty(config.requestCodeOrder)
    ensures IsDelivery(out, config.requestCodeOrder,
      OrderPayload(TrackingData(event.convertedCart.customerNumber, DecodedCookie(pnData, codec)),
                   TrackedItems(event.cart.lineItems, event.cart.token),
                   event.convertedCart.totalPrice, event.convertedCart.orderNumber,
                   event.convertedCart.customerNumber), codec)
  {
    var itemList := BuildItemList(event.cart.lineItems, event.cart.token);
    assert itemList == TrackedItems(event.cart.lineItems, event.cart.token);
    var converted := event.convertedCart;
    out := SendOrderHome(itemList, converted.totalPrice, converted.orderNumber,
                         converted.customerNumber, pnData, config.requestCodeOrder, codec);
  }
}
