# Promio shop connector: tracking subscriber model

A Dafny model of the event subscriber of the Promio shop connector, a
storefront plugin. The subscriber does three things:

- **Attribution capture.** On a page load that carries the `r` and `lid` query parameters, it stores `{r, lid, ln}` as the
  base64-JSON cookie `pnData`.
- **Cart sync.** When a line item is added or removed, it maps the cart's line items, resolves the
  customer number, merges in the attribution data from the cookie, and sends the cart
  payload to `https://confirm.promio-connect.com/pmp.php`.
- **Order sync.** When a cart is converted into an order, it does the same with the order's total,
  order number and customer number, with `shipping` fixed at 0.

A send happens only when the configured request code is not empty in PHP's
sense.

Each edge of the subscriber becomes an input or a result:

- The inbound `pnData` cookie is an `Option<string>` input.
- The configured request codes are a `Config` input.
- Each handler returns an `Outcome`:
  - `Emit` carries the cookie value the page-load handler sets, or the URL a send handler
    requests.
  - `Nothing` means no cookie and no request.
  - `Fatal` is the TypeError that `base64_encode(false)` raises under `strict_types` when
    `json_encode` fails. It ends the request before anything is set or sent.
- `json_encode`, `base64_encode` and `json_decode(base64_decode(·))` are the three fields
  of a `Codec` parameter. The only thing the model fixes about them is their type:
  `json_encode` may fail (None), the other two always give a result.

Files:

- `values.dfy` (module `Values`) holds PHP/JSON values (`Json`), PHP's `isset` on an
  object property, a path accessor `At`, and configuration values with PHP's
  `empty()` and string conversion.
- `urlquery.dfy` (module `UrlQuery`) holds how a PHP endpoint reads the query string of
  a GET request into `$_GET`:
  - the query runs from the first '?' to the first '#';
  - pairs are split at every '&', and each pair at its first '=';
  - names and values are url-decoded ('+' becomes a space, `%XX` becomes a byte);
  - of two pairs with the same name, the later one wins.
- `subscriber.dfy` (module `Subscriber`) holds the handlers and the lookup. The loops of the source
  stay loops: the key pass of the lookup and the item-list loops. The two `.=` URL appends
  stay two successive appends.
- `properties.dfy` (module `SubscriberProperties`) holds the lemmas about the lookup,
  the article list, the payloads and the URL as the endpoint reads it.

Two behaviours of the lookup that are easy to miss:

- The merge tests `isset` (present and not null), so a cookie whose `ln` is null
  keeps `ln = ''`.
- Writing a cookie with `ln` missing and looking it up again gives `ln = ''`, not null
  (`CaptureThenLookup`).

## Model

| member | source | states |
|---|---|---|
| `Subscriber.OnPageLoaded` | src/Subscriber/Subscriber.php:181-192 | nothing happens iff `r` or `lid` is absent; the handler fails iff both are present and `json_encode` of `{r, lid, ln}` fails; otherwise the cookie value is the base64 of that JSON, with `ln` null when absent |
| `Subscriber.GetPnTrackingData` | src/Subscriber/Subscriber.php:105-126 | the loop over the record's keys yields exactly the reference record `TrackingData(customerId, decoded cookie)` |
| `SubscriberProperties.LookupWithoutObject` | src/Subscriber/Subscriber.php:107-115 | with no cookie, or one that does not decode to an object, the record is `r = lid = ln = ''` plus `custid` |
| `SubscriberProperties.LookupShape` | src/Subscriber/Subscriber.php:107-123 | the record has exactly the keys r, lid, ln, custid, and custid is the supplied id whatever the cookie holds |
| `SubscriberProperties.LookupMergeRule` | src/Subscriber/Subscriber.php:116-120 | each of r, lid, ln takes the cookie's value iff that property is set; otherwise it stays '' |
| `SubscriberProperties.LookupIgnoresOtherKeys` | src/Subscriber/Subscriber.php:116-120 | two cookie objects that agree on r, lid and ln give the same record, so other properties are ignored |
| `SubscriberProperties.PartialCookie` | src/Subscriber/Subscriber.php:116-120 | a cookie object without `ln` gives its r and lid and `ln = ''` |
| `SubscriberProperties.CaptureThenLookup` | src/Subscriber/Subscriber.php:187-189 | if the codec decodes what it encodes, looking up the cookie just written gives the written r, lid, ln (or '' for a missing ln) and the customer id |
| `Subscriber.BuildItemList` | src/Subscriber/Subscriber.php:42-48 | the item list has one entry per line item, in order, each the mapped item with `cartsession` set to the cart token |
| `SubscriberProperties.TrackedItemFields` | src/Subscriber/Subscriber.php:65-74 | each mapped item has exactly id, quantity, price, tax and cartsession, taken from the line item and the token |
| `SubscriberProperties.TrackedItemsOrderAndSession` | src/Subscriber/Subscriber.php:133-140 | the article list has one entry per line item, entry i carries line item i's id, and every entry carries the same cart session |
| `Subscriber.CustomerNumber` | src/Subscriber/Subscriber.php:50-57 | the customer number is null unless there is both a sales-channel context and a customer, and is then that customer's number |
| `Subscriber.AppendUrl` | src/Subscriber/Subscriber.php:96-98 | the successive appends give exactly endpoint + `a=` + code + `&q=` + payload |
| `Subscriber.SendCartHome` | src/Subscriber/Subscriber.php:78-103 | no request iff the cart code is empty; otherwise a fatal error if the cart payload (lookup record and articles) fails to JSON-encode, else the URL carrying the code and the encoded payload |
| `Subscriber.SendOrderHome` | src/Subscriber/Subscriber.php:151-179 | no request iff the order code is empty; otherwise a fatal error if the order payload fails to JSON-encode, else the URL carrying the code and the encoded order payload |
| `Subscriber.OnItemToCart` | src/Subscriber/Subscriber.php:38-60 | the handler delivers (nothing, fatal error or URL, as for `SendCartHome`) the cart payload for the cart's mapped items and resolved customer number |
| `Subscriber.OnOrder` | src/Subscriber/Subscriber.php:128-149 | the handler delivers (nothing, fatal error or URL, as for `SendOrderHome`) the order payload for the original cart's items and the converted cart's total, order number and customer number |
| `SubscriberProperties.CartPayloadShape` | src/Subscriber/Subscriber.php:81-88 | the cart payload holds the record under `pmp` and the articles under `data.cart.articles` |
| `SubscriberProperties.OrderPayloadShape` | src/Subscriber/Subscriber.php:154-162 | in the order payload `data.order.data.userid` equals `pmp.custid`, `shipping` is 0, and orderid, price and articles are the inputs |
| `SubscriberProperties.RequestUrlQuery` | src/Subscriber/Subscriber.php:96-98 | for a code and payload without '&', '%' or '#', the endpoint reads `a` as the code and `q` as the payload, each with '+' turned into a space |
| `SubscriberProperties.RequestUrlRoundTrip` | src/Subscriber/Subscriber.php:96-98 | for a code and payload without '&', '+', '%' or '#', the endpoint reads back exactly the code and the payload |
| `SubscriberProperties.PlusInPayloadIsMisread` | src/Subscriber/Subscriber.php:98 | the payload is not URL-escaped: for a code without '&', '%' or '#', base64 text holding a '+' is read back with a space in its place, so it differs from what was sent |
| `SubscriberProperties.UnescapedCodeIsMisread` | src/Subscriber/Subscriber.php:97 | the code is not URL-escaped: for `c1`, `c2` and a payload without '&', '%' or '#', a code `c1&q=c2` is read back as `c1` with '+' turned into a space (which differs from the code), and the later `q` pair, the payload, hides `c2` |
| `Values.EmptyIffBlankText` | src/Subscriber/Subscriber.php:90-97 | `empty(code)` holds iff the text the code contributes after `a=` is '' or '0' |
| `Values.Decimal` | src/Subscriber/Subscriber.php:97 | an integer code is written as decimal digits with no leading zero: the result starts with '0' only for 0, and is then exactly "0" |
| `Values.DecimalRoundTrip` | src/Subscriber/Subscriber.php:97 | reading those digits back gives the integer |

## Left out

- The Guzzle HTTP request is not modelled. The handler discards its result, so the model returns the URL it would request.
  A request that fails (a network error, or a 4xx/5xx response under Guzzle's default `http_errors`) throws out of the
  handler at line 102 or 178 after the request is made; the model does not represent this, and `Emit` means only that
  the request is issued.
- Configuration lookup is not modelled. `SystemConfigService->get` is replaced by the `Config` input. Configuration values
  that are floats or arrays are not modelled; the model covers null, booleans, integers and strings.
- Cookie transport is not modelled. `$_COOKIE` is the `pnData` input, and `setCookie` becomes the returned cookie value.
  The 30-day expiry is not modelled, because it is computed from `time()`, the wall clock.
- The codecs are uninterpreted. `json_encode`, `base64_encode`, `json_decode` and `base64_decode` are the `Codec`
  parameter. When `json_encode` fails is left to the codec. No round trip of them is claimed: `CaptureThenLookup`
  takes it as a hypothesis.
- A `pnData` cookie that PHP receives as an array (`pnData[]=…`) is not modelled. `base64_decode` at line 114 would
  throw a TypeError on it, and the cookie input is a string or absent.
- A line item without a `productNumber` payload value is not modelled. `getPayloadValue` at line 66 is
  foreign code; the model takes the value it returns as a given field.
- Tax rates are not computed. `getTaxRules()->highestRate()->getTaxRate()` is foreign code, so a `LineItem` carries the
  highest tax rate as a given field. The fatal error when an item has no tax rule or price is not modelled.
- Floats are opaque. Prices, tax rates and the order total are `real` values that are carried unchanged, with no
  arithmetic and no float formatting.
- Key order is not modelled. PHP arrays and objects are ordered, but the model's objects are maps. The keys
  the subscriber writes itself (cookie object, lookup record, payloads, items) are written in one fixed order, so
  for them nothing is lost. A cookie property whose value is itself an object is copied into the record as it is
  (line 118), and `json_encode` keeps that object's own property order. Two such cookies that differ only in that
  order give one model record, although PHP would send two different URLs.
- The query reader does not model PHP's mangling of parameter names ('.', ' ' and '[' in a name) or arrays
  (`name[]=`); the lemmas only read the names `a` and `q`.
- Query parameters that are not strings (arrays) are not modelled. Each of `r`, `lid` and `ln` is a string or absent.
- The event registration table `getSubscribedEvents` is static framework wiring. The constructor only stores the
  configuration service.
