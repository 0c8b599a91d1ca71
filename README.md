# LINE Pay v3 sample client, modelled in Dafny

This project models the server side of a small Express shop that takes payments
through LINE Pay v3. The shop does four things:

- `GET /checkout/:id` clones one of two catalog templates (or, for the id
  `__proto__`, an empty object). It stamps the clone
  with the current time in seconds and files it in an in-memory `orders`
  dictionary.
- `POST /linePay/:orderNo` builds the payment-request body from the stored
  order. It signs the body with the channel secret (HMAC-SHA256, then Base64),
  posts it to `{site}/{version}/payments/request`, and then either redirects
  to the payment page, answers 400, or ends the reply empty.
- `GET /linePay/confirm?transactionId=…&orderId=…` posts
  `{amount, currency: 'TWD'}`, signed the same way, to
  `{site}/{version}/payments/{transactionId}/confirm`. It then either
  redirects to `/success/{orderId}` or ends the reply empty. Its 400 branch
  hands the raw axios response to `res.send`, which cannot serialise it, so
  that branch also ends the reply empty, with status 400.
- The catalog (`sample/sampleData.js`) is a constant table of templates, with
  their packages and products.

The project has five modules:

- `Json` (json.dfy) models JSON values and the JavaScript object operations
  the handlers rely on:
  - An object is its ordered key list plus its property map. Assignment and
    spread keep an existing key in place and append a new key. This matters
    because `JSON.stringify`, and therefore the signed text, follows that
    order.
  - Property reads follow JavaScript: `undefined`, or a TypeError on
    `undefined`/`null`.
  - Optional chaining is modelled separately.
- `Numbers` (numbers.dfy) holds the decimal text of a non-negative integer.
  An order id becomes a dictionary key through this text.
- `SampleData` (sample_data.dfy) holds the catalog as a typed constant, its
  amount invariants, and the JSON object each template is.
- `LinePay` (line_pay.dfy) holds:
  - `createLinePayBody`, the confirm body and `createSignature`;
  - the uri and url of each call;
  - a gateway-side authenticity predicate, the partner of the signature;
  - the decision each handler takes on the gateway's outcome.
- `OrderStore` (order_store.dfy) holds the `orders` dictionary. It is a class
  whose `Checkout` method updates it in place. A ghost record of where each
  entry came from carries the store invariant. The module also holds lemmas
  about what the handlers send for stored orders.

Parameters stand in for the configuration read from the environment, the
clock (milliseconds for checkout, the nonce for signatures), the crypto-js
HMAC and Base64 functions, `JSON.stringify`, and the gateway. The HMAC,
Base64 and `JSON.stringify` functions are fields of a `Crypto` record. The
gateway is a function from the call made to the outcome of `axios.post`.
Every property therefore holds for every choice of these.

Behaviour of the code that the model keeps:

- An unknown `orderNo` is not rejected before the gateway call. `{...undefined}`
  is `{}`, so the shop posts a signed body holding only `currency` and
  `redirectUrls` (`LinePay.UnknownOrderBody`).
- An unknown confirm `orderId` throws at `order.amount`, inside the try
  block. The reply is then empty and the gateway is never called.
- The payment-page chain `linePayRes?.data?.info.paymentUrl.web` reads `info`
  with optional chaining but reads `paymentUrl` and `web` without it. A
  success without `info` therefore throws, and the reply is empty
  (`LinePay.SuccessWithoutInfoEnds`).
- Any return code other than `"0000"` is reported as "訂單不存在"
  (order not found).
- The order's own `orderId` travels to the gateway in the request body.
- Names inherited from `Object.prototype` (`constructor`, `toString`, …) are
  not "unknown" to `orders[key]`. They read as an object with no own
  enumerable property, so the model treats them as an order with no fields.
- Checkout files the order under the decimal text of its id, because
  JavaScript property keys are strings. The order id is
  `parseInt(ms / 1000)`, which for non-negative times is `ms / 1000`
  rounded down.

- A resolved axios response refers to its http request, whose socket refers
  back to the request, so it is a circular structure. `res.send` serialises
  an object with `JSON.stringify`, which throws on it. The confirm handler's
  `res.status(400).send({message: linePayRes})` therefore throws inside the
  try block after setting the status, and the catch block ends the reply
  empty with status 400 (`LinePay.Send400`, `LinePay.ConfirmReply`).
- `sampleOrders` is an object literal, so `sampleOrders["__proto__"]` is
  `Object.prototype`. It serialises as `{}`, and checkout files
  `{orderId}` for it, an order with no amount, currency or packages
  (`OrderStore.CloneTemplate`, `OrderStore.ProtoOrderFacts`). Every other
  id outside the catalog reads `undefined` or an inherited method, and
  `JSON.parse` then throws outside any try block.

The code keeps no order status, stores no transaction id, has no separate
transport error and does not validate amounts; neither does the model.

## Model

| member | source | states |
|---|---|---|
| Numbers.NumberToString | routes/index.js:31 | the key text of an order id is a non-empty run of decimal digits with no leading zero |
| Numbers.NumberToStringValue | routes/index.js:31 | the digits of the key text denote the order id itself; the same text is the `${nonce}` of the signed message |
| Numbers.NumberToStringInjective | routes/index.js:31 | different order ids are filed under different keys: equal texts imply equal numbers |
| SampleData.CatalogKeys | sample/sampleData.js:1-36 | the catalog holds exactly the templates "1" and "2" |
| SampleData.CatalogConsistent | sample/sampleData.js:2-35 | every template is in TWD, its amount is the sum of its package amounts, each package amount is the sum of price times quantity over its products, and every product has quantity at least 1 and price at least 0 |
| SampleData.ProductJson | sample/sampleData.js:10-14 | a product object is well formed with keys name, quantity, price in that order, holding the product's name, quantity and price |
| SampleData.ProductsJson | sample/sampleData.js:9-15 | the products array holds, position by position, the object of each product |
| SampleData.PackageJson | sample/sampleData.js:6-16 | a package object is well formed with keys id, amount, products in that order, holding the package's id, amount and products array |
| SampleData.PackagesJson | sample/sampleData.js:5-17 | the packages array holds, position by position, the object of each package |
| SampleData.TemplateJson | sample/sampleData.js:2-18 | a template object is well formed with keys amount, currency, packages in that order, holding the template's amount, currency and packages |
| Json.Put | routes/index.js:30 | `o[k] = v` (and each key an object literal or spread defines) makes k read v and leaves every other key's value as it was; on a well-formed object the result is well formed, an existing key keeps its place and a new key goes last |
| LinePay.Lookup | routes/index.js:45 | `orders[key]` gives the stored order for a stored key, an object with no fields for a name inherited from Object.prototype, and is undefined exactly when the key is neither stored nor inherited |
| LinePay.RedirectUrls | routes/index.js:112-115 | the redirect object has exactly confirmUrl = return host followed by the confirm path, then cancelUrl = return host followed by the cancel path |
| LinePay.CreateLinePayBody | routes/index.js:108-117 | the body has currency TWD whatever the order held, redirectUrls as above, and every other key exactly as in the order |
| LinePay.CreateLinePayBodyKeys | routes/index.js:109-116 | for a well-formed order the body is well formed, and its keys are the order's in the order's own order, followed by currency and redirectUrls where the order lacked them |
| LinePay.UnknownOrderBody | routes/index.js:45-49 | for an order that reads as undefined the body has exactly the keys currency and redirectUrls |
| LinePay.ConfirmBody | routes/index.js:80-83 | the confirm body has the order's amount (left out when undefined) and currency TWD, with keys exactly amount then currency |
| LinePay.CreateSignature | routes/index.js:119-136 | the headers have exactly the four keys in order: the channel id, the JSON content type, the nonce, and Base64 of the HMAC, keyed by the secret, of secret + "/" + version + uri + serialised body + the nonce's decimal text |
| LinePay.AuthenticIntro | routes/index.js:121-134 | headers carrying the channel id, a nonce and the HMAC over the uri, body text and that nonce pass the gateway's check at root + uri |
| LinePay.SignedCall | routes/index.js:52-57 | each call is posted to site/version followed by the signed uri, carries the signed body and exactly createSignature's four headers, passes the gateway's check and carries the nonce it was signed with |
| LinePay.PaymentRequestCall | routes/index.js:43-57 | the payment request goes to site/version/payments/request, carries exactly createSignature's four headers over that uri and body, passes the gateway's check, and carries createLinePayBody of the stored order, or of {} for an unknown order number |
| LinePay.ConfirmCall | routes/index.js:73-90 | there is no call exactly when orderId is neither stored nor inherited; otherwise it goes to site/version/payments/{transactionId}/confirm, carries exactly createSignature's four headers over that uri and body, passes the gateway's check and carries the confirm body of that order, whose amount for a stored order is the stored amount |
| LinePay.Send400 | routes/index.js:97-104 | a 400 carrying the payload exactly when the payload can be serialised; otherwise the send throws and the reply ends empty with status 400 |
| Json.Member | routes/index.js:61 | `v.k` throws a TypeError exactly when v is undefined or null, and reads the own property when v is an object holding k, and is undefined for any other non-null value: an object without k, or a primitive or array |
| Json.OptionalMember | routes/index.js:60-61 | `v?.k` is defined exactly when v is an object holding k, and is then v's property k; it is undefined otherwise, never a throw |
| LinePay.Succeeded | routes/index.js:60 | the optional chain `linePayRes?.data?.returnCode === '0000'` holds only on data that is an object with a returnCode; SucceededIff gives the exact condition |
| LinePay.SucceededIff | routes/index.js:60 | the optional chain on returnCode succeeds exactly when the data is an object whose returnCode is the string "0000" |
| LinePay.PaymentUrl | routes/index.js:61 | `data?.info.paymentUrl.web` is undefined for null data and throws for any other data that is not an object; on an object it throws exactly when info is not an object carrying a non-null paymentUrl; where it is, the read gives paymentUrl's web (undefined when absent) for an object paymentUrl, and undefined for any other non-null paymentUrl |
| LinePay.PaymentUrlReadsWeb | routes/index.js:61 | where info.paymentUrl is an object, the chain reads its web value, or undefined when it has none |
| LinePay.PaymentUrlThrows | routes/index.js:61 | where info, or info.paymentUrl, is missing or null, the chain throws a TypeError |
| LinePay.PaymentRequestReply | routes/index.js:59-71 | a 400 with the not-found message exactly when the gateway answered without success; a redirect to info.paymentUrl.web exactly when it answered with success and that read does not throw; otherwise an empty reply with the default status, in particular when the call threw |
| LinePay.SuccessRedirectsToPaymentPage | routes/index.js:60-61 | any "0000" answer whose info.paymentUrl.web is w redirects to w, whatever else it holds |
| LinePay.SuccessWithoutInfoEnds | routes/index.js:61-70 | any "0000" answer without info ends the reply empty |
| LinePay.SuccessWithBareInfoEnds | routes/index.js:61-70 | a "0000" answer whose info is a string, number, boolean or array throws at `.web` and ends the reply empty |
| LinePay.SuccessWithBarePaymentUrlRedirectsToUndefined | routes/index.js:60-61 | a "0000" answer whose info.paymentUrl is present, not null and not an object redirects to undefined |
| LinePay.OtherCodeIsNotFound | routes/index.js:62-66 | any answer that is not an object with return code "0000" gets a 400 with the not-found message |
| LinePay.ConfirmReply | routes/index.js:93-105 | a redirect to /success/{orderId} exactly when the gateway answered with success; an empty reply with status 400 exactly when it answered otherwise; an empty reply with the default status exactly when it threw; never a 400 with a body |
| LinePay.HandlePaymentRequest | routes/index.js:43-72 | for the gateway's outcome on the signed payment request: a 400 with the not-found message exactly when it answered without success, a redirect to info.paymentUrl.web exactly when it answered with success and that read does not throw, otherwise an empty reply with the default status, in particular when it threw |
| LinePay.HandleConfirm | routes/index.js:73-106 | an unknown order id ends the reply empty; otherwise, for the gateway's outcome on the signed confirm call, a redirect to /success/{orderId} exactly on success, an empty 400 exactly on any other answer, and an empty reply with the default status exactly on a throw |
| OrderStore.CloneTemplate | routes/index.js:29 | the JSON round trip gives the template's object for a catalog id, {} for `__proto__`, and throws for every other id |
| OrderStore.Stamp | routes/index.js:30 | the stamped clone has orderId = the id, every other field as in the clone, and, where the clone lacked orderId, the clone's keys followed by orderId |
| OrderStore.StampedTemplate | routes/index.js:29-30 | a stamped template copy is well formed with keys amount, currency, packages, orderId |
| OrderStore.StampedProto | routes/index.js:29-30 | a stamped `__proto__` clone is well formed with the single key orderId |
| OrderStore.FileKeepsInvariant | routes/index.js:29-31 | filing a stamped clone under its id's text keeps every entry a stamped clone filed under its own id |
| OrderStore.Orders.constructor | routes/index.js:21 | the store starts empty and satisfies its invariant |
| OrderStore.Orders.Checkout | routes/index.js:27-34 | checkout returns the clone stamped with the time in whole seconds, files it under that id's text, replacing only that entry and leaving every other entry unchanged, and keeps the invariant |
| OrderStore.DistinctSecondsDistinctKeys | routes/index.js:30-31 | checkouts in different seconds are filed under different keys |
| OrderStore.StoredOrderId | routes/index.js:29-31 | every stored order is well formed and carries its own id, whose text is its key, as its last field |
| OrderStore.StoredOrderFacts | routes/index.js:29-31 | an order cloned from the catalog carries currency TWD and the amount of a consistent catalog template, and has keys amount, currency, packages, orderId |
| OrderStore.ProtoOrderFacts | routes/index.js:29-31 | an order cloned from anything but a catalog template came from `__proto__` and holds only orderId: no amount and no currency |
| OrderStore.RequestAndConfirmAgree | routes/index.js:45-83 | for any stored order the payment request and the confirmation carry the order's amount, the same in both, and currency TWD; for an order cloned from the catalog that amount is a template's amount, which equals the sum of its packages |
| OrderStore.StoredRequestBodyKeys | routes/index.js:108-116 | the payment request for an order cloned from the catalog serialises the keys amount, currency, packages, orderId, redirectUrls in that order |
| OrderStore.ProtoRequestBodyKeys | routes/index.js:108-116 | the payment request for an order cloned from `__proto__` serialises the keys orderId, currency, redirectUrls and carries no amount |
| OrderStore.ConfirmOfStoredOrder | routes/index.js:73-106 | for a stored order confirm always calls the gateway; its reply is a redirect exactly on success, an empty 400 exactly on any other answer, and empty with the default status exactly when the call threw |

## Left out

- Express routing, view rendering and the `/` and `/success/:id` handlers are plumbing. Only the reply each payment handler chooses is modelled.
- `axios.post` is the gateway parameter. The network, timeouts and retries are not modelled.
- The internals of HMAC-SHA256, Base64 and `JSON.stringify` are not modelled. They are arbitrary functions in `Crypto`, so no concrete digest is computed.
- The clock (`new Date().getTime()`) is a parameter: milliseconds for checkout, the nonce for signatures. Nonce uniqueness across concurrent requests is not modelled.
- The clock is taken as non-negative (`nat`). For a clock before 1970, `parseInt` would truncate toward zero rather than round down, and `${nonce}` would carry a minus sign; neither is modelled.
- dotenv and `process.env` are replaced by an immutable `Config` record of strings.
- `console.log` calls have no effect on replies and are left out.
- Numbers are integers. The one fractional value, `getTime() / 1000` at checkout, is modelled together with the `parseInt` that truncates it, as whole-second division of the millisecond clock.
- A number's string form switches to exponent notation from 10^21 on. The model's decimal text does not, so nonces (milliseconds) and checkout clocks of 10^21 milliseconds or more are not modelled.
- axios rejects every response whose HTTP status is outside 2xx, so such a response reaches the handlers' catch blocks as a throw. `Response.status` is left unconstrained, and no contract depends on it.
- A query parameter given twice arrives as an array in Express. The model takes each parameter as a string or absent. An absent one renders as the text "undefined" in uris and redirects.
- Express's handling of a redirect target that is not a string is not modelled. The reply only records the value handed over.
- The axios response is not modelled field by field. Only its status and data are, and its circularity is the assumption behind `LinePay.Serializable`.
- OrderStore.Orders.Checkout: checkout with an id that is neither a catalog id nor `__proto__` throws outside any try block, so it is a precondition. What Express does with that uncaught error is not modelled.
- JavaScript enumerates integer-like keys before other keys. No object that is spread or serialised here has integer-like keys, so the model keeps plain definition order. The catalog and the store do have such keys, but they are only read by key.
- An `amount` that reads as `undefined` in the confirm body is omitted from the JSON object, as `JSON.stringify` omits it.
- The catalog constant cannot change, so the fact that checkout leaves the template unchanged needs no proof.
- Object identity is not modelled. The store holds JSON values, so whether the template and its copy share anything cannot be expressed. The deep copy is therefore the template's JSON value.
