/** The LINE Pay v3 client of routes/index.js: the payment-request body, the
    signed headers, the two gateway calls, and the reply each handler gives
    for each gateway outcome.

    The configuration is an immutable record. HMAC-SHA256, Base64 and
    `JSON.stringify` are library calls whose internals are not modelled: they
    are the fields of a `Crypto` record, so every property below holds for
    every choice of them. The gateway itself (`axios.post`) is a function from
    the call to its outcome, and the clock value used as a nonce is a
    parameter. */
module LinePay {
  import opened Json
  import opened Numbers

  /** The process environment the routes read at start-up. */
  datatype Config = Config(
    channelId: string,
    returnHost: string,
    site: string,
    version: string,
    channelSecretKey: string,
    returnConfirmUrl: string,
    returnCancelUrl: string)

  type Bytes = seq<bv8>

  /** The foreign library calls: `hmacSHA256(message, key)`,
      `Base64.stringify(digest)` and `JSON.stringify(value)`. */
  datatype Crypto = Crypto(
    hmacSha256: (string, string) -> Bytes,
    base64: Bytes -> string,
    stringify: Json -> string)

  const Twd := JStr("TWD")
  const RequestUri := "/payments/request"
  const ChannelIdHeader := "X-LINE-ChannelId"
  const ContentTypeHeader := "Content-Type"
  const NonceHeader := "X-LINE-Authorization-Nonce"
  const AuthorizationHeader := "X-LINE-Authorization"
  const NotFoundMessage := "訂單不存在"

  /** `${v}` for a route or query parameter that may be absent. */
  function Text(v: Option<string>): (s: string)
  {
    match v
    case Some(s) => s
    case None => "undefined"
  }

  // ---------------------------------------------------------------- the store

  /** The properties every object inherits from Object.prototype. */
  const ObjectPrototypeNames: set<string> := {
    "__proto__", "constructor", "hasOwnProperty", "isPrototypeOf",
    "propertyIsEnumerable", "toLocaleString", "toString", "valueOf",
    "__defineGetter__", "__defineSetter__", "__lookupGetter__", "__lookupSetter__"}

  /** `orders[key]` on the module-level order dictionary: the stored order;
      for an inherited name an object with no own enumerable property and no
      `amount`, which the model writes as the empty object; `undefined`
      otherwise. */
  function Lookup(store: map<string, Obj>, key: string): (r: Option<Obj>)
    ensures key in store ==> r == Some(store[key])
    ensures r.None? <==> key !in store && key !in ObjectPrototypeNames
    ensures key !in store && key in ObjectPrototypeNames ==> r == Some(Empty)
  {
    if key in store then Some(store[key])
    else if key in ObjectPrototypeNames then Some(Empty)
    else None
  }

  /** The own enumerable properties `{...v}` copies: none from `undefined`. */
  function Spreadable(v: Option<Obj>): (o: Obj)
  {
    match v
    case Some(o) => o
    case None => Empty
  }

  // ---------------------------------------------------------------- the bodies

  function RedirectUrls(cfg: Config): (urls: Obj)
    ensures WellFormed(urls) && urls.keys == ["confirmUrl", "cancelUrl"]
    ensures Get(urls, "confirmUrl") == Some(JStr(cfg.returnHost + cfg.returnConfirmUrl))
    ensures Get(urls, "cancelUrl") == Some(JStr(cfg.returnHost + cfg.returnCancelUrl))
  {
    assert |"confirmUrl"| != |"cancelUrl"|;
    Obj(["confirmUrl", "cancelUrl"],
        map["confirmUrl" := JStr(cfg.returnHost + cfg.returnConfirmUrl),
            "cancelUrl" := JStr(cfg.returnHost + cfg.returnCancelUrl)])
  }

  /** `createLinePayBody`: every field of the order, with `currency` forced to
      TWD and `redirectUrls` added. */
  function CreateLinePayBody(cfg: Config, order: Obj): (body: Obj)
    ensures Get(body, "currency") == Some(Twd)
    ensures Get(body, "redirectUrls") == Some(JObj(RedirectUrls(cfg)))
    ensures forall k :: k != "currency" && k != "redirectUrls" ==> Get(body, k) == Get(order, k)
  {
    Put(Put(order, "currency", Twd), "redirectUrls", JObj(RedirectUrls(cfg)))
  }

  /** On a well-formed order the body is well-formed, and its keys are the
      order's, in the order's own order, followed by whichever of `currency`
      and `redirectUrls` the order lacked. */
  lemma CreateLinePayBodyKeys(cfg: Config, order: Obj)
    requires WellFormed(order)
    ensures WellFormed(CreateLinePayBody(cfg, order))
    ensures CreateLinePayBody(cfg, order).keys ==
              order.keys
              + (if "currency" in order.keys then [] else ["currency"])
              + (if "redirectUrls" in order.keys then [] else ["redirectUrls"])
  {
    var currency := Put(order, "currency", Twd);
    assert |"currency"| != |"redirectUrls"|;
    assert "redirectUrls" in currency.keys <==> "redirectUrls" in order.keys;
  }

  /** The confirm body `{amount: order.amount, currency: 'TWD'}`. An amount
      that reads as `undefined` is left out, as `JSON.stringify` leaves it. */
  function ConfirmBody(order: Obj): (body: Obj)
    ensures Get(body, "amount") == Get(order, "amount")
    ensures Get(body, "currency") == Some(Twd)
    ensures WellFormed(body)
    ensures body.keys == if Get(order, "amount").Some? then ["amount", "currency"] else ["currency"]
  {
    assert |"amount"| != |"currency"|;
    match Get(order, "amount")
    case Some(amount) => Obj(["amount", "currency"], map["amount" := amount, "currency" := Twd])
    case None => Obj(["currency"], map["currency" := Twd])
  }

  // ---------------------------------------------------------------- the signature

  /** The canonical message `createSignature` signs. */
  function SignedMessage(cfg: Config, uri: string, bodyText: string, nonceText: string): (message: string)
  {
    cfg.channelSecretKey + "/" + cfg.version + uri + bodyText + nonceText
  }

  lemma HeaderNamesDistinct()
    ensures ChannelIdHeader != ContentTypeHeader && ChannelIdHeader != NonceHeader
    ensures ChannelIdHeader != AuthorizationHeader && ContentTypeHeader != NonceHeader
    ensures ContentTypeHeader != AuthorizationHeader && NonceHeader != AuthorizationHeader
  {
    assert |ChannelIdHeader| == 16 && |ContentTypeHeader| == 12;
    assert |NonceHeader| == 26 && |AuthorizationHeader| == 20;
  }

  /** `createSignature`: the four headers, signing the uri, the serialised
      body and the nonce with the channel secret. */
  function CreateSignature(cfg: Config, crypto: Crypto, uri: string, body: Obj, nonce: nat): (headers: Obj)
    ensures headers.keys == [ChannelIdHeader, ContentTypeHeader, NonceHeader, AuthorizationHeader]
    ensures WellFormed(headers)
    ensures Get(headers, ChannelIdHeader) == Some(JStr(cfg.channelId))
    ensures Get(headers, ContentTypeHeader) == Some(JStr("application/json"))
    ensures Get(headers, NonceHeader) == Some(JNum(nonce))
    ensures Get(headers, AuthorizationHeader) ==
              Some(JStr(crypto.base64(crypto.hmacSha256(
                SignedMessage(cfg, uri, crypto.stringify(JObj(body)), NumberToString(nonce)),
                cfg.channelSecretKey))))
  {
    var message := SignedMessage(cfg, uri, crypto.stringify(JObj(body)), NumberToString(nonce));
    var signature := crypto.base64(crypto.hmacSha256(message, cfg.channelSecretKey));
    HeaderNamesDistinct();
    Obj([ChannelIdHeader, ContentTypeHeader, NonceHeader, AuthorizationHeader],
        map[ChannelIdHeader := JStr(cfg.channelId), ContentTypeHeader := JStr("application/json"),
            NonceHeader := JNum(nonce), AuthorizationHeader := JStr(signature)])
  }

  /** The body sent for an order number the store does not hold. */
  lemma UnknownOrderBody(cfg: Config)
    ensures CreateLinePayBody(cfg, Empty).keys == ["currency", "redirectUrls"]
  {
    assert |"currency"| != |"redirectUrls"|;
  }

  /** The text a header value travels as. */
  function HeaderText(v: Json): (text: Option<string>)
  {
    match v
    case JStr(s) => Some(s)
    case JNum(n) => if n >= 0 then Some(NumberToString(n)) else None
    case _ => None
  }

  /** The check the gateway makes of a request to `url` whose serialised body
      is `bodyText`: it takes the uri from the path below `{site}/{version}`,
      recomputes the HMAC over it with the nonce header, and compares it with
      the authorization header. */
  predicate Authentic(cfg: Config, crypto: Crypto, url: string, bodyText: string, headers: Obj)
  {
    var base := ApiRoot(cfg);
    && base <= url
    && Get(headers, ChannelIdHeader) == Some(JStr(cfg.channelId))
    && match (Get(headers, NonceHeader), Get(headers, AuthorizationHeader))
       case (Some(n), Some(JStr(signature))) =>
         (match HeaderText(n)
          case Some(nonceText) =>
            signature == crypto.base64(crypto.hmacSha256(
              SignedMessage(cfg, url[|base|..], bodyText, nonceText), cfg.channelSecretKey))
          case None => false)
       case _ => false
  }


  lemma AuthenticIntro(cfg: Config, crypto: Crypto, uri: string, bodyText: string, headers: Obj, nonce: nat)
    requires Get(headers, ChannelIdHeader) == Some(JStr(cfg.channelId))
    requires Get(headers, NonceHeader) == Some(JNum(nonce))
    requires Get(headers, AuthorizationHeader) == Some(JStr(crypto.base64(crypto.hmacSha256(
               SignedMessage(cfg, uri, bodyText, NumberToString(nonce)), cfg.channelSecretKey))))
    ensures Authentic(cfg, crypto, ApiRoot(cfg) + uri, bodyText, headers)
  {
    assert (ApiRoot(cfg) + uri)[|ApiRoot(cfg)|..] == uri;
  }

  // ---------------------------------------------------------------- the calls

  /** `${LINEPAY_SITE}/${LINEPAY_VERSION}`, which every gateway url starts with. */
  function ApiRoot(cfg: Config): (root: string)
  {
    cfg.site + "/" + cfg.version
  }

  /** One `axios.post(url, body, { headers })`. */
  datatype Call = Call(url: string, body: Obj, headers: Obj)

  /** `${LINEPAY_SITE}/${LINEPAY_VERSION}${uri}` with the headers signed over
      `uri` and `body`. */
  function SignedCall(cfg: Config, crypto: Crypto, uri: string, body: Obj, nonce: nat): (call: Call)
    ensures call.url == ApiRoot(cfg) + uri && call.body == body
    ensures Authentic(cfg, crypto, call.url, crypto.stringify(JObj(body)), call.headers)
    ensures Get(call.headers, NonceHeader) == Some(JNum(nonce))
    ensures call.headers == CreateSignature(cfg, crypto, uri, body, nonce)
  {
    var headers := CreateSignature(cfg, crypto, uri, body, nonce);
    AuthenticIntro(cfg, crypto, uri, crypto.stringify(JObj(body)), headers, nonce);
    Call(ApiRoot(cfg) + uri, body, headers)
  }

  /** The call `POST /linePay/:orderNo` makes. An unknown order number is not
      an error here: `{...undefined}` is `{}`, so the body then holds only
      `currency` and `redirectUrls`. */
  function PaymentRequestCall(cfg: Config, crypto: Crypto, store: map<string, Obj>, orderNo: string, nonce: nat)
    : (call: Call)
    ensures call.url == ApiRoot(cfg) + "/payments/request"
    ensures Authentic(cfg, crypto, call.url, crypto.stringify(JObj(call.body)), call.headers)
    ensures Get(call.headers, NonceHeader) == Some(JNum(nonce))
    ensures call.headers == CreateSignature(cfg, crypto, RequestUri, call.body, nonce)
    ensures orderNo in store ==> call.body == CreateLinePayBody(cfg, store[orderNo])
    ensures orderNo !in store ==> call.body == CreateLinePayBody(cfg, Empty)
  {
    SignedCall(cfg, crypto, RequestUri, CreateLinePayBody(cfg, Spreadable(Lookup(store, orderNo))), nonce)
  }

  function ConfirmUri(transactionId: Option<string>): (uri: string)
  {
    "/payments/" + Text(transactionId) + "/confirm"
  }

  /** The call `GET /linePay/confirm` makes, or None when reading
      `order.amount` throws because the order is `undefined`. */
  function ConfirmCall(
    cfg: Config, crypto: Crypto, store: map<string, Obj>,
    transactionId: Option<string>, orderId: Option<string>, nonce: nat)
    : (call: Option<Call>)
    ensures call.None? <==> Text(orderId) !in store && Text(orderId) !in ObjectPrototypeNames
    ensures call.Some? ==>
              && call.value.url == ApiRoot(cfg) + ConfirmUri(transactionId)
              && Authentic(cfg, crypto, call.value.url, crypto.stringify(JObj(call.value.body)), call.value.headers)
              && Get(call.value.headers, NonceHeader) == Some(JNum(nonce))
              && call.value.body == ConfirmBody(Lookup(store, Text(orderId)).value)
              && call.value.headers == CreateSignature(cfg, crypto, ConfirmUri(transactionId), call.value.body, nonce)
    ensures Text(orderId) in store ==>
              call.Some? && Get(call.value.body, "amount") == Get(store[Text(orderId)], "amount")
  {
    match Lookup(store, Text(orderId))
    case None => None
    case Some(order) =>
      Some(SignedCall(cfg, crypto, ConfirmUri(transactionId), ConfirmBody(order), nonce))
  }

  // ---------------------------------------------------------------- the replies

  /** What the handlers see of an axios response. */
  datatype Response = Response(status: int, data: Json)

  /** The outcome of `await axios.post(...)`: it threw, or it resolved. */
  datatype Posted = Threw | Answered(response: Response)

  /** The object a handler hands to `res.send` with a 400. */
  datatype Payload = Message(text: string) | RawResponse(response: Response)

  /** What a handler does with `res`: a redirect, a 400 whose JSON body is the
      payload, or an empty reply with the given status. An empty reply is
      the catch block's `res.end()`, with whatever status was set before the
      throw. */
  datatype Reply = Redirect(target: Js) | BadRequest(payload: Payload) | End(status: int)

  /** The status Express replies with when none was set. */
  const DefaultStatus := 200

  /** Whether `JSON.stringify`, which `res.send` applies to an object, can
      serialise the payload. A resolved axios response always refers to its
      request, an http ClientRequest whose socket refers back to it, so it is
      circular and serialising it throws. */
  predicate Serializable(p: Payload)
  {
    p.Message?
  }

  /** `res.status(400).send(payload)` inside the try block: the status is set
      first; if the payload cannot be serialised the send throws, and the
      catch block ends the reply empty with that status. */
  function Send400(p: Payload): (r: Reply)
    ensures r.BadRequest? <==> Serializable(p)
    ensures r.BadRequest? ==> r.payload == p
    ensures !r.BadRequest? ==> r == End(400)
  {
    if Serializable(p) then BadRequest(p) else End(400)
  }

  /** `linePayRes?.data?.returnCode === '0000'`. */
  predicate Succeeded(res: Response)
    ensures Succeeded(res) ==> res.data.JObj? && "returnCode" in res.data.obj.props
  {
    OptionalMember(Defined(res.data), "returnCode") == Defined(JStr("0000"))
  }

  /** The optional chain holds exactly when the data is an object whose
      `returnCode` is the string "0000". */
  lemma SucceededIff(res: Response)
    ensures Succeeded(res) <==>
              res.data.JObj? && Get(res.data.obj, "returnCode") == Some(JStr("0000"))
  {
  }

  /** `linePayRes?.data?.info.paymentUrl.web`. Optional chaining guards
      `data` and `info`, but not `paymentUrl` and `web`: null data
      short-circuits to `undefined`; any other data that is not an object
      has no `info`, so `.paymentUrl` throws. */
  function PaymentUrl(data: Json): (r: Read)
    ensures data == JNull ==> r == Value(Undefined)
    ensures !data.JObj? && data != JNull ==> r == TypeError
    ensures data.JObj? ==>
              (r.TypeError? <==>
                 !(exists i :: Get(data.obj, "info") == Some(JObj(i))
                      && Get(i, "paymentUrl").Some? && Get(i, "paymentUrl") != Some(JNull)))
    ensures data.JObj? && Get(data.obj, "info").Some? && Get(data.obj, "info").value.JObj? ==>
              match Get(Get(data.obj, "info").value.obj, "paymentUrl")
              case Some(JObj(p)) =>
                r == Value(match Get(p, "web") case Some(w) => Defined(w) case None => Undefined)
              case Some(JNull) => r == TypeError
              case Some(_) => r == Value(Undefined)
              case None => r == TypeError
  {
    if data == JNull then Value(Undefined)
    else
      match Member(OptionalMember(Defined(data), "info"), "paymentUrl")
      case TypeError => TypeError
      case Value(paymentUrl) => Member(paymentUrl, "web")
  }

  /** Where `info.paymentUrl` is an object, the chain reads its `web`:
      the value when there is one, `undefined` otherwise. */
  lemma PaymentUrlReadsWeb(d: Obj, i: Obj, p: Obj)
    requires Get(d, "info") == Some(JObj(i))
    requires Get(i, "paymentUrl") == Some(JObj(p))
    ensures PaymentUrl(JObj(d)) == Value(match Get(p, "web") case Some(w) => Defined(w) case None => Undefined)
  {
  }

  /** Where `info` is missing or null, or `info.paymentUrl` is, the chain
      throws. */
  lemma PaymentUrlThrows(d: Obj)
    requires || Get(d, "info") == None
             || Get(d, "info") == Some(JNull)
             || (exists i :: Get(d, "info") == Some(JObj(i)) && Get(i, "paymentUrl") in {None, Some(JNull)})
    ensures PaymentUrl(JObj(d)) == TypeError
  {
  }

  /** The reply of `POST /linePay/:orderNo` to the gateway's outcome. */
  function PaymentRequestReply(posted: Posted): (r: Reply)
    ensures r.BadRequest? <==> posted.Answered? && !Succeeded(posted.response)
    ensures r.BadRequest? ==> r.payload == Message(NotFoundMessage)
    ensures r.Redirect? <==> posted.Answered? && Succeeded(posted.response) && PaymentUrl(posted.response.data).Value?
    ensures r.Redirect? ==> r.target == PaymentUrl(posted.response.data).js
    ensures r.End? ==> r.status == DefaultStatus
    ensures posted.Threw? ==> r.End?
  {
    match posted
    case Threw => End(DefaultStatus)
    case Answered(res) =>
      if Succeeded(res) then
        match PaymentUrl(res.data)
        case Value(web) => Redirect(web)
        case TypeError => End(DefaultStatus)
      else Send400(Message(NotFoundMessage))
  }

  /** A success carrying a payment page sends the browser to that page,
      whatever else the answer holds. */
  lemma SuccessRedirectsToPaymentPage(status: int, d: Obj, i: Obj, p: Obj, w: Json)
    requires Get(d, "returnCode") == Some(JStr("0000"))
    requires Get(d, "info") == Some(JObj(i))
    requires Get(i, "paymentUrl") == Some(JObj(p))
    requires Get(p, "web") == Some(w)
    ensures PaymentRequestReply(Answered(Response(status, JObj(d)))) == Redirect(Defined(w))
  {
    PaymentUrlReadsWeb(d, i, p);
  }

  /** `info` is read without optional chaining from there on: a success whose
      data has no `info` throws inside the try block, and the reply is empty. */
  lemma SuccessWithoutInfoEnds(status: int, d: Obj)
    requires Get(d, "returnCode") == Some(JStr("0000"))
    requires Get(d, "info") == None
    ensures PaymentRequestReply(Answered(Response(status, JObj(d)))) == End(DefaultStatus)
  {
    PaymentUrlThrows(d);
  }

  /** `info` that is a string, number, boolean or array has no `paymentUrl`,
      so reading `.web` from it throws and a success ends the reply empty. */
  lemma SuccessWithBareInfoEnds(status: int, d: Obj, v: Json)
    requires Get(d, "returnCode") == Some(JStr("0000"))
    requires Get(d, "info") == Some(v) && !v.JObj? && v != JNull
    ensures PaymentRequestReply(Answered(Response(status, JObj(d)))) == End(DefaultStatus)
  {
  }

  /** A `paymentUrl` that is present, not null and not an object reads `web`
      as `undefined`, and that is the redirect target. */
  lemma SuccessWithBarePaymentUrlRedirectsToUndefined(status: int, d: Obj, i: Obj, v: Json)
    requires Get(d, "returnCode") == Some(JStr("0000"))
    requires Get(d, "info") == Some(JObj(i))
    requires Get(i, "paymentUrl") == Some(v) && !v.JObj? && v != JNull
    ensures PaymentRequestReply(Answered(Response(status, JObj(d)))) == Redirect(Undefined)
  {
  }

  /** Any answer that is not an object with return code "0000" is reported as
      a missing order, whatever it means at the gateway. */
  lemma OtherCodeIsNotFound(status: int, d: Json)
    requires !(d.JObj? && Get(d.obj, "returnCode") == Some(JStr("0000")))
    ensures PaymentRequestReply(Answered(Response(status, d))) == BadRequest(Message(NotFoundMessage))
  {
    SucceededIff(Response(status, d));
  }

  /** The reply of `GET /linePay/confirm` once the gateway was called. The
      400 branch hands the raw axios response to `res.send`, which cannot
      serialise it, so that branch ends the reply empty with status 400. */
  function ConfirmReply(orderId: Option<string>, posted: Posted): (r: Reply)
    ensures r.Redirect? <==> posted.Answered? && Succeeded(posted.response)
    ensures r.Redirect? ==> r.target == Defined(JStr("/success/" + Text(orderId)))
    ensures r == End(400) <==> posted.Answered? && !Succeeded(posted.response)
    ensures r == End(DefaultStatus) <==> posted.Threw?
    ensures !r.BadRequest?
  {
    match posted
    case Threw => End(DefaultStatus)
    case Answered(res) =>
      if Succeeded(res) then Redirect(Defined(JStr("/success/" + Text(orderId))))
      else Send400(RawResponse(res))
  }

  // ---------------------------------------------------------------- the handlers

  /** `POST /linePay/:orderNo`: build, sign and post the request, then reply. */
  function HandlePaymentRequest(
    cfg: Config, crypto: Crypto, store: map<string, Obj>, orderNo: string, nonce: nat,
    gateway: Call -> Posted)
    : (r: Reply)
    ensures var posted := gateway(PaymentRequestCall(cfg, crypto, store, orderNo, nonce));
            && (r.BadRequest? <==> posted.Answered? && !Succeeded(posted.response))
            && (r.BadRequest? ==> r.payload == Message(NotFoundMessage))
            && (r.Redirect? <==>
                  posted.Answered? && Succeeded(posted.response) && PaymentUrl(posted.response.data).Value?)
            && (r.Redirect? ==> r.target == PaymentUrl(posted.response.data).js)
            && (r.End? ==> r.status == DefaultStatus)
            && (posted.Threw? ==> r == End(DefaultStatus))
  {
    var posted := gateway(PaymentRequestCall(cfg, crypto, store, orderNo, nonce));
    PaymentRequestReply(posted)
  }

  /** `GET /linePay/confirm?transactionId=…&orderId=…`. */
  function HandleConfirm(
    cfg: Config, crypto: Crypto, store: map<string, Obj>,
    transactionId: Option<string>, orderId: Option<string>, nonce: nat,
    gateway: Call -> Posted)
    : (r: Reply)
    ensures Text(orderId) !in store && Text(orderId) !in ObjectPrototypeNames ==> r == End(DefaultStatus)
    ensures var call := ConfirmCall(cfg, crypto, store, transactionId, orderId, nonce);
            call.Some? ==>
              var posted := gateway(call.value);
              && (r.Redirect? <==> posted.Answered? && Succeeded(posted.response))
              && (r.Redirect? ==> r.target == Defined(JStr("/success/" + Text(orderId))))
              && (r == End(400) <==> posted.Answered? && !Succeeded(posted.response))
              && (r == End(DefaultStatus) <==> posted.Threw?)
    ensures !r.BadRequest?
  {
    match ConfirmCall(cfg, crypto, store, transactionId, orderId, nonce)
    case None => End(DefaultStatus)
    case Some(call) => ConfirmReply(orderId, gateway(call))
  }
}
