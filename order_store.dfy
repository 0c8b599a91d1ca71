/** The module-level `orders` dictionary of routes/index.js, which
    `GET /checkout/:id` fills, and what the two payment handlers send for the
    orders it holds. */
module OrderStore {
  import opened Json
  import opened Numbers
  import opened SampleData
  import opened LinePay

  /** `parseInt(new Date().getTime() / 1000)`: the clock in whole seconds. */
  function OrderIdAt(nowMs: nat): (orderId: nat)
  {
    nowMs / 1000
  }

  /** The keys of a stored order, in definition order. */
  const OrderKeys: seq<string> := ["amount", "currency", "packages", "orderId"]

  lemma OrderKeysFacts()
    ensures "currency" in OrderKeys && "redirectUrls" !in OrderKeys
    ensures OrderKeys + ["redirectUrls"] == ["amount", "currency", "packages", "orderId", "redirectUrls"]
  {
    assert OrderKeys[1] == "currency";
    assert |"redirectUrls"| == 12;
  }

  /** `JSON.parse(JSON.stringify(sampleOrders[id]))`, or None where it throws.
      A catalog id gives a copy of its template. `sampleOrders` is an object
      literal, so `__proto__` reads `Object.prototype`, which has no own
      enumerable property and serialises as `{}`. Every other name reads
      `undefined` or an inherited method, which `JSON.stringify` turns into
      `undefined`, and `JSON.parse` then throws. */
  function CloneTemplate(id: string): (r: Option<Obj>)
    ensures id in Catalog ==> r == Some(TemplateJson(Catalog[id]))
    ensures id == ProtoName ==> r == Some(Empty)
    ensures r.None? <==> id !in Catalog && id != ProtoName
  {
    CatalogKeys();
    assert |ProtoName| == 9;
    if id in Catalog then Some(TemplateJson(Catalog[id]))
    else if id == ProtoName then Some(Empty)
    else None
  }

  const ProtoName := "__proto__"

  /** `order.orderId = orderId` on a fresh clone. */
  function Stamp(o: Obj, orderId: nat): (r: Obj)
    ensures Get(r, "orderId") == Some(JNum(orderId))
    ensures forall k :: k != "orderId" ==> Get(r, k) == Get(o, k)
    ensures WellFormed(o) && "orderId" !in o.keys ==> WellFormed(r) && r.keys == o.keys + ["orderId"]
  {
    Put(o, "orderId", JNum(orderId))
  }

  /** A stamped template copy: the template's own fields, then `orderId`. */
  lemma StampedTemplate(t: Template, orderId: nat)
    ensures WellFormed(Stamp(TemplateJson(t), orderId))
    ensures Stamp(TemplateJson(t), orderId).keys == OrderKeys
  {
    assert |"orderId"| == 7 && |"amount"| == 6 && |"currency"| == 8;
  }

  lemma ProtoKeysFacts()
    ensures "currency" !in ["orderId"] && "redirectUrls" !in ["orderId"]
    ensures ["orderId"] + ["currency"] + ["redirectUrls"] == ["orderId", "currency", "redirectUrls"]
  {
    assert |"orderId"| == 7 && |"currency"| == 8 && |"redirectUrls"| == 12;
  }

  /** A stamped `__proto__` clone: `{orderId}` and nothing else. */
  lemma StampedProto(orderId: nat)
    ensures WellFormed(Stamp(Empty, orderId)) && Stamp(Empty, orderId).keys == ["orderId"]
  {
  }

  /** Every stored order is the clone of `sampleOrders[origin[key].0]`,
      stamped with the order id `origin[key].1`, filed under that id's text. */
  ghost predicate StoreInvariant(orders: map<string, Obj>, origin: map<string, (string, nat)>)
  {
    forall key :: key in orders ==>
      && key in origin
      && CloneTemplate(origin[key].0).Some?
      && NumberToString(origin[key].1) == key
      && orders[key] == Stamp(CloneTemplate(origin[key].0).value, origin[key].1)
  }

  /** Filing a stamped clone under its id's text keeps the invariant. */
  lemma FileKeepsInvariant(
    orders: map<string, Obj>, origin: map<string, (string, nat)>, id: string, orderId: nat)
    requires StoreInvariant(orders, origin)
    requires CloneTemplate(id).Some?
    ensures StoreInvariant(
              orders[NumberToString(orderId) := Stamp(CloneTemplate(id).value, orderId)],
              origin[NumberToString(orderId) := (id, orderId)])
  {
  }

  class Orders {
    var orders: map<string, Obj>
    ghost var origin: map<string, (string, nat)>

    ghost predicate Valid()
      reads this
    {
      StoreInvariant(orders, origin)
    }

    constructor ()
      ensures Valid() && orders == map[]
    {
      orders := map[];
      origin := map[];
    }

    /** `GET /checkout/:id`: clone the template, stamp it with the time in
        seconds and file it under that id, replacing any order filed in the
        same second. The clone throws outside any try block unless `id` is a
        catalog id or `__proto__`. */
    method Checkout(id: string, nowMs: nat) returns (order: Obj)
      requires Valid()
      requires CloneTemplate(id).Some?
      modifies this
      ensures Valid()
      ensures order == Stamp(CloneTemplate(id).value, OrderIdAt(nowMs))
      ensures orders == old(orders)[NumberToString(OrderIdAt(nowMs)) := order]
    {
      var clone := CloneTemplate(id);
      var copy := clone.value;
      var orderId := OrderIdAt(nowMs);
      copy := Put(copy, "orderId", JNum(orderId));
      assert copy == Stamp(clone.value, orderId);
      var key := NumberToString(orderId);
      FileKeepsInvariant(orders, origin, id, orderId);
      orders := orders[key := copy];
      origin := origin[key := (id, orderId)];
      order := copy;
    }
  }

  /** Orders filed in different seconds are filed under different keys. */
  lemma DistinctSecondsDistinctKeys(nowMs1: nat, nowMs2: nat)
    requires OrderIdAt(nowMs1) != OrderIdAt(nowMs2)
    ensures NumberToString(OrderIdAt(nowMs1)) != NumberToString(OrderIdAt(nowMs2))
  {
    if NumberToString(OrderIdAt(nowMs1)) == NumberToString(OrderIdAt(nowMs2)) {
      NumberToStringInjective(OrderIdAt(nowMs1), OrderIdAt(nowMs2));
    }
  }

  /** Every stored order carries its own id, whose text is its key, as its
      last field. */
  lemma StoredOrderId(orders: map<string, Obj>, origin: map<string, (string, nat)>, key: string)
    requires StoreInvariant(orders, origin)
    requires key in orders
    ensures key in origin
    ensures Get(orders[key], "orderId") == Some(JNum(origin[key].1)) && NumberToString(origin[key].1) == key
    ensures WellFormed(orders[key]) && orders[key].keys[|orders[key].keys| - 1] == "orderId"
  {
    var id := origin[key].0;
    if id in Catalog {
      StampedTemplate(Catalog[id], origin[key].1);
    } else {
      StampedProto(origin[key].1);
    }
  }

  /** What an order cloned from the catalog holds: TWD, and the amount of a
      template whose amount invariants hold. */
  lemma StoredOrderFacts(orders: map<string, Obj>, origin: map<string, (string, nat)>, key: string)
    requires StoreInvariant(orders, origin)
    requires key in orders && key in origin && origin[key].0 in Catalog
    ensures Get(orders[key], "currency") == Some(Twd)
    ensures Get(orders[key], "amount") == Some(JNum(Catalog[origin[key].0].amount))
    ensures TemplateConsistent(Catalog[origin[key].0])
    ensures WellFormed(orders[key]) && orders[key].keys == OrderKeys
  {
    CatalogConsistent();
    StampedTemplate(Catalog[origin[key].0], origin[key].1);
  }

  /** An order cloned from `__proto__` holds its id and nothing else: no
      amount, no currency, no packages. */
  lemma ProtoOrderFacts(orders: map<string, Obj>, origin: map<string, (string, nat)>, key: string)
    requires StoreInvariant(orders, origin)
    requires key in orders && key in origin && origin[key].0 !in Catalog
    ensures origin[key].0 == ProtoName
    ensures WellFormed(orders[key]) && orders[key].keys == ["orderId"]
    ensures Get(orders[key], "amount") == None && Get(orders[key], "currency") == None
  {
    StampedProto(origin[key].1);
  }

  /** The payment request and the confirmation of a stored order carry the
      same amount and currency TWD; for an order cloned from the catalog that
      amount is a template's, and equals the sum of its packages. */
  lemma RequestAndConfirmAgree(
    cfg: Config, crypto: Crypto, orders: map<string, Obj>, origin: map<string, (string, nat)>,
    key: string, transactionId: Option<string>, nonce1: nat, nonce2: nat)
    requires StoreInvariant(orders, origin)
    requires key in orders
    ensures var request := PaymentRequestCall(cfg, crypto, orders, key, nonce1);
            var confirm := ConfirmCall(cfg, crypto, orders, transactionId, Some(key), nonce2);
            && confirm.Some?
            && Get(request.body, "amount") == Get(confirm.value.body, "amount") == Get(orders[key], "amount")
            && Get(request.body, "currency") == Get(confirm.value.body, "currency") == Some(Twd)
            && (key in origin && origin[key].0 in Catalog ==>
                  exists t :: t in Catalog.Values &&
                    Get(request.body, "amount") == Some(JNum(t.amount)) && t.amount == PackagesTotal(t.packages))
  {
    StoredOrderId(orders, origin, key);
    if origin[key].0 in Catalog {
      StoredOrderFacts(orders, origin, key);
      var t := Catalog[origin[key].0];
      assert t in Catalog.Values;
    }
  }

  /** The key order `JSON.stringify` sees in the payment request of an order
      cloned from the catalog. */
  lemma StoredRequestBodyKeys(
    cfg: Config, crypto: Crypto, orders: map<string, Obj>, origin: map<string, (string, nat)>,
    key: string, nonce: nat)
    requires StoreInvariant(orders, origin)
    requires key in orders && key in origin && origin[key].0 in Catalog
    ensures PaymentRequestCall(cfg, crypto, orders, key, nonce).body.keys
         == ["amount", "currency", "packages", "orderId", "redirectUrls"]
  {
    var order := orders[key];
    StoredOrderFacts(orders, origin, key);
    assert PaymentRequestCall(cfg, crypto, orders, key, nonce).body == CreateLinePayBody(cfg, order);
    CreateLinePayBodyKeys(cfg, order);
    OrderKeysFacts();
    assert CreateLinePayBody(cfg, order).keys == OrderKeys + [] + ["redirectUrls"];
    assert OrderKeys + [] == OrderKeys;
  }

  /** The payment request of an order cloned from `__proto__` carries no
      amount: its keys are orderId, currency, redirectUrls. */
  lemma ProtoRequestBodyKeys(
    cfg: Config, crypto: Crypto, orders: map<string, Obj>, origin: map<string, (string, nat)>,
    key: string, nonce: nat)
    requires StoreInvariant(orders, origin)
    requires key in orders && key in origin && origin[key].0 !in Catalog
    ensures PaymentRequestCall(cfg, crypto, orders, key, nonce).body.keys == ["orderId", "currency", "redirectUrls"]
    ensures Get(PaymentRequestCall(cfg, crypto, orders, key, nonce).body, "amount") == None
  {
    var order := orders[key];
    ProtoOrderFacts(orders, origin, key);
    assert PaymentRequestCall(cfg, crypto, orders, key, nonce).body == CreateLinePayBody(cfg, order);
    CreateLinePayBodyKeys(cfg, order);
    ProtoKeysFacts();
    assert |"amount"| == 6 && |"currency"| == 8 && |"redirectUrls"| == 12;
  }

  /** For a stored order the confirm handler always reaches the gateway: it
      redirects exactly on success, ends empty with 400 exactly on any other
      answer, and ends empty with the default status exactly when the call
      threw. */
  lemma ConfirmOfStoredOrder(
    cfg: Config, crypto: Crypto, orders: map<string, Obj>, origin: map<string, (string, nat)>,
    key: string, transactionId: Option<string>, nonce: nat, gateway: Call -> Posted)
    requires StoreInvariant(orders, origin)
    requires key in orders
    ensures var call := ConfirmCall(cfg, crypto, orders, transactionId, Some(key), nonce);
            var r := HandleConfirm(cfg, crypto, orders, transactionId, Some(key), nonce, gateway);
            && call.Some?
            && (r == End(DefaultStatus) <==> gateway(call.value).Threw?)
            && (r == End(400) <==> gateway(call.value).Answered? && !Succeeded(gateway(call.value).response))
            && (r.Redirect? <==> gateway(call.value).Answered? && Succeeded(gateway(call.value).response))
  {
  }
}
