/** JSON values as the route handlers hold them, and the few JavaScript
    operations on objects that the handlers use: reading a property,
    assigning one, and reading through optional chaining.

    A JavaScript object is its own enumerable properties together with the
    order their keys were first defined in, which is the order
    `JSON.stringify` and object spread follow. */
module Json {

  datatype Option<+T> = None | Some(value: T)

  /** The JSON-representable values. Numbers are integers: every number the
      model handles (amounts, prices, quantities, ids, timestamps) is one. */
  datatype Json =
    | JNull
    | JBool(b: bool)
    | JNum(n: int)
    | JStr(s: string)
    | JArr(items: seq<Json>)
    | JObj(obj: Obj)

  /** A plain object: its keys in definition order, and its properties. */
  datatype Obj = Obj(keys: seq<string>, props: map<string, Json>)

  predicate Distinct(ks: seq<string>)
  {
    forall i, j :: 0 <= i < j < |ks| ==> ks[i] != ks[j]
  }

  /** Every property listed once, and only the properties listed. */
  predicate WellFormed(o: Obj)
  {
    && Distinct(o.keys)
    && (forall k :: k in o.props ==> k in o.keys)
    && (forall k :: k in o.keys ==> k in o.props)
  }

  /** `{}` */
  const Empty := Obj([], map[])

  /** `o[k]` for an own property: the value, or None when `o` has no such key. */
  function Get(o: Obj, k: string): (r: Option<Json>)
    ensures WellFormed(o) ==> (r.Some? <==> k in o.keys)
  {
    if k in o.props then Some(o.props[k]) else None
  }

  /** `o[k] = v` on a plain object, which is also how an object literal or a
      spread defines a key: an existing key keeps its place and takes the new
      value, a new key goes last. */
  function Put(o: Obj, k: string, v: Json): (r: Obj)
    ensures Get(r, k) == Some(v)
    ensures forall k' :: k' != k ==> Get(r, k') == Get(o, k')
    ensures WellFormed(o) ==> WellFormed(r)
    ensures WellFormed(o) ==> r.keys == if k in o.keys then o.keys else o.keys + [k]
  {
    var r := Obj(if k in o.props then o.keys else o.keys + [k], o.props[k := v]);
    assert WellFormed(o) && k !in o.props ==> Distinct(r.keys) by {
      if WellFormed(o) && k !in o.props {
        forall i, j | 0 <= i < j < |r.keys| ensures r.keys[i] != r.keys[j] {
          if j == |o.keys| {
            assert r.keys[i] == o.keys[i];
          }
        }
      }
    }
    r
  }

  /** A JavaScript value as the handlers see it: `undefined`, or JSON. */
  datatype Js = Undefined | Defined(value: Json)

  /** The outcome of evaluating a property read: a value, or a TypeError. */
  datatype Read = Value(js: Js) | TypeError

  /** `v.k`. Reading from `undefined` or `null` throws a TypeError; reading an
      absent key gives `undefined`. Reading from a number, string, boolean or
      array gives `undefined` for the names the model reads (`returnCode`,
      `info`, `paymentUrl`, `web`, `amount`), none of which is a built-in
      property of those values. */
  function Member(v: Js, k: string): (r: Read)
    ensures r.TypeError? <==> v == Undefined || v == Defined(JNull)
    ensures v.Defined? && v.value.JObj? && k in v.value.obj.props ==>
              r == Value(Defined(v.value.obj.props[k]))
    ensures v.Defined? && v.value != JNull && !(v.value.JObj? && k in v.value.obj.props) ==>
              r == Value(Undefined)
  {
    match v
    case Undefined => TypeError
    case Defined(JNull) => TypeError
    case Defined(JObj(o)) =>
      (match Get(o, k)
       case Some(x) => Value(Defined(x))
       case None => Value(Undefined))
    case Defined(_) => Value(Undefined)
  }

  /** `v?.k`: like `v.k`, but `undefined` instead of a TypeError when `v` is
      `undefined` or `null`. */
  function OptionalMember(v: Js, k: string): (r: Js)
    ensures r.Defined? <==> v.Defined? && v.value.JObj? && k in v.value.obj.props
    ensures r.Defined? ==> r.value == v.value.obj.props[k]
  {
    match Member(v, k)
    case TypeError => Undefined
    case Value(x) => x
  }
}
