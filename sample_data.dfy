/** The catalog of order templates that checkout clones
    (sample/sampleData.js), typed, and the JSON object each template is. */
module SampleData {
  import opened Json

  datatype Product = Product(name: string, quantity: int, price: int)
  datatype Package = Package(id: string, amount: int, products: seq<Product>)
  datatype Template = Template(amount: int, currency: string, packages: seq<Package>)

  /** The exported object: keys are property names, hence strings. */
  const Catalog: map<string, Template> := map[
    "1" := Template(1000, "TWD", [Package("products_1", 1000, [Product("六角棒棒", 1, 1000)])]),
    "2" := Template(2000, "TWD", [Package("products_1", 2000, [Product("六角棒棒", 2, 1000)])])
  ]

  /** The sum of price * quantity over the products. */
  function ProductsTotal(ps: seq<Product>): (total: int)
  {
    if ps == [] then 0 else ps[0].price * ps[0].quantity + ProductsTotal(ps[1..])
  }

  /** The sum of the package amounts. */
  function PackagesTotal(ps: seq<Package>): (total: int)
  {
    if ps == [] then 0 else ps[0].amount + PackagesTotal(ps[1..])
  }

  predicate ProductSane(p: Product)
  {
    p.quantity >= 1 && p.price >= 0
  }

  predicate PackageConsistent(p: Package)
  {
    && p.amount == ProductsTotal(p.products)
    && forall i :: 0 <= i < |p.products| ==> ProductSane(p.products[i])
  }

  /** The amount invariants the gateway expects of a payment request. */
  predicate TemplateConsistent(t: Template)
  {
    && t.amount == PackagesTotal(t.packages)
    && forall i :: 0 <= i < |t.packages| ==> PackageConsistent(t.packages[i])
  }

  lemma CatalogKeys()
    ensures Catalog.Keys == {"1", "2"}
  {
  }

  lemma CatalogConsistent()
    ensures forall id :: id in Catalog ==> Catalog[id].currency == "TWD"
    ensures forall id :: id in Catalog ==> TemplateConsistent(Catalog[id])
  {
    var t1, t2 := Catalog["1"], Catalog["2"];
    assert PackageConsistent(t1.packages[0]);
    assert PackageConsistent(t2.packages[0]);
  }

  /** A product as the object literal writes it. */
  function ProductJson(p: Product): (o: Obj)
    ensures WellFormed(o) && o.keys == ["name", "quantity", "price"]
    ensures Get(o, "name") == Some(JStr(p.name))
    ensures Get(o, "quantity") == Some(JNum(p.quantity))
    ensures Get(o, "price") == Some(JNum(p.price))
  {
    assert |"name"| == 4 && |"quantity"| == 8 && |"price"| == 5;
    Obj(["name", "quantity", "price"],
        map["name" := JStr(p.name), "quantity" := JNum(p.quantity), "price" := JNum(p.price)])
  }

  function ProductsJson(ps: seq<Product>): (r: seq<Json>)
    ensures |r| == |ps|
    ensures forall i :: 0 <= i < |ps| ==> r[i] == JObj(ProductJson(ps[i]))
  {
    seq(|ps|, i requires 0 <= i < |ps| => JObj(ProductJson(ps[i])))
  }

  /** A package as the object literal writes it. */
  function PackageJson(p: Package): (o: Obj)
    ensures WellFormed(o) && o.keys == ["id", "amount", "products"]
    ensures Get(o, "id") == Some(JStr(p.id))
    ensures Get(o, "amount") == Some(JNum(p.amount))
    ensures Get(o, "products") == Some(JArr(ProductsJson(p.products)))
  {
    assert |"id"| == 2 && |"amount"| == 6 && |"products"| == 8;
    Obj(["id", "amount", "products"],
        map["id" := JStr(p.id), "amount" := JNum(p.amount), "products" := JArr(ProductsJson(p.products))])
  }

  function PackagesJson(ps: seq<Package>): (r: seq<Json>)
    ensures |r| == |ps|
    ensures forall i :: 0 <= i < |ps| ==> r[i] == JObj(PackageJson(ps[i]))
  {
    seq(|ps|, i requires 0 <= i < |ps| => JObj(PackageJson(ps[i])))
  }

  /** A template as the object literal writes it: its keys defined in the
      order they are written. */
  function TemplateJson(t: Template): (o: Obj)
    ensures WellFormed(o) && o.keys == ["amount", "currency", "packages"]
    ensures Get(o, "amount") == Some(JNum(t.amount))
    ensures Get(o, "currency") == Some(JStr(t.currency))
    ensures Get(o, "packages") == Some(JArr(PackagesJson(t.packages)))
  {
    assert |"amount"| == 6 && |"currency"| == 8 && "currency"[0] != "packages"[0];
    Obj(["amount", "currency", "packages"],
        map["amount" := JNum(t.amount), "currency" := JStr(t.currency), "packages" := JArr(PackagesJson(t.packages))])
  }
}
