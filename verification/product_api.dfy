/** The product-management REST client: the product list put into the
    five fixed menu categories, and the bodies of the add and update
    requests. */
module ProductApi {
  import opened Base
  import opened Text
  import StoreApi

  /** The rice category, which receives every product. */
  const Rice := "밥류"

  /** The five categories the result always has. */
  const Categories: set<string> := {"밥류", "국물요리", "음료", "주류", "디저트"}

  /** One menu as this client returns it: no category field. */
  datatype PlainEntry = PlainEntry(id: int, name: string, price: int)

  function PlainOf(p: StoreApi.ApiProduct): (e: PlainEntry)
    ensures e.id == p.productId && e.name == p.productName && e.price == p.price
  {
    PlainEntry(p.productId, p.productName, p.price)
  }

  /** The reference list of the rice category: every product's entry, in
      response order. */
  function PlainEntries(ps: seq<StoreApi.ApiProduct>): (r: seq<PlainEntry>)
    ensures |r| == |ps|
    ensures forall i :: 0 <= i < |ps| ==> r[i] == PlainOf(ps[i])
  {
    seq(|ps|, i requires 0 <= i < |ps| => PlainOf(ps[i]))
  }

  /** `getMenus`: a body that is not an array is rejected; otherwise the
      result has exactly the five categories, the rice category holds every
      product in response order and the other four are empty. */
  method GroupMenus(body: StoreApi.Body<StoreApi.ApiProduct>) returns (r: Result<map<string, seq<PlainEntry>>, string>)
    ensures body.NotArray? ==> r == Err(StoreApi.NotArrayMessage)
    ensures body.ArrayBody? ==> r.Ok?
    ensures body.ArrayBody? ==> r.value.Keys == Categories
    ensures body.ArrayBody? ==> r.value[Rice] == PlainEntries(body.items)
    ensures body.ArrayBody? ==> forall k :: k in r.value && k != Rice ==> r.value[k] == []
  {
    if body.NotArray? {
      return Err(StoreApi.NotArrayMessage);
    }
    var ps := body.items;
    var m: map<string, seq<PlainEntry>> := map["밥류" := [], "국물요리" := [], "음료" := [], "주류" := [], "디저트" := []];
    var i := 0;
    while i < |ps|
      invariant 0 <= i <= |ps|
      invariant m.Keys == Categories
      invariant m[Rice] == PlainEntries(ps[..i])
      invariant forall k :: k in m && k != Rice ==> m[k] == []
    {
      m := m[Rice := m[Rice] + [PlainOf(ps[i])]];
      assert ps[..i + 1] == ps[..i] + [ps[i]];
      i := i + 1;
    }
    assert ps[..i] == ps;
    return Ok(m);
  }

  /** The data of a menu form: the name, the price and the chosen
      category. */
  datatype MenuData = MenuData(name: string, price: int, categoryId: Option<int>)

  /** A request: method, path and the `{name, price}` body. */
  datatype MenuRequest = MenuRequest(verb: string, path: string, name: string, price: int)

  const ProductsPath := "/stores/me/products"

  /** `addMenu`: a POST of the name and price only. */
  function AddMenuRequest(d: MenuData): (r: MenuRequest)
    ensures r.verb == "POST" && r.path == ProductsPath
    ensures r.name == d.name && r.price == d.price
  {
    MenuRequest("POST", ProductsPath, d.name, d.price)
  }

  /** `updateMenu`: a PUT of the name and price only, to the product's own
      path. */
  function UpdateMenuRequest(productId: int, d: MenuData): (r: MenuRequest)
    ensures r.verb == "PUT" && r.path == ProductsPath + "/" + IntToString(productId)
    ensures r.name == d.name && r.price == d.price
  {
    MenuRequest("PUT", ProductsPath + "/" + IntToString(productId), d.name, d.price)
  }

  /** Adding and updating send the same body, whatever category the form
      holds, and the update path names the product: its last segment reads
      back as the product id. */
  lemma MenuRequestsAgree(productId: int, d: MenuData, d': MenuData)
    requires d.name == d'.name && d.price == d'.price
    ensures AddMenuRequest(d).name == UpdateMenuRequest(productId, d').name
    ensures AddMenuRequest(d).price == UpdateMenuRequest(productId, d').price
    ensures var path := UpdateMenuRequest(productId, d).path;
      ParseInt(path[|ProductsPath| + 1..]) == Some(productId)
  {
    var path := UpdateMenuRequest(productId, d).path;
    assert path[|ProductsPath| + 1..] == IntToString(productId);
    ParseIntOfIntToString(productId);
  }
}
