/** The response transformers, request payloads and error-message tables
    of the store REST client: grouping the product list into category
    buckets, the order-creation payload, the password-change pre-check and
    status messages, and the menu-analysis request defaults and status
    messages. Responses and HTTP statuses are inputs. */
module StoreApi {
  import opened Base
  import Cart

  /** A product's category as the server sends it; either part may be
      missing. */
  datatype Category = Category(id: Option<int>, name: Option<string>)

  /** One product of the `/stores/me/products` response. */
  datatype ApiProduct = ApiProduct(productId: int, productName: string, price: int, category: Option<Category>)

  /** The body of a response that should be a JSON array: either an array
      or anything else. */
  datatype Body<T> = ArrayBody(items: seq<T>) | NotArray

  /** One menu as the POS screen stores it. */
  datatype MenuEntry = MenuEntry(id: int, name: string, price: int, categoryId: Option<int>)

  /** The error thrown for a body that is not an array. */
  const NotArrayMessage := "서버 응답 형식이 올바르지 않습니다."

  /** The bucket for products without a category name. */
  const OtherBucket := "기타"

  /** The bucket of a product: its category name, or the default bucket
      when the name is missing or empty. */
  function BucketKey(p: ApiProduct): (k: string)
    ensures k != ""
    ensures (p.category.Some? && p.category.value.name.Some? && p.category.value.name.value != "") ==>
      k == p.category.value.name.value
    ensures !(p.category.Some? && p.category.value.name.Some? && p.category.value.name.value != "") ==>
      k == OtherBucket
  {
    match p.category
    case Some(Category(_, Some(n))) => if n == "" then OtherBucket else n
    case _ => OtherBucket
  }

  /** The menu entry of a product: `productId`, `productName`, `price` and
      the category id, renamed. */
  function Entry(p: ApiProduct): (e: MenuEntry)
    ensures e.id == p.productId && e.name == p.productName && e.price == p.price
    ensures e.categoryId == (if p.category.Some? then p.category.value.id else None)
  {
    MenuEntry(p.productId, p.productName, p.price,
      match p.category case Some(c) => c.id case None => None)
  }

  /** The reference meaning of bucket `k`: the entries of the products whose
      bucket is `k`, in response order. */
  function Bucket(ps: seq<ApiProduct>, k: string): seq<MenuEntry>
  {
    if ps == [] then [] else InBucket(ps[0], k) + Bucket(ps[1..], k)
  }

  /** A bucket is the filter of the products by their bucket key, mapped
      to entries. */
  lemma {:induction false} BucketIsFilterMap(ps: seq<ApiProduct>, k: string)
    ensures Bucket(ps, k) == Map(Filter(ps, KeyIs(k)), Entry)
  {
    if ps != [] {
      BucketIsFilterMap(ps[1..], k);
      var f := Filter(ps, KeyIs(k));
      assert f == (if BucketKey(ps[0]) == k then [ps[0]] else []) + Filter(ps[1..], KeyIs(k));
      assert Map(f, Entry) == InBucket(ps[0], k) + Map(Filter(ps[1..], KeyIs(k)), Entry);
    }
  }

  /** The test of `Bucket`: the product falls into bucket `k`. */
  function KeyIs(k: string): ApiProduct -> bool
  {
    (p: ApiProduct) => BucketKey(p) == k
  }

  /** The entry of `p` when its bucket is `k`, nothing otherwise. */
  function InBucket(p: ApiProduct, k: string): seq<MenuEntry>
  {
    if BucketKey(p) == k then [Entry(p)] else []
  }

  /** The buckets some product maps to. */
  function Keys(ps: seq<ApiProduct>): set<string>
  {
    set i | 0 <= i < |ps| :: BucketKey(ps[i])
  }

  lemma {:induction false} BucketSnoc(ps: seq<ApiProduct>, p: ApiProduct, k: string)
    ensures Bucket(ps + [p], k) == Bucket(ps, k) + InBucket(p, k)
  {
    if ps == [] {
      assert ps + [p] == [p];
      assert Bucket([p], k) == InBucket(p, k) + Bucket([], k);
    } else {
      var q := ps + [p];
      assert q[0] == ps[0];
      assert q[1..] == ps[1..] + [p];
      BucketSnoc(ps[1..], p, k);
      calc {
        Bucket(q, k);
        InBucket(ps[0], k) + Bucket(ps[1..] + [p], k);
        InBucket(ps[0], k) + (Bucket(ps[1..], k) + InBucket(p, k));
        (InBucket(ps[0], k) + Bucket(ps[1..], k)) + InBucket(p, k);
      }
    }
  }

  /** The properties every plain object `{}` inherits from
      `Object.prototype` in ECMAScript. Each is truthy, so a bucket under
      one of these names is never created as an array. */
  const InheritedKeys: set<string> := {"constructor", "hasOwnProperty", "isPrototypeOf",
    "propertyIsEnumerable", "toLocaleString", "toString", "valueOf", "__proto__",
    "__defineGetter__", "__defineSetter__", "__lookupGetter__", "__lookupSetter__"}

  /** The TypeError thrown by `push` on an inherited property, which the
      handler rethrows. */
  const PushNotAFunction := "categorizedMenus[categoryName].push is not a function"

  /** `getMenus`: a body that is not an array is rejected; a product whose
      bucket name is an inherited property of `{}` makes the `push` throw,
      and the call rejects; otherwise the result has exactly one bucket per
      category name that occurs (the default bucket for products without
      one), and each bucket holds the entries of its products in response
      order. */
  method GroupMenus(body: Body<ApiProduct>) returns (r: Result<map<string, seq<MenuEntry>>, string>)
    ensures body.NotArray? ==> r == Err(NotArrayMessage)
    ensures body.ArrayBody? ==> (r.Ok? <==> Keys(body.items) !! InheritedKeys)
    ensures body.ArrayBody? && r.Err? ==> r.error == PushNotAFunction
    ensures body.ArrayBody? && r.Ok? ==> r.value.Keys == Keys(body.items)
    ensures body.ArrayBody? && r.Ok? ==> forall k :: k in r.value ==> r.value[k] == Bucket(body.items, k)
  {
    if body.NotArray? {
      return Err(NotArrayMessage);
    }
    var ps := body.items;
    var m: map<string, seq<MenuEntry>> := map[];
    var i := 0;
    while i < |ps|
      invariant 0 <= i <= |ps|
      invariant m.Keys == Keys(ps[..i])
      invariant m.Keys !! InheritedKeys
      invariant forall k :: k in m ==> m[k] == Bucket(ps[..i], k)
    {
      var k := BucketKey(ps[i]);
      if k in InheritedKeys {
        assert k in Keys(ps);
        return Err(PushNotAFunction);
      }
      ghost var m0 := m;
      if k !in m {
        m := m[k := []];
      }
      m := m[k := m[k] + [Entry(ps[i])]];
      assert m == m0[k := (if k in m0 then m0[k] else []) + [Entry(ps[i])]];
      GroupStep(m0, ps[..i], ps[i]);
      assert ps[..i + 1] == ps[..i] + [ps[i]];
      i := i + 1;
    }
    assert ps[..i] == ps;
    return Ok(m);
  }

  lemma KeysSnoc(ps: seq<ApiProduct>, p: ApiProduct)
    ensures Keys(ps + [p]) == Keys(ps) + {BucketKey(p)}
  {
    var q := ps + [p];
    forall x | x in Keys(q)
      ensures x in Keys(ps) + {BucketKey(p)}
    {
      var j :| 0 <= j < |q| && BucketKey(q[j]) == x;
      if j < |ps| {
        assert q[j] == ps[j];
      }
    }
    forall x | x in Keys(ps) + {BucketKey(p)}
      ensures x in Keys(q)
    {
      if x == BucketKey(p) {
        assert q[|ps|] == p;
      } else {
        var j :| 0 <= j < |ps| && BucketKey(ps[j]) == x;
        assert q[j] == ps[j];
      }
    }
  }

  /** One step of the grouping loop: creating the bucket when it is
      missing and pushing the product's entry keeps the result equal to the
      reference buckets of the products seen so far. */
  lemma GroupStep(m: map<string, seq<MenuEntry>>, pre: seq<ApiProduct>, p: ApiProduct)
    requires m.Keys == Keys(pre)
    requires forall k :: k in m ==> m[k] == Bucket(pre, k)
    ensures var k := BucketKey(p);
      var m' := m[k := (if k in m then m[k] else []) + [Entry(p)]];
      && m'.Keys == Keys(pre + [p])
      && forall k' :: k' in m' ==> m'[k'] == Bucket(pre + [p], k')
  {
    var k := BucketKey(p);
    var m' := m[k := (if k in m then m[k] else []) + [Entry(p)]];
    KeysSnoc(pre, p);
    if k !in m {
      BucketNonEmptyIffKey(pre, k);
    }
    forall k' | k' in m'
      ensures m'[k'] == Bucket(pre + [p], k')
    {
      BucketSnoc(pre, p, k');
    }
  }

  /** A bucket is non-empty exactly when some product maps to it. */
  lemma {:induction false} BucketNonEmptyIffKey(ps: seq<ApiProduct>, k: string)
    ensures Bucket(ps, k) != [] <==> k in Keys(ps)
  {
    if ps != [] {
      BucketNonEmptyIffKey(ps[1..], k);
      if k in Keys(ps[1..]) {
        var j :| 0 <= j < |ps[1..]| && BucketKey(ps[1..][j]) == k;
        assert BucketKey(ps[j + 1]) == k;
      }
      if k in Keys(ps) && BucketKey(ps[0]) != k {
        var j :| 0 <= j < |ps| && BucketKey(ps[j]) == k;
        assert ps[1..][j - 1] == ps[j];
      }
    }
  }

  /** The number of products whose bucket is one of `ks`. */
  function CountIn(ps: seq<ApiProduct>, ks: seq<string>): nat
  {
    if ps == [] then 0 else (if BucketKey(ps[0]) in ks then 1 else 0) + CountIn(ps[1..], ks)
  }

  /** The number of entries in the buckets `ks`, added up. */
  function SumSizes(ps: seq<ApiProduct>, ks: seq<string>): nat
  {
    if ks == [] then 0 else |Bucket(ps, ks[0])| + SumSizes(ps, ks[1..])
  }

  lemma {:induction false} CountInSplit(ps: seq<ApiProduct>, ks: seq<string>)
    requires ks != [] && ks[0] !in ks[1..]
    ensures CountIn(ps, ks) == |Bucket(ps, ks[0])| + CountIn(ps, ks[1..])
  {
    if ps != [] {
      CountInSplit(ps[1..], ks);
      assert BucketKey(ps[0]) in ks <==> BucketKey(ps[0]) == ks[0] || BucketKey(ps[0]) in ks[1..];
    }
  }

  lemma {:induction false} SumSizesIsCount(ps: seq<ApiProduct>, ks: seq<string>)
    requires forall i, j :: 0 <= i < j < |ks| ==> ks[i] != ks[j]
    ensures SumSizes(ps, ks) == CountIn(ps, ks)
  {
    if ks == [] {
      CountInNone(ps);
    } else {
      SumSizesIsCount(ps, ks[1..]);
      CountInSplit(ps, ks);
    }
  }

  lemma {:induction false} CountInNone(ps: seq<ApiProduct>)
    ensures CountIn(ps, []) == 0
  {
    if ps != [] {
      CountInNone(ps[1..]);
    }
  }

  lemma {:induction false} CountInAll(ps: seq<ApiProduct>, ks: seq<string>)
    requires forall i :: 0 <= i < |ps| ==> BucketKey(ps[i]) in ks
    ensures CountIn(ps, ks) == |ps|
  {
    if ps != [] {
      CountInAll(ps[1..], ks);
    }
  }

  /** Every product lands in exactly one bucket: listing the buckets once
      each, in any order, their sizes add up to the number of products in
      the response. */
  lemma TotalItems(ps: seq<ApiProduct>, ks: seq<string>)
    requires forall i, j :: 0 <= i < j < |ks| ==> ks[i] != ks[j]
    requires forall k :: k in ks <==> k in Keys(ps)
    ensures SumSizes(ps, ks) == |ps|
  {
    SumSizesIsCount(ps, ks);
    CountInAll(ps, ks);
  }

  /** One `{productId, quantity}` entry of the order-creation request. */
  datatype OrderLine = OrderLine(productId: int, quantity: int)

  /** The order-creation request; `orderedAt` is the caller's clock
      reading as an ISO-8601 string. */
  datatype OrderRequest = OrderRequest(orderProducts: seq<OrderLine>, orderedAt: string)

  /** `createOrder`: one entry per cart line, in cart order, carrying the
      line's id as product id and its quantity. */
  function CreateOrderRequest(items: seq<Cart.CartLine>, now: string): (r: OrderRequest)
    ensures |r.orderProducts| == |items| && r.orderedAt == now
    ensures forall i :: 0 <= i < |items| ==>
      r.orderProducts[i] == OrderLine(items[i].id, items[i].quantity)
  {
    OrderRequest(OrderLines(items), now)
  }

  function OrderLines(items: seq<Cart.CartLine>): seq<OrderLine>
  {
    seq(|items|, i requires 0 <= i < |items| => OrderLine(items[i].id, items[i].quantity))
  }

  /** The number of items ordered. */
  function OrderedQuantity(ls: seq<OrderLine>): int
  {
    if ls == [] then 0 else ls[0].quantity + OrderedQuantity(ls[1..])
  }

  /** The request orders exactly as many items as the cart's quantity
      summary shows. */
  lemma {:induction false} OrderedQuantityIsCartCount(items: seq<Cart.CartLine>)
    ensures OrderedQuantity(OrderLines(items)) == Cart.QuantityCount(items)
  {
    if items != [] {
      assert OrderLines(items)[1..] == OrderLines(items[1..]);
      OrderedQuantityIsCartCount(items[1..]);
    }
  }

  /** How a request ended: the data of a successful response, or an error
      carrying the HTTP status when there was a response. */
  datatype HttpOutcome = Success | HttpError(status: Option<int>)

  /** A failed API call: the error as rethrown, with its `userMessage`
      (unset when `None`). */
  datatype ApiFailure = ApiFailure(status: Option<int>, userMessage: Option<string>)

  /** A password-change call: whether a request went out, and its result. */
  datatype PasswordCall = PasswordCall(requestSent: bool, result: Result<(), ApiFailure>)

  /** The status table of `changeMyPassword`. */
  function PasswordUserMessage(status: Option<int>): (m: Option<string>)
    ensures m.Some? <==> status.Some? && status.value in {400, 403, 404, 409, 422}
  {
    if status == Some(400) then Some("현재 비밀번호가 올바르지 않거나 형식이 맞지 않습니다.")
    else if status == Some(403) then Some("비밀번호를 변경할 권한이 없습니다.")
    else if status == Some(404) then Some("가게 정보를 찾을 수 없습니다.")
    else if status == Some(409) then Some("새 비밀번호가 정책에 맞지 않거나 최근 사용한 비밀번호입니다.")
    else if status == Some(422) then Some("입력 값 검증에 실패했습니다.")
    else None
  }

  /** `changeMyPassword`: with either password empty it fails before any
      request, and that failure has no status and no `userMessage`;
      otherwise the request goes out and a failure carries the status
      table's message for its status. */
  function ChangeMyPassword(currentPassword: string, newPassword: string, response: HttpOutcome): (r: PasswordCall)
    ensures (currentPassword == "" || newPassword == "") ==>
      r == PasswordCall(false, Err(ApiFailure(None, None)))
    ensures (currentPassword != "" && newPassword != "") ==> r.requestSent
    ensures (currentPassword != "" && newPassword != "" && response.Success?) ==> r.result.Ok?
    ensures (currentPassword != "" && newPassword != "" && response.HttpError?) ==>
      r.result == Err(ApiFailure(response.status, PasswordUserMessage(response.status)))
  {
    if currentPassword == "" || newPassword == "" then
      PasswordCall(false, Err(ApiFailure(None, PasswordUserMessage(None))))
    else
      match response
      case Success => PasswordCall(true, Ok(()))
      case HttpError(status) => PasswordCall(true, Err(ApiFailure(status, PasswordUserMessage(status))))
  }

  /** A field of the options object a caller passes: not there at all,
      present but `undefined`, or given. */
  datatype Field<T> = Absent | Undefined | Given(value: T)

  /** The options of a menu-analysis request. */
  datatype AnalysisOptions = AnalysisOptions(kind: Field<string>, period: Field<string>, limit: Field<int>)

  /** The query parameters actually sent. */
  datatype AnalysisParams = AnalysisParams(kind: string, period: string, limit: int)

  /** A destructuring default: it applies when the field is absent or
      `undefined`. */
  function OrDefault<T>(f: Field<T>, d: T): (r: T)
    ensures f.Given? ==> r == f.value
    ensures !f.Given? ==> r == d
  {
    if f.Given? then f.value else d
  }

  /** `getMenuAnalysis`: type `TOP`, period `DAILY` and limit 5 unless the
      caller gives them. */
  function MenuAnalysisParams(opts: AnalysisOptions): (r: AnalysisParams)
    ensures r.kind == (if opts.kind.Given? then opts.kind.value else "TOP")
    ensures r.period == (if opts.period.Given? then opts.period.value else "DAILY")
    ensures r.limit == (if opts.limit.Given? then opts.limit.value else 5)
  {
    AnalysisParams(OrDefault(opts.kind, "TOP"), OrDefault(opts.period, "DAILY"), OrDefault(opts.limit, 5))
  }

  /** An object spread of the options over a preset type: the caller's own
      `type` key, even an `undefined` one, wins. */
  function PresetKind(kind: string, opts: AnalysisOptions): (r: AnalysisOptions)
    ensures r.period == opts.period && r.limit == opts.limit
    ensures opts.kind.Absent? ==> r.kind == Given(kind)
    ensures !opts.kind.Absent? ==> r.kind == opts.kind
  {
    if opts.kind.Absent? then opts.(kind := Given(kind)) else opts
  }

  /** `getTopMenus`: the type is "TOP" unless the caller names one;
      period and limit pass through with their usual defaults. */
  function TopMenusParams(opts: AnalysisOptions): (r: AnalysisParams)
    ensures r.kind == (if opts.kind.Given? then opts.kind.value else "TOP")
    ensures r.period == MenuAnalysisParams(opts).period && r.limit == MenuAnalysisParams(opts).limit
  {
    MenuAnalysisParams(PresetKind("TOP", opts))
  }

  /** `getBottomMenus`: the type is "BOTTOM" unless the caller names
      one; an explicit `undefined` type falls back to "TOP". */
  function BottomMenusParams(opts: AnalysisOptions): (r: AnalysisParams)
    ensures opts.kind.Absent? ==> r.kind == "BOTTOM"
    ensures opts.kind.Undefined? ==> r.kind == "TOP"
    ensures opts.kind.Given? ==> r.kind == opts.kind.value
    ensures r.period == MenuAnalysisParams(opts).period && r.limit == MenuAnalysisParams(opts).limit
  {
    MenuAnalysisParams(PresetKind("BOTTOM", opts))
  }

  /** The status table of `getMenuAnalysis`. */
  function AnalysisUserMessage(status: Option<int>): (m: Option<string>)
    ensures m.Some? <==> status.Some? && (status.value in {400, 401, 403, 404} || status.value >= 500)
  {
    if status == Some(400) then Some("요청 파라미터가 올바르지 않습니다.")
    else if status == Some(401) then Some("인증이 만료되었습니다. 다시 로그인해주세요.")
    else if status == Some(403) then Some("접근 권한이 없습니다.")
    else if status == Some(404) then Some("분석 데이터를 찾을 수 없습니다.")
    else if status.Some? && status.value >= 500 then Some("서버 오류가 발생했습니다. 잠시 후 다시 시도하세요.")
    else None
  }

  /** A menu-analysis call: the parameters sent, and the data or the
      rethrown error with its `userMessage`. */
  function MenuAnalysis<D>(opts: AnalysisOptions, response: Result<D, Option<int>>): (r: (AnalysisParams, Result<D, ApiFailure>))
    ensures r.0 == MenuAnalysisParams(opts)
    ensures response.Ok? ==> r.1 == Ok(response.value)
    ensures response.Err? ==> r.1 == Err(ApiFailure(response.error, AnalysisUserMessage(response.error)))
  {
    (MenuAnalysisParams(opts),
     match response
     case Ok(d) => Ok(d)
     case Err(status) => Err(ApiFailure(status, AnalysisUserMessage(status))))
  }
}
