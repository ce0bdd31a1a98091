/** Orders as the store's REST API returns them, and the order editor's
    quantity change and save payload, which the POS screen and the order
    history page implement identically. */
module Orders {
  import opened Base

  /** A product inside an order line; `price` is `None` when it is not a
      number. */
  datatype Product = Product(productId: int, productName: string, price: Option<int>)

  /** One line of an order; `quantity` is `None` when it is missing. */
  datatype OrderProduct = OrderProduct(product: Product, quantity: Option<int>)

  /** An order; `orderedAt` is the order time in milliseconds (`None` when
      the timestamp does not parse), `totalPrice` is `None` when null or
      absent, and `orderProducts` is `None` when absent. */
  datatype Order = Order(
    orderId: int,
    orderedAt: Option<int>,
    totalPrice: Option<int>,
    orderProducts: Option<seq<OrderProduct>>)

  /** One `{productId, quantity}` entry of an order-update request. */
  datatype PayloadLine = PayloadLine(productId: int, quantity: Option<int>)

  predicate HasId(p: OrderProduct, productId: int) { p.product.productId == productId }

  /** The lines of `ps` for other products than `productId`, in order. */
  function WithoutProduct(ps: seq<OrderProduct>, productId: int): (r: seq<OrderProduct>)
    ensures forall i :: 0 <= i < |r| ==> !HasId(r[i], productId) && r[i] in ps
    ensures forall i :: 0 <= i < |ps| && !HasId(ps[i], productId) ==> ps[i] in r
  {
    Filter(ps, p => !HasId(p, productId))
  }

  /** `updateOrderProductQuantity`: a quantity of zero or less removes the
      product; any other value becomes the quantity of every line of that
      product. */
  function SetProductQuantity(ps: seq<OrderProduct>, productId: int, newQuantity: int): (r: seq<OrderProduct>)
    ensures newQuantity > 0 ==>
      && |r| == |ps|
      && (forall i :: 0 <= i < |ps| ==> r[i].product == ps[i].product)
      && (forall i :: 0 <= i < |ps| && HasId(ps[i], productId) ==> r[i].quantity == Some(newQuantity))
      && (forall i :: 0 <= i < |ps| && !HasId(ps[i], productId) ==> r[i] == ps[i])
    ensures newQuantity <= 0 ==>
      && (forall i :: 0 <= i < |r| ==> !HasId(r[i], productId) && r[i] in ps)
      && (forall i :: 0 <= i < |ps| && !HasId(ps[i], productId) ==> ps[i] in r)
  {
    if newQuantity <= 0 then
      WithoutProduct(ps, productId)
    else
      seq(|ps|, i requires 0 <= i < |ps| =>
        if HasId(ps[i], productId) then ps[i].(quantity := Some(newQuantity)) else ps[i])
  }

  /** The body of the order-update request (`saveOrderEdit`): one entry
      per line, in order. */
  function EditPayload(ps: seq<OrderProduct>): (r: seq<PayloadLine>)
    ensures |r| == |ps|
    ensures forall i :: 0 <= i < |ps| ==>
      r[i].productId == ps[i].product.productId && r[i].quantity == ps[i].quantity
  {
    seq(|ps|, i requires 0 <= i < |ps| => PayloadLine(ps[i].product.productId, ps[i].quantity))
  }

  /** A quantity of zero or less removes exactly the lines of that
      product. */
  lemma {:induction false} SetNonPositiveQuantity(ps: seq<OrderProduct>, productId: int, q: int)
    requires q <= 0
    ensures |SetProductQuantity(ps, productId, q)| == |ps| - CountProduct(ps, productId)
  {
    if ps != [] {
      SetNonPositiveQuantity(ps[1..], productId, q);
    }
  }

  /** How many lines of `ps` are for `productId`. */
  function CountProduct(ps: seq<OrderProduct>, productId: int): nat
  {
    if ps == [] then 0 else (if HasId(ps[0], productId) then 1 else 0) + CountProduct(ps[1..], productId)
  }

  /** After a positive change the save payload asks for exactly the new
      quantity for that product and repeats every other line unchanged;
      after a removal the payload no longer names the product. */
  lemma PayloadAfterEdit(ps: seq<OrderProduct>, productId: int, q: int)
    ensures var pl := EditPayload(SetProductQuantity(ps, productId, q));
      && (q > 0 ==>
            |pl| == |ps|
            && forall i :: 0 <= i < |ps| ==>
                 pl[i].productId == ps[i].product.productId
                 && pl[i].quantity == (if HasId(ps[i], productId) then Some(q) else ps[i].quantity))
      && (q <= 0 ==> forall i :: 0 <= i < |pl| ==> pl[i].productId != productId)
  {
  }
}
