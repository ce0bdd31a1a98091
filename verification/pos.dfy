/** The POS screen: the cart, the payment step, the order editor, the
    price adjusters of the menu forms and the preparation of the category
    and menu edit forms. Server replies are parameters of the handlers. */
module Pos {
  import opened Base
  import opened Text
  import opened Cart
  import Orders
  import StoreApi

  /** A category of the store. */
  datatype CategoryRow = CategoryRow(id: int, name: string)

  /** One entry of the menu edit form; a part that was never set is
      `None`. */
  datatype MenuEdit = MenuEdit(name: Option<string>, price: Option<int>, categoryId: Option<int>)

  const EmptyCartNotice := "주문할 상품을 선택해주세요."
  const PaidNotice := "주문이 완료되었습니다!"
  const PaymentFailedNotice := "결제에 실패했습니다."

  /** `Math.max(0, x)`. */
  function Clamp0(x: int): (r: nat)
    ensures r >= 0 && r >= x
    ensures r == x || r == 0
  {
    if x < 0 then 0 else x
  }

  /** The new-menu form's price after `adjustPrice(value)`: the price read
      with `parseInt` (0 when it does not parse), moved by `value`, floored
      at 0 and written back as text the way `String` writes it: digits
      with no leading zero. */
  function AdjustedPriceText(price: string, value: int): (r: string)
    ensures ParseInt(r) == Some(AdjustedPrice(price, value))
    ensures AllDigits(r) && |r| >= 1
    ensures r == "0" || r[0] != '0'
  {
    ParseIntOfIntToString(AdjustedPrice(price, value));
    NatToString(AdjustedPrice(price, value))
  }

  /** The number the adjusters write back. */
  function AdjustedPrice(price: string, value: int): (r: nat)
    ensures r == Clamp0(ParseIntOrZero(price) + value)
  {
    Clamp0(ParseIntOrZero(price) + value)
  }

  /** Raising the price and lowering it by the same step gives back the
      price as written by the adjusters, whenever it was not negative. */
  lemma AdjustPriceUpDown(price: string, step: nat)
    requires ParseIntOrZero(price) >= 0
    ensures AdjustedPriceText(AdjustedPriceText(price, step), -(step as int)) == NatToString(ParseIntOrZero(price))
  {
    var p := ParseIntOrZero(price);
    var up := AdjustedPriceText(price, step);
    assert AdjustedPrice(price, step) == p + step;
    assert ParseIntOrZero(up) == p + step;
    assert AdjustedPrice(up, -(step as int)) == p;
  }

  /** The edit-form entry after `adjustEditPrice(value)`: the stored price
      (0 when missing) moved by `value` and floored at 0; the name and the
      category of the entry stay, and a missing entry gets only a price. */
  function AdjustedEdit(prev: Option<MenuEdit>, value: int): (r: MenuEdit)
    ensures r.price.Some? && r.price.value >= 0
    ensures prev.None? ==> r == MenuEdit(None, Some(Clamp0(value)), None)
    ensures prev.Some? ==> r.name == prev.value.name && r.categoryId == prev.value.categoryId
    ensures prev.Some? ==> r.price == Some(Clamp0(prev.value.price.GetOr(0) + value))
  {
    match prev
    case None => MenuEdit(None, Some(Clamp0(0 + value)), None)
    case Some(e) => e.(price := Some(Clamp0(e.price.GetOr(0) + value)))
  }

  /** The id of the first category with that name, if any. */
  function FindCategoryId(cs: seq<CategoryRow>, name: string): (r: Option<int>)
    ensures r.None? <==> forall i :: 0 <= i < |cs| ==> cs[i].name != name
    ensures r.Some? ==>
      exists i :: 0 <= i < |cs| && cs[i].name == name && cs[i].id == r.value
        && forall j :: 0 <= j < i ==> cs[j].name != name
  {
    if cs == [] then None
    else if cs[0].name == name then Some(cs[0].id)
    else
      var r := FindCategoryId(cs[1..], name);
      if r.Some? then
        assert forall j :: 1 <= j < |cs| ==> cs[j] == cs[1..][j - 1];
        r
      else r
  }

  /** The edit-form entry of a menu: its name, its price and its category
      id, or, when that is missing or 0, the id of the first category named
      like the selected one. */
  function EditOf(item: StoreApi.MenuEntry, cs: seq<CategoryRow>, selected: string): (r: MenuEdit)
    ensures r.name == Some(item.name) && r.price == Some(item.price)
    ensures item.categoryId.Some? && item.categoryId.value != 0 ==> r.categoryId == item.categoryId
    ensures !(item.categoryId.Some? && item.categoryId.value != 0) ==> r.categoryId == FindCategoryId(cs, selected)
  {
    MenuEdit(Some(item.name), Some(item.price),
      if item.categoryId.Some? && item.categoryId.value != 0 then item.categoryId else FindCategoryId(cs, selected))
  }

  /** The menus listed under a category, none when it is unknown. */
  function CategoryMenus(menus: map<string, seq<StoreApi.MenuEntry>>, category: string): seq<StoreApi.MenuEntry>
  {
    if category in menus then menus[category] else []
  }

  /** `cs[i]` is the last category with its id. */
  predicate LastWithId(cs: seq<CategoryRow>, i: int)
    requires 0 <= i < |cs|
  {
    forall j :: i < j < |cs| ==> cs[j].id != cs[i].id
  }

  /** `ms[i]` is the last named menu with its id. */
  predicate LastNamedWithId(ms: seq<StoreApi.MenuEntry>, i: int)
    requires 0 <= i < |ms|
  {
    forall j :: i < j < |ms| && ms[j].name != "" ==> ms[j].id != ms[i].id
  }

  class PosScreen {
    var orderItems: seq<CartLine>
    var completedOrder: Option<int>
    var orders: seq<Orders.Order>
    var editingOrder: Option<Orders.Order>
    var categories: seq<CategoryRow>
    var menuItems: map<string, seq<StoreApi.MenuEntry>>
    var selectedCategory: string
    var newMenuName: string
    var newMenuPrice: string
    var newMenuCategoryId: string
    var editingCategories: map<int, string>
    var editingMenus: map<int, MenuEdit>

    /** The cart keeps its invariant and an order under edit has its
        product lines. */
    ghost predicate Valid()
      reads this
    {
      CartOk(orderItems) && (editingOrder.Some? ==> editingOrder.value.orderProducts.Some?)
    }

    constructor()
      ensures Valid()
      ensures orderItems == [] && completedOrder.None? && orders == [] && editingOrder.None?
      ensures categories == [] && menuItems == map[] && selectedCategory == ""
      ensures newMenuName == "" && newMenuPrice == "" && newMenuCategoryId == ""
      ensures editingCategories == map[] && editingMenus == map[]
    {
      orderItems := [];
      completedOrder := None;
      orders := [];
      editingOrder := None;
      categories := [];
      menuItems := map[];
      selectedCategory := "";
      newMenuName := "";
      newMenuPrice := "";
      newMenuCategoryId := "";
      editingCategories := map[];
      editingMenus := map[];
    }

    /** `handleMenuClick`: merge by name, or append a line. */
    method HandleMenuClick(item: StoreApi.MenuEntry)
      requires Valid()
      modifies this`orderItems
      ensures Valid()
      ensures orderItems == AddByName(old(orderItems), item.id, item.name, item.price)
    {
      orderItems := AddByName(orderItems, item.id, item.name, item.price);
    }

    /** `increaseQuantity`. */
    method IncreaseQuantity(id: int)
      requires Valid()
      modifies this`orderItems
      ensures Valid()
      ensures orderItems == Increase(old(orderItems), id)
    {
      orderItems := Increase(orderItems, id);
    }

    /** `decreaseQuantity`. */
    method DecreaseQuantity(id: int)
      requires Valid()
      modifies this`orderItems
      ensures Valid()
      ensures orderItems == Decrease(old(orderItems), id)
      ensures orderItems == Filter(Map(old(orderItems), LowerIf(id)), InCart)
    {
      DecreaseKeepsCartOk(orderItems, id);
      DecreaseKeepsLines(orderItems, id);
      orderItems := Decrease(orderItems, id);
    }

    /** `removeOrderItem`. */
    method RemoveOrderItem(id: int)
      requires Valid()
      modifies this`orderItems
      ensures Valid()
      ensures orderItems == Remove(old(orderItems), id)
      ensures orderItems == Filter(old(orderItems), OtherId(id))
    {
      RemoveKeepsCartOk(orderItems, id);
      RemoveKeepsOthers(orderItems, id);
      orderItems := Remove(orderItems, id);
    }

    /** `calculateTotal`: the amount shown next to the payment button is
        what the cart is worth. */
    function CalculateTotal(): (r: int)
      reads this
      requires Valid()
      ensures r == Revenue(orderItems)
    {
      GrandTotalIsRevenue(orderItems);
      GrandTotal(orderItems)
    }

    /** `handlePayment`: an empty cart is refused before any request; a
        non-empty cart is sent as one order, and only a successful reply
        (the created order, `None` for a failed request) empties the cart. */
    method HandlePayment(now: string, reply: Option<int>) returns (request: Option<StoreApi.OrderRequest>, notice: string)
      requires Valid()
      modifies this`orderItems, this`completedOrder
      ensures Valid()
      ensures old(orderItems) == [] ==>
        request.None? && notice == EmptyCartNotice
        && orderItems == [] && completedOrder == old(completedOrder)
      ensures old(orderItems) != [] ==> request == Some(StoreApi.CreateOrderRequest(old(orderItems), now))
      ensures old(orderItems) != [] && reply.Some? ==>
        orderItems == [] && completedOrder == reply && notice == PaidNotice
      ensures old(orderItems) != [] && reply.None? ==>
        orderItems == old(orderItems) && completedOrder == old(completedOrder) && notice == PaymentFailedNotice
    {
      if orderItems == [] {
        return None, EmptyCartNotice;
      }
      request := Some(StoreApi.CreateOrderRequest(orderItems, now));
      if reply.Some? {
        completedOrder := reply;
        orderItems := [];
        notice := PaidNotice;
      } else {
        notice := PaymentFailedNotice;
      }
    }

    /** `startEditOrder`: a copy of the order becomes the order under
        edit; an order without product lines makes the handler throw
        before any change. */
    method StartEditOrder(order: Orders.Order)
      requires Valid()
      modifies this`editingOrder
      ensures Valid()
      ensures order.orderProducts.Some? ==> editingOrder == Some(order)
      ensures order.orderProducts.None? ==> editingOrder == old(editingOrder)
    {
      if order.orderProducts.Some? {
        editingOrder := Some(order);
      }
    }

    /** `cancelEditOrder`. */
    method CancelEditOrder()
      requires Valid()
      modifies this`editingOrder
      ensures Valid()
      ensures editingOrder.None?
    {
      editingOrder := None;
    }

    /** `updateOrderProductQuantity` on the order under edit. */
    method UpdateOrderProductQuantity(productId: int, newQuantity: int)
      requires Valid() && editingOrder.Some?
      modifies this`editingOrder
      ensures Valid() && editingOrder.Some?
      ensures editingOrder.value == old(editingOrder.value).(orderProducts :=
        Some(Orders.SetProductQuantity(old(editingOrder.value.orderProducts.value), productId, newQuantity)))
    {
      var o := editingOrder.value;
      editingOrder := Some(o.(orderProducts := Some(Orders.SetProductQuantity(o.orderProducts.value, productId, newQuantity))));
    }

    /** `saveOrderEdit`: with an order under edit, its id and one payload
        line per remaining product line are sent; a successful update
        reloads the orders (when the reload succeeds) and closes the
        editor, a failed one changes nothing. Without an order under edit
        the handler fails before sending. */
    method SaveOrderEdit(updated: bool, reloaded: Option<seq<Orders.Order>>)
      returns (request: Option<(int, seq<Orders.PayloadLine>)>)
      requires Valid()
      modifies this`editingOrder, this`orders
      ensures Valid()
      ensures old(editingOrder).None? ==> request.None? && editingOrder.None? && orders == old(orders)
      ensures old(editingOrder).Some? ==>
        request == Some((old(editingOrder).value.orderId, Orders.EditPayload(old(editingOrder).value.orderProducts.value)))
      ensures old(editingOrder).Some? && updated ==>
        editingOrder.None? && orders == (if reloaded.Some? then reloaded.value else old(orders))
      ensures old(editingOrder).Some? && !updated ==> editingOrder == old(editingOrder) && orders == old(orders)
    {
      if editingOrder.None? {
        return None;
      }
      var o := editingOrder.value;
      request := Some((o.orderId, Orders.EditPayload(o.orderProducts.value)));
      if updated {
        if reloaded.Some? {
          orders := reloaded.value;
        }
        editingOrder := None;
      }
    }

    /** `adjustPrice` on the new-menu form; the name and category stay. */
    method AdjustPrice(value: int)
      requires Valid()
      modifies this`newMenuPrice
      ensures Valid()
      ensures newMenuPrice == AdjustedPriceText(old(newMenuPrice), value)
    {
      newMenuPrice := AdjustedPriceText(newMenuPrice, value);
    }

    /** `adjustEditPrice` on one entry of the menu edit form. */
    method AdjustEditPrice(itemId: int, value: int)
      requires Valid()
      modifies this`editingMenus
      ensures Valid()
      ensures editingMenus == old(editingMenus)[itemId :=
        AdjustedEdit(if itemId in old(editingMenus) then Some(old(editingMenus)[itemId]) else None, value)]
    {
      var prev := if itemId in editingMenus then Some(editingMenus[itemId]) else None;
      editingMenus := editingMenus[itemId := AdjustedEdit(prev, value)];
    }

    /** The price typed into the menu edit form: `parseInt` of the text, 0
        when it does not parse. Unlike the buttons, a typed negative number
        is kept. */
    method TypeEditPrice(itemId: int, text: string)
      requires Valid()
      modifies this`editingMenus
      ensures Valid()
      ensures editingMenus == old(editingMenus)[itemId :=
        (if itemId in old(editingMenus) then old(editingMenus)[itemId] else MenuEdit(None, None, None))
          .(price := Some(ParseIntOrZero(text)))]
    {
      var prev := if itemId in editingMenus then editingMenus[itemId] else MenuEdit(None, None, None);
      editingMenus := editingMenus[itemId := prev.(price := Some(ParseIntOrZero(text)))];
    }

    /** `initializeEditCategories`: one entry per category id, holding the
        name of the last category with that id. */
    method InitializeEditCategories()
      requires Valid()
      modifies this`editingCategories
      ensures Valid()
      ensures editingCategories.Keys == set i | 0 <= i < |categories| :: categories[i].id
      ensures forall i :: 0 <= i < |categories| && LastWithId(categories, i) ==>
        editingCategories[categories[i].id] == categories[i].name
    {
      var cs := categories;
      var editData: map<int, string> := map[];
      var n := 0;
      while n < |cs|
        invariant 0 <= n <= |cs|
        invariant editData.Keys == set i | 0 <= i < n :: cs[i].id
        invariant forall i :: 0 <= i < n && (forall j :: i < j < n ==> cs[j].id != cs[i].id) ==>
          editData[cs[i].id] == cs[i].name
      {
        editData := editData[cs[n].id := cs[n].name];
        n := n + 1;
      }
      editingCategories := editData;
    }

    /** `initializeEditMenus`: one entry per named menu of the selected
        category, keyed by menu id, holding the last such menu's edit entry;
        unnamed menus are skipped. */
    method InitializeEditMenus()
      requires Valid()
      modifies this`editingMenus
      ensures Valid()
      ensures var ms := CategoryMenus(menuItems, selectedCategory);
        editingMenus.Keys == set i | 0 <= i < |ms| && ms[i].name != "" :: ms[i].id
      ensures var ms := CategoryMenus(menuItems, selectedCategory);
        forall i :: 0 <= i < |ms| && ms[i].name != "" && LastNamedWithId(ms, i) ==>
          editingMenus[ms[i].id] == EditOf(ms[i], categories, selectedCategory)
    {
      var ms := CategoryMenus(menuItems, selectedCategory);
      var current: map<int, MenuEdit> := map[];
      var n := 0;
      while n < |ms|
        invariant 0 <= n <= |ms|
        invariant current.Keys == set i | 0 <= i < n && ms[i].name != "" :: ms[i].id
        invariant forall i :: 0 <= i < n && ms[i].name != "" && (forall j :: i < j < n && ms[j].name != "" ==> ms[j].id != ms[i].id) ==>
          current[ms[i].id] == EditOf(ms[i], categories, selectedCategory)
      {
        if ms[n].name != "" {
          current := current[ms[n].id := EditOf(ms[n], categories, selectedCategory)];
        }
        n := n + 1;
      }
      editingMenus := current;
    }
  }
}
