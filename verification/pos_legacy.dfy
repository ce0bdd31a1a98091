/** The older POS screen: the same cart, a fixed list of five categories
    with a local menu catalogue, adding and deleting menus, the new-menu
    price adjuster and the inline price editor. Fresh ids (the clock
    reading the screen uses as an id) are parameters. */
module PosLegacy {
  import opened Base
  import opened Text
  import opened Cart
  import Pos

  /** A menu price as the catalogue holds it: a number, `null` (the empty
      slot) or `NaN` (a price text `parseInt` could not read). */
  datatype Price = Num(n: int) | Null | NaN

  /** A catalogue entry; an empty name marks an empty slot. */
  datatype MenuItem = MenuItem(id: int, name: string, price: Price)

  const Rice := "밥류"

  /** The five categories of the catalogue. */
  const CategorySet: set<string> := {"밥류", "국물요리", "음료", "주류", "디저트"}

  /** The catalogue the screen starts with: exactly the five categories;
      under rice eleven named menus with non-negative prices and distinct
      ids 1 to 11, then one empty slot; nothing elsewhere. */
  function InitialMenu(): (r: map<string, seq<MenuItem>>)
    ensures r.Keys == CategorySet
    ensures var rice := r[Rice];
      && |rice| == 12
      && (forall i :: 0 <= i < |rice| ==> rice[i].id == i + 1)
      && (forall i :: 0 <= i < 11 ==> rice[i].name != "" && rice[i].price.Num? && rice[i].price.n >= 0)
      && rice[11].name == "" && rice[11].price.Null?
    ensures forall c :: c in r && c != Rice ==> r[c] == []
  {
    map["밥류" := [
          MenuItem(1, "짜장면", Num(6000)), MenuItem(2, "짬뽕", Num(7000)),
          MenuItem(3, "우동", Num(5500)), MenuItem(4, "냉면", Num(8000)),
          MenuItem(5, "비빔면", Num(6500)), MenuItem(6, "해물스파", Num(8500)),
          MenuItem(7, "전치국수", Num(8000)), MenuItem(8, "탕국수", Num(9000)),
          MenuItem(9, "스파게티", Num(12000)), MenuItem(10, "돈연", Num(8500)),
          MenuItem(11, "불닭", Num(2000)), MenuItem(12, "", Null)],
        "국물요리" := [], "음료" := [], "주류" := [], "디저트" := []]
  }

  /** The number a clicked menu's price puts into a cart line: `null`
      counts as 0, which is what JavaScript arithmetic makes of it; a `NaN`
      price also leaves 0 in the line, and the screen records separately
      (`nanNames`) that the line's price and total are `NaN`. */
  function PriceValue(p: Price): (r: int)
    ensures p.Num? ==> r == p.n
    ensures !p.Num? ==> r == 0
  {
    match p
    case Num(n) => n
    case _ => 0
  }

  /** The "−100" button of the price editor: floored at 0; `null` becomes
      0 and `NaN` stays `NaN`. */
  function PriceDown(p: Price): (r: Price)
    ensures p.Num? ==> r == Num(Pos.Clamp0(p.n - 100))
    ensures p.Null? ==> r == Num(0)
    ensures p.NaN? ==> r == NaN
    ensures r.Num? ==> r.n >= 0
  {
    match p
    case Num(n) => Num(Pos.Clamp0(n - 100))
    case Null => Num(Pos.Clamp0(0 - 100))
    case NaN => NaN
  }

  /** The "+100" button: exactly 100 more; `null` becomes 100 and `NaN`
      stays `NaN`. */
  function PriceUp(p: Price): (r: Price)
    ensures p.Num? ==> r == Num(p.n + 100)
    ensures p.Null? ==> r == Num(100)
    ensures p.NaN? ==> r == NaN
  {
    match p
    case Num(n) => Num(n + 100)
    case Null => Num(0 + 100)
    case NaN => NaN
  }

  /** Down after up gives a non-negative price back. */
  lemma PriceUpDown(p: Price)
    requires p.Num? && p.n >= 0
    ensures PriceDown(PriceUp(p)) == p
  {
  }

  /** The price typed into the editor: `parseInt` of the text, 0 when it
      does not parse. */
  function TypedPrice(text: string): (r: Price)
    ensures r == Num(ParseIntOrZero(text))
  {
    Num(ParseInt(text).GetOr(0))
  }

  /** The price `handleAddMenu` stores: `parseInt` of the text, `NaN` when
      it does not parse. */
  function ParsedPrice(text: string): (r: Price)
    ensures ParseInt(text).Some? ==> r == Num(ParseInt(text).value)
    ensures ParseInt(text).None? ==> r == NaN
  {
    match ParseInt(text)
    case Some(v) => Num(v)
    case None => NaN
  }

  /** Every menu of the list with that id gets `f` applied to its price;
      every other menu stays. */
  function MapPrice(ms: seq<MenuItem>, id: int, f: Price -> Price): (r: seq<MenuItem>)
    ensures |r| == |ms|
    ensures forall i :: 0 <= i < |ms| && ms[i].id == id ==> r[i] == ms[i].(price := f(ms[i].price))
    ensures forall i :: 0 <= i < |ms| && ms[i].id != id ==> r[i] == ms[i]
  {
    seq(|ms|, i requires 0 <= i < |ms| => if ms[i].id == id then ms[i].(price := f(ms[i].price)) else ms[i])
  }

  /** In the editor, "+100" then "−100" on one menu gives the list back
      when that menu's prices are non-negative numbers. */
  lemma {:induction false} EditorUpDown(ms: seq<MenuItem>, id: int)
    requires forall i :: 0 <= i < |ms| && ms[i].id == id ==> ms[i].price.Num? && ms[i].price.n >= 0
    ensures MapPrice(MapPrice(ms, id, PriceUp), id, PriceDown) == ms
  {
    var r := MapPrice(MapPrice(ms, id, PriceUp), id, PriceDown);
    forall i | 0 <= i < |ms|
      ensures r[i] == ms[i]
    {
      if ms[i].id == id {
        PriceUpDown(ms[i].price);
      }
    }
  }

  /** `handleDeleteMenu`'s `filter` test: a menu of another id stays. */
  function OtherMenu(id: int): MenuItem -> bool
  {
    (m: MenuItem) => m.id != id
  }

  /** The menus of a list without those with that id: the source's
      `filter`, so every other menu is kept in its order and number. */
  function WithoutMenu(ms: seq<MenuItem>, id: int): (r: seq<MenuItem>)
    ensures r == Filter(ms, OtherMenu(id))
    ensures |r| <= |ms|
    ensures forall i :: 0 <= i < |r| ==> r[i].id != id && r[i] in ms
    ensures forall i :: 0 <= i < |ms| && ms[i].id != id ==> ms[i] in r
  {
    if ms == [] then []
    else if ms[0].id == id then WithoutMenu(ms[1..], id)
    else [ms[0]] + WithoutMenu(ms[1..], id)
  }

  class LegacyPos {
    var selectedCategory: string
    var orderItems: seq<CartLine>
    /** The names of the cart lines whose unit price is `NaN`: such a line
        holds 0 in `orderItems`, and JavaScript holds `NaN` in its price
        and total. Names identify lines, since a name has at most one. */
    var nanNames: set<string>
    var menuItems: map<string, seq<MenuItem>>
    var newName: string
    var newPrice: string
    var newCategory: string
    var showAddModal: bool

    /** The cart keeps its invariant, the catalogue has exactly the five
        categories, and the selected and the form's category are among
        them. */
    ghost predicate Valid()
      reads this
    {
      CartOk(orderItems) && menuItems.Keys == CategorySet
      && selectedCategory in CategorySet && newCategory in CategorySet
    }

    constructor()
      ensures Valid()
      ensures selectedCategory == Rice && orderItems == [] && nanNames == {} && menuItems == InitialMenu()
      ensures newName == "" && newPrice == "" && newCategory == Rice && !showAddModal
    {
      selectedCategory := Rice;
      orderItems := [];
      nanNames := {};
      menuItems := InitialMenu();
      newName := "";
      newPrice := "";
      newCategory := Rice;
      showAddModal := false;
    }

    /** A category button. */
    method SelectCategory(category: string)
      requires Valid() && category in CategorySet
      modifies this`selectedCategory
      ensures Valid() && selectedCategory == category
    {
      selectedCategory := category;
    }

    /** Some line of the cart has a `NaN` price and total. */
    predicate HasNaNLine()
      reads this
    {
      exists i :: 0 <= i < |orderItems| && orderItems[i].name in nanNames
    }

    /** `handleMenuClick`: an empty slot changes nothing; a named menu is
        merged by name, or appended as a new line under a fresh id, a line
        whose price and total are `NaN` when the menu's price is. Raising
        an existing line keeps that line's own price. */
    method HandleMenuClick(item: MenuItem, freshId: int)
      requires Valid()
      modifies this`orderItems, this`nanNames
      ensures Valid()
      ensures item.name == "" ==> orderItems == old(orderItems) && nanNames == old(nanNames)
      ensures item.name != "" ==>
        orderItems == AddByName(old(orderItems), freshId, item.name, PriceValue(item.price))
      ensures item.name != "" && !HasName(old(orderItems), item.name) ==>
        nanNames == (if item.price.NaN? then old(nanNames) + {item.name} else old(nanNames) - {item.name})
      ensures HasName(old(orderItems), item.name) ==> nanNames == old(nanNames)
      ensures item.name != "" && item.price.NaN? && !HasName(old(orderItems), item.name) ==> HasNaNLine()
    {
      if item.name == "" {
        return;
      }
      if !HasName(orderItems, item.name) {
        nanNames := if item.price.NaN? then nanNames + {item.name} else nanNames - {item.name};
      }
      orderItems := AddByName(orderItems, freshId, item.name, PriceValue(item.price));
      if item.price.NaN? && !HasName(old(orderItems), item.name) {
        assert orderItems[|old(orderItems)|].name in nanNames;
      }
    }

    /** `increaseQuantity`. */
    method IncreaseQuantity(id: int)
      requires Valid()
      modifies this`orderItems
      ensures Valid()
      ensures orderItems == Increase(old(orderItems), id)
    {
      orderItems := Increase(orderItems, id);
    }

    /** `decreaseQuantity`. */
    method DecreaseQuantity(id: int)
      requires Valid()
      modifies this`orderItems
      ensures Valid()
      ensures orderItems == Decrease(old(orderItems), id)
      ensures orderItems == Filter(Map(old(orderItems), LowerIf(id)), InCart)
    {
      DecreaseKeepsCartOk(orderItems, id);
      DecreaseKeepsLines(orderItems, id);
      orderItems := Decrease(orderItems, id);
    }

    /** `removeOrderItem`. */
    method RemoveOrderItem(id: int)
      requires Valid()
      modifies this`orderItems
      ensures Valid()
      ensures orderItems == Remove(old(orderItems), id)
      ensures orderItems == Filter(old(orderItems), OtherId(id))
    {
      RemoveKeepsCartOk(orderItems, id);
      RemoveKeepsOthers(orderItems, id);
      orderItems := Remove(orderItems, id);
    }

    /** `calculateTotal`: `NaN` (`None`) while some line has a `NaN`
        price, otherwise what the cart is worth. */
    function CalculateTotal(): (r: Option<int>)
      reads this
      requires Valid()
      ensures r.None? <==> HasNaNLine()
      ensures r.Some? ==> r.value == Revenue(orderItems)
    {
      GrandTotalIsRevenue(orderItems);
      if HasNaNLine() then None else Some(GrandTotal(orderItems))
    }

    /** The new-menu form's inputs. */
    method EditNewMenu(name: string, price: string, category: string)
      requires Valid() && category in CategorySet
      modifies this`newName, this`newPrice, this`newCategory
      ensures Valid()
      ensures newName == name && newPrice == price && newCategory == category
    {
      newName, newPrice, newCategory := name, price, category;
    }

    /** `handleAddMenu`: unless both name and price text are non-empty
        nothing happens; otherwise the new menu goes to the end of the
        chosen category under a fresh id, no other category changes, the
        form resets to an empty rice menu and the dialog closes. */
    method HandleAddMenu(freshId: int)
      requires Valid()
      modifies this`menuItems, this`newName, this`newPrice, this`newCategory, this`showAddModal
      ensures Valid()
      ensures (old(newName) == "" || old(newPrice) == "") ==>
        menuItems == old(menuItems) && newName == old(newName) && newPrice == old(newPrice)
        && newCategory == old(newCategory) && showAddModal == old(showAddModal)
      ensures old(newName) != "" && old(newPrice) != "" ==>
        && menuItems == old(menuItems)[old(newCategory) :=
             old(menuItems)[old(newCategory)] + [MenuItem(freshId, old(newName), ParsedPrice(old(newPrice)))]]
        && newName == "" && newPrice == "" && newCategory == Rice && !showAddModal
    {
      if newName != "" && newPrice != "" {
        var item := MenuItem(freshId, newName, ParsedPrice(newPrice));
        menuItems := menuItems[newCategory := menuItems[newCategory] + [item]];
        newName, newPrice, newCategory := "", "", Rice;
        showAddModal := false;
      }
    }

    /** `handleDeleteMenu`: the menus with that id leave the given
        category; the other categories stay. */
    method HandleDeleteMenu(itemId: int, category: string)
      requires Valid() && category in CategorySet
      modifies this`menuItems
      ensures Valid()
      ensures menuItems == old(menuItems)[category := WithoutMenu(old(menuItems)[category], itemId)]
      ensures menuItems[category] == Filter(old(menuItems)[category], OtherMenu(itemId))
    {
      menuItems := menuItems[category := WithoutMenu(menuItems[category], itemId)];
    }

    /** `adjustPrice` on the new-menu form, the same rule as the current
        screen's. */
    method AdjustPrice(value: int)
      requires Valid()
      modifies this`newPrice
      ensures Valid()
      ensures newPrice == Pos.AdjustedPriceText(old(newPrice), value)
    {
      newPrice := Pos.AdjustedPriceText(newPrice, value);
    }

    /** The "−100" button next to a menu of the selected category. */
    method PriceDownClick(itemId: int)
      requires Valid()
      modifies this`menuItems
      ensures Valid()
      ensures menuItems == old(menuItems)[selectedCategory :=
        MapPrice(old(menuItems)[selectedCategory], itemId, PriceDown)]
    {
      menuItems := menuItems[selectedCategory := MapPrice(menuItems[selectedCategory], itemId, PriceDown)];
    }

    /** The "+100" button next to a menu of the selected category. */
    method PriceUpClick(itemId: int)
      requires Valid()
      modifies this`menuItems
      ensures Valid()
      ensures menuItems == old(menuItems)[selectedCategory :=
        MapPrice(old(menuItems)[selectedCategory], itemId, PriceUp)]
    {
      menuItems := menuItems[selectedCategory := MapPrice(menuItems[selectedCategory], itemId, PriceUp)];
    }

    /** Typing a price next to a menu of the selected category. */
    method PriceTyped(itemId: int, text: string)
      requires Valid()
      modifies this`menuItems
      ensures Valid()
      ensures menuItems == old(menuItems)[selectedCategory :=
        MapPrice(old(menuItems)[selectedCategory], itemId, (_: Price) => TypedPrice(text))]
    {
      menuItems := menuItems[selectedCategory :=
        MapPrice(menuItems[selectedCategory], itemId, (_: Price) => TypedPrice(text))];
    }
  }
}
