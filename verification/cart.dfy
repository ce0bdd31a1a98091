/** The cart ("order items") of the POS screens: lines merged by menu
    name when a menu is clicked, raised, lowered and removed by line id,
    and the grand total shown next to the payment button. Both the current
    POS page and the legacy one implement these rules the same way. */
module Cart {
  import opened Base

  /** One cart line: `total` is the line amount kept next to the unit
      price and the quantity. */
  datatype CartLine = CartLine(id: int, name: string, price: int, quantity: int, total: int)

  /** Every line that the cart operations produce has a positive quantity
      and a total equal to quantity times unit price. */
  predicate LineOk(l: CartLine)
  {
    l.quantity >= 1 && l.total == l.quantity * l.price
  }

  /** A clicked menu never gets a second line: names are distinct. */
  predicate NamesDistinct(c: seq<CartLine>)
  {
    forall i, j :: 0 <= i < j < |c| ==> c[i].name != c[j].name
  }

  /** The invariant of the cart. */
  predicate CartOk(c: seq<CartLine>)
  {
    (forall i :: 0 <= i < |c| ==> LineOk(c[i])) && NamesDistinct(c)
  }

  predicate HasName(c: seq<CartLine>, name: string)
  {
    exists i :: 0 <= i < |c| && c[i].name == name
  }

  /** One more of a line, with its total recomputed. */
  function Bump(l: CartLine): (r: CartLine)
    ensures r.id == l.id && r.name == l.name && r.price == l.price
    ensures r.quantity == l.quantity + 1
    ensures LineOk(l) ==> LineOk(r) && r.total == l.total + l.price
  {
    l.(quantity := l.quantity + 1, total := (l.quantity + 1) * l.price)
  }

  /** One less of a line, with its total recomputed. */
  function Drop(l: CartLine): (r: CartLine)
    ensures r.id == l.id && r.name == l.name && r.price == l.price
    ensures r.quantity == l.quantity - 1
    ensures LineOk(l) ==> r.total == l.total - l.price && (r.quantity > 0 ==> LineOk(r))
  {
    l.(quantity := l.quantity - 1, total := (l.quantity - 1) * l.price)
  }

  /** The fresh line a first click on a menu adds. */
  function NewLine(id: int, name: string, price: int): (r: CartLine)
    ensures LineOk(r) && r.quantity == 1 && r.total == price
  {
    CartLine(id, name, price, 1, price)
  }

  /** `handleMenuClick`: a menu whose name is already in the cart raises
      that line by one; any other menu is appended as a new line with
      quantity one. */
  function AddByName(c: seq<CartLine>, id: int, name: string, price: int): (r: seq<CartLine>)
    ensures HasName(c, name) ==>
      && |r| == |c|
      && (forall i :: 0 <= i < |c| && c[i].name == name ==> r[i] == Bump(c[i]))
      && (forall i :: 0 <= i < |c| && c[i].name != name ==> r[i] == c[i])
    ensures !HasName(c, name) ==>
      && |r| == |c| + 1
      && r[..|c|] == c
      && r[|c|] == CartLine(id, name, price, 1, price)
    ensures HasName(r, name)
    ensures CartOk(c) ==> CartOk(r)
  {
    if HasName(c, name) then
      var r := BumpName(c, name);
      assert forall i :: 0 <= i < |c| ==> r[i].name == c[i].name;
      r
    else
      var r := c + [NewLine(id, name, price)];
      assert forall i :: 0 <= i < |c| ==> r[i] == c[i];
      r
  }

  /** Every line with that name raised by one. */
  function BumpName(c: seq<CartLine>, name: string): (r: seq<CartLine>)
    ensures |r| == |c|
    ensures forall i :: 0 <= i < |c| && c[i].name == name ==> r[i] == Bump(c[i])
    ensures forall i :: 0 <= i < |c| && c[i].name != name ==> r[i] == c[i]
  {
    if c == [] then []
    else [if c[0].name == name then Bump(c[0]) else c[0]] + BumpName(c[1..], name)
  }

  /** `increaseQuantity`: every line with that id is raised by one. */
  function Increase(c: seq<CartLine>, id: int): (r: seq<CartLine>)
    ensures |r| == |c|
    ensures forall i :: 0 <= i < |c| && c[i].id == id ==> r[i] == Bump(c[i])
    ensures forall i :: 0 <= i < |c| && c[i].id != id ==> r[i] == c[i]
    ensures CartOk(c) ==> CartOk(r)
  {
    if c == [] then []
    else [if c[0].id == id then Bump(c[0]) else c[0]] + Increase(c[1..], id)
  }

  /** `decreaseQuantity`: every line with that id is lowered by one and a
      line that reaches zero leaves the cart. */
  function Decrease(c: seq<CartLine>, id: int): (r: seq<CartLine>)
    ensures |r| <= |c|
    ensures forall i :: 0 <= i < |r| ==> r[i].quantity > 0
  {
    if c == [] then [] else Lowered(c[0], id) + Decrease(c[1..], id)
  }

  /** What lowering the lines of `id` leaves of one line: the line itself
      when it carries another id, its lowered copy while the quantity stays
      positive, nothing otherwise. */
  function Lowered(l: CartLine, id: int): (r: seq<CartLine>)
    ensures |r| <= 1
    ensures forall i :: 0 <= i < |r| ==> r[i].quantity > 0 && r[i].name == l.name
  {
    var m := if l.id == id then Drop(l) else l;
    if m.quantity > 0 then [m] else []
  }

  /** `removeOrderItem`: the lines with that id leave the cart. */
  function Remove(c: seq<CartLine>, id: int): (r: seq<CartLine>)
    ensures |r| <= |c|
    ensures forall i :: 0 <= i < |r| ==> r[i].id != id && r[i] in c
  {
    if c == [] then []
    else (if c[0].id != id then [c[0]] else []) + Remove(c[1..], id)
  }

  /** `calculateTotal`: the sum of the line totals. */
  function GrandTotal(c: seq<CartLine>): (r: int)
    ensures (forall i :: 0 <= i < |c| ==> c[i].total >= 0) ==>
      r >= 0 && forall i :: 0 <= i < |c| ==> c[i].total <= r
  {
    if c == [] then 0
    else
      assert forall i :: 1 <= i < |c| ==> c[i] == c[1..][i - 1];
      c[0].total + GrandTotal(c[1..])
  }

  /** The item count shown in the order summary: the sum of quantities. */
  function QuantityCount(c: seq<CartLine>): (r: int)
    ensures (forall i :: 0 <= i < |c| ==> c[i].quantity >= 1) ==> r >= |c|
  {
    if c == [] then 0 else c[0].quantity + QuantityCount(c[1..])
  }

  /** What the cart is worth: the sum of quantity times unit price. */
  function Revenue(c: seq<CartLine>): int
  {
    if c == [] then 0 else c[0].quantity * c[0].price + Revenue(c[1..])
  }

  /** The sum of the unit prices of some lines. */
  function PriceSum(c: seq<CartLine>): int
  {
    if c == [] then 0 else c[0].price + PriceSum(c[1..])
  }

  function IdOf(l: CartLine): int { l.id }

  function NameOf(l: CartLine): string { l.name }

  /** The lines whose key (`IdOf` or `NameOf`) is `k`, in order. */
  ghost function LinesWith<K>(c: seq<CartLine>, key: CartLine -> K, k: K): (r: seq<CartLine>)
    ensures forall i :: 0 <= i < |r| ==> key(r[i]) == k && r[i] in c
  {
    if c == [] then []
    else (if key(c[0]) == k then [c[0]] else []) + LinesWith(c[1..], key, k)
  }

  lemma {:induction false} GrandTotalAppend(a: seq<CartLine>, b: seq<CartLine>)
    ensures GrandTotal(a + b) == GrandTotal(a) + GrandTotal(b)
    ensures QuantityCount(a + b) == QuantityCount(a) + QuantityCount(b)
  {
    if a == [] {
      assert a + b == b;
    } else {
      assert (a + b)[1..] == a[1..] + b;
      GrandTotalAppend(a[1..], b);
    }
  }

  /** The grand total of a cart that keeps its invariant is what its
      lines are worth. */
  lemma {:induction false} GrandTotalIsRevenue(c: seq<CartLine>)
    requires forall i :: 0 <= i < |c| ==> LineOk(c[i])
    ensures GrandTotal(c) == Revenue(c)
  {
    if c != [] {
      GrandTotalIsRevenue(c[1..]);
    }
  }

  /** Lowering keeps the invariant. */
  lemma {:induction false} DecreaseKeepsCartOk(c: seq<CartLine>, id: int)
    requires CartOk(c)
    ensures CartOk(Decrease(c, id))
  {
    if c != [] {
      var rest := Decrease(c[1..], id);
      DecreaseKeepsCartOk(c[1..], id);
      NamesOfDecrease(c[1..], id);
      forall i | 0 <= i < |rest|
        ensures rest[i].name != c[0].name
      {
        var j :| 0 <= j < |c[1..]| && c[1..][j].name == rest[i].name;
        assert c[j + 1].name == rest[i].name;
      }
    }
  }

  /** `decreaseQuantity`'s own `map` step: the lines of that id lowered
      by one, every other line as it is. */
  function LowerIf(id: int): CartLine -> CartLine
  {
    (l: CartLine) => if l.id == id then Drop(l) else l
  }

  /** `decreaseQuantity`'s `filter` step: a line stays while its quantity
      is positive. */
  predicate InCart(l: CartLine)
  {
    l.quantity > 0
  }

  /** Lowering is the source's map-then-filter: every line of that id
      lowered, then the lines at zero dropped, the others kept in their
      order and number. In particular every line of another id and a
      lowered copy of each line of that id whose quantity stays positive
      are kept. */
  lemma {:induction false} DecreaseKeepsLines(c: seq<CartLine>, id: int)
    ensures Decrease(c, id) == Filter(Map(c, LowerIf(id)), InCart)
    ensures forall i :: 0 <= i < |c| && c[i].id != id && c[i].quantity > 0 ==> c[i] in Decrease(c, id)
    ensures forall i :: 0 <= i < |c| && c[i].id == id && c[i].quantity > 1 ==> Drop(c[i]) in Decrease(c, id)
  {
    if c != [] {
      DecreaseKeepsLines(c[1..], id);
      assert Map(c, LowerIf(id))[1..] == Map(c[1..], LowerIf(id));
      assert Decrease(c, id) == Lowered(c[0], id) + Decrease(c[1..], id);
    }
    var m := Map(c, LowerIf(id));
    forall i | 0 <= i < |c| && c[i].id != id && c[i].quantity > 0
      ensures c[i] in Decrease(c, id)
    {
      assert m[i] == c[i];
    }
    forall i | 0 <= i < |c| && c[i].id == id && c[i].quantity > 1
      ensures Drop(c[i]) in Decrease(c, id)
    {
      assert m[i] == Drop(c[i]);
    }
  }

  /** A line of that id with quantity one leaves no line for its menu. */
  lemma DecreaseDropsLast(c: seq<CartLine>, id: int, k: nat)
    requires CartOk(c) && k < |c| && c[k].id == id && c[k].quantity == 1
    ensures !HasName(Decrease(c, id), c[k].name)
  {
    DecreaseOmits(c, id, k);
  }

  lemma {:induction false} DecreaseOmits(c: seq<CartLine>, id: int, k: nat)
    requires NamesDistinct(c) && k < |c| && c[k].id == id && c[k].quantity == 1
    ensures forall i :: 0 <= i < |Decrease(c, id)| ==> Decrease(c, id)[i].name != c[k].name
  {
    var rest := Decrease(c[1..], id);
    assert Decrease(c, id) == Lowered(c[0], id) + rest;
    if k == 0 {
      NamesOfDecrease(c[1..], id);
      forall i | 0 <= i < |rest|
        ensures rest[i].name != c[0].name
      {
        var j :| 0 <= j < |c[1..]| && c[1..][j].name == rest[i].name;
        assert c[j + 1].name == rest[i].name;
      }
    } else {
      assert c[1..][k - 1] == c[k];
      DecreaseOmits(c[1..], id, k - 1);
      assert c[0].name != c[k].name;
    }
  }

  /** Lowering only keeps names the cart already had. */
  lemma {:induction false} NamesOfDecrease(c: seq<CartLine>, id: int)
    ensures forall i :: 0 <= i < |Decrease(c, id)| ==> HasName(c, Decrease(c, id)[i].name)
  {
    if c != [] {
      var rest := Decrease(c[1..], id);
      NamesOfDecrease(c[1..], id);
      assert Decrease(c, id) == Lowered(c[0], id) + rest;
      forall i | 0 <= i < |rest|
        ensures HasName(c, rest[i].name)
      {
        var j :| 0 <= j < |c[1..]| && c[1..][j].name == rest[i].name;
        assert c[j + 1].name == rest[i].name;
      }
    }
  }

  /** Removing keeps the invariant. */
  lemma {:induction false} RemoveKeepsCartOk(c: seq<CartLine>, id: int)
    requires CartOk(c)
    ensures CartOk(Remove(c, id))
  {
    if c != [] {
      var rest := Remove(c[1..], id);
      RemoveKeepsCartOk(c[1..], id);
      if c[0].id != id {
        var r := [c[0]] + rest;
        assert Remove(c, id) == r;
        forall i | 0 <= i < |rest|
          ensures rest[i].name != c[0].name
        {
          var j :| 0 <= j < |c[1..]| && c[1..][j] == rest[i];
          assert c[j + 1] == rest[i];
        }
        forall i, j | 0 <= i < j < |r|
          ensures r[i].name != r[j].name
        {
          assert r[j] == rest[j - 1];
          if i > 0 {
            assert r[i] == rest[i - 1];
          }
        }
        forall i | 0 <= i < |r|
          ensures LineOk(r[i])
        {
          if i > 0 {
            assert r[i] == rest[i - 1];
          }
        }
      }
    }
  }

  /** `removeOrderItem`'s `filter` test: a line of another id stays. */
  function OtherId(id: int): CartLine -> bool
  {
    (l: CartLine) => l.id != id
  }

  /** Removing is the source's `filter`: every line of another id is kept,
      in its order and number. */
  lemma {:induction false} RemoveKeepsOthers(c: seq<CartLine>, id: int)
    ensures Remove(c, id) == Filter(c, OtherId(id))
    ensures forall i :: 0 <= i < |c| && c[i].id != id ==> c[i] in Remove(c, id)
  {
    if c != [] {
      RemoveKeepsOthers(c[1..], id);
    }
  }

  /** Raising the lines of an id adds one per such line to the item count
      and their unit prices to the grand total. */
  lemma {:induction false} IncreaseTotals(c: seq<CartLine>, id: int)
    requires forall i :: 0 <= i < |c| ==> LineOk(c[i])
    ensures QuantityCount(Increase(c, id)) == QuantityCount(c) + |LinesWith(c, IdOf, id)|
    ensures GrandTotal(Increase(c, id)) == GrandTotal(c) + PriceSum(LinesWith(c, IdOf, id))
  {
    if c != [] {
      IncreaseTotals(c[1..], id);
      var r := Increase(c, id);
      assert r[1..] == Increase(c[1..], id);
      if c[0].id == id {
        assert LinesWith(c, IdOf, id)[1..] == LinesWith(c[1..], IdOf, id);
      } else {
        assert LinesWith(c, IdOf, id) == LinesWith(c[1..], IdOf, id);
      }
    }
  }

  /** Lowering the lines of an id removes one per such line from the item
      count and their unit prices from the grand total, whether or not a
      line leaves the cart. */
  lemma {:induction false} DecreaseTotals(c: seq<CartLine>, id: int)
    requires forall i :: 0 <= i < |c| ==> LineOk(c[i])
    ensures QuantityCount(Decrease(c, id)) == QuantityCount(c) - |LinesWith(c, IdOf, id)|
    ensures GrandTotal(Decrease(c, id)) == GrandTotal(c) - PriceSum(LinesWith(c, IdOf, id))
  {
    if c != [] {
      DecreaseTotals(c[1..], id);
      var rest := Decrease(c[1..], id);
      assert Decrease(c, id) == Lowered(c[0], id) + rest;
      GrandTotalAppend(Lowered(c[0], id), rest);
      LoweredTotals(c[0], id);
      if c[0].id == id {
        assert LinesWith(c, IdOf, id) == [c[0]] + LinesWith(c[1..], IdOf, id);
        assert ([c[0]] + LinesWith(c[1..], IdOf, id))[1..] == LinesWith(c[1..], IdOf, id);
      } else {
        assert LinesWith(c, IdOf, id) == LinesWith(c[1..], IdOf, id);
      }
    }
  }

  /** What one line contributes to the sums after lowering. */
  lemma LoweredTotals(l: CartLine, id: int)
    requires LineOk(l)
    ensures QuantityCount(Lowered(l, id)) == l.quantity - (if l.id == id then 1 else 0)
    ensures GrandTotal(Lowered(l, id)) == l.total - (if l.id == id then l.price else 0)
  {
    var r := Lowered(l, id);
    if r != [] {
      assert r[1..] == [];
    }
  }

  /** Removing the lines of an id takes exactly their quantities and
      totals out of the sums. */
  lemma {:induction false} RemoveTotals(c: seq<CartLine>, id: int)
    ensures QuantityCount(Remove(c, id)) == QuantityCount(c) - QuantityCount(LinesWith(c, IdOf, id))
    ensures GrandTotal(Remove(c, id)) == GrandTotal(c) - GrandTotal(LinesWith(c, IdOf, id))
  {
    if c != [] {
      RemoveTotals(c[1..], id);
      if c[0].id == id {
        assert Remove(c, id) == Remove(c[1..], id);
        assert LinesWith(c, IdOf, id)[1..] == LinesWith(c[1..], IdOf, id);
      } else {
        assert Remove(c, id)[1..] == Remove(c[1..], id);
        assert LinesWith(c, IdOf, id) == LinesWith(c[1..], IdOf, id);
      }
    }
  }

  /** Raising the lines of a name adds one per such line to the item count
      and their unit prices to the grand total. */
  lemma {:induction false} BumpNameTotals(c: seq<CartLine>, name: string)
    requires forall i :: 0 <= i < |c| ==> LineOk(c[i])
    ensures QuantityCount(BumpName(c, name)) == QuantityCount(c) + |LinesWith(c, NameOf, name)|
    ensures GrandTotal(BumpName(c, name)) == GrandTotal(c) + PriceSum(LinesWith(c, NameOf, name))
  {
    if c != [] {
      BumpNameTotals(c[1..], name);
      assert BumpName(c, name)[1..] == BumpName(c[1..], name);
      if c[0].name == name {
        assert LinesWith(c, NameOf, name)[1..] == LinesWith(c[1..], NameOf, name);
      } else {
        assert LinesWith(c, NameOf, name) == LinesWith(c[1..], NameOf, name);
      }
    }
  }

  /** A key no line carries has no lines. */
  lemma {:induction false} NoLinesWith<K>(c: seq<CartLine>, key: CartLine -> K, k: K)
    requires forall j :: 0 <= j < |c| ==> key(c[j]) != k
    ensures LinesWith(c, key, k) == []
  {
    if c != [] {
      NoLinesWith(c[1..], key, k);
    }
  }

  /** When no other line shares `c[i]`'s key, the lines of that key are
      exactly `c[i]`. */
  lemma {:induction false} UniqueLinesWith<K>(c: seq<CartLine>, key: CartLine -> K, i: nat)
    requires i < |c|
    requires forall j :: 0 <= j < |c| && j != i ==> key(c[j]) != key(c[i])
    ensures LinesWith(c, key, key(c[i])) == [c[i]]
  {
    if i == 0 {
      NoLinesWith(c[1..], key, key(c[0]));
    } else {
      assert c[1..][i - 1] == c[i];
      UniqueLinesWith(c[1..], key, i - 1);
    }
  }

  /** A click raises the item count by exactly one and the grand total by
      exactly the unit price of the clicked menu's line: the price the cart
      already holds when the menu is in it, the clicked price otherwise. */
  lemma ClickTotals(c: seq<CartLine>, id: int, name: string, price: int)
    requires CartOk(c)
    ensures QuantityCount(AddByName(c, id, name, price)) == QuantityCount(c) + 1
    ensures HasName(c, name) ==>
      exists k :: 0 <= k < |c| && c[k].name == name
        && GrandTotal(AddByName(c, id, name, price)) == GrandTotal(c) + c[k].price
    ensures !HasName(c, name) ==> GrandTotal(AddByName(c, id, name, price)) == GrandTotal(c) + price
  {
    if HasName(c, name) {
      var k :| 0 <= k < |c| && c[k].name == name;
      ClickExistingTotals(c, k, id, price);
    } else {
      var l := NewLine(id, name, price);
      assert AddByName(c, id, name, price) == c + [l];
      GrandTotalAppend(c, [l]);
      assert QuantityCount([l]) == 1 && GrandTotal([l]) == price;
    }
  }

  lemma ClickExistingTotals(c: seq<CartLine>, k: nat, id: int, price: int)
    requires CartOk(c) && k < |c|
    ensures QuantityCount(AddByName(c, id, c[k].name, price)) == QuantityCount(c) + 1
    ensures GrandTotal(AddByName(c, id, c[k].name, price)) == GrandTotal(c) + c[k].price
  {
    var name := c[k].name;
    assert HasName(c, name);
    assert AddByName(c, id, name, price) == BumpName(c, name);
    BumpNameTotals(c, name);
    forall j | 0 <= j < |c| && j != k
      ensures NameOf(c[j]) != NameOf(c[k])
    {
      if j < k {
        assert c[j].name != c[k].name;
      } else {
        assert c[k].name != c[j].name;
      }
    }
    UniqueLinesWith(c, NameOf, k);
    assert PriceSum([c[k]]) == c[k].price;
  }

  /** With line ids distinct, raising or lowering a line moves the item
      count by one and the grand total by the line's unit price. */
  lemma LineStepTotals(c: seq<CartLine>, k: nat)
    requires CartOk(c) && k < |c|
    requires forall j :: 0 <= j < |c| && j != k ==> c[j].id != c[k].id
    ensures QuantityCount(Increase(c, c[k].id)) == QuantityCount(c) + 1
    ensures GrandTotal(Increase(c, c[k].id)) == GrandTotal(c) + c[k].price
    ensures QuantityCount(Decrease(c, c[k].id)) == QuantityCount(c) - 1
    ensures GrandTotal(Decrease(c, c[k].id)) == GrandTotal(c) - c[k].price
  {
    IncreaseTotals(c, c[k].id);
    DecreaseTotals(c, c[k].id);
    UniqueLinesWith(c, IdOf, k);
  }
}
